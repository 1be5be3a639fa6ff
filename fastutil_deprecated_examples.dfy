/** Calls from the DoNotUseDeprecatedFastutilMethod test resources, and the
    `BooleanList.set` call the `set` table misses. */
module FastutilDeprecatedExamples {
  import opened Ascii
  import opened JavaTypes
  import opened Trees
  import opened Diagnostics
  import opened FastutilDeprecated

  function Named(name: string): JType
  {
    JType(DECLARED, name, name, [], {name, "java.lang.Object"}, None)
  }

  const IntType := JType(INT, "int", "int", [], {}, None)
  const Integer := Named("java.lang.Integer")
  const ObjectType := Named("java.lang.Object")

  /** A fastutil list type of family `f`, with its interfaces. */
  function ListType(f: Family): JType
  {
    var name := FamilyType(f, "List");
    JType(DECLARED, name, name, [],
      {name, FamilyType(f, "Collection"), FamilyType(f, "Iterable"), "java.util.List", "java.lang.Object"}, None)
  }

  function OnIntList(name: string, params: seq<JType>): MethodRef
  {
    MethodRef(false, FamilyType(Ints, "List"), name, Some(ListType(Ints)), params)
  }

  /** `INT_LIST.contains(Integer.valueOf(1))` resolves to `contains(Object)`. */
  lemma BoxedContainsReported(t: JType)
    ensures Match(OnIntList("contains", [ObjectType]), t) == Finding(Summary, None)
  {
    var c := OnIntList("contains", [ObjectType]);
    assert FamilyType(Ints, "Iterable") in FastutilIterable;
    assert Matches(DeprecatedGeneric[0], c);
    assert InTable(DeprecatedTables(DeprecatedSet)[2], c);
  }

  /** `INT_LIST.set(0, Integer.valueOf(4))`. */
  lemma BoxedSetReported(t: JType)
    ensures Match(OnIntList("set", [IntType, Integer]), t) == Finding(Summary, None)
  {
    SetFlaggedForEveryFamily(Ints, OnIntList("set", [IntType, Integer]), t);
  }

  /** `INT_LIST.set(0, 4)`: the type-specific `set(int, int)`. */
  lemma PrimitiveSetAccepted(t: JType)
    ensures Match(OnIntList("set", [IntType, IntType]), t) == NoMatch
  {
    var c := OnIntList("set", [IntType, IntType]);
    OnlySetTableHasSet(DeprecatedSet, c);
    forall i | 0 <= i < |DeprecatedSet|
      ensures !Matches(DeprecatedSet[i], c)
    {
      assert c.parameterTypes[1].name != Boxed(AllFamilies[i]);
    }
  }

  /** `booleans.set(0, Boolean.TRUE)` on a `BooleanList`: missed as written. */
  lemma BooleanSetMissedAsWritten(t: JType)
    ensures MatchAsWritten(MethodRef(false, FamilyType(Booleans, "List"), "set", Some(ListType(Booleans)),
                                     [IntType, Named("java.lang.Boolean")]), t) == NoMatch
  {
    var c := MethodRef(false, FamilyType(Booleans, "List"), "set", Some(ListType(Booleans)), [IntType, Named("java.lang.Boolean")]);
    forall f | f != Booleans
      ensures !IsSubtypeOf(c.receiverType, FamilyType(f, "List"))
    {
      TagOfFamilyType(f, "List");
      if FamilyType(f, "List") == FamilyType(Booleans, "List") {
        FamilyTypeDeterminesFamily(f, Booleans, "List", "List");
      } else if FamilyType(f, "List") == FamilyType(Booleans, "Collection") {
        FamilyTypeDeterminesFamily(f, Booleans, "List", "Collection");
      } else if FamilyType(f, "List") == FamilyType(Booleans, "Iterable") {
        FamilyTypeDeterminesFamily(f, Booleans, "List", "Iterable");
      }
    }
    BooleanListSetMissedAsWritten(c, t);
  }

  /** The same call, reported once the table lists `set(int, Boolean)`. */
  lemma BooleanSetReported(t: JType)
    ensures Match(MethodRef(false, FamilyType(Booleans, "List"), "set", Some(ListType(Booleans)),
                            [IntType, Named("java.lang.Boolean")]), t) == Finding(Summary, None)
  {
    SetFlaggedForEveryFamily(Booleans, MethodRef(false, FamilyType(Booleans, "List"), "set", Some(ListType(Booleans)),
                                                 [IntType, Named("java.lang.Boolean")]), t);
  }

  /** An `Int2ObjectMap<String>`, a fastutil `Function` that is not object-to-object. */
  const Int2ObjectMap := JType(DECLARED, "it.unimi.dsi.fastutil.ints.Int2ObjectMap",
    "it.unimi.dsi.fastutil.ints.Int2ObjectMap<java.lang.String>", [Named("java.lang.String")],
    {"it.unimi.dsi.fastutil.ints.Int2ObjectMap", "it.unimi.dsi.fastutil.ints.Int2ObjectFunction",
     "it.unimi.dsi.fastutil.Function", "java.util.Map", "java.lang.Object"}, None)

  /** The type of `entrySet()` on a map from `key` to `value`: `ObjectSet<Map.Entry<K, V>>`. */
  function EntrySetType(key: JType, value: JType): JType
  {
    var entry := JType(DECLARED, "java.util.Map.Entry", "java.util.Map.Entry", [key, value],
      {"java.util.Map.Entry", "java.lang.Object"}, None);
    JType(DECLARED, "it.unimi.dsi.fastutil.objects.ObjectSet", "it.unimi.dsi.fastutil.objects.ObjectSet",
      [entry], {"it.unimi.dsi.fastutil.objects.ObjectSet", "java.lang.Object"}, None)
  }

  /** `entrySet` is none of the deprecated names. */
  lemma EntrySetNotDeprecated(c: MethodRef)
    requires c.name == "entrySet"
    ensures !IsDeprecated(DeprecatedTables(DeprecatedSet), c)
  {
    forall f: Family
      ensures c.name != "to" + Prefix(f) + "Array"
    {
      assert ("to" + Prefix(f) + "Array")[0] == 't';
    }
    assert c.name !in TableNames;
    DeprecatedNames(c);
  }

  /** The fix is named after the entry's key and value types. */
  lemma EntrySetTypeName(key: JType, value: JType)
    ensures EntrySetName(EntrySetType(key, value)) == Some(EntrySetFuncName(key.text, value.text))
  {
  }

  /** `String` is not a listed box and counts as `Object`. */
  lemma StringIsObject(s: string)
    requires s == "java.lang.String"
    ensures Abbr(s) == "Object"
  {
  }

  /** The fix named for a map from `Integer` to `String`. */
  lemma Int2ObjectName(key: string, value: string, expected: string)
    requires key == "java.lang.Integer" && value == "java.lang.String"
    requires expected == "int2ObjectEntrySet"
    ensures EntrySetFuncName(key, value) == expected
  {
    assert Lower("Int") == "int" by {
      assert Lower("Int"[1..]) == "nt";
    }
    assert Abbr(key) == "Int";
    StringIsObject(value);
    assert "int" + "2" + "Object" + "EntrySet" == expected;
  }

  /** `map.entrySet()` on an `Int2ObjectMap<String>` is reported, with
      `int2ObjectEntrySet` as the fix. */
  lemma Int2ObjectEntrySetReported(expected: string)
    requires expected == "int2ObjectEntrySet"
    ensures Match(MethodRef(false, Int2ObjectMap.name, "entrySet", Some(Int2ObjectMap), []),
                  EntrySetType(Integer, Named("java.lang.String")))
            == Finding(EntrySetMessage, Some(expected))
  {
    var c := MethodRef(false, Int2ObjectMap.name, "entrySet", Some(Int2ObjectMap), []);
    EntrySetNotDeprecated(c);
    assert !OnObject2Object(c);
    Int2ObjectName("java.lang.Integer", "java.lang.String", expected);
    EntrySetTypeName(Integer, Named("java.lang.String"));
    EntrySetFix(c, EntrySetType(Integer, Named("java.lang.String")));
  }

  /** The same call on an `Object2ObjectMap`, whose `entrySet` is not deprecated. */
  lemma Object2ObjectEntrySetAccepted(t: JType)
    requires IsSubtypeOf(Some(t), "it.unimi.dsi.fastutil.objects.Object2ObjectFunction")
    ensures Match(MethodRef(false, t.name, "entrySet", Some(t), []), EntrySetType(ObjectType, ObjectType)) == NoMatch
  {
    var c := MethodRef(false, t.name, "entrySet", Some(t), []);
    EntrySetNotDeprecated(c);
  }
}

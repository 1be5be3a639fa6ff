/**
  DoNotUseDeprecatedFastutilMethod: fastutil's type-specific collections keep the
  boxed methods of the JDK interfaces they implement (`contains(Object)`,
  `add(Integer)`, `stream()`, `entrySet()`, ...) only as deprecated bridges. A call
  to one of them is reported; `entrySet()` on a primitive-keyed or primitive-valued
  map also gets a fix renaming it to the type-specific `int2ObjectEntrySet()` and so on.
*/
module FastutilDeprecated {
  import opened Ascii
  import opened JavaTypes
  import opened Trees
  import opened Diagnostics

  const Summary := "Use type-specific fastutil method instead."

  const EntrySetMessage := "Use type-specific fastutil entrySet method instead."

  // ---------------------------------------------------------------------------
  // The eight primitive families of fastutil

  datatype Family = Booleans | Bytes | Chars | Doubles | Floats | Ints | Longs | Shorts

  const AllFamilies: seq<Family> := [Booleans, Bytes, Chars, Doubles, Floats, Ints, Longs, Shorts]

  /** The family's package under `it.unimi.dsi.fastutil`. */
  function Package(f: Family): string
  {
    match f
    case Booleans => "booleans"
    case Bytes => "bytes"
    case Chars => "chars"
    case Doubles => "doubles"
    case Floats => "floats"
    case Ints => "ints"
    case Longs => "longs"
    case Shorts => "shorts"
  }

  /** The prefix of the family's class names (`IntList`, `CharSet`). */
  function Prefix(f: Family): string
  {
    match f
    case Booleans => "Boolean"
    case Bytes => "Byte"
    case Chars => "Char"
    case Doubles => "Double"
    case Floats => "Float"
    case Ints => "Int"
    case Longs => "Long"
    case Shorts => "Short"
  }

  /** The box of the family's primitive. */
  function Boxed(f: Family): string
  {
    match f
    case Booleans => "java.lang.Boolean"
    case Bytes => "java.lang.Byte"
    case Chars => "java.lang.Character"
    case Doubles => "java.lang.Double"
    case Floats => "java.lang.Float"
    case Ints => "java.lang.Integer"
    case Longs => "java.lang.Long"
    case Shorts => "java.lang.Short"
  }

  /** The family's primitive type. */
  function Primitive(f: Family): string
  {
    match f
    case Booleans => "boolean"
    case Bytes => "byte"
    case Chars => "char"
    case Doubles => "double"
    case Floats => "float"
    case Ints => "int"
    case Longs => "long"
    case Shorts => "short"
  }

  /** The qualified name of one of the family's interfaces, e.g.
      `it.unimi.dsi.fastutil.ints.IntIterable` for `FamilyType(Ints, "Iterable")`. */
  function FamilyType(f: Family, suffix: string): string
  {
    "it.unimi.dsi.fastutil." + Package(f) + "." + Prefix(f) + suffix
  }

  /** `FASTUTIL_ITERABLE`, `FASTUTIL_COLLECTION`, `FASTUTIL_LIST` and `FASTUTIL_SET`:
      the interface `suffix` of every family. */
  function AllFamilyTypes(suffix: string): (r: set<string>)
    ensures forall f :: FamilyType(f, suffix) in r
  {
    {FamilyType(Booleans, suffix), FamilyType(Bytes, suffix), FamilyType(Chars, suffix),
     FamilyType(Doubles, suffix), FamilyType(Floats, suffix), FamilyType(Ints, suffix),
     FamilyType(Longs, suffix), FamilyType(Shorts, suffix)}
  }

  // ---------------------------------------------------------------------------
  // Method patterns: `instanceMethod().onDescendantOfAny(..).named..(..).withParametersOfType(..)`

  /** No parameter constraint, or the erased names of exactly these parameter types
      (an array type is named by its element type followed by `[]`). */
  datatype Params = AnyParams | Exactly(types: seq<string>)

  /** An instance method on a subtype of one of `receivers`, with one of `names`. */
  datatype MethodPattern = MethodPattern(receivers: set<string>, names: set<string>, params: Params)

  predicate ParamsMatch(ps: Params, actual: seq<JType>)
  {
    match ps
    case AnyParams => true
    case Exactly(types) => |actual| == |types| && forall i :: 0 <= i < |actual| ==> actual[i].name == types[i]
  }

  /** `onDescendantOfAny(receivers)`: the receiver's type is below one of them. */
  predicate OnDescendantOfAny(c: MethodRef, receivers: set<string>)
  {
    exists r :: r in receivers && IsSubtypeOf(c.receiverType, r)
  }

  predicate Matches(p: MethodPattern, c: MethodRef)
  {
    !c.isStatic && OnDescendantOfAny(c, p.receivers) && c.name in p.names && ParamsMatch(p.params, c.parameterTypes)
  }

  /** `anyOf` over a table. */
  predicate InTable(table: seq<MethodPattern>, c: MethodRef)
  {
    exists i :: 0 <= i < |table| && Matches(table[i], c)
  }

  /** One pattern per family, in family order. */
  function PerFamily(make: Family -> MethodPattern): (r: seq<MethodPattern>)
    ensures |r| == |AllFamilies|
    ensures forall i :: 0 <= i < |r| ==> r[i] == make(AllFamilies[i])
  {
    seq(|AllFamilies|, i requires 0 <= i < |AllFamilies| => make(AllFamilies[i]))
  }

  // ---------------------------------------------------------------------------
  // The tables

  const FastutilIterable := AllFamilyTypes("Iterable")
  const FastutilCollection := AllFamilyTypes("Collection")
  const FastutilList := AllFamilyTypes("List")
  const FastutilSet := AllFamilyTypes("Set")

  const DeprecatedGeneric: seq<MethodPattern> := [
    MethodPattern(FastutilIterable, {"contains", "indexOf", "remove", "lastIndexOf"}, Exactly(["java.lang.Object"])),
    MethodPattern(FastutilIterable, {"get"}, AnyParams)]

  /** `add(Boxed)` and `add(int, Boxed)` of each family. */
  const DeprecatedAdd: seq<MethodPattern> :=
    PerFamily(f => MethodPattern({FamilyType(f, "Iterable")}, {"add"}, Exactly([Boxed(f)])))
    + PerFamily(f => MethodPattern({FamilyType(f, "Iterable")}, {"add"}, Exactly(["int", Boxed(f)])))

  const DeprecatedForEach: seq<MethodPattern> :=
    [MethodPattern(FastutilIterable, {"forEach"}, Exactly(["java.util.function.Consumer"]))]

  const DeprecatedParallelStream: seq<MethodPattern> :=
    [MethodPattern(FastutilCollection, {"parallelStream"}, AnyParams)]

  const DeprecatedRemove: seq<MethodPattern> :=
    [MethodPattern(FastutilList, {"remove"}, AnyParams), MethodPattern(FastutilSet, {"rem"}, AnyParams)]

  const DeprecatedRemoveIf: seq<MethodPattern> :=
    [MethodPattern(FastutilCollection, {"removeIf"}, Exactly(["java.util.function.Predicate"]))]

  const DeprecatedReplaceAll: seq<MethodPattern> :=
    [MethodPattern(FastutilIterable, {"replaceAll"}, Exactly(["java.util.function.UnaryOperator"]))]

  /** `set` as the table lists it: `set(int, Boxed)`, except `set(java.lang.Boolean)`
      for the boolean family, a signature `BooleanList` does not have. */
  function SetPatternAsWritten(f: Family): MethodPattern
  {
    MethodPattern({FamilyType(f, "List")}, {"set"},
      if f == Booleans then Exactly([Boxed(f)]) else Exactly(["int", Boxed(f)]))
  }

  /** `set(int, Boxed)` for every family. */
  function SetPattern(f: Family): MethodPattern
  {
    MethodPattern({FamilyType(f, "List")}, {"set"}, Exactly(["int", Boxed(f)]))
  }

  const DeprecatedSetAsWritten: seq<MethodPattern> := PerFamily(SetPatternAsWritten)

  const DeprecatedSet: seq<MethodPattern> := PerFamily(SetPattern)

  const DeprecatedSort: seq<MethodPattern> :=
    [MethodPattern(FastutilIterable, {"sort", "unstableSort"}, Exactly(["java.util.Comparator"]))]

  const DeprecatedStream: seq<MethodPattern> := [MethodPattern(FastutilCollection, {"stream"}, AnyParams)]

  /** `toIntArray(int[])` and so on, on each family's collection. */
  const DeprecatedToArray: seq<MethodPattern> :=
    PerFamily(f => MethodPattern({FamilyType(f, "Collection")}, {"to" + Prefix(f) + "Array"}, Exactly([Primitive(f) + "[]"])))

  /** `DEPRECATED_METHOD`, with the `set` table as given. */
  function DeprecatedTables(setTable: seq<MethodPattern>): seq<seq<MethodPattern>>
  {
    [DeprecatedAdd, DeprecatedForEach, DeprecatedGeneric, DeprecatedParallelStream, DeprecatedRemove,
     DeprecatedRemoveIf, DeprecatedReplaceAll, setTable, DeprecatedSort, DeprecatedStream, DeprecatedToArray]
  }

  predicate IsDeprecated(tables: seq<seq<MethodPattern>>, c: MethodRef)
  {
    exists k :: 0 <= k < |tables| && InTable(tables[k], c)
  }

  /** `DEPRECATED_ENTRYSET`: `entrySet` on any fastutil map (every one is a `Function`). */
  predicate IsEntrySetCall(c: MethodRef)
  {
    !c.isStatic && IsSubtypeOf(c.receiverType, "it.unimi.dsi.fastutil.Function") && c.name == "entrySet"
  }

  /** The negation of `NOT_OBJECT_2_OBJECT_MAP`: the receiver is an object-to-object map,
      whose `entrySet` is not deprecated. */
  predicate OnObject2Object(c: MethodRef)
  {
    !c.isStatic && IsSubtypeOf(c.receiverType, "it.unimi.dsi.fastutil.objects.Object2ObjectFunction")
  }

  // ---------------------------------------------------------------------------
  // The entry-set name

  /** `TYPE_ABBR`. */
  const TypeAbbr: map<string, string> := map[
    "java.lang.Boolean" := "Boolean",
    "java.lang.Byte" := "Byte",
    "java.lang.Character" := "Char",
    "java.lang.Double" := "Double",
    "java.lang.Float" := "Float",
    "java.lang.Integer" := "Int",
    "java.lang.Long" := "Long",
    "java.lang.Reference" := "Reference",
    "java.lang.Short" := "Short"]

  /** `TYPE_ABBR.getOrDefault(name, "Object")`. */
  function Abbr(name: string): (r: string)
    ensures Capitalized(r)
    ensures r == "Object" <==> name !in TypeAbbr
  {
    if name in TypeAbbr then TypeAbbr[name] else "Object"
  }

  /** The name built from the key and value type names. The key's abbreviation is
      lower-cased, the value's is kept. */
  function EntrySetFuncName(left: string, right: string): (r: string)
    ensures |r| == |Abbr(left)| + 1 + |Abbr(right)| + 8
    ensures IsLower(r[0])
    ensures r[|Abbr(left)|] == '2' && '2' !in r[..|Abbr(left)|]
    ensures r[|Abbr(left)| + 1..|r| - 8] == Abbr(right) && r[|r| - 8..] == "EntrySet"
  {
    LowerAt(Abbr(left), 0);
    LowerCapitalizedHasNoDigit(Abbr(left));
    Lower(Abbr(left)) + "2" + Abbr(right) + "EntrySet"
  }

  /**
    `getTypeSpecificEntrySetFuncName` on the type of the call, `ObjectSet<Map.Entry<K, V>>`:
    `K` and `V` are the type parameters of its first type parameter, named by their
    `toString()`. `None` stands for the IndexOutOfBoundsException raised when the
    type has fewer parameters (a raw type).
  */
  function EntrySetName(objectSet: JType): (r: Option<string>)
    ensures r.Some? <==> |objectSet.args| >= 1 && |objectSet.args[0].args| >= 2
    ensures r.Some? ==> r.value == EntrySetFuncName(objectSet.args[0].args[0].text, objectSet.args[0].args[1].text)
  {
    if |objectSet.args| == 0 then None
    else
      var mapEntry := objectSet.args[0];
      if |mapEntry.args| < 2 then None
      else Some(EntrySetFuncName(mapEntry.args[0].text, mapEntry.args[1].text))
  }

  // ---------------------------------------------------------------------------
  // The rule

  /** `matchMethodInvocation` with a given `set` table, on the resolved method and the
      type of the call. The deprecated-method tables are consulted first. */
  function Decide(setTable: seq<MethodPattern>, c: MethodRef, resultType: JType): (r: Description)
    ensures IsDeprecated(DeprecatedTables(setTable), c) ==> r == Finding(Summary, None)
    ensures !IsDeprecated(DeprecatedTables(setTable), c) ==>
      (r == NoMatch <==> !IsEntrySetCall(c) || OnObject2Object(c))
    ensures r.Thrown? ==> r.exception == "IndexOutOfBoundsException" && EntrySetName(resultType).None?
    ensures !IsDeprecated(DeprecatedTables(setTable), c) && IsEntrySetCall(c) && !OnObject2Object(c) ==>
      r == (if EntrySetName(resultType).Some? then Finding(EntrySetMessage, EntrySetName(resultType))
            else Thrown("IndexOutOfBoundsException"))
  {
    if IsDeprecated(DeprecatedTables(setTable), c) then Finding(Summary, None)
    else if IsEntrySetCall(c) && !OnObject2Object(c) then
      match EntrySetName(resultType)
      case None => Thrown("IndexOutOfBoundsException")
      case Some(name) => Finding(EntrySetMessage, Some(name))
    else NoMatch
  }

  /** The rule as written, with its `set` table. */
  function MatchAsWritten(c: MethodRef, resultType: JType): (r: Description)
    ensures IsDeprecated(DeprecatedTables(DeprecatedSetAsWritten), c) ==> r == Finding(Summary, None)
    ensures !IsDeprecated(DeprecatedTables(DeprecatedSetAsWritten), c) ==>
      (r == NoMatch <==> !IsEntrySetCall(c) || OnObject2Object(c))
    ensures r.Thrown? ==> r.exception == "IndexOutOfBoundsException" && EntrySetName(resultType).None?
    ensures !IsDeprecated(DeprecatedTables(DeprecatedSetAsWritten), c) && IsEntrySetCall(c) && !OnObject2Object(c) ==>
      r == (if EntrySetName(resultType).Some? then Finding(EntrySetMessage, EntrySetName(resultType))
            else Thrown("IndexOutOfBoundsException"))
  {
    Decide(DeprecatedSetAsWritten, c, resultType)
  }

  /** The rule with `set(int, Boolean)` for `BooleanList`. */
  function Match(c: MethodRef, resultType: JType): (r: Description)
    ensures IsDeprecated(DeprecatedTables(DeprecatedSet), c) ==> r == Finding(Summary, None)
    ensures !IsDeprecated(DeprecatedTables(DeprecatedSet), c) ==>
      (r == NoMatch <==> !IsEntrySetCall(c) || OnObject2Object(c))
    ensures r.Thrown? ==> r.exception == "IndexOutOfBoundsException" && EntrySetName(resultType).None?
    ensures !IsDeprecated(DeprecatedTables(DeprecatedSet), c) && IsEntrySetCall(c) && !OnObject2Object(c) ==>
      r == (if EntrySetName(resultType).Some? then Finding(EntrySetMessage, EntrySetName(resultType))
            else Thrown("IndexOutOfBoundsException"))
  {
    Decide(DeprecatedSet, c, resultType)
  }

  // ---------------------------------------------------------------------------
  // Properties of the entry-set name

  /** The abbreviation of each box is the prefix of the family's class names. */
  lemma AbbrOfBoxed(f: Family)
    ensures Abbr(Boxed(f)) == Prefix(f)
  {
    match f
    case Booleans =>
    case Bytes =>
    case Chars =>
    case Doubles =>
    case Floats =>
    case Ints =>
    case Longs =>
    case Shorts =>
  }

  /** For boxed keys and values the fix names fastutil's own method for the map's
      families, `int2ObjectEntrySet` style: lower-case key prefix, `2`, value prefix. */
  lemma EntrySetNameOfFamilies(f: Family, g: Family)
    ensures EntrySetFuncName(Boxed(f), Boxed(g)) == Lower(Prefix(f)) + "2" + Prefix(g) + "EntrySet"
  {
    AbbrOfBoxed(f);
    AbbrOfBoxed(g);
  }

  /** A type that is not a listed box (a `String`, a user class) counts as `Object`,
      on either side. */
  lemma UnlistedIsObject(left: string, right: string)
    requires left !in TypeAbbr && right !in TypeAbbr
    ensures EntrySetFuncName(left, right) == "object2ObjectEntrySet"
  {
    var o := Abbr(left);
    ObjectLowered(o);
    assert Abbr(right) == o;
  }

  lemma ObjectLowered(o: string)
    requires o == "Object"
    ensures Lower(o) == "object"
  {
    assert Lower(o[5..]) == "t";
    assert Lower(o[4..]) == "ct";
    assert Lower(o[3..]) == "ect";
    assert Lower(o[2..]) == "ject";
    assert Lower(o[1..]) == "bject";
  }

  /** An upper-case letter followed by lower-case letters, as every abbreviation is. */
  predicate Capitalized(s: string)
  {
    |s| > 0 && IsUpper(s[0]) && forall i :: 1 <= i < |s| ==> IsLower(s[i])
  }

  /** Lower-casing loses nothing on capitalized words. */
  lemma LowerCapitalizedInjective(s: string, t: string)
    requires Capitalized(s) && Capitalized(t) && Lower(s) == Lower(t)
    ensures s == t
  {
    forall i | 0 <= i < |s|
      ensures s[i] == t[i]
    {
      LowerAt(s, i);
      LowerAt(t, i);
    }
  }

  /** Lower-casing a capitalized word yields letters only, so no `2`. */
  lemma LowerCapitalizedHasNoDigit(s: string)
    requires Capitalized(s)
    ensures '2' !in Lower(s)
  {
    forall i | 0 <= i < |s|
      ensures Lower(s)[i] != '2'
    {
      LowerAt(s, i);
    }
  }

  /** Where the shorter of two prefixes ends, the longer one has the separator. */
  lemma SeparatorAt(x: string, y: string, u: string, v: string)
    requires x + "2" + y == u + "2" + v && |x| < |u|
    ensures u[|x|] == '2'
  {
    assert (x + "2" + y)[|x|] == '2';
  }

  /** Splitting at the first `2`. */
  lemma SplitAtTwo(x: string, y: string, u: string, v: string)
    requires '2' !in x && '2' !in u && x + "2" + y == u + "2" + v
    ensures x == u && y == v
  {
    if |x| < |u| {
      SeparatorAt(x, y, u, v);
    } else if |u| < |x| {
      SeparatorAt(u, v, x, y);
    }
    var w := x + "2" + y;
    assert x == w[..|x|] && u == w[..|u|];
    assert y == w[|x| + 1..] && v == w[|u| + 1..];
  }

  /** The decomposition of a name of that shape is unique. */
  lemma NameShapeInjective(ka: string, kb: string, kc: string, kd: string)
    requires Capitalized(ka) && Capitalized(kc)
    requires Lower(ka) + "2" + kb + "EntrySet" == Lower(kc) + "2" + kd + "EntrySet"
    ensures ka == kc && kb == kd
  {
    LowerCapitalizedHasNoDigit(ka);
    LowerCapitalizedHasNoDigit(kc);
    var y := kb + "EntrySet";
    var v := kd + "EntrySet";
    assert Lower(ka) + "2" + kb + "EntrySet" == Lower(ka) + "2" + y;
    assert Lower(kc) + "2" + kd + "EntrySet" == Lower(kc) + "2" + v;
    SplitAtTwo(Lower(ka), y, Lower(kc), v);
    LowerCapitalizedInjective(ka, kc);
    assert kb == y[..|y| - 8] && kd == v[..|v| - 8];
  }

  /** The fix's name tells the key's and the value's abbreviations apart: two maps
      get the same name only when their key and value abbreviations agree. */
  lemma EntrySetFuncNameInjective(a: string, b: string, c: string, d: string)
    requires EntrySetFuncName(a, b) == EntrySetFuncName(c, d)
    ensures Abbr(a) == Abbr(c) && Abbr(b) == Abbr(d)
  {
    NameShapeInjective(Abbr(a), Abbr(b), Abbr(c), Abbr(d));
  }

  // ---------------------------------------------------------------------------
  // Properties of the rule

  /** The position of a family in `AllFamilies`. */
  function IndexOf(f: Family): (i: nat)
    ensures i < |AllFamilies| && AllFamilies[i] == f
  {
    match f
    case Booleans => 0
    case Bytes => 1
    case Chars => 2
    case Doubles => 3
    case Floats => 4
    case Ints => 5
    case Longs => 6
    case Shorts => 7
  }

  /** A deprecated method is reported with the summary and no fix, even when it is
      also an `entrySet` call. */
  lemma DeprecatedComesFirst(c: MethodRef, t: JType)
    requires IsDeprecated(DeprecatedTables(DeprecatedSet), c)
    ensures Match(c, t) == Finding(Summary, None)
  {
  }

  /** `entrySet` on a primitive-keyed or primitive-valued map gets the rename fix;
      on an object-to-object map it is not reported. */
  lemma EntrySetFix(c: MethodRef, t: JType)
    requires IsEntrySetCall(c) && !IsDeprecated(DeprecatedTables(DeprecatedSet), c)
    ensures OnObject2Object(c) ==> Match(c, t) == NoMatch
    ensures !OnObject2Object(c) && EntrySetName(t).Some? ==>
      Match(c, t) == Finding(EntrySetMessage, Some(EntrySetName(t).value))
  {
  }

  /** `set(int, Boxed)` is reported on every family's list. */
  lemma SetFlaggedForEveryFamily(f: Family, c: MethodRef, t: JType)
    requires !c.isStatic && IsSubtypeOf(c.receiverType, FamilyType(f, "List")) && c.name == "set"
    requires ParamsMatch(Exactly(["int", Boxed(f)]), c.parameterTypes)
    ensures Match(c, t) == Finding(Summary, None)
  {
    var i := IndexOf(f);
    assert Matches(DeprecatedSet[i], c);
    assert InTable(DeprecatedTables(DeprecatedSet)[7], c);
  }

  /** The correction changes nothing for a receiver that is not a `BooleanList`. */
  lemma CorrectionOnlyAffectsBooleanList(c: MethodRef, t: JType)
    requires !IsSubtypeOf(c.receiverType, FamilyType(Booleans, "List"))
    ensures Match(c, t) == MatchAsWritten(c, t)
  {
    assert InTable(DeprecatedSet, c) <==> InTable(DeprecatedSetAsWritten, c) by {
      forall i | 0 <= i < |AllFamilies|
        ensures Matches(DeprecatedSet[i], c) <==> Matches(DeprecatedSetAsWritten[i], c)
      {
        if i == 0 {
          assert !OnDescendantOfAny(c, DeprecatedSet[i].receivers);
          assert !OnDescendantOfAny(c, DeprecatedSetAsWritten[i].receivers);
        } else {
          assert DeprecatedSet[i] == DeprecatedSetAsWritten[i];
        }
      }
    }
    var ts := DeprecatedTables(DeprecatedSet);
    var ws := DeprecatedTables(DeprecatedSetAsWritten);
    assert IsDeprecated(ts, c) <==> IsDeprecated(ws, c) by {
      forall k | 0 <= k < |ts|
        ensures InTable(ts[k], c) <==> InTable(ws[k], c)
      {
        if k != 7 {
          assert ts[k] == ws[k];
        }
      }
    }
  }

  /** The family whose package starts with the two characters `a`, `b`. */
  function FamilyOfTag(a: char, b: char): Family
  {
    if a == 'b' then (if b == 'o' then Booleans else Bytes)
    else if a == 'c' then Chars
    else if a == 'd' then Doubles
    else if a == 'f' then Floats
    else if a == 'i' then Ints
    else if a == 'l' then Longs
    else Shorts
  }

  lemma TagOfPackage(f: Family)
    ensures |Package(f)| >= 2 && FamilyOfTag(Package(f)[0], Package(f)[1]) == f
  {
    match f
    case Booleans =>
    case Bytes =>
    case Chars =>
    case Doubles =>
    case Floats =>
    case Ints =>
    case Longs =>
    case Shorts =>
  }

  /** Characters 22 and 23 of a family type are the start of the family's package. */
  lemma TagOfFamilyType(f: Family, s: string)
    ensures |FamilyType(f, s)| >= 24
    ensures FamilyOfTag(FamilyType(f, s)[22], FamilyType(f, s)[23]) == f
  {
    TagOfPackage(f);
    var base := "it.unimi.dsi.fastutil.";
    var rest := Package(f) + "." + Prefix(f) + s;
    assert FamilyType(f, s) == base + rest;
    assert rest[0] == Package(f)[0] && rest[1] == Package(f)[1];
  }

  /** The package part of a family type names the family. */
  lemma FamilyTypeDeterminesFamily(f: Family, g: Family, s: string, t: string)
    requires FamilyType(f, s) == FamilyType(g, t)
    ensures f == g
  {
    TagOfFamilyType(f, s);
    TagOfFamilyType(g, t);
  }

  /** Only the `set` table has a method named `set`. */
  lemma OnlySetTableHasSet(setTable: seq<MethodPattern>, c: MethodRef)
    requires c.name == "set"
    ensures IsDeprecated(DeprecatedTables(setTable), c) <==> InTable(setTable, c)
  {
    assert !InTable(DeprecatedAdd, c);
    assert !InTable(DeprecatedForEach, c);
    assert !InTable(DeprecatedGeneric, c);
    assert !InTable(DeprecatedParallelStream, c);
    assert !InTable(DeprecatedRemove, c);
    assert !InTable(DeprecatedRemoveIf, c);
    assert !InTable(DeprecatedReplaceAll, c);
    assert !InTable(DeprecatedSort, c);
    assert !InTable(DeprecatedStream, c);
    assert !InTable(DeprecatedToArray, c) by {
      forall i | 0 <= i < |DeprecatedToArray|
        ensures c.name !in DeprecatedToArray[i].names
      {
        var n := "to" + Prefix(AllFamilies[i]) + "Array";
        assert DeprecatedToArray[i].names == {n};
        assert n[0] == 't';
      }
    }
    var ts := DeprecatedTables(setTable);
    assert InTable(setTable, c) ==> InTable(ts[7], c);
  }

  /** As written, `set(int, Boolean)` on a `BooleanList` slips through: no table,
      including the `set` one, lists it, and it is no `entrySet` call. */
  lemma BooleanListSetMissedAsWritten(c: MethodRef, t: JType)
    requires !c.isStatic && c.name == "set"
    requires ParamsMatch(Exactly(["int", Boxed(Booleans)]), c.parameterTypes)
    requires forall f :: f != Booleans ==> !IsSubtypeOf(c.receiverType, FamilyType(f, "List"))
    ensures MatchAsWritten(c, t) == NoMatch
  {
    OnlySetTableHasSet(DeprecatedSetAsWritten, c);
    forall i | 0 <= i < |DeprecatedSetAsWritten|
      ensures !Matches(DeprecatedSetAsWritten[i], c)
    {
      if i > 0 {
        assert !IsSubtypeOf(c.receiverType, FamilyType(AllFamilies[i], "List"));
      }
    }
  }

  /** The method names the tables list, besides `to<Prefix>Array`. */
  const TableNames: set<string> := {
    "add", "forEach", "contains", "indexOf", "remove", "lastIndexOf", "get", "parallelStream",
    "rem", "removeIf", "replaceAll", "set", "sort", "unstableSort", "stream"}

  predicate IsToArrayName(name: string)
  {
    exists f :: name == "to" + Prefix(f) + "Array"
  }

  /** A call found in a table has one of the names the table lists. */
  lemma NameInTable(table: seq<MethodPattern>, c: MethodRef, names: set<string>)
    requires InTable(table, c)
    requires forall i :: 0 <= i < |table| ==> table[i].names <= names
    ensures c.name in names
  {
  }

  /** A call found in the `k`-th table has one of the listed names. */
  lemma NameAt(c: MethodRef, k: nat)
    requires k < 11 && InTable(DeprecatedTables(DeprecatedSet)[k], c)
    ensures c.name in TableNames || IsToArrayName(c.name)
  {
    var ts := DeprecatedTables(DeprecatedSet);
    if k == 0 {
      assert ts[0] == DeprecatedAdd;
      NameInTable(DeprecatedAdd, c, {"add"});
    } else if k == 1 {
      assert ts[1] == DeprecatedForEach;
      NameInTable(DeprecatedForEach, c, {"forEach"});
    } else if k == 2 {
      assert ts[2] == DeprecatedGeneric;
      NameInTable(DeprecatedGeneric, c, {"contains", "indexOf", "remove", "lastIndexOf", "get"});
    } else if k == 3 {
      assert ts[3] == DeprecatedParallelStream;
      NameInTable(DeprecatedParallelStream, c, {"parallelStream"});
    } else if k == 4 {
      assert ts[4] == DeprecatedRemove;
      NameInTable(DeprecatedRemove, c, {"remove", "rem"});
    } else if k == 5 {
      assert ts[5] == DeprecatedRemoveIf;
      NameInTable(DeprecatedRemoveIf, c, {"removeIf"});
    } else if k == 6 {
      assert ts[6] == DeprecatedReplaceAll;
      NameInTable(DeprecatedReplaceAll, c, {"replaceAll"});
    } else if k == 7 {
      assert ts[7] == DeprecatedSet;
      NameInTable(DeprecatedSet, c, {"set"});
    } else if k == 8 {
      assert ts[8] == DeprecatedSort;
      NameInTable(DeprecatedSort, c, {"sort", "unstableSort"});
    } else if k == 9 {
      assert ts[9] == DeprecatedStream;
      NameInTable(DeprecatedStream, c, {"stream"});
    } else {
      assert ts[10] == DeprecatedToArray;
      var i :| 0 <= i < |DeprecatedToArray| && Matches(DeprecatedToArray[i], c);
      assert DeprecatedToArray[i].names == {"to" + Prefix(AllFamilies[i]) + "Array"};
    }
  }

  /** Only the listed names are ever reported as deprecated, so type-specific methods
      such as `removeInt`, `getInt`, `intStream` or `int2ObjectEntrySet` never are. */
  lemma DeprecatedNames(c: MethodRef)
    ensures IsDeprecated(DeprecatedTables(DeprecatedSet), c) ==> c.name in TableNames || IsToArrayName(c.name)
  {
    var ts := DeprecatedTables(DeprecatedSet);
    if IsDeprecated(ts, c) {
      var k :| 0 <= k < |ts| && InTable(ts[k], c);
      NameAt(c, k);
    }
  }
}

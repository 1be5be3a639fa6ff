/** Creations from the UseFastutil test resources. */
module UseFastutilExamples {
  import opened JavaTypes
  import opened Trees
  import opened Diagnostics
  import opened UseFastutil

  /** A boxed primitive such as `java.lang.Integer`, which unboxes to `kind`. */
  function Box(name: string, kind: TypeKind): JType
  {
    JType(DECLARED, name, name, [], {name, "java.lang.Object"}, Some(kind))
  }

  const Integer := Box("java.lang.Integer", INT)
  const Boolean := Box("java.lang.Boolean", BOOLEAN)

  /** `java.lang.String`, for which javac's unboxed type is the NONE type. */
  const JString := JType(DECLARED, "java.lang.String", "java.lang.String", [], {"java.lang.String", "java.lang.Object"}, Some(NONE))

  function Generic(name: string, args: seq<JType>): JType
  {
    JType(DECLARED, name, name, args, {name, "java.lang.Object"}, None)
  }

  /** `List<Integer> list_of_ints = List.of(1, 2, 3);` and the same with `Set.of`. */
  lemma ListOfInts()
    ensures MatchMethodInvocation(MethodRef(true, "java.util.List", "of", None, []),
                                  Generic("java.util.List", [Integer])) == Finding(Summary, None)
    ensures MatchMethodInvocation(MethodRef(true, "java.util.Set", "of", None, []),
                                  Generic("java.util.Set", [Integer])) == Finding(Summary, None)
  {
  }

  /** `Map<String, Integer> str_to_int = Map.of("1", 1, "2", 2, "3", 3);` */
  lemma MapOfStringToInt()
    ensures MatchMethodInvocation(MethodRef(true, "java.util.Map", "of", None, []),
                                  Generic("java.util.Map", [JString, Integer])) == Finding(Summary, None)
  {
  }

  /** `List<Boolean> bools = new ArrayList<>();` */
  lemma NewArrayListOfBooleans()
    ensures MatchNewClass("java.util.ArrayList", Generic("java.util.ArrayList", [Boolean])) == Finding(Summary, None)
  {
  }

  /** `Map<Boolean, String> bool_to_str = new HashMap<>();` and the reverse. */
  lemma NewHashMapEitherSide()
    ensures MatchNewClass("java.util.HashMap", Generic("java.util.HashMap", [Boolean, JString])) == Finding(Summary, None)
    ensures MatchNewClass("java.util.HashMap", Generic("java.util.HashMap", [JString, Boolean])) == Finding(Summary, None)
  {
    MapWithOneBoxFlagged("java.util.HashMap", Generic("java.util.HashMap", [Boolean, JString]), Boolean, JString);
    MapWithOneBoxFlagged("java.util.HashMap", Generic("java.util.HashMap", [JString, Boolean]), JString, Boolean);
  }

  /** A map of strings to strings has no box to specialise. */
  lemma NewHashMapOfStrings()
    ensures MatchNewClass("java.util.HashMap", Generic("java.util.HashMap", [JString, JString])) == NoMatch
  {
  }
}

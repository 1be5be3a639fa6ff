/**
  UseFastutil: a JDK collection whose element type, or a map whose key or value type,
  is a boxed primitive (`List<Integer>`, `Map<String, Long>`), created by a
  constructor or by a `List.of`/`Set.of`/`Map.of`/`Map.ofEntries` factory, should be
  a fastutil specialisation.
*/
module UseFastutil {
  import opened Ascii
  import opened JavaTypes
  import opened Trees
  import opened Diagnostics

  const Summary := "Use the fastutil equivalent for better performance."

  /** Classes whose constructors are checked as single-element collections. */
  const NewListClasses: set<string> := {
    "java.util.ArrayList", "java.util.HashSet", "java.util.LinkedHashSet",
    "java.util.LinkedList", "java.util.Stack", "java.util.TreeSet"}

  /** Classes whose constructors are checked as maps. */
  const NewMapClasses: set<string> :=
    {"java.util.HashMap", "java.util.IdentityHashMap", "java.util.LinkedHashMap", "java.util.TreeMap"}

  /** `staticMethod().onClass("java.util.List").named("of")` or the same on `java.util.Set`. */
  predicate IsListOf(callee: MethodRef)
  {
    callee.isStatic && callee.owner in {"java.util.List", "java.util.Set"} && callee.name == "of"
  }

  /** `staticMethod().onClass("java.util.Map").named("of")` or `.named("ofEntries")`. */
  predicate IsMapOf(callee: MethodRef)
  {
    callee.isStatic && callee.owner == "java.util.Map" && callee.name in {"of", "ofEntries"}
  }

  /** `isPrimitive`: javac's unboxed type exists and is not the NONE type,
      which is what it returns for a type that is not a box. */
  predicate IsPrimitive(t: JType)
  {
    t.unboxed.Some? && t.unboxed.value != NONE
  }

  /** The finding condition of `checkList`. */
  predicate ListFlagged(resultType: JType)
  {
    |resultType.args| == 1 && IsPrimitive(resultType.args[0])
  }

  /** The finding condition of `checkMap`: exactly two type arguments, one of them a box. */
  predicate MapFlagged(resultType: JType)
  {
    |resultType.args| == 2 && exists i :: 0 <= i < 2 && IsPrimitive(resultType.args[i])
  }

  /** `checkList`, on the type of the created collection. */
  function CheckList(resultType: JType): (r: Description)
    ensures r == NoMatch || r == Finding(Summary, None)
    ensures r.Finding? <==> ListFlagged(resultType)
  {
    var args := resultType.args;
    if |args| == 1 && IsPrimitive(args[0]) then Finding(Summary, None) else NoMatch
  }

  /** `checkMap`: the loop over the two type arguments stops at the first box. */
  function CheckMap(resultType: JType): (r: Description)
    ensures r == NoMatch || r == Finding(Summary, None)
    ensures r.Finding? <==> MapFlagged(resultType)
  {
    var args := resultType.args;
    if |args| == 2 then
      if IsPrimitive(args[0]) then Finding(Summary, None)
      else if IsPrimitive(args[1]) then Finding(Summary, None)
      else NoMatch
    else NoMatch
  }

  /** `matchNewClass`: `new C<...>(...)` with the class `C` the constructor belongs to
      and the type of the new object. The list classes are tried first. */
  function MatchNewClass(constructedClass: string, resultType: JType): (r: Description)
    ensures r == NoMatch || r == Finding(Summary, None)
    ensures r.Finding? <==>
      (constructedClass in NewListClasses && ListFlagged(resultType)) ||
      (constructedClass in NewMapClasses && MapFlagged(resultType))
  {
    if constructedClass in NewListClasses then CheckList(resultType)
    else if constructedClass in NewMapClasses then CheckMap(resultType)
    else NoMatch
  }

  /** `matchMethodInvocation`: a call with the method it resolves to and its result type.
      The list factories are tried first. */
  function MatchMethodInvocation(callee: MethodRef, resultType: JType): (r: Description)
    ensures r == NoMatch || r == Finding(Summary, None)
    ensures r.Finding? <==>
      (IsListOf(callee) && ListFlagged(resultType)) || (IsMapOf(callee) && MapFlagged(resultType))
  {
    if IsListOf(callee) then CheckList(resultType)
    else if IsMapOf(callee) then CheckMap(resultType)
    else NoMatch
  }

  // ---------------------------------------------------------------------------
  // Properties

  /** No constructor and no factory is both a list and a map one, so the order in
      which the two matchers are tried never changes the outcome. */
  lemma ListAndMapMatchersDisjoint(constructedClass: string, callee: MethodRef)
    ensures !(constructedClass in NewListClasses && constructedClass in NewMapClasses)
    ensures !(IsListOf(callee) && IsMapOf(callee))
  {
  }

  /** A map is flagged whichever of key and value is the box. */
  lemma MapFlagSymmetric(cls: string, t: JType, k: JType, v: JType)
    requires t.args == [k, v]
    ensures MatchNewClass(cls, t) == MatchNewClass(cls, t.(args := [v, k]))
  {
    var u := t.(args := [v, k]);
    assert MapFlagged(t) <==> IsPrimitive(k) || IsPrimitive(v) by {
      assert t.args[0] == k && t.args[1] == v;
    }
    assert MapFlagged(u) <==> IsPrimitive(k) || IsPrimitive(v) by {
      assert u.args[0] == v && u.args[1] == k;
    }
  }

  /** A map with a boxed key or value is flagged, `Map<Integer, String>` and
      `Map<String, Integer>` alike. */
  lemma MapWithOneBoxFlagged(cls: string, t: JType, k: JType, v: JType)
    requires cls in NewMapClasses && t.args == [k, v]
    requires IsPrimitive(k) || IsPrimitive(v)
    ensures MatchNewClass(cls, t) == Finding(Summary, None)
  {
    if !IsPrimitive(k) {
      assert IsPrimitive(t.args[1]);
    } else {
      assert IsPrimitive(t.args[0]);
    }
  }

  /** A single-element collection of a box is flagged, whether it is created by a
      listed constructor or by `List.of`/`Set.of`. */
  lemma ListWithBoxFlagged(cls: string, callee: MethodRef, t: JType, e: JType)
    requires t.args == [e] && IsPrimitive(e)
    ensures cls in NewListClasses ==> MatchNewClass(cls, t) == Finding(Summary, None)
    ensures IsListOf(callee) ==> MatchMethodInvocation(callee, t) == Finding(Summary, None)
  {
    assert IsPrimitive(t.args[0]);
  }

  /** A map of two non-boxes, and a raw collection, are never flagged. */
  lemma NoBoxNoFinding(cls: string, t: JType)
    requires forall i :: 0 <= i < |t.args| ==> !IsPrimitive(t.args[i])
    ensures MatchNewClass(cls, t) == NoMatch
  {
  }

  const FastutilPackage := "it.unimi.dsi.fastutil."

  /** No class or factory of fastutil itself is flagged. */
  lemma FastutilNeverFlagged(cls: string, callee: MethodRef, t: JType)
    requires StartsWith(cls, FastutilPackage)
    requires StartsWith(callee.owner, FastutilPackage)
    ensures MatchNewClass(cls, t) == NoMatch
    ensures MatchMethodInvocation(callee, t) == NoMatch
  {
    assert cls[0] == 'i' by { assert cls[..|FastutilPackage|] == FastutilPackage; }
    assert callee.owner[0] == 'i' by {
      assert callee.owner[..|FastutilPackage|] == FastutilPackage;
    }
  }
}

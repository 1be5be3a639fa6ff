/**
  ReturnsPrivateMutable: a public method that returns one of its object's private
  fields, when both the field and the method's return type are of a well-known
  mutable type, hands callers a way to change the object's state.
*/
module ReturnsPrivateMutable {
  import opened Ascii
  import opened JavaTypes
  import opened Trees
  import opened Diagnostics

  /** The well-known mutable types, by erased qualified name (34 of them). */
  const MutableTypes: set<string> := {
    "com.google.common.collect.BiMap",
    "com.google.common.collect.ListMultimap",
    "com.google.common.collect.Multimap",
    "com.google.common.collect.Multiset",
    "com.google.common.collect.RangeMap",
    "com.google.common.collect.RangeSet",
    "com.google.common.collect.SetMultimap",
    "com.google.common.collect.SortedMultiset",
    "com.google.common.collect.Table",
    "com.google.common.util.concurrent.AtomicDouble",
    "com.google.protobuf.util.FieldMaskUtil.MergeOptions",
    "java.lang.Iterable",
    "java.text.DateFormat",
    "java.util.ArrayList",
    "java.util.BitSet",
    "java.util.Calendar",
    "java.util.Collection",
    "java.util.EnumMap",
    "java.util.EnumSet",
    "java.util.HashMap",
    "java.util.HashSet",
    "java.util.List",
    "java.util.Map",
    "java.util.NavigableMap",
    "java.util.NavigableSet",
    "java.util.Random",
    "java.util.Set",
    "java.util.TreeMap",
    "java.util.TreeSet",
    "java.util.Vector",
    "java.util.concurrent.atomic.AtomicBoolean",
    "java.util.concurrent.atomic.AtomicLong",
    "java.util.concurrent.atomic.AtomicReference",
    "java.util.logging.Logger"}

  /** javax.lang.model.element.ElementKind, as far as the checker distinguishes it. */
  datatype ElementKind = FIELD | LOCAL_VARIABLE | PARAMETER | OTHER_ELEMENT

  /** The symbol an expression refers to: what it is and its modifiers. */
  datatype Symbol = Symbol(kind: ElementKind, flags: set<Modifier>)

  /** The returned expression: its symbol (`None` when it has none, as for a call)
      and its type. */
  datatype Returned = Returned(symbol: Option<Symbol>, exprType: Option<JType>)

  /** `MUTABLE_TYPE`: `isSameType` against one of the names, erasures compared. */
  predicate IsMutableType(t: Option<JType>)
  {
    exists name :: name in MutableTypes && IsSameType(t, name)
  }

  /** `hasModifier(PRIVATE)`. */
  predicate IsPrivate(e: Returned)
  {
    e.symbol.Some? && PRIVATE in e.symbol.value.flags
  }

  /** `isInstanceField()`: a field that is not static. */
  predicate IsInstanceField(e: Returned)
  {
    e.symbol.Some? && e.symbol.value.kind == FIELD && STATIC !in e.symbol.value.flags
  }

  /** `PRIVATE_MUTABLE_INSTANCE_FIELD`. */
  predicate IsPrivateMutableInstanceField(e: Returned)
  {
    IsPrivate(e) && IsMutableType(e.exprType) && IsInstanceField(e)
  }

  /** `PUBLIC_METHOD_RETURNS_MUTABLE`; a constructor has no return type. */
  predicate IsPublicMethodReturningMutable(m: Tree)
    requires m.kind.Method?
  {
    m.kind.isPublic && IsMutableType(m.kind.returnType)
  }

  function Message(methodName: string, returnTypeText: string): string
  {
    "Public method (" + methodName + ") returns mutable (" + returnTypeText + ") private field."
  }

  /**
    `matchReturn` on the path of `return e;`. The method is looked for exactly two
    levels up (return, its block, the method), so a return nested in an `if` or a
    loop is not examined; a path too short for that dereferences a null parent.
  */
  function MatchReturn(path: Path, e: Returned): (r: Description)
    ensures r.Finding? <==>
      IsPrivateMutableInstanceField(e) && |path| >= 3 && path[2].kind.Method?
      && IsPublicMethodReturningMutable(path[2])
    ensures r.Finding? ==> r == Finding(Message(path[2].kind.name, path[2].kind.returnTypeText), None)
    ensures r.Thrown? <==> IsPrivateMutableInstanceField(e) && |path| < 3
    ensures r.Thrown? ==> r.exception == "NullPointerException"
  {
    if !IsPrivateMutableInstanceField(e) then NoMatch
    else if |path| < 3 then Thrown("NullPointerException")
    else
      var maybeMethod := path[2];
      if !maybeMethod.kind.Method? then NoMatch
      else if !IsPublicMethodReturningMutable(maybeMethod) then NoMatch
      else Finding(Message(maybeMethod.kind.name, maybeMethod.kind.returnTypeText), None)
  }

  // ---------------------------------------------------------------------------
  // Properties

  /** A type is mutable exactly when its erased name is listed: a type below a
      listed one (`LinkedList` below `List`) is not. */
  lemma MutableByName(t: JType)
    ensures IsMutableType(Some(t)) <==> t.name in MutableTypes
  {
    if t.name in MutableTypes {
      assert IsSameType(Some(t), t.name);
    }
  }

  /** The message names the method and shows its declared return type. */
  lemma MessageNamesMethodAndType(methodName: string, returnTypeText: string)
    ensures Contains(Message(methodName, returnTypeText), methodName)
    ensures Contains(Message(methodName, returnTypeText), returnTypeText)
  {
    var m := Message(methodName, returnTypeText);
    var p := "Public method (";
    assert m == p + methodName + ") returns mutable (" + returnTypeText + ") private field.";
    assert m[|p|..|p| + |methodName|] == methodName;
    ContainsAt(m, methodName, |p|);
    var q := p + methodName + ") returns mutable (";
    assert m == q + returnTypeText + ") private field.";
    assert m[|q|..|q| + |returnTypeText|] == returnTypeText;
    ContainsAt(m, returnTypeText, |q|);
  }

  /** Only the grandparent of the return is consulted: the block in between and
      everything above the method can be anything. */
  lemma OnlyGrandparentMatters(p: Path, q: Path, e: Returned)
    requires |p| >= 3 && |q| >= 3 && p[2] == q[2]
    ensures MatchReturn(p, e) == MatchReturn(q, e)
  {
  }

  /** A return one block deeper (inside an `if` or a loop) is never reported. */
  lemma NestedReturnNotExamined(path: Path, e: Returned)
    requires |path| >= 3 && !path[2].kind.Method?
    ensures !MatchReturn(path, e).Finding?
  {
  }

  /** A field that is public, static, or of a type not listed is never reported,
      whatever method returns it. */
  lemma FieldConditionsNecessary(path: Path, e: Returned)
    requires !IsPrivate(e) || !IsInstanceField(e) || e.exprType.None? || e.exprType.value.name !in MutableTypes
    ensures MatchReturn(path, e) == NoMatch
  {
    if e.exprType.Some? {
      MutableByName(e.exprType.value);
    }
  }
}

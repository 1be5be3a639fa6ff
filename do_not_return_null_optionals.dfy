/**
  DoNotReturnNullOptionals: a `return` in a method or lambda whose return type is an
  `Optional` must not return a value that may be null. The nullness of the returned
  expression comes from Error Prone's trusting nullness analysis and is an input here.
*/
module DoNotReturnNullOptionals {
  import opened Ascii
  import opened JavaTypes
  import opened Trees
  import opened Diagnostics

  /** The lattice values of Error Prone's Nullness. */
  datatype Nullness = NULLABLE | NULL | NONNULL | BOTTOM

  const Summary := "Do not return null optionals."

  const OptionalPrefix := "java.util.Optional<"

  /** The type's string form starts with `java.util.Optional<`. */
  predicate IsOptional(t: JType)
  {
    StartsWith(t.text, OptionalPrefix)
  }

  /** `getReturnType`: walks the path of the `return` upwards and stops at the first
      method (its declared return type) or lambda (its descriptor's return type). */
  method GetReturnType(path: Path) returns (t: Option<JType>)
    ensures t == EnclosingReturnType(path)
  {
    t := None;
    var i := 0;
    while i < |path|
      invariant 0 <= i <= |path|
      invariant forall j :: 0 <= j < i ==> !IsFunctionLike(path[j])
    {
      match path[i].kind {
        case Method(_, returnType, _, _) =>
          t := returnType;
          InnermostDecides(path, i);
          return;
        case LambdaExpression(descriptorReturnType) =>
          t := descriptorReturnType;
          InnermostDecides(path, i);
          return;
        case _ =>
      }
      i := i + 1;
    }
    NoEnclosingFunction(path);
  }

  /** `matchReturn` for a `return` whose path is `path` and whose expression has the
      given nullness. */
  function MatchReturn(path: Path, nullness: Nullness): (d: Description)
    ensures d.NoMatch? || d == Finding(Summary, None)
    ensures d.Finding? <==>
      EnclosingReturnType(path).Some? && IsOptional(EnclosingReturnType(path).value) && nullness != NONNULL
  {
    var returnType := EnclosingReturnType(path);
    if returnType.None? || !IsOptional(returnType.value) then NoMatch
    else if nullness == NONNULL then NoMatch
    else Finding(Summary, None)
  }

  /** Only the innermost method or lambda counts: a `return null` in a lambda that
      returns a non-Optional is accepted, whatever encloses the lambda. */
  lemma InnermostNonOptionalAccepted(path: Path, k: nat, nullness: Nullness)
    requires k < |path| && IsFunctionLike(path[k])
    requires forall j :: 0 <= j < k ==> !IsFunctionLike(path[j])
    requires FunctionReturnType(path[k]).None? || !IsOptional(FunctionReturnType(path[k]).value)
    ensures MatchReturn(path, nullness) == NoMatch
  {
    InnermostDecides(path, k);
  }

  /** A possibly-null value returned straight from an Optional-returning method is reported. */
  lemma NullFromOptionalMethodReported(path: Path, k: nat, nullness: Nullness)
    requires k < |path| && path[k].kind.Method?
    requires forall j :: 0 <= j < k ==> !IsFunctionLike(path[j])
    requires path[k].kind.returnType.Some? && IsOptional(path[k].kind.returnType.value)
    requires nullness != NONNULL
    ensures MatchReturn(path, nullness) == Finding(Summary, None)
  {
    InnermostDecides(path, k);
  }
}

/** Returns from the DoNotReturnNullOptionals test resources. */
module DoNotReturnNullOptionalsExamples {
  import opened Ascii
  import opened JavaTypes
  import opened Trees
  import opened Diagnostics
  import opened DoNotReturnNullOptionals

  function Declared(name: string, text: string): JType
  {
    JType(DECLARED, name, text, [], {name, "java.lang.Object"}, None)
  }

  /** `Optional<List<Integer>> anonFuncReturnsNull()`. */
  const OptionalMethod := Tree(10, Method("anonFuncReturnsNull",
    Some(Declared("java.util.Optional", OptionalPrefix + "java.util.List<java.lang.Integer>>")),
    "Optional<List<Integer>>", true))

  /** `n -> { if (n == 2) { return null; } return n; }`, a `Function<Integer, Integer>`. */
  const IntegerLambda := Tree(5, LambdaExpression(Some(Declared("java.lang.Integer", "java.lang.Integer"))))

  lemma OptionalText()
    ensures IsOptional(OptionalMethod.kind.returnType.value)
  {
    var rest := "java.util.List<java.lang.Integer>>";
    assert (OptionalPrefix + rest)[..|OptionalPrefix|] == OptionalPrefix;
  }

  /** The `return null` inside the lambda answers to the lambda, not to the method. */
  lemma NullInLambdaAccepted()
    ensures MatchReturn([Tree(1, Return), Tree(2, Block), Tree(3, Other), Tree(4, Block), IntegerLambda,
                         Tree(6, Other), Tree(7, Other), Tree(8, Return), Tree(9, Block), OptionalMethod], Nullness.NULL) == NoMatch
  {
    var path := [Tree(1, Return), Tree(2, Block), Tree(3, Other), Tree(4, Block), IntegerLambda,
                 Tree(6, Other), Tree(7, Other), Tree(8, Return), Tree(9, Block), OptionalMethod];
    InnermostNonOptionalAccepted(path, 4, Nullness.NULL);
  }

  /** The same `return null` placed directly in the method is reported. */
  lemma NullInMethodReported()
    ensures MatchReturn([Tree(1, Return), Tree(9, Block), OptionalMethod], Nullness.NULL) == Finding(Summary, None)
  {
    OptionalText();
    NullFromOptionalMethodReported([Tree(1, Return), Tree(9, Block), OptionalMethod], 2, Nullness.NULL);
  }

  /** `return Optional.of(3L);` is non-null. */
  lemma NonNullAccepted()
    ensures MatchReturn([Tree(1, Return), Tree(9, Block), OptionalMethod], NONNULL) == NoMatch
  {
  }
}

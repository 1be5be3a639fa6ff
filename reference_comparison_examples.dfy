/** Comparisons from the ReferenceComparison test resources. */
module ReferenceComparisonExamples {
  import opened JavaTypes
  import opened Trees
  import opened Diagnostics
  import opened ReferenceComparison

  function Declared(name: string, supers: set<string>): JType
  {
    JType(DECLARED, name, name, [], supers + {name, "java.lang.Object"}, None)
  }

  const ListOfIntegers := Declared("java.util.List", {"java.util.Collection"})
  const Bytes := Declared("com.google.common.primitives.Bytes", {})
  const TestEnum := Declared("tech.pegasys.tools.epchecks.ReferenceComparisonNegativeCases.TestEnum", {"java.lang.Enum"})
  const ClassType := Declared("java.lang.Class", {})

  /** A local variable or parameter used by name. */
  function Local(name: string, t: JType): Operand
  {
    Operand(Identifier(name), Some(t), false)
  }

  /** `a == b` on two `List<Integer>` parameters. */
  lemma IdentifiersReported()
    ensures MatchBinary(EQUAL_TO, Local("a", ListOfIntegers), Local("b", ListOfIntegers)) == Finding(Summary, None)
  {
  }

  /** `a == List.of(1, 2, 3)` and the same with the operands swapped. */
  lemma CallOperandReported()
    ensures MatchBinary(EQUAL_TO, Local("a", ListOfIntegers), Operand(OtherForm, Some(ListOfIntegers), false)) == Finding(Summary, None)
    ensures MatchBinary(EQUAL_TO, Operand(OtherForm, Some(ListOfIntegers), false), Local("b", ListOfIntegers)) == Finding(Summary, None)
  {
  }

  /** `TestEnum.A == TestEnum.B`: enum constants. */
  lemma EnumConstantsExempt()
    ensures MatchBinary(EQUAL_TO, Operand(OtherForm, Some(TestEnum), true), Operand(OtherForm, Some(TestEnum), true)) == NoMatch
  {
  }

  /** `a == b` on two `TestEnum` parameters: the type is below `java.lang.Enum`. */
  lemma EnumVariablesExempt()
    ensures MatchBinary(EQUAL_TO, Local("a", TestEnum), Local("b", TestEnum)) == NoMatch
  {
  }

  /** `this == o`. */
  lemma ThisExempt()
    ensures MatchBinary(EQUAL_TO, Operand(Identifier("this"), Some(Bytes), false), Local("o", Declared("java.lang.Object", {}))) == NoMatch
  {
  }

  /** `a == null`: the literal has the null type, which is not missing. */
  lemma NullExempt()
    ensures MatchBinary(EQUAL_TO, Local("a", Bytes), Operand(NullLiteral, Some(JType(NULL, "", "null", [], {}, None)), false)) == NoMatch
  {
  }

  /** `a == 27` with `Integer a`. */
  lemma PrimitiveExempt()
    ensures MatchBinary(EQUAL_TO, Local("a", Declared("java.lang.Integer", {})), Operand(OtherForm, Some(JType(INT, "int", "int", [], {}, None)), false)) == NoMatch
  {
  }

  /** `a.getClass() == b.getClass()`. */
  lemma ClassObjectsExempt()
    ensures MatchBinary(EQUAL_TO, Operand(OtherForm, Some(ClassType), false), Operand(OtherForm, Some(ClassType), false)) == NoMatch
  {
  }
}

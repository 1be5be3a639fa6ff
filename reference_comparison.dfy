/**
  ReferenceComparison: `==` or `!=` between two references, where `equals` was
  probably meant. Comparisons that are fine by reference are exempt: with a
  primitive (the box is unboxed), with `null`, with `this`, between enums and
  between `Class` objects.
*/
module ReferenceComparison {
  import opened JavaTypes
  import opened Trees
  import opened Diagnostics

  const Summary := "Reference comparison should be value comparison"

  /** The syntactic shape of an operand, as far as the checker looks at it. */
  datatype OperandForm = NullLiteral | Identifier(name: string) | OtherForm

  /**
    One operand of the comparison: its shape, its type (`getType`, `None` for null)
    and whether it has a symbol that is an enum class or an enum constant
    (`getSymbol(tree) != null && symbol.isEnum()`).
  */
  datatype Operand = Operand(form: OperandForm, opType: Option<JType>, symbolIsEnum: bool)

  /** `Type.isPrimitive()`; false for a missing type. */
  predicate IsPrimitive(t: Option<JType>)
  {
    t.Some? && IsPrimitiveKind(t.value.kind)
  }

  /** `isThis`: the identifier `this`. */
  predicate IsThis(o: Operand)
  {
    o.form.Identifier? && o.form.name == "this"
  }

  /** `isEnum`: an enum symbol, or a type below `java.lang.Enum`. */
  predicate IsEnum(o: Operand)
  {
    o.symbolIsEnum || IsSubtypeOf(o.opType, "java.lang.Enum")
  }

  /** One operand on its own exempts the comparison. */
  predicate Exempts(o: Operand)
  {
    IsPrimitive(o.opType) || o.form == NullLiteral || IsThis(o) || IsEnum(o)
    || IsSubtypeOf(o.opType, "java.lang.Class")
  }

  /** `matchBinary`: the guards in the order the checker applies them. */
  function MatchBinary(op: BinaryOp, left: Operand, right: Operand): (r: Description)
    ensures r == NoMatch || r == Finding(Summary, None)
    ensures r.Finding? <==>
      op in {EQUAL_TO, NOT_EQUAL_TO} && left.opType.Some? && right.opType.Some?
      && !Exempts(left) && !Exempts(right)
  {
    if op !in {EQUAL_TO, NOT_EQUAL_TO} then NoMatch
    else if left.opType.None? || right.opType.None? then NoMatch
    else if IsPrimitive(left.opType) || IsPrimitive(right.opType) then NoMatch
    else if left.form == NullLiteral || right.form == NullLiteral then NoMatch
    else if IsThis(left) || IsThis(right) then NoMatch
    else if IsEnum(left) || IsEnum(right) then NoMatch
    else if IsSubtypeOf(left.opType, "java.lang.Class") || IsSubtypeOf(right.opType, "java.lang.Class") then NoMatch
    else Finding(Summary, None)
  }

  // ---------------------------------------------------------------------------
  // Properties

  /** Every guard tests both operands, so `a == b` and `b == a` are judged alike. */
  lemma Symmetric(op: BinaryOp, left: Operand, right: Operand)
    ensures MatchBinary(op, left, right) == MatchBinary(op, right, left)
  {
  }

  /** Only `==` and `!=` are examined. */
  lemma OtherOperatorsIgnored(op: BinaryOp, left: Operand, right: Operand)
    requires op != EQUAL_TO && op != NOT_EQUAL_TO
    ensures MatchBinary(op, left, right) == NoMatch
  {
  }

  /** Either operand alone can exempt the comparison, whatever the other one is. */
  lemma ExemptOperandClears(op: BinaryOp, left: Operand, right: Operand)
    requires Exempts(left) || Exempts(right)
    ensures MatchBinary(op, left, right) == NoMatch
  {
  }

  /** `this == o` and `o == this` are exempt, even against an arbitrary object. */
  lemma ThisIsExempt(op: BinaryOp, self: Operand, other: Operand)
    requires self.form == Identifier("this")
    ensures MatchBinary(op, self, other) == NoMatch
    ensures MatchBinary(op, other, self) == NoMatch
  {
    assert IsThis(self);
  }
}

/**
  MathTargetType: an overloaded `java.lang.Math` call (`min`, `max`, `addExact`, ...)
  whose arguments are all of a narrower kind than the type its result is used as, as
  in `long a = Math.min(0, 1)`, where the `int` overload is chosen. The checker walks
  up from the call to the node that gives its result a target type.
*/
module MathTargetType {
  import opened JavaTypes
  import opened Trees
  import opened Diagnostics

  /** The overloaded methods of `java.lang.Math` whose overload may be confused. */
  const ConfusedNames: set<string> :=
    {"min", "max", "addExact", "subtractExact", "multiplyExact", "floorDiv", "floorMod"}

  /** The six comparison operators. */
  const Comparisons: set<BinaryOp> :=
    {EQUAL_TO, NOT_EQUAL_TO, GREATER_THAN, GREATER_THAN_EQUAL, LESS_THAN, LESS_THAN_EQUAL}

  /** `staticMethod().onClass("java.lang.Math").namedAnyOf(...)`. */
  predicate IsConfusedMathCall(callee: MethodRef)
  {
    callee.isStatic && callee.owner == "java.lang.Math" && callee.name in ConfusedNames
  }

  /** `List.indexOf`: the first position of `id` in `ids`, or -1. */
  function IndexOf(ids: seq<nat>, id: nat): (r: int)
    ensures -1 <= r < |ids|
    ensures r >= 0 ==> ids[r] == id && forall j :: 0 <= j < r ==> ids[j] != id
    ensures r == -1 <==> id !in ids
  {
    if ids == [] then -1
    else if ids[0] == id then 0
    else
      var k := IndexOf(ids[1..], id);
      if k == -1 then -1 else k + 1
  }

  /** Some argument's type has kind `kind` (`anyMethodArgIs`). */
  function AnyArgumentIs(argumentTypes: seq<JType>, kind: TypeKind): (b: bool)
    ensures b <==> exists i :: 0 <= i < |argumentTypes| && argumentTypes[i].kind == kind
  {
    if argumentTypes == [] then false
    else argumentTypes[0].kind == kind || AnyArgumentIs(argumentTypes[1..], kind)
  }

  /** The outcome of the walk: a target type (`None` for null) or a Java exception. */
  datatype Walk = Target(target: Option<JType>) | Threw(exception: string)

  // ---------------------------------------------------------------------------
  // The walk, as written and corrected

  /**
    `getTargetType(path[i-1], path[i], ...)` on the path of the Math call, as written:
    the parameter index of the previous node in a call is used unchecked, so a
    varargs argument past the last declared parameter raises
    IndexOutOfBoundsException. Walking past the root raises NullPointerException.
  */
  function TargetTypeAsWritten(path: Path, i: nat): (w: Walk)
    requires 1 <= i
    ensures w.Threw? ==> w.exception == "NullPointerException" || w.exception == "IndexOutOfBoundsException"
    ensures w == Threw("NullPointerException") ==>
      forall j :: i <= j < |path| ==> path[j].kind.Binary? && !(path[j].kind.op in Comparisons)
    ensures w == Threw("IndexOutOfBoundsException") ==>
      exists j :: i <= j < |path| && path[j].kind.MethodInvocation? &&
        !(0 <= IndexOf(path[j].kind.arguments, path[j - 1].id) < |path[j].kind.callee.parameterTypes|)
    decreases |path| - i
  {
    if i >= |path| then Threw("NullPointerException")
    else
      var prev := path[i - 1];
      match path[i].kind
      case Assignment(variableType) => Target(variableType)
      case Binary(op, left, leftType, rightType) =>
        if op in Comparisons then
          if left == prev.id then Target(rightType) else Target(leftType)
        else TargetTypeAsWritten(path, i + 1)
      case MethodInvocation(callee, arguments, _, _) =>
        var k := IndexOf(arguments, prev.id);
        if 0 <= k < |callee.parameterTypes| then Target(Some(callee.parameterTypes[k]))
        else Threw("IndexOutOfBoundsException")
      case Return => Target(EnclosingReturnType(path))
      case TypeCast(castType) => Target(castType)
      case Variable(variableType) => Target(variableType)
      case _ => Target(None)
  }

  /** The walk with the parameter index checked: an argument with no declared
      parameter of its own gives no target type. */
  function TargetType(path: Path, i: nat): (w: Walk)
    requires 1 <= i
    ensures w.Threw? ==> w.exception == "NullPointerException"
    ensures w.Threw? ==> forall j :: i <= j < |path| ==> path[j].kind.Binary? && !(path[j].kind.op in Comparisons)
    decreases |path| - i
  {
    if i >= |path| then Threw("NullPointerException")
    else
      var prev := path[i - 1];
      match path[i].kind
      case Assignment(variableType) => Target(variableType)
      case Binary(op, left, leftType, rightType) =>
        if op in Comparisons then
          if left == prev.id then Target(rightType) else Target(leftType)
        else TargetType(path, i + 1)
      case MethodInvocation(callee, arguments, _, _) =>
        var k := IndexOf(arguments, prev.id);
        if 0 <= k < |callee.parameterTypes| then Target(Some(callee.parameterTypes[k]))
        else Target(None)
      case Return => Target(EnclosingReturnType(path))
      case TypeCast(castType) => Target(castType)
      case Variable(variableType) => Target(variableType)
      case _ => Target(None)
  }

  const MessageStart := "Neither of the function arguments are "
  const MessageEnd := " but the result is treated as such."

  /** The message naming the target kind in lower case. */
  function Message(kind: TypeKind): string
  {
    MessageStart + KindName(kind) + " types" + MessageEnd
  }

  /** The finding condition, given the outcome of the walk. */
  function Decide(callee: MethodRef, argumentTypes: seq<JType>, w: Walk): (d: Description)
    ensures !IsConfusedMathCall(callee) ==> d == NoMatch
    ensures d.Thrown? <==> IsConfusedMathCall(callee) && w.Threw?
    ensures d.Thrown? ==> d.exception == w.exception
    ensures d.Finding? <==>
      IsConfusedMathCall(callee) && w.Target? && w.target.Some? &&
      !(exists j :: 0 <= j < |argumentTypes| && argumentTypes[j].kind == w.target.value.kind)
    ensures d.Finding? ==> d == Finding(Message(w.target.value.kind), None)
  {
    if !IsConfusedMathCall(callee) then NoMatch
    else match w
      case Threw(e) => Thrown(e)
      case Target(None) => NoMatch
      case Target(Some(t)) =>
        if !AnyArgumentIs(argumentTypes, t.kind) then Finding(Message(t.kind), None) else NoMatch
  }

  /** `matchMethodInvocation` as written, on the path of the call (`path[0]`). */
  function MatchAsWritten(path: Path): (d: Description)
    requires |path| >= 1 && path[0].kind.MethodInvocation?
    ensures !IsConfusedMathCall(path[0].kind.callee) ==> d == NoMatch
    ensures d.Finding? <==>
      IsConfusedMathCall(path[0].kind.callee) &&
      TargetTypeAsWritten(path, 1).Target? && TargetTypeAsWritten(path, 1).target.Some? &&
      !(exists j :: 0 <= j < |path[0].kind.argumentTypes| &&
          path[0].kind.argumentTypes[j].kind == TargetTypeAsWritten(path, 1).target.value.kind)
    ensures d.Finding? ==> d == Finding(Message(TargetTypeAsWritten(path, 1).target.value.kind), None)
    ensures d.Thrown? <==> IsConfusedMathCall(path[0].kind.callee) && TargetTypeAsWritten(path, 1).Threw?
    ensures d.Thrown? ==> d.exception == "NullPointerException" || d.exception == "IndexOutOfBoundsException"
  {
    Decide(path[0].kind.callee, path[0].kind.argumentTypes, TargetTypeAsWritten(path, 1))
  }

  /** `matchMethodInvocation` with the checked index. */
  function Match(path: Path): (d: Description)
    requires |path| >= 1 && path[0].kind.MethodInvocation?
    ensures !IsConfusedMathCall(path[0].kind.callee) ==> d == NoMatch
    ensures d.Finding? <==>
      IsConfusedMathCall(path[0].kind.callee) &&
      TargetType(path, 1).Target? && TargetType(path, 1).target.Some? &&
      !(exists j :: 0 <= j < |path[0].kind.argumentTypes| &&
          path[0].kind.argumentTypes[j].kind == TargetType(path, 1).target.value.kind)
    ensures d.Finding? ==> d == Finding(Message(TargetType(path, 1).target.value.kind), None)
    ensures d.Thrown? ==> |path| == 1 || (path[1].kind.Binary? && !(path[1].kind.op in Comparisons))
  {
    Decide(path[0].kind.callee, path[0].kind.argumentTypes, TargetType(path, 1))
  }

  // ---------------------------------------------------------------------------
  // Properties of the walk

  /** The corrected walk agrees with the code wherever the code does not raise
      IndexOutOfBoundsException. */
  lemma {:induction false} CorrectedAgrees(path: Path, i: nat)
    requires 1 <= i
    requires TargetTypeAsWritten(path, i) != Threw("IndexOutOfBoundsException")
    ensures TargetType(path, i) == TargetTypeAsWritten(path, i)
    decreases |path| - i
  {
    if i < |path| && path[i].kind.Binary? && !(path[i].kind.op in Comparisons) {
      CorrectedAgrees(path, i + 1);
    }
  }

  /** A chain of arithmetic (non-comparison) operators between the call and the
      node above it is transparent: the target is that node's. */
  lemma {:induction false} ArithmeticIsTransparent(path: Path, i: nat, k: nat)
    requires 1 <= i <= k
    requires forall j :: i <= j < k ==> j < |path| && path[j].kind.Binary? && !(path[j].kind.op in Comparisons)
    ensures TargetType(path, i) == TargetType(path, k)
    decreases k - i
  {
    if i < k {
      ArithmeticIsTransparent(path, i + 1, k);
    }
  }

  /** Arithmetic all the way up to the root walks past it: `getParentPath()` is null. */
  lemma ArithmeticToRootThrows(path: Path, i: nat)
    requires 1 <= i
    requires forall j :: i <= j < |path| ==> path[j].kind.Binary? && !(path[j].kind.op in Comparisons)
    ensures TargetType(path, i) == Threw("NullPointerException")
  {
    if i < |path| {
      ArithmeticIsTransparent(path, i, |path|);
    }
  }

  /** An assignment, a cast and a variable declaration give their own type; a parent
      of any kind the walk does not handle gives none. */
  lemma DirectParentCases(path: Path)
    requires |path| >= 2
    ensures path[1].kind.Assignment? ==> TargetType(path, 1) == Target(path[1].kind.variableType)
    ensures path[1].kind.TypeCast? ==> TargetType(path, 1) == Target(path[1].kind.castType)
    ensures path[1].kind.Variable? ==> TargetType(path, 1) == Target(path[1].kind.variableType)
    ensures !(path[1].kind.Assignment? || path[1].kind.Binary? || path[1].kind.MethodInvocation? ||
              path[1].kind.Return? || path[1].kind.TypeCast? || path[1].kind.Variable?) ==>
      TargetType(path, 1) == Target(None)
  {
  }

  /** Under a comparison, the target is the type of the other operand. */
  lemma ComparisonTakesOtherOperand(path: Path)
    requires |path| >= 2 && path[1].kind.Binary? && path[1].kind.op in Comparisons
    ensures path[1].kind.leftOperand == path[0].id ==> TargetType(path, 1) == Target(path[1].kind.rightType)
    ensures path[1].kind.leftOperand != path[0].id ==> TargetType(path, 1) == Target(path[1].kind.leftType)
  {
  }

  /** As an argument, the target is the declared type of the matching parameter. */
  lemma ArgumentTakesParameterType(path: Path, k: nat)
    requires |path| >= 2 && path[1].kind.MethodInvocation?
    requires k < |path[1].kind.arguments| && k < |path[1].kind.callee.parameterTypes|
    requires path[1].kind.arguments[k] == path[0].id
    requires path[0].id !in path[1].kind.arguments[..k]
    ensures TargetType(path, 1) == Target(Some(path[1].kind.callee.parameterTypes[k]))
  {
  }

  /** Under a `return`, the target is the return type of the innermost enclosing
      method or lambda, null outside any. */
  lemma ReturnTakesEnclosingReturnType(path: Path)
    requires |path| >= 2 && path[1].kind.Return?
    ensures TargetType(path, 1) == Target(EnclosingReturnType(path))
    ensures (forall j :: 0 <= j < |path| ==> !IsFunctionLike(path[j])) ==> TargetType(path, 1) == Target(None)
  {
  }

  /** An argument of the target kind clears the call, whatever the target. */
  lemma ArgumentOfTargetKindClears(path: Path, j: nat)
    requires |path| >= 1 && path[0].kind.MethodInvocation?
    requires TargetType(path, 1).Target? && TargetType(path, 1).target.Some?
    requires j < |path[0].kind.argumentTypes|
    requires path[0].kind.argumentTypes[j].kind == TargetType(path, 1).target.value.kind
    ensures Match(path) == NoMatch
  {
  }
}

/** Calls from the MathTargetType test resources, and the varargs call that makes the
    walk as written raise IndexOutOfBoundsException. */
module MathTargetTypeExamples {
  import opened JavaTypes
  import opened Trees
  import opened Diagnostics
  import opened Ascii
  import opened MathTargetType

  function Primitive(kind: TypeKind, name: string): JType
  {
    JType(kind, name, name, [], {name}, None)
  }

  const Int := Primitive(INT, "int")
  const Long := Primitive(LONG, "long")
  const JString := JType(DECLARED, "java.lang.String", "java.lang.String", [], {"java.lang.String", "java.lang.Object"}, None)
  const ObjectArray := JType(ARRAY, "java.lang.Object[]", "java.lang.Object[]", [], {"java.lang.Object[]", "java.lang.Object"}, None)

  /** `Math.min(int, int)`, the overload javac picks for `Math.min(0, 1)`. */
  const MinOfInts := MethodRef(true, "java.lang.Math", "min", None, [Int, Int])

  /** `Math.min(long, long)`, picked as soon as one argument is a `long`. */
  const MinOfLongs := MethodRef(true, "java.lang.Math", "min", None, [Long, Long])

  /** The call under inspection, node 1. */
  const MinCall := Tree(1, MethodInvocation(MinOfInts, [20, 21], [Int, Int], Int))

  /** The messages of the `long` findings start with the text the tests expect. */
  lemma LongMessageText()
    ensures StartsWith(Message(LONG), "Neither of the function arguments are " + "long" + " types")
  {
    var p := MessageStart + "long" + " types";
    assert (p + MessageEnd)[..|p|] == p;
  }

  /** `long a = Math.min(0, 1);` */
  lemma LongVariable()
    ensures Match([MinCall, Tree(2, Variable(Some(Long)))]) == Finding(Message(LONG), None)
  {
  }

  /** `int a = Math.min(0, 1);` */
  lemma IntVariable()
    ensures Match([MinCall, Tree(2, Variable(Some(Int)))]) == NoMatch
  {
  }

  /** `long a = Math.min(0L, 1);`: one `long` argument is enough. */
  lemma OneLongArgument()
    ensures Match([Tree(1, MethodInvocation(MinOfLongs, [20, 21], [Long, Int], Long)), Tree(2, Variable(Some(Long)))]) == NoMatch
  {
  }

  /** `a = (long) Math.min(0, 1);` */
  lemma LongCast()
    ensures Match([MinCall, Tree(2, TypeCast(Some(Long))), Tree(3, Assignment(Some(Long)))]) == Finding(Message(LONG), None)
  {
  }

  /** `long i = Math.min(0, 1) + 1;`: the walk goes through the addition. */
  lemma ThroughAddition()
    ensures Match([MinCall, Tree(4, Binary(PLUS, 1, Some(Int), Some(Int))), Tree(2, Variable(Some(Long)))]) == Finding(Message(LONG), None)
  {
    var path := [MinCall, Tree(4, Binary(PLUS, 1, Some(Int), Some(Int))), Tree(2, Variable(Some(Long)))];
    assert TargetType(path, 2) == Target(Some(Long));
  }

  /** `int a = Math.min(0, 1) + 1;` */
  lemma ThroughAdditionToInt()
    ensures Match([MinCall, Tree(4, Binary(PLUS, 1, Some(Int), Some(Int))), Tree(2, Variable(Some(Int)))]) == NoMatch
  {
    var path := [MinCall, Tree(4, Binary(PLUS, 1, Some(Int), Some(Int))), Tree(2, Variable(Some(Int)))];
    assert TargetType(path, 2) == Target(Some(Int));
  }

  /** `takesLong(0, Math.min(0, 1), 0)` with `takesLong(int, long, int)`. */
  lemma LongParameter()
    ensures Match([MinCall, Tree(5, MethodInvocation(MethodRef(false, "MathTargetTypePositiveCases", "takesLong", None, [Int, Long, Int]), [6, 1, 7], [Int, Int, Int], Primitive(VOID, "void")))])
         == Finding(Message(LONG), None)
  {
  }

  /** `return Math.min(0, 1);` in `public long expectedLong()`. */
  lemma LongReturn()
    ensures Match([MinCall, Tree(8, Return), Tree(9, Block), Tree(10, Method("expectedLong", Some(Long), "long", true)), Tree(11, Class)])
         == Finding(Message(LONG), None)
  {
    var path := [MinCall, Tree(8, Return), Tree(9, Block), Tree(10, Method("expectedLong", Some(Long), "long", true)), Tree(11, Class)];
    assert path[3..] == [path[3], path[4]];
    assert FirstFunctionLike(path[3..]) == Some(0);
    assert path[2..][1..] == path[3..];
    assert path[1..][1..] == path[2..];
    assert FirstFunctionLike(path) == Some(3);
  }

  /** `Math.min(a, b) == someLong`: a comparison takes the other operand's type. */
  lemma ComparedWithLong()
    ensures Match([MinCall, Tree(12, Binary(EQUAL_TO, 1, Some(Int), Some(Long)))]) == Finding(Message(LONG), None)
  {
  }

  /** `String.format("%d %d", x, Math.min(a, b))`: `format(String, Object...)` declares two
      parameters, and the call is the third argument. */
  const FormatCall := Tree(13, MethodInvocation(
    MethodRef(true, "java.lang.String", "format", None, [JString, ObjectArray]),
    [14, 15, 1], [JString, Int, Int], JString))

  lemma VarargsArgumentAsWritten()
    ensures MatchAsWritten([MinCall, FormatCall]) == Thrown("IndexOutOfBoundsException")
  {
  }

  lemma VarargsArgumentCorrected()
    ensures Match([MinCall, FormatCall]) == NoMatch
  {
  }
}

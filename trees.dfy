/** Syntax-tree nodes as the checkers see them: a node kind with the facts javac
    attaches to it, and the path from a visited node up to the compilation unit. */
module Trees {
  import opened JavaTypes

  /** The binary-operator kinds of com.sun.source.tree.Tree.Kind. */
  datatype BinaryOp =
    | EQUAL_TO | NOT_EQUAL_TO | GREATER_THAN | GREATER_THAN_EQUAL | LESS_THAN | LESS_THAN_EQUAL
    | PLUS | MINUS | MULTIPLY | DIVIDE | REMAINDER
    | LEFT_SHIFT | RIGHT_SHIFT | UNSIGNED_RIGHT_SHIFT
    | AND | OR | XOR | CONDITIONAL_AND | CONDITIONAL_OR

  /**
    The method a call resolves to: whether it is static, its declaring class, its
    name, the type of the receiver it is invoked on (for instance methods), and the
    declared types of its parameters, in order (`getSymbol(call).params`).
  */
  datatype MethodRef = MethodRef(
    isStatic: bool,
    owner: string,
    name: string,
    receiverType: Option<JType>,
    parameterTypes: seq<JType>)

  datatype TreeKind =
    /** `lhs = rhs`, with the type of `lhs`. */
    | Assignment(variableType: Option<JType>)
    /** `l op r`, with the identity of `l` and both operands' types. */
    | Binary(op: BinaryOp, leftOperand: nat, leftType: Option<JType>, rightType: Option<JType>)
    /** `f(a0, ..., an)`, with the identities and types of the arguments and the type of the call. */
    | MethodInvocation(callee: MethodRef, arguments: seq<nat>, argumentTypes: seq<JType>, resultType: JType)
    | Return
    /** `(T) e`, with the type of the cast. */
    | TypeCast(castType: Option<JType>)
    /** A variable declaration, with its declared type. */
    | Variable(variableType: Option<JType>)
    /** A method declaration: name, type and source text of its return type, public or not. */
    | Method(name: string, returnType: Option<JType>, returnTypeText: string, isPublic: bool)
    /** A lambda, with the return type of its functional-interface descriptor. */
    | LambdaExpression(descriptorReturnType: Option<JType>)
    | Block
    | Class
    | Interface
    | CompilationUnit
    | Other

  /** A node; `id` stands for object identity (`Tree.equals`). */
  datatype Tree = Tree(id: nat, kind: TreeKind)

  /** A TreePath read leaf first: `path[0]` is the visited node, `path[1]` its parent, ... */
  type Path = seq<Tree>

  predicate IsFunctionLike(t: Tree)
  {
    t.kind.Method? || t.kind.LambdaExpression?
  }

  /** The position of the first METHOD or LAMBDA_EXPRESSION on the path, leaf first. */
  function FirstFunctionLike(path: Path): (r: Option<nat>)
    ensures r.Some? ==> r.value < |path| && IsFunctionLike(path[r.value])
    ensures r.Some? ==> forall j :: 0 <= j < r.value ==> !IsFunctionLike(path[j])
    ensures r.None? ==> forall j :: 0 <= j < |path| ==> !IsFunctionLike(path[j])
  {
    if path == [] then None
    else if IsFunctionLike(path[0]) then Some(0)
    else match FirstFunctionLike(path[1..])
      case None => None
      case Some(i) => Some(i + 1)
  }

  /** The declared return type of a method, or the descriptor return type of a lambda. */
  function FunctionReturnType(t: Tree): Option<JType>
    requires IsFunctionLike(t)
  {
    match t.kind
    case Method(_, rt, _, _) => rt
    case LambdaExpression(rt) => rt
  }

  /** The return type a `return` on this path answers to: that of the innermost
      enclosing method or lambda, or null (`None`) when there is none. That the innermost
      one decides is `InnermostDecides`; that none gives null is `NoEnclosingFunction`. */
  function EnclosingReturnType(path: Path): (r: Option<JType>)
    ensures r.Some? ==> exists i :: 0 <= i < |path| && IsFunctionLike(path[i]) && r == FunctionReturnType(path[i])
  {
    match FirstFunctionLike(path)
    case None => None
    case Some(i) => FunctionReturnType(path[i])
  }

  /** The innermost method or lambda decides: a node of either kind with none below it
      on the path gives the return type. */
  lemma InnermostDecides(path: Path, k: nat)
    requires k < |path| && IsFunctionLike(path[k])
    requires forall j :: 0 <= j < k ==> !IsFunctionLike(path[j])
    ensures EnclosingReturnType(path) == FunctionReturnType(path[k])
  {
    var r := FirstFunctionLike(path);
    assert r.Some?;
    assert !(r.value < k) && !(k < r.value);
  }

  /** Outside any method or lambda there is no return type. */
  lemma NoEnclosingFunction(path: Path)
    requires forall j :: 0 <= j < |path| ==> !IsFunctionLike(path[j])
    ensures EnclosingReturnType(path) == None
  {
  }
}

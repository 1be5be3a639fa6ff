/** The facts javac attaches to expressions and declarations, as the checkers consume them. */
module JavaTypes {

  datatype Option<+T> = None | Some(value: T)

  /** javax.lang.model.element.Modifier. */
  datatype Modifier =
    | PUBLIC | PROTECTED | PRIVATE | ABSTRACT | DEFAULT | STATIC | SEALED | NON_SEALED
    | FINAL | TRANSIENT | VOLATILE | SYNCHRONIZED | NATIVE | STRICTFP

  /** javax.lang.model.type.TypeKind. */
  datatype TypeKind =
    | BOOLEAN | BYTE | SHORT | INT | LONG | CHAR | FLOAT | DOUBLE
    | VOID | NONE | NULL | ARRAY | DECLARED | ERROR | TYPEVAR | WILDCARD
    | PACKAGE | EXECUTABLE | OTHER | UNION | INTERSECTION | MODULE

  /** `kind.toString().toLowerCase()`: the enum constant's name in lower case. */
  function KindName(k: TypeKind): string
  {
    match k
    case BOOLEAN => "boolean"
    case BYTE => "byte"
    case SHORT => "short"
    case INT => "int"
    case LONG => "long"
    case CHAR => "char"
    case FLOAT => "float"
    case DOUBLE => "double"
    case VOID => "void"
    case NONE => "none"
    case NULL => "null"
    case ARRAY => "array"
    case DECLARED => "declared"
    case ERROR => "error"
    case TYPEVAR => "typevar"
    case WILDCARD => "wildcard"
    case PACKAGE => "package"
    case EXECUTABLE => "executable"
    case OTHER => "other"
    case UNION => "union"
    case INTERSECTION => "intersection"
    case MODULE => "module"
  }

  /** The kinds javac represents by a primitive type (`Type.isPrimitive()`). */
  predicate IsPrimitiveKind(k: TypeKind)
  {
    k in {BOOLEAN, BYTE, SHORT, INT, LONG, CHAR, FLOAT, DOUBLE}
  }

  /**
    A semantic type.
    - `name`: the qualified name of its erasure (`java.util.List` for `List<String>`),
      what `isSameType` compares;
    - `text`: `Type.toString()` (`java.util.List<java.lang.String>`);
    - `args`: the type arguments, in order. The model treats `getTypeArguments()` and
      `allparams()` as equal; they differ only for inner classes of generic classes, which
      the `java.util.Map.Entry` types the entry-set rule reads are not;
    - `supers`: the erased names of all its supertypes, itself included,
      what `isSubtypeOf` and `onDescendantOf` consult;
    - `unboxed`: the kind of `Types.unboxedType(t)`, `None` when javac returns null.
  */
  datatype JType = JType(
    kind: TypeKind,
    name: string,
    text: string,
    args: seq<JType>,
    supers: set<string>,
    unboxed: Option<TypeKind>)

  /** Error Prone's `isSameType(name)`: equal erasures; false when the type is missing. */
  predicate IsSameType(t: Option<JType>, name: string)
  {
    t.Some? && t.value.name == name
  }

  /** Error Prone's `isSubtypeOf(name)`; false when the type is missing. */
  predicate IsSubtypeOf(t: Option<JType>, name: string)
  {
    t.Some? && name in t.value.supers
  }
}

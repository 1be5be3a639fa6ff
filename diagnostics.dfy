/** What a checker hands back to Error Prone for one visited node. */
module Diagnostics {
  import opened JavaTypes

  /**
    `NoMatch` is Description.NO_MATCH; `Finding` is a reported description with its
    message and, where the checker builds one, the replacement text of its fix;
    `Thrown` is a Java exception escaping the checker (Error Prone then fails the
    compilation).
  */
  datatype Description =
    | NoMatch
    | Finding(message: string, fix: Option<string>)
    | Thrown(exception: string)
}

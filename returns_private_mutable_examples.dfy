/** A getter that leaks a private list, and variants of it that do not. */
module ReturnsPrivateMutableExamples {
  import opened JavaTypes
  import opened Trees
  import opened Diagnostics
  import opened ReturnsPrivateMutable

  const ListOfStrings := JType(DECLARED, "java.util.List", "java.util.List<java.lang.String>", [],
                               {"java.util.List", "java.util.Collection", "java.lang.Iterable", "java.lang.Object"}, None)

  /** `private final List<String> items;` */
  const Items := Returned(Some(Symbol(FIELD, {PRIVATE, FINAL})), Some(ListOfStrings))

  /** `public List<String> getItems()`. */
  const Getter := Tree(3, Method("getItems", Some(ListOfStrings), "List<String>", true))

  /** `public List<String> getItems() { return items; }` */
  lemma GetterReported()
    ensures MatchReturn([Tree(1, Return), Tree(2, Block), Getter, Tree(4, Class)], Items)
            == Finding(Message("getItems", "List<String>"), None)
  {
    assert IsMutableType(Some(ListOfStrings)) by { MutableByName(ListOfStrings); }
  }

  /** The same getter, but private. */
  lemma PrivateGetterAccepted()
    ensures MatchReturn([Tree(1, Return), Tree(2, Block), Tree(3, Method("getItems", Some(ListOfStrings), "List<String>", false)), Tree(4, Class)], Items)
            == NoMatch
  {
    assert IsMutableType(Some(ListOfStrings)) by { MutableByName(ListOfStrings); }
  }

  /** `if (ready) { return items; }` inside the getter. */
  lemma ReturnInIfAccepted()
    ensures MatchReturn([Tree(1, Return), Tree(5, Block), Tree(6, Other), Tree(2, Block), Getter, Tree(4, Class)], Items)
            == NoMatch
  {
    assert IsMutableType(Some(ListOfStrings)) by { MutableByName(ListOfStrings); }
  }
}

/**
  JavaCase: declarations should follow Java's naming conventions. Constants (and every
  field of an interface) in UPPER_UNDERSCORE, other variables and methods in lowerCamel,
  classes in UpperCamel. Each finding carries the suggested new name.
*/
module JavaCase {
  import opened Ascii
  import opened JavaTypes
  import opened Trees
  import opened Diagnostics
  import CF = CaseFormat

  /** The checker's summary, the message of every finding. */
  const Summary := "Use the appropriate case."

  // ---------------------------------------------------------------------------
  // Name classes, after the regular expressions of the checker

  predicate StartsWithLower(name: string) { |name| > 0 && IsLower(name[0]) }

  predicate StartsWithUpper(name: string) { |name| > 0 && IsUpper(name[0]) }

  /** `^_+$`. */
  predicate IsOneOrMoreUnderscores(name: string)
  {
    |name| > 0 && forall i :: 0 <= i < |name| ==> name[i] == '_'
  }

  predicate IsLowerCamel(name: string) { '_' !in name && StartsWithLower(name) }

  predicate IsUpperCamel(name: string) { '_' !in name && StartsWithUpper(name) && HasLower(name) }

  /** No lower-case letter at all (underscores, digits and capitals only). */
  predicate IsUpperUnderscore(name: string) { !HasLower(name) }

  predicate IsAllUpper(name: string) { '_' !in name && !HasLower(name) }

  /** Both modifiers `static` and `final`. */
  predicate IsConstant(flags: set<Modifier>) { STATIC in flags && FINAL in flags }

  /** The declaration's parent node is an interface. */
  predicate IsInterface(parent: Tree) { parent.kind.Interface? }

  /** Some annotation's type, as written, contains `Test`. */
  predicate HasTestAnnotation(annotationTypes: seq<string>)
  {
    exists i :: 0 <= i < |annotationTypes| && Contains(annotationTypes[i], "Test")
  }

  // ---------------------------------------------------------------------------
  // Suggested names: the source format is guessed from the name's class

  /** An UpperCamel name only has its first letter lowered; any other name is read as
      underscore-separated words, which are joined with the first letter of each later
      word raised. */
  function ToLowerCamel(name: string): (r: string)
    ensures IsUpperCamel(name) ==> r == [ToLower(name[0])] + name[1..]
    ensures !IsUpperCamel(name) ==> r == CF.CamelFromUnderscores(name, false)
  {
    var from := if IsUpperCamel(name) then CF.UpperCamel
      else if IsUpperUnderscore(name) then CF.UpperUnderscore
      else CF.LowerUnderscore;
    if from == CF.UpperCamel then
      CF.CamelToCamel(from, CF.LowerCamel, name);
      CF.Convert(from, CF.LowerCamel, name)
    else
      CF.UnderscoreToCamel(from, CF.LowerCamel, name);
      CF.Convert(from, CF.LowerCamel, name)
  }

  /** A lowerCamel name only has its first letter raised; any other name is read as
      underscore-separated words, each of which starts with a capital after joining. */
  function ToUpperCamel(name: string): (r: string)
    ensures IsLowerCamel(name) ==> r == [ToUpper(name[0])] + name[1..]
    ensures !IsLowerCamel(name) ==> r == CF.CamelFromUnderscores(name, true)
  {
    var from := if IsLowerCamel(name) then CF.LowerCamel
      else if IsUpperUnderscore(name) then CF.UpperUnderscore
      else CF.LowerUnderscore;
    if from == CF.LowerCamel then
      CF.CamelToCamel(from, CF.UpperCamel, name);
      CF.Convert(from, CF.UpperCamel, name)
    else
      CF.UnderscoreToCamel(from, CF.UpperCamel, name);
      CF.Convert(from, CF.UpperCamel, name)
  }

  /** A camel name gets `_` before each capital after the first letter, and every
      letter raised; any other name is only upper-cased. */
  function ToUpperUnderscore(name: string): (r: string)
    ensures IsLowerCamel(name) || IsUpperCamel(name) ==>
      r == [ToUpper(name[0])] + CF.UnderscoresFromCamel(name[1..])
    ensures !(IsLowerCamel(name) || IsUpperCamel(name)) ==> r == Upper(name)
  {
    var from := if IsLowerCamel(name) then CF.LowerCamel
      else if IsUpperCamel(name) then CF.UpperCamel
      else CF.LowerUnderscore;
    if from != CF.LowerUnderscore then
      CF.CamelToUpperUnderscore(from, name);
      CF.Convert(from, CF.UpperUnderscore, name)
    else
      CF.Convert(from, CF.UpperUnderscore, name)
  }

  // ---------------------------------------------------------------------------
  // The three matchers

  /** A variable declaration named `name` with modifiers `flags` whose parent is `parent`. */
  function MatchVariable(name: string, flags: set<Modifier>, parent: Tree): (d: Description)
    ensures d.NoMatch? || d.Finding?
    ensures d.Finding? ==> d.message == Summary
    ensures (IsConstant(flags) || IsInterface(parent)) ==>
      (d.Finding? <==> !IsUpperUnderscore(name)) && (d.Finding? ==> d.fix == Some(ToUpperUnderscore(name)))
    ensures !(IsConstant(flags) || IsInterface(parent)) ==>
      (d.Finding? <==> !IsOneOrMoreUnderscores(name) && !IsLowerCamel(name)) &&
      (d.Finding? ==> d.fix == Some(ToLowerCamel(name)))
  {
    if IsConstant(flags) || IsInterface(parent) then
      if !IsUpperUnderscore(name) then Finding(Summary, Some(ToUpperUnderscore(name))) else NoMatch
    else if !IsOneOrMoreUnderscores(name) && !IsLowerCamel(name) then
      Finding(Summary, Some(ToLowerCamel(name)))
    else NoMatch
  }

  /** A method declaration named `name` whose annotations have the types `annotationTypes`. */
  function MatchMethod(name: string, annotationTypes: seq<string>): (d: Description)
    ensures d.NoMatch? || d.Finding?
    ensures name == "<init>" ==> d.NoMatch?
    ensures d.Finding? <==> name != "<init>" && !IsLowerCamel(name) && !HasTestAnnotation(annotationTypes)
    ensures d.Finding? ==> d == Finding(Summary, Some(ToLowerCamel(name)))
  {
    if name == "<init>" then NoMatch
    else if !IsLowerCamel(name) && !HasTestAnnotation(annotationTypes) then
      Finding(Summary, Some(ToLowerCamel(name)))
    else NoMatch
  }

  /** A class declaration with simple name `name` (empty for an anonymous class). The
      fix carries the suggested class name. */
  function MatchClass(name: string): (d: Description)
    ensures d.NoMatch? || d.Finding?
    ensures name == [] ==> d.NoMatch?
    ensures d.Finding? <==> name != [] && !IsAllUpper(name) && !IsUpperCamel(name)
    ensures d.Finding? ==> d == Finding(Summary, Some(ToUpperCamel(name)))
  {
    if name == [] then NoMatch
    else if !IsAllUpper(name) && !IsUpperCamel(name) then
      Finding(Summary, Some(ToUpperCamel(name)))
    else NoMatch
  }

  /** The annotation scan of `isTestMethod`, a loop that stops at the first hit. */
  method IsTestMethod(annotationTypes: seq<string>) returns (b: bool)
    ensures b <==> HasTestAnnotation(annotationTypes)
  {
    var i := 0;
    while i < |annotationTypes|
      invariant 0 <= i <= |annotationTypes|
      invariant forall j :: 0 <= j < i ==> !Contains(annotationTypes[j], "Test")
    {
      if Contains(annotationTypes[i], "Test") {
        return true;
      }
      i := i + 1;
    }
    return false;
  }

  // ---------------------------------------------------------------------------
  // The name classes

  /** A name of capitals only is also accepted as a constant name. */
  lemma AllUpperIsUpperUnderscore(name: string)
    requires IsAllUpper(name)
    ensures IsUpperUnderscore(name)
  {
  }

  /** No name is both lowerCamel and UpperCamel, so the order in which the conversions
      test them never matters. */
  lemma CamelClassesDisjoint(name: string)
    ensures !(IsLowerCamel(name) && IsUpperCamel(name))
  {
  }

  // ---------------------------------------------------------------------------
  // The suggested names are in the convention asked for

  /** The constant fix never has a lower-case letter, so renaming a constant to it
      silences the checker. */
  lemma ToUpperUnderscoreIsUpper(name: string)
    ensures IsUpperUnderscore(ToUpperUnderscore(name))
  {
    if IsLowerCamel(name) || IsUpperCamel(name) {
      var from := if IsLowerCamel(name) then CF.LowerCamel else CF.UpperCamel;
      CF.CamelToUpperUnderscore(from, name);
      CF.UnderscoresFromCamelNoLower(name[1..]);
      var r := [ToUpper(name[0])] + CF.UnderscoresFromCamel(name[1..]);
      forall i | 0 <= i < |r|
        ensures !IsLower(r[i])
      {
        if i > 0 {
          assert r[i] == CF.UnderscoresFromCamel(name[1..])[i - 1];
        }
      }
    } else {
      CF.UpperNoLower(name);
    }
  }

  /** The lowerCamel fix of a name that starts with a letter is lowerCamel. */
  lemma ToLowerCamelIsLowerCamel(name: string)
    requires |name| > 0 && IsLetter(name[0])
    ensures IsLowerCamel(ToLowerCamel(name))
  {
    if IsUpperCamel(name) {
      CF.CamelToCamel(CF.UpperCamel, CF.LowerCamel, name);
      var r := [ToLower(name[0])] + name[1..];
      assert forall i :: 1 <= i < |r| ==> r[i] == name[i];
    } else {
      var from := if IsUpperUnderscore(name) then CF.UpperUnderscore else CF.LowerUnderscore;
      CF.UnderscoreToCamel(from, CF.LowerCamel, name);
      CF.CamelFromUnderscoresShape(name, false);
    }
  }

  /** The UpperCamel fix of a name that starts with a letter is UpperCamel, or all
      capitals when it has no lower-case letter. */
  lemma ToUpperCamelIsUpperCamel(name: string)
    requires |name| > 0 && IsLetter(name[0])
    ensures IsUpperCamel(ToUpperCamel(name)) || IsAllUpper(ToUpperCamel(name))
  {
    if IsLowerCamel(name) {
      LowerCamelRaised(name);
    } else {
      UnderscoresRaised(name);
    }
  }

  lemma LowerCamelRaised(name: string)
    requires IsLowerCamel(name)
    ensures IsUpperCamel(ToUpperCamel(name)) || IsAllUpper(ToUpperCamel(name))
  {
    CF.CamelToCamel(CF.LowerCamel, CF.UpperCamel, name);
    var r := [ToUpper(name[0])] + name[1..];
    assert forall i :: 1 <= i < |r| ==> r[i] == name[i];
  }

  lemma UnderscoresRaised(name: string)
    requires |name| > 0 && IsLetter(name[0]) && !IsLowerCamel(name)
    ensures IsUpperCamel(ToUpperCamel(name)) || IsAllUpper(ToUpperCamel(name))
  {
    var from := if IsUpperUnderscore(name) then CF.UpperUnderscore else CF.LowerUnderscore;
    CF.UnderscoreToCamel(from, CF.UpperCamel, name);
    CF.CamelFromUnderscoresShape(name, true);
  }

  /** Renaming a constant (or interface field) to the suggested name silences the checker. */
  lemma ConstantFixAccepted(name: string, flags: set<Modifier>, parent: Tree)
    requires IsConstant(flags) || IsInterface(parent)
    ensures MatchVariable(ToUpperUnderscore(name), flags, parent) == NoMatch
  {
    ToUpperUnderscoreIsUpper(name);
  }

  /** Renaming a variable that starts with a letter to the suggested name silences the checker. */
  lemma VariableFixAccepted(name: string, flags: set<Modifier>, parent: Tree)
    requires !(IsConstant(flags) || IsInterface(parent))
    requires |name| > 0 && IsLetter(name[0])
    ensures MatchVariable(ToLowerCamel(name), flags, parent) == NoMatch
  {
    ToLowerCamelIsLowerCamel(name);
  }

  lemma MethodFixAccepted(name: string, annotationTypes: seq<string>)
    requires |name| > 0 && IsLetter(name[0])
    ensures MatchMethod(ToLowerCamel(name), annotationTypes) == NoMatch
  {
    ToLowerCamelIsLowerCamel(name);
  }

  lemma ClassFixAccepted(name: string)
    requires |name| > 0 && IsLetter(name[0])
    ensures MatchClass(ToUpperCamel(name)) == NoMatch
  {
    ToUpperCamelIsUpperCamel(name);
  }

  /** A lowerCamel name with a lower-case letter after its first comes back unchanged
      from UpperCamel. */
  lemma LowerCamelRoundTrip(name: string)
    requires IsLowerCamel(name) && HasLower(name[1..])
    ensures ToLowerCamel(ToUpperCamel(name)) == name
  {
    var u := [ToUpper(name[0])] + name[1..];
    CF.CamelToCamel(CF.LowerCamel, CF.UpperCamel, name);
    RaisedIsUpperCamel(name, u);
    CF.CamelToCamel(CF.UpperCamel, CF.LowerCamel, u);
    LoweredBack(name, u);
  }

  /** Raising the first letter of such a name gives an UpperCamel name. */
  lemma RaisedIsUpperCamel(name: string, u: string)
    requires IsLowerCamel(name) && HasLower(name[1..]) && u == [ToUpper(name[0])] + name[1..]
    ensures IsUpperCamel(u)
  {
    var k :| 0 <= k < |name[1..]| && IsLower(name[1..][k]);
    assert u[k + 1] == name[1..][k];
    assert '_' !in u by {
      forall i | 0 <= i < |u|
        ensures u[i] != '_'
      {
        if i > 0 {
          assert u[i] == name[i];
        }
      }
    }
  }

  /** Lowering the raised letter again restores the name. */
  lemma LoweredBack(name: string, u: string)
    requires StartsWithLower(name) && u == [ToUpper(name[0])] + name[1..]
    ensures [ToLower(u[0])] + u[1..] == name
  {
    assert u[1..] == name[1..];
    assert [name[0]] + name[1..] == name;
  }
}

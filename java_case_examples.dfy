/**
  Declarations from the JavaCase test resources, and the model's verdict on each.
  The suggested names are worked out one word at a time: each conversion is split
  where a new word starts, and the pieces are converted separately.
*/
module JavaCaseExamples {
  import opened Ascii
  import opened JavaTypes
  import opened Trees
  import opened Diagnostics
  import opened JavaCase
  import CF = CaseFormat

  /** A field's parent: a class body. */
  const InClass := Tree(1, Class)

  /** A field's parent: an interface body. */
  const InInterface := Tree(3, Interface)

  /** A local variable's parent: a block. */
  const InBlock := Tree(2, Block)

  /** `private static Integer UPPER;` is not final, so it should be lowerCamel. */
  lemma UpperStaticField(name: string)
    requires name == "UPPER"
    ensures MatchVariable(name, {PRIVATE, STATIC}, InClass) == Finding(Summary, Some("upper"))
  {
    UpperIsUpperUnderscore(name);
    CF.UnderscoreToCamel(CF.UpperUnderscore, CF.LowerCamel, name);
    UpperLowered(name, "upper");
  }

  lemma UpperIsUpperUnderscore(name: string)
    requires name == "UPPER"
    ensures name[0] == 'U' && !IsUpperCamel(name) && IsUpperUnderscore(name) && !IsOneOrMoreUnderscores(name)
  {
  }

  lemma UpperLowered(name: string, expected: string)
    requires name == "UPPER" && expected == "upper"
    ensures CF.CamelFromUnderscores(name, false) == expected
  {
    assert ToLower('R') == 'r' && ToLower('E') == 'e' && ToLower('P') == 'p' && ToLower('U') == 'u';
    assert CF.CamelFromUnderscores(name[4..], false) == "r";
    assert CF.CamelFromUnderscores(name[3..], false) == "er";
    assert CF.CamelFromUnderscores(name[2..], false) == "per";
    assert CF.CamelFromUnderscores(name[1..], false) == "pper";
  }

  /** `class invalidClassName`: classes are UpperCamel. */
  lemma LowerCamelClass(name: string)
    requires name == "invalidClassName"
    ensures MatchClass(name) == Finding(Summary, Some("InvalidClassName"))
  {
    InvalidClassNameShape(name);
    InvalidClassNameConverted(name);
  }

  lemma InvalidClassNameShape(name: string)
    requires name == "invalidClassName"
    ensures IsLowerCamel(name) && !IsAllUpper(name) && !IsUpperCamel(name)
  {
    assert name[0] == 'i';
  }

  lemma InvalidClassNameConverted(name: string)
    requires name == "invalidClassName"
    ensures ToUpperCamel(name) == "InvalidClassName"
  {
    assert name[0] == 'i' && IsLowerCamel(name);
    CF.CamelToCamel(CF.LowerCamel, CF.UpperCamel, name);
    RaisedClassName(name[1..], "InvalidClassName");
  }

  lemma RaisedClassName(tail: string, expected: string)
    requires tail == "nvalidClassName" && expected == "InvalidClassName"
    ensures [ToUpper('i')] + tail == expected
  {
    assert ToUpper('i') == 'I';
  }

  /** `public final int myAST` is not static; a lowerCamel name may end in capitals. */
  lemma FinalInstanceField()
    ensures MatchVariable("myAST", {PUBLIC, FINAL}, InClass) == NoMatch
  {
  }

  /** Lambdas often name unused parameters `_` or `__`. */
  lemma UnderscoreVariables()
    ensures MatchVariable("_", {}, InBlock) == NoMatch
    ensures MatchVariable("__", {}, InBlock) == NoMatch
  {
  }

  /** A single lower-case word is lowerCamel: method `lower()` is accepted. */
  lemma SingleWordMethod()
    ensures MatchMethod("lower", []) == NoMatch
  {
  }

  /** `@Test void test_OneIsTwo()` is exempt because of its annotation, and only
      because of it. */
  lemma TestMethodExempt(name: string)
    requires name == "test_OneIsTwo"
    ensures MatchMethod(name, ["Test"]) == NoMatch
    ensures MatchMethod(name, []).Finding?
  {
    assert Contains(["Test"][0], "Test") by {
      assert StartsWith("Test", "Test");
    }
    assert name[4] == '_';
  }

  lemma ConstructorExempt()
    ensures MatchMethod("<init>", []) == NoMatch
  {
  }

  /** Acronyms and digits: `Bytes8`, `LRUCache` and `BLS` are accepted class names. */
  lemma AcceptedClassNames()
    ensures MatchClass("Bytes8") == NoMatch
    ensures MatchClass("LRUCache") == NoMatch
    ensures MatchClass("BLS") == NoMatch
  {
    LowerAfterCapital("Bytes8", 1);
    LowerAfterCapital("LRUCache", 4);
    NoLowerIsAllUpper("BLS");
  }

  /** A name starting with a capital, without `_` and with a lower-case letter at `k`,
      is an accepted class name. */
  lemma LowerAfterCapital(name: string, k: nat)
    requires StartsWithUpper(name) && '_' !in name && k < |name| && IsLower(name[k])
    ensures MatchClass(name) == NoMatch
  {
  }

  lemma NoLowerIsAllUpper(name: string)
    requires name == "BLS"
    ensures MatchClass(name) == NoMatch
  {
    assert IsAllUpper(name);
  }

  /** Anonymous classes have an empty name. */
  lemma AnonymousClass()
    ensures MatchClass("") == NoMatch
  {
  }

  /** A variable whose name starts with `_` is offered an UpperCamel name, which the
      checker flags in turn: the fix of `_id` is `Id`, whose fix is `id`. */
  lemma LeadingUnderscoreFix(name: string)
    requires name == "_id"
    ensures MatchVariable(name, {}, InBlock) == Finding(Summary, Some("Id"))
  {
    assert name[0] == '_' && name[1] == 'i';
    CF.UnderscoreToCamel(CF.LowerUnderscore, CF.LowerCamel, name);
    assert CF.CamelFromUnderscores("_id", false) == "Id";
  }

  lemma LeadingUnderscoreFixFlaggedAgain(name: string)
    requires name == "Id"
    ensures MatchVariable(name, {}, InBlock) == Finding(Summary, Some("id"))
  {
    assert name[0] == 'I' && name[1] == 'd' && IsUpperCamel(name);
    CF.CamelToCamel(CF.UpperCamel, CF.LowerCamel, name);
    assert name[1..] == "d";
    assert ToLower('I') == 'i';
    assert ['i'] + "d" == "id";
    assert ToLowerCamel(name) == "id";
  }


  /** `public static final int paramName`: a lowerCamel constant gets `PARAM_NAME`. */
  lemma LowerCamelConstant(name: string)
    requires name == "paramName"
    ensures MatchVariable(name, {PUBLIC, STATIC, FINAL}, InClass) == Finding(Summary, Some("PARAM_NAME"))
  {
    ParamNameShape(name);
    ParamNameRaised(name, "PARAM_NAME");
  }

  lemma ParamNameShape(name: string)
    requires name == "paramName"
    ensures IsConstant({PUBLIC, STATIC, FINAL}) && IsLowerCamel(name) && HasLower(name)
  {
    assert name[0] == 'p' && name[1] == 'a';
  }

  lemma ParamNameRaised(name: string, expected: string)
    requires name == "paramName" && expected == "PARAM_NAME"
    ensures ToUpperUnderscore(name) == expected
  {
    ParamNameShape(name);
    ParamNamePieces(name, "aramName", "aram", "Name", "ARAM", "_NAME", expected);
    RaisedFromCamel(name, expected);
  }

  lemma ParamNamePieces(name: string, tail: string, p0: string, p1: string, e0: string, e1: string, expected: string)
    requires name == "paramName" && tail == "aramName" && expected == "PARAM_NAME"
    requires p0 == "aram" && p1 == "Name"
    requires e0 == "ARAM" && e1 == "_NAME"
    ensures [ToUpper(name[0])] + CF.UnderscoresFromCamel(name[1..]) == expected
  {
    assert name[1..] == tail == p0 + p1;
    CF.UnderscoresFromCamelAppend(p0, p1);
    AramUnderscored(p0, e0);
    NameUnderscored(p1, e1);
    assert ToUpper(name[0]) == 'P';
    assert ['P'] + (e0 + e1) == expected;
  }

  /** `int NumberTwo` in an interface: an UpperCamel interface field gets `NUMBER_TWO`. */
  lemma UpperCamelInterfaceField(name: string)
    requires name == "NumberTwo"
    ensures MatchVariable(name, {}, InInterface) == Finding(Summary, Some("NUMBER_TWO"))
  {
    NumberTwoShape(name);
    NumberTwoRaised(name, "NUMBER_TWO");
  }

  lemma NumberTwoShape(name: string)
    requires name == "NumberTwo"
    ensures !IsLowerCamel(name) && IsUpperCamel(name) && HasLower(name)
  {
    assert name[0] == 'N' && name[1] == 'u';
  }

  lemma NumberTwoRaised(name: string, expected: string)
    requires name == "NumberTwo" && expected == "NUMBER_TWO"
    ensures ToUpperUnderscore(name) == expected
  {
    NumberTwoShape(name);
    NumberTwoPieces(name, "umberTwo", "umber", "Two", "UMBER", "_TWO", expected);
    RaisedFromCamel(name, expected);
  }

  lemma NumberTwoPieces(name: string, tail: string, p0: string, p1: string, e0: string, e1: string, expected: string)
    requires name == "NumberTwo" && tail == "umberTwo" && expected == "NUMBER_TWO"
    requires p0 == "umber" && p1 == "Two"
    requires e0 == "UMBER" && e1 == "_TWO"
    ensures [ToUpper(name[0])] + CF.UnderscoresFromCamel(name[1..]) == expected
  {
    assert name[1..] == tail == p0 + p1;
    CF.UnderscoresFromCamelAppend(p0, p1);
    UmberUnderscored(p0, e0);
    TwoUnderscored(p1, e1);
    assert ToUpper(name[0]) == 'N';
    assert ['N'] + (e0 + e1) == expected;
  }

  /** `public static final int param_name`: a lower_underscore constant is upper-cased. */
  lemma LowerUnderscoreConstant(name: string)
    requires name == "param_name"
    ensures MatchVariable(name, {PUBLIC, STATIC, FINAL}, InClass) == Finding(Summary, Some("PARAM_NAME"))
  {
    ParamNameUnderscoreShape(name);
    ParamNameUnderscoreRaised(name, "PARAM_NAME");
  }

  lemma ParamNameUnderscoreShape(name: string)
    requires name == "param_name"
    ensures IsConstant({PUBLIC, STATIC, FINAL}) && !IsLowerCamel(name) && !IsUpperCamel(name) && HasLower(name)
  {
    assert name[0] == 'p' && name[5] == '_';
  }

  lemma ParamNameUnderscoreRaised(name: string, expected: string)
    requires name == "param_name" && expected == "PARAM_NAME"
    ensures ToUpperUnderscore(name) == expected
  {
    ParamNameUnderscoreShape(name);
    ParamNameUnderscorePieces(name, "param", "_name", "PARAM", "_NAME", expected);
  }

  lemma ParamNameUnderscorePieces(name: string, p0: string, p1: string, e0: string, e1: string, expected: string)
    requires name == "param_name" && expected == "PARAM_NAME"
    requires p0 == "param" && p1 == "_name" && e0 == "PARAM" && e1 == "_NAME"
    ensures Upper(name) == expected
  {
    assert name == p0 + p1;
    UpperAppend(p0, p1);
    ParamRaised(p0, e0);
    UnderscoreNameRaised(p1, e1);
    assert e0 + e1 == expected;
  }

  /** `public static int another_param_name`: static but not final, so lowerCamel. */
  lemma LowerUnderscoreStaticField(name: string)
    requires name == "another_param_name"
    ensures MatchVariable(name, {PUBLIC, STATIC}, InClass) == Finding(Summary, Some("anotherParamName"))
  {
    AnotherParamNameLowerShape(name);
    AnotherParamNameLowerConverted(name, "anotherParamName");
  }

  lemma AnotherParamNameLowerShape(name: string)
    requires name == "another_param_name"
    ensures !IsConstant({PUBLIC, STATIC}) && !IsOneOrMoreUnderscores(name) && !IsLowerCamel(name) && !IsUpperCamel(name) && HasLower(name)
  {
    assert name[0] == 'a' && name[1] == 'n' && name[7] == '_';
  }

  lemma AnotherParamNameLowerConverted(name: string, expected: string)
    requires name == "another_param_name" && expected == "anotherParamName"
    ensures ToLowerCamel(name) == expected
  {
    AnotherParamNameLowerShape(name);
    AnotherParamNameLowerPieces(name, "another", "_param", "_name", "another", "Param", "Name", expected);
    LoweredFromUnderscores(name, expected);
  }

  lemma AnotherParamNameLowerPieces(name: string, p0: string, p1: string, p2: string, e0: string, e1: string, e2: string, expected: string)
    requires name == "another_param_name" && expected == "anotherParamName"
    requires p0 == "another" && p1 == "_param" && p2 == "_name"
    requires e0 == "another" && e1 == "Param" && e2 == "Name"
    ensures CF.CamelFromUnderscores(name, false) == expected
  {
    assert name == p0 + (p1 + p2);
    AnotherCamelized(p0, e0);
    UnderscoreParamCamelized(p1, e1);
    UnderscoreNameCamelized(p2, e2);
    CamelizedInThree(name, p0, p1, p2, false, e0, e1, e2);
    assert e0 + (e1 + e2) == expected;
  }

  /** Method `INVALID_FUNC_NAME()`: an UPPER_UNDERSCORE method name gets lowerCamel. */
  lemma UpperUnderscoreMethod(name: string)
    requires name == "INVALID_FUNC_NAME"
    ensures MatchMethod(name, []) == Finding(Summary, Some("invalidFuncName"))
  {
    InvalidFuncNameUpperShape(name);
    InvalidFuncNameUpperConverted(name, "invalidFuncName");
  }

  lemma InvalidFuncNameUpperShape(name: string)
    requires name == "INVALID_FUNC_NAME"
    ensures !IsLowerCamel(name) && !IsUpperCamel(name) && IsUpperUnderscore(name)
  {
    assert name[0] == 'I' && name[1] == 'N' && name[7] == '_';
  }

  lemma InvalidFuncNameUpperConverted(name: string, expected: string)
    requires name == "INVALID_FUNC_NAME" && expected == "invalidFuncName"
    ensures ToLowerCamel(name) == expected
  {
    InvalidFuncNameUpperShape(name);
    InvalidFuncNameUpperPieces(name, "INVALID", "_FUNC", "_NAME", "invalid", "Func", "Name", expected);
    LoweredFromUnderscores(name, expected);
  }

  lemma InvalidFuncNameUpperPieces(name: string, p0: string, p1: string, p2: string, e0: string, e1: string, e2: string, expected: string)
    requires name == "INVALID_FUNC_NAME" && expected == "invalidFuncName"
    requires p0 == "INVALID" && p1 == "_FUNC" && p2 == "_NAME"
    requires e0 == "invalid" && e1 == "Func" && e2 == "Name"
    ensures CF.CamelFromUnderscores(name, false) == expected
  {
    assert name == p0 + (p1 + p2);
    UpperInvalidCamelized(p0, e0);
    UnderscoreUpperFuncCamelized(p1, e1);
    UnderscoreUpperNameCamelized(p2, e2);
    CamelizedInThree(name, p0, p1, p2, false, e0, e1, e2);
    assert e0 + (e1 + e2) == expected;
  }

  /** `class INVALID_CLASS_NAME`: an UPPER_UNDERSCORE class name gets UpperCamel. */
  lemma UpperUnderscoreClass(name: string)
    requires name == "INVALID_CLASS_NAME"
    ensures MatchClass(name) == Finding(Summary, Some("InvalidClassName"))
  {
    InvalidClassNameUpperShape(name);
    InvalidClassNameUpperConverted(name, "InvalidClassName");
  }

  lemma InvalidClassNameUpperShape(name: string)
    requires name == "INVALID_CLASS_NAME"
    ensures !IsLowerCamel(name) && !IsAllUpper(name) && !IsUpperCamel(name) && IsUpperUnderscore(name)
  {
    assert name[0] == 'I' && name[1] == 'N' && name[7] == '_';
  }

  lemma InvalidClassNameUpperConverted(name: string, expected: string)
    requires name == "INVALID_CLASS_NAME" && expected == "InvalidClassName"
    ensures ToUpperCamel(name) == expected
  {
    InvalidClassNameUpperShape(name);
    InvalidClassNameUpperPieces(name, "INVALID", "_CLASS", "_NAME", "Invalid", "Class", "Name", expected);
    CapitalizedFromUnderscores(name, expected);
  }

  lemma InvalidClassNameUpperPieces(name: string, p0: string, p1: string, p2: string, e0: string, e1: string, e2: string, expected: string)
    requires name == "INVALID_CLASS_NAME" && expected == "InvalidClassName"
    requires p0 == "INVALID" && p1 == "_CLASS" && p2 == "_NAME"
    requires e0 == "Invalid" && e1 == "Class" && e2 == "Name"
    ensures CF.CamelFromUnderscores(name, true) == expected
  {
    assert name == p0 + (p1 + p2);
    UpperInvalidCapitalized(p0, e0);
    UnderscoreUpperClassCamelized(p1, e1);
    UnderscoreUpperNameCamelized(p2, e2);
    CamelizedInThree(name, p0, p1, p2, true, e0, e1, e2);
    assert e0 + (e1 + e2) == expected;
  }

  /** Method `invalid_func_name()`: a lower_underscore method name gets lowerCamel. */
  lemma LowerUnderscoreMethod(name: string)
    requires name == "invalid_func_name"
    ensures MatchMethod(name, []) == Finding(Summary, Some("invalidFuncName"))
  {
    InvalidFuncNameLowerShape(name);
    InvalidFuncNameLowerConverted(name, "invalidFuncName");
  }

  lemma InvalidFuncNameLowerShape(name: string)
    requires name == "invalid_func_name"
    ensures !IsLowerCamel(name) && !IsUpperCamel(name) && HasLower(name)
  {
    assert name[0] == 'i' && name[1] == 'n' && name[7] == '_';
  }

  lemma InvalidFuncNameLowerConverted(name: string, expected: string)
    requires name == "invalid_func_name" && expected == "invalidFuncName"
    ensures ToLowerCamel(name) == expected
  {
    InvalidFuncNameLowerShape(name);
    InvalidFuncNameLowerPieces(name, "invalid", "_func", "_name", "invalid", "Func", "Name", expected);
    LoweredFromUnderscores(name, expected);
  }

  lemma InvalidFuncNameLowerPieces(name: string, p0: string, p1: string, p2: string, e0: string, e1: string, e2: string, expected: string)
    requires name == "invalid_func_name" && expected == "invalidFuncName"
    requires p0 == "invalid" && p1 == "_func" && p2 == "_name"
    requires e0 == "invalid" && e1 == "Func" && e2 == "Name"
    ensures CF.CamelFromUnderscores(name, false) == expected
  {
    assert name == p0 + (p1 + p2);
    InvalidCamelized(p0, e0);
    UnderscoreFuncCamelized(p1, e1);
    UnderscoreNameCamelized(p2, e2);
    CamelizedInThree(name, p0, p1, p2, false, e0, e1, e2);
    assert e0 + (e1 + e2) == expected;
  }

  /** `class invalid_class_name`: a lower_underscore class name gets UpperCamel. */
  lemma LowerUnderscoreClass(name: string)
    requires name == "invalid_class_name"
    ensures MatchClass(name) == Finding(Summary, Some("InvalidClassName"))
  {
    InvalidClassNameLowerShape(name);
    InvalidClassNameLowerConverted(name, "InvalidClassName");
  }

  lemma InvalidClassNameLowerShape(name: string)
    requires name == "invalid_class_name"
    ensures !IsLowerCamel(name) && !IsAllUpper(name) && !IsUpperCamel(name) && HasLower(name)
  {
    assert name[0] == 'i' && name[1] == 'n' && name[7] == '_';
  }

  lemma InvalidClassNameLowerConverted(name: string, expected: string)
    requires name == "invalid_class_name" && expected == "InvalidClassName"
    ensures ToUpperCamel(name) == expected
  {
    InvalidClassNameLowerShape(name);
    InvalidClassNameLowerPieces(name, "invalid", "_class", "_name", "Invalid", "Class", "Name", expected);
    CapitalizedFromUnderscores(name, expected);
  }

  lemma InvalidClassNameLowerPieces(name: string, p0: string, p1: string, p2: string, e0: string, e1: string, e2: string, expected: string)
    requires name == "invalid_class_name" && expected == "InvalidClassName"
    requires p0 == "invalid" && p1 == "_class" && p2 == "_name"
    requires e0 == "Invalid" && e1 == "Class" && e2 == "Name"
    ensures CF.CamelFromUnderscores(name, true) == expected
  {
    assert name == p0 + (p1 + p2);
    InvalidCapitalized(p0, e0);
    UnderscoreClassCamelized(p1, e1);
    UnderscoreNameCamelized(p2, e2);
    CamelizedInThree(name, p0, p1, p2, true, e0, e1, e2);
    assert e0 + (e1 + e2) == expected;
  }

  /** `int number_three` in an interface: a lower_underscore interface field is upper-cased. */
  lemma LowerUnderscoreInterfaceField(name: string)
    requires name == "number_three"
    ensures MatchVariable(name, {}, InInterface) == Finding(Summary, Some("NUMBER_THREE"))
  {
    NumberThreeShape(name);
    NumberThreeRaised(name, "NUMBER_THREE");
  }

  lemma NumberThreeShape(name: string)
    requires name == "number_three"
    ensures !IsLowerCamel(name) && !IsUpperCamel(name) && HasLower(name)
  {
    assert name[0] == 'n' && name[6] == '_';
  }

  lemma NumberThreeRaised(name: string, expected: string)
    requires name == "number_three" && expected == "NUMBER_THREE"
    ensures ToUpperUnderscore(name) == expected
  {
    NumberThreeShape(name);
    NumberThreePieces(name, "number", "_three", "NUMBER", "_THREE", expected);
  }

  lemma NumberThreePieces(name: string, p0: string, p1: string, e0: string, e1: string, expected: string)
    requires name == "number_three" && expected == "NUMBER_THREE"
    requires p0 == "number" && p1 == "_three" && e0 == "NUMBER" && e1 == "_THREE"
    ensures Upper(name) == expected
  {
    assert name == p0 + p1;
    UpperAppend(p0, p1);
    NumberRaised(p0, e0);
    UnderscoreThreeRaised(p1, e1);
    assert e0 + e1 == expected;
  }

  /** `public static final int ParamName`: an UpperCamel constant gets `PARAM_NAME`. */
  lemma UpperCamelConstant(name: string)
    requires name == "ParamName"
    ensures MatchVariable(name, {PUBLIC, STATIC, FINAL}, InClass) == Finding(Summary, Some("PARAM_NAME"))
  {
    CapitalParamNameShape(name);
    CapitalParamNameRaised(name, "PARAM_NAME");
  }

  lemma CapitalParamNameShape(name: string)
    requires name == "ParamName"
    ensures IsConstant({PUBLIC, STATIC, FINAL}) && !IsLowerCamel(name) && IsUpperCamel(name) && HasLower(name)
  {
    assert name[0] == 'P' && name[1] == 'a';
  }

  lemma CapitalParamNameRaised(name: string, expected: string)
    requires name == "ParamName" && expected == "PARAM_NAME"
    ensures ToUpperUnderscore(name) == expected
  {
    CapitalParamNameShape(name);
    CapitalParamNamePieces(name, "aramName", "aram", "Name", "ARAM", "_NAME", expected);
    RaisedFromCamel(name, expected);
  }

  lemma CapitalParamNamePieces(name: string, tail: string, p0: string, p1: string, e0: string, e1: string, expected: string)
    requires name == "ParamName" && tail == "aramName" && expected == "PARAM_NAME"
    requires p0 == "aram" && p1 == "Name"
    requires e0 == "ARAM" && e1 == "_NAME"
    ensures [ToUpper(name[0])] + CF.UnderscoresFromCamel(name[1..]) == expected
  {
    assert name[1..] == tail == p0 + p1;
    CF.UnderscoresFromCamelAppend(p0, p1);
    AramUnderscored(p0, e0);
    NameUnderscored(p1, e1);
    assert ToUpper(name[0]) == 'P';
    assert ['P'] + (e0 + e1) == expected;
  }

  /** `int numberOne` in an interface: a lowerCamel interface field gets `NUMBER_ONE`. */
  lemma LowerCamelInterfaceField(name: string)
    requires name == "numberOne"
    ensures MatchVariable(name, {}, InInterface) == Finding(Summary, Some("NUMBER_ONE"))
  {
    NumberOneShape(name);
    NumberOneRaised(name, "NUMBER_ONE");
  }

  lemma NumberOneShape(name: string)
    requires name == "numberOne"
    ensures IsLowerCamel(name) && HasLower(name)
  {
    assert name[0] == 'n' && name[1] == 'u';
  }

  lemma NumberOneRaised(name: string, expected: string)
    requires name == "numberOne" && expected == "NUMBER_ONE"
    ensures ToUpperUnderscore(name) == expected
  {
    NumberOneShape(name);
    NumberOnePieces(name, "umberOne", "umber", "One", "UMBER", "_ONE", expected);
    RaisedFromCamel(name, expected);
  }

  lemma NumberOnePieces(name: string, tail: string, p0: string, p1: string, e0: string, e1: string, expected: string)
    requires name == "numberOne" && tail == "umberOne" && expected == "NUMBER_ONE"
    requires p0 == "umber" && p1 == "One"
    requires e0 == "UMBER" && e1 == "_ONE"
    ensures [ToUpper(name[0])] + CF.UnderscoresFromCamel(name[1..]) == expected
  {
    assert name[1..] == tail == p0 + p1;
    CF.UnderscoresFromCamelAppend(p0, p1);
    UmberUnderscored(p0, e0);
    OneUnderscored(p1, e1);
    assert ToUpper(name[0]) == 'N';
    assert ['N'] + (e0 + e1) == expected;
  }

  /** `public final int final_param_name`: final but not static, so lowerCamel. */
  lemma LowerUnderscoreFinalField(name: string)
    requires name == "final_param_name"
    ensures MatchVariable(name, {PUBLIC, FINAL}, InClass) == Finding(Summary, Some("finalParamName"))
  {
    FinalParamNameLowerShape(name);
    FinalParamNameLowerConverted(name, "finalParamName");
  }

  lemma FinalParamNameLowerShape(name: string)
    requires name == "final_param_name"
    ensures !IsConstant({PUBLIC, FINAL}) && !IsOneOrMoreUnderscores(name) && !IsLowerCamel(name) && !IsUpperCamel(name) && HasLower(name)
  {
    assert name[0] == 'f' && name[1] == 'i' && name[5] == '_';
  }

  lemma FinalParamNameLowerConverted(name: string, expected: string)
    requires name == "final_param_name" && expected == "finalParamName"
    ensures ToLowerCamel(name) == expected
  {
    FinalParamNameLowerShape(name);
    FinalParamNameLowerPieces(name, "final", "_param", "_name", "final", "Param", "Name", expected);
    LoweredFromUnderscores(name, expected);
  }

  lemma FinalParamNameLowerPieces(name: string, p0: string, p1: string, p2: string, e0: string, e1: string, e2: string, expected: string)
    requires name == "final_param_name" && expected == "finalParamName"
    requires p0 == "final" && p1 == "_param" && p2 == "_name"
    requires e0 == "final" && e1 == "Param" && e2 == "Name"
    ensures CF.CamelFromUnderscores(name, false) == expected
  {
    assert name == p0 + (p1 + p2);
    FinalCamelized(p0, e0);
    UnderscoreParamCamelized(p1, e1);
    UnderscoreNameCamelized(p2, e2);
    CamelizedInThree(name, p0, p1, p2, false, e0, e1, e2);
    assert e0 + (e1 + e2) == expected;
  }

  /** A local variable or a parameter `param_name` (any parent but an interface) gets `paramName`. */
  lemma LowerUnderscoreLocal(name: string, parent: Tree)
    requires name == "param_name" && !IsInterface(parent)
    ensures MatchVariable(name, {}, parent) == Finding(Summary, Some("paramName"))
  {
    ParamNameLowerShape(name);
    ParamNameLowerConverted(name, "paramName");
  }

  lemma ParamNameLowerShape(name: string)
    requires name == "param_name"
    ensures !IsOneOrMoreUnderscores(name) && !IsLowerCamel(name) && !IsUpperCamel(name) && HasLower(name)
  {
    assert name[0] == 'p' && name[1] == 'a' && name[5] == '_';
  }

  lemma ParamNameLowerConverted(name: string, expected: string)
    requires name == "param_name" && expected == "paramName"
    ensures ToLowerCamel(name) == expected
  {
    ParamNameLowerShape(name);
    ParamNameLowerPieces(name, "param", "_name", "param", "Name", expected);
    LoweredFromUnderscores(name, expected);
  }

  lemma ParamNameLowerPieces(name: string, p0: string, p1: string, e0: string, e1: string, expected: string)
    requires name == "param_name" && expected == "paramName"
    requires p0 == "param" && p1 == "_name"
    requires e0 == "param" && e1 == "Name"
    ensures CF.CamelFromUnderscores(name, false) == expected
  {
    assert name == p0 + p1;
    ParamCamelized(p0, e0);
    UnderscoreNameCamelized(p1, e1);
    CamelizedInTwo(name, p0, p1, false, e0, e1);
    assert e0 + e1 == expected;
  }

  /** Method `Invalid_Func_Name()`: a capitalised underscore name gets lowerCamel. */
  lemma CapitalUnderscoreMethod(name: string)
    requires name == "Invalid_Func_Name"
    ensures MatchMethod(name, []) == Finding(Summary, Some("invalidFuncName"))
  {
    InvalidFuncNameCapitalShape(name);
    InvalidFuncNameCapitalConverted(name, "invalidFuncName");
  }

  lemma InvalidFuncNameCapitalShape(name: string)
    requires name == "Invalid_Func_Name"
    ensures !IsLowerCamel(name) && !IsUpperCamel(name) && HasLower(name)
  {
    assert name[0] == 'I' && name[1] == 'n' && name[7] == '_';
  }

  lemma InvalidFuncNameCapitalConverted(name: string, expected: string)
    requires name == "Invalid_Func_Name" && expected == "invalidFuncName"
    ensures ToLowerCamel(name) == expected
  {
    InvalidFuncNameCapitalShape(name);
    InvalidFuncNameCapitalPieces(name, "Invalid", "_Func", "_Name", "invalid", "Func", "Name", expected);
    LoweredFromUnderscores(name, expected);
  }

  lemma InvalidFuncNameCapitalPieces(name: string, p0: string, p1: string, p2: string, e0: string, e1: string, e2: string, expected: string)
    requires name == "Invalid_Func_Name" && expected == "invalidFuncName"
    requires p0 == "Invalid" && p1 == "_Func" && p2 == "_Name"
    requires e0 == "invalid" && e1 == "Func" && e2 == "Name"
    ensures CF.CamelFromUnderscores(name, false) == expected
  {
    assert name == p0 + (p1 + p2);
    CapitalInvalidCamelized(p0, e0);
    UnderscoreCapitalFuncCamelized(p1, e1);
    UnderscoreCapitalNameCamelized(p2, e2);
    CamelizedInThree(name, p0, p1, p2, false, e0, e1, e2);
    assert e0 + (e1 + e2) == expected;
  }

  /** `class Invalid_Class_Name`: a capitalised underscore class name gets UpperCamel. */
  lemma CapitalUnderscoreClass(name: string)
    requires name == "Invalid_Class_Name"
    ensures MatchClass(name) == Finding(Summary, Some("InvalidClassName"))
  {
    InvalidClassNameCapitalShape(name);
    InvalidClassNameCapitalConverted(name, "InvalidClassName");
  }

  lemma InvalidClassNameCapitalShape(name: string)
    requires name == "Invalid_Class_Name"
    ensures !IsLowerCamel(name) && !IsAllUpper(name) && !IsUpperCamel(name) && HasLower(name)
  {
    assert name[0] == 'I' && name[1] == 'n' && name[7] == '_';
  }

  lemma InvalidClassNameCapitalConverted(name: string, expected: string)
    requires name == "Invalid_Class_Name" && expected == "InvalidClassName"
    ensures ToUpperCamel(name) == expected
  {
    InvalidClassNameCapitalShape(name);
    InvalidClassNameCapitalPieces(name, "Invalid", "_Class", "_Name", "Invalid", "Class", "Name", expected);
    CapitalizedFromUnderscores(name, expected);
  }

  lemma InvalidClassNameCapitalPieces(name: string, p0: string, p1: string, p2: string, e0: string, e1: string, e2: string, expected: string)
    requires name == "Invalid_Class_Name" && expected == "InvalidClassName"
    requires p0 == "Invalid" && p1 == "_Class" && p2 == "_Name"
    requires e0 == "Invalid" && e1 == "Class" && e2 == "Name"
    ensures CF.CamelFromUnderscores(name, true) == expected
  {
    assert name == p0 + (p1 + p2);
    CapitalInvalidCapitalized(p0, e0);
    UnderscoreCapitalClassCamelized(p1, e1);
    UnderscoreCapitalNameCamelized(p2, e2);
    CamelizedInThree(name, p0, p1, p2, true, e0, e1, e2);
    assert e0 + (e1 + e2) == expected;
  }

  /** A camel-case name is raised to UPPER_UNDERSCORE through its reference conversion. */
  lemma RaisedFromCamel(name: string, expected: string)
    requires name != [] && (IsLowerCamel(name) || IsUpperCamel(name))
    requires [ToUpper(name[0])] + CF.UnderscoresFromCamel(name[1..]) == expected
    ensures ToUpperUnderscore(name) == expected
  {
    if IsLowerCamel(name) {
      CF.CamelToUpperUnderscore(CF.LowerCamel, name);
    } else {
      CF.CamelToUpperUnderscore(CF.UpperCamel, name);
    }
  }

  /** A name with an underscore is read as underscore-separated and lowered to lowerCamel. */
  lemma LoweredFromUnderscores(name: string, expected: string)
    requires !IsUpperCamel(name) && CF.CamelFromUnderscores(name, false) == expected
    ensures ToLowerCamel(name) == expected
  {
    if IsUpperUnderscore(name) {
      CF.UnderscoreToCamel(CF.UpperUnderscore, CF.LowerCamel, name);
    } else {
      CF.UnderscoreToCamel(CF.LowerUnderscore, CF.LowerCamel, name);
    }
  }

  /** A name that is not lowerCamel is read as underscore-separated and raised to UpperCamel. */
  lemma CapitalizedFromUnderscores(name: string, expected: string)
    requires !IsLowerCamel(name) && CF.CamelFromUnderscores(name, true) == expected
    ensures ToUpperCamel(name) == expected
  {
    if IsUpperUnderscore(name) {
      CF.UnderscoreToCamel(CF.UpperUnderscore, CF.UpperCamel, name);
    } else {
      CF.UnderscoreToCamel(CF.LowerUnderscore, CF.UpperCamel, name);
    }
  }

  /** Three pieces, each after the first starting a new word, converted one by one. */
  lemma CamelizedInThree(name: string, a: string, b: string, c: string, cap: bool, ea: string, eb: string, ec: string)
    requires name == a + (b + c) && a != [] && b != [] && a[|a| - 1] != '_' && b[|b| - 1] != '_'
    requires CF.CamelFromUnderscores(a, cap) == ea && CF.CamelFromUnderscores(b, false) == eb
    requires CF.CamelFromUnderscores(c, false) == ec
    ensures CF.CamelFromUnderscores(name, cap) == ea + (eb + ec)
  {
    CF.CamelFromUnderscoresAppend(a, b + c, cap);
    CF.CamelFromUnderscoresAppend(b, c, false);
  }

  /** Two pieces, the second starting a new word, converted one by one. */
  lemma CamelizedInTwo(name: string, a: string, b: string, cap: bool, ea: string, eb: string)
    requires name == a + b && a != [] && a[|a| - 1] != '_'
    requires CF.CamelFromUnderscores(a, cap) == ea && CF.CamelFromUnderscores(b, false) == eb
    ensures CF.CamelFromUnderscores(name, cap) == ea + eb
  {
    CF.CamelFromUnderscoresAppend(a, b, cap);
  }

  // Word by word conversions of the names above

  lemma AramUnderscored(t: string, e: string)
    requires t == "aram" && e == "ARAM"
    ensures CF.UnderscoresFromCamel(t) == e
  {
    assert ToUpper('a') == 'A' && ToUpper('m') == 'M' && ToUpper('r') == 'R';
    assert CF.UnderscoresFromCamel(t[3..]) == "M";
    assert CF.UnderscoresFromCamel(t[2..]) == "AM";
  }

  lemma NameUnderscored(t: string, e: string)
    requires t == "Name" && e == "_NAME"
    ensures CF.UnderscoresFromCamel(t) == e
  {
    assert ToUpper('a') == 'A' && ToUpper('e') == 'E' && ToUpper('m') == 'M';
    assert CF.UnderscoresFromCamel(t[3..]) == "E";
    assert CF.UnderscoresFromCamel(t[2..]) == "ME";
  }

  lemma UmberUnderscored(t: string, e: string)
    requires t == "umber" && e == "UMBER"
    ensures CF.UnderscoresFromCamel(t) == e
  {
    assert ToUpper('b') == 'B' && ToUpper('e') == 'E' && ToUpper('m') == 'M' && ToUpper('r') == 'R' && ToUpper('u') == 'U';
    assert CF.UnderscoresFromCamel(t[4..]) == "R";
    assert CF.UnderscoresFromCamel(t[3..]) == "ER";
    assert CF.UnderscoresFromCamel(t[2..]) == "BER";
  }

  lemma TwoUnderscored(t: string, e: string)
    requires t == "Two" && e == "_TWO"
    ensures CF.UnderscoresFromCamel(t) == e
  {
    assert ToUpper('o') == 'O' && ToUpper('w') == 'W';
    assert CF.UnderscoresFromCamel(t[2..]) == "O";
  }

  lemma ParamRaised(t: string, e: string)
    requires t == "param" && e == "PARAM"
    ensures Upper(t) == e
  {
    assert ToUpper('a') == 'A' && ToUpper('m') == 'M' && ToUpper('p') == 'P' && ToUpper('r') == 'R';
    assert Upper(t[4..]) == "M";
    assert Upper(t[3..]) == "AM";
    assert Upper(t[2..]) == "RAM";
  }

  lemma UnderscoreNameRaised(t: string, e: string)
    requires t == "_name" && e == "_NAME"
    ensures Upper(t) == e
  {
    assert ToUpper('a') == 'A' && ToUpper('e') == 'E' && ToUpper('m') == 'M' && ToUpper('n') == 'N';
    assert Upper(t[4..]) == "E";
    assert Upper(t[3..]) == "ME";
    assert Upper(t[2..]) == "AME";
  }

  lemma AnotherCamelized(t: string, e: string)
    requires t == "another" && e == "another"
    ensures CF.CamelFromUnderscores(t, false) == e
  {
    assert ToLower('a') == 'a' && ToLower('e') == 'e' && ToLower('h') == 'h' && ToLower('n') == 'n' && ToLower('o') == 'o' && ToLower('r') == 'r' && ToLower('t') == 't';
    assert CF.CamelFromUnderscores(t[6..], false) == "r";
    assert CF.CamelFromUnderscores(t[5..], false) == "er";
    assert CF.CamelFromUnderscores(t[4..], false) == "her";
    assert CF.CamelFromUnderscores(t[3..], false) == "ther";
    assert CF.CamelFromUnderscores(t[2..], false) == "other";
  }

  lemma UnderscoreParamCamelized(t: string, e: string)
    requires t == "_param" && e == "Param"
    ensures CF.CamelFromUnderscores(t, false) == e
  {
    assert ToLower('a') == 'a' && ToLower('m') == 'm' && ToLower('r') == 'r' && ToUpper('p') == 'P';
    assert CF.CamelFromUnderscores(t[5..], false) == "m";
    assert CF.CamelFromUnderscores(t[4..], false) == "am";
    assert CF.CamelFromUnderscores(t[3..], false) == "ram";
    assert CF.CamelFromUnderscores(t[2..], false) == "aram";
  }

  lemma UnderscoreNameCamelized(t: string, e: string)
    requires t == "_name" && e == "Name"
    ensures CF.CamelFromUnderscores(t, false) == e
  {
    assert ToLower('a') == 'a' && ToLower('e') == 'e' && ToLower('m') == 'm' && ToUpper('n') == 'N';
    assert CF.CamelFromUnderscores(t[4..], false) == "e";
    assert CF.CamelFromUnderscores(t[3..], false) == "me";
    assert CF.CamelFromUnderscores(t[2..], false) == "ame";
  }

  lemma UpperInvalidCamelized(t: string, e: string)
    requires t == "INVALID" && e == "invalid"
    ensures CF.CamelFromUnderscores(t, false) == e
  {
    assert ToLower('A') == 'a' && ToLower('D') == 'd' && ToLower('I') == 'i' && ToLower('L') == 'l' && ToLower('N') == 'n' && ToLower('V') == 'v';
    assert CF.CamelFromUnderscores(t[6..], false) == "d";
    assert CF.CamelFromUnderscores(t[5..], false) == "id";
    assert CF.CamelFromUnderscores(t[4..], false) == "lid";
    assert CF.CamelFromUnderscores(t[3..], false) == "alid";
    assert CF.CamelFromUnderscores(t[2..], false) == "valid";
  }

  lemma UnderscoreUpperFuncCamelized(t: string, e: string)
    requires t == "_FUNC" && e == "Func"
    ensures CF.CamelFromUnderscores(t, false) == e
  {
    assert ToLower('C') == 'c' && ToLower('N') == 'n' && ToLower('U') == 'u' && ToUpper('F') == 'F';
    assert CF.CamelFromUnderscores(t[4..], false) == "c";
    assert CF.CamelFromUnderscores(t[3..], false) == "nc";
    assert CF.CamelFromUnderscores(t[2..], false) == "unc";
  }

  lemma UnderscoreUpperNameCamelized(t: string, e: string)
    requires t == "_NAME" && e == "Name"
    ensures CF.CamelFromUnderscores(t, false) == e
  {
    assert ToLower('A') == 'a' && ToLower('E') == 'e' && ToLower('M') == 'm' && ToUpper('N') == 'N';
    assert CF.CamelFromUnderscores(t[4..], false) == "e";
    assert CF.CamelFromUnderscores(t[3..], false) == "me";
    assert CF.CamelFromUnderscores(t[2..], false) == "ame";
  }

  lemma UpperInvalidCapitalized(t: string, e: string)
    requires t == "INVALID" && e == "Invalid"
    ensures CF.CamelFromUnderscores(t, true) == e
  {
    assert ToLower('A') == 'a' && ToLower('D') == 'd' && ToLower('I') == 'i' && ToLower('L') == 'l' && ToLower('N') == 'n' && ToLower('V') == 'v' && ToUpper('I') == 'I';
    assert CF.CamelFromUnderscores(t[6..], false) == "d";
    assert CF.CamelFromUnderscores(t[5..], false) == "id";
    assert CF.CamelFromUnderscores(t[4..], false) == "lid";
    assert CF.CamelFromUnderscores(t[3..], false) == "alid";
    assert CF.CamelFromUnderscores(t[2..], false) == "valid";
  }

  lemma UnderscoreUpperClassCamelized(t: string, e: string)
    requires t == "_CLASS" && e == "Class"
    ensures CF.CamelFromUnderscores(t, false) == e
  {
    assert ToLower('A') == 'a' && ToLower('L') == 'l' && ToLower('S') == 's' && ToUpper('C') == 'C';
    assert CF.CamelFromUnderscores(t[5..], false) == "s";
    assert CF.CamelFromUnderscores(t[4..], false) == "ss";
    assert CF.CamelFromUnderscores(t[3..], false) == "ass";
    assert CF.CamelFromUnderscores(t[2..], false) == "lass";
  }

  lemma InvalidCamelized(t: string, e: string)
    requires t == "invalid" && e == "invalid"
    ensures CF.CamelFromUnderscores(t, false) == e
  {
    assert ToLower('a') == 'a' && ToLower('d') == 'd' && ToLower('i') == 'i' && ToLower('l') == 'l' && ToLower('n') == 'n' && ToLower('v') == 'v';
    assert CF.CamelFromUnderscores(t[6..], false) == "d";
    assert CF.CamelFromUnderscores(t[5..], false) == "id";
    assert CF.CamelFromUnderscores(t[4..], false) == "lid";
    assert CF.CamelFromUnderscores(t[3..], false) == "alid";
    assert CF.CamelFromUnderscores(t[2..], false) == "valid";
  }

  lemma UnderscoreFuncCamelized(t: string, e: string)
    requires t == "_func" && e == "Func"
    ensures CF.CamelFromUnderscores(t, false) == e
  {
    assert ToLower('c') == 'c' && ToLower('n') == 'n' && ToLower('u') == 'u' && ToUpper('f') == 'F';
    assert CF.CamelFromUnderscores(t[4..], false) == "c";
    assert CF.CamelFromUnderscores(t[3..], false) == "nc";
    assert CF.CamelFromUnderscores(t[2..], false) == "unc";
  }

  lemma InvalidCapitalized(t: string, e: string)
    requires t == "invalid" && e == "Invalid"
    ensures CF.CamelFromUnderscores(t, true) == e
  {
    assert ToLower('a') == 'a' && ToLower('d') == 'd' && ToLower('i') == 'i' && ToLower('l') == 'l' && ToLower('n') == 'n' && ToLower('v') == 'v' && ToUpper('i') == 'I';
    assert CF.CamelFromUnderscores(t[6..], false) == "d";
    assert CF.CamelFromUnderscores(t[5..], false) == "id";
    assert CF.CamelFromUnderscores(t[4..], false) == "lid";
    assert CF.CamelFromUnderscores(t[3..], false) == "alid";
    assert CF.CamelFromUnderscores(t[2..], false) == "valid";
  }

  lemma UnderscoreClassCamelized(t: string, e: string)
    requires t == "_class" && e == "Class"
    ensures CF.CamelFromUnderscores(t, false) == e
  {
    assert ToLower('a') == 'a' && ToLower('l') == 'l' && ToLower('s') == 's' && ToUpper('c') == 'C';
    assert CF.CamelFromUnderscores(t[5..], false) == "s";
    assert CF.CamelFromUnderscores(t[4..], false) == "ss";
    assert CF.CamelFromUnderscores(t[3..], false) == "ass";
    assert CF.CamelFromUnderscores(t[2..], false) == "lass";
  }

  lemma NumberRaised(t: string, e: string)
    requires t == "number" && e == "NUMBER"
    ensures Upper(t) == e
  {
    assert ToUpper('b') == 'B' && ToUpper('e') == 'E' && ToUpper('m') == 'M' && ToUpper('n') == 'N' && ToUpper('r') == 'R' && ToUpper('u') == 'U';
    assert Upper(t[5..]) == "R";
    assert Upper(t[4..]) == "ER";
    assert Upper(t[3..]) == "BER";
    assert Upper(t[2..]) == "MBER";
  }

  lemma UnderscoreThreeRaised(t: string, e: string)
    requires t == "_three" && e == "_THREE"
    ensures Upper(t) == e
  {
    assert ToUpper('e') == 'E' && ToUpper('h') == 'H' && ToUpper('r') == 'R' && ToUpper('t') == 'T';
    assert Upper(t[5..]) == "E";
    assert Upper(t[4..]) == "EE";
    assert Upper(t[3..]) == "REE";
    assert Upper(t[2..]) == "HREE";
  }

  lemma OneUnderscored(t: string, e: string)
    requires t == "One" && e == "_ONE"
    ensures CF.UnderscoresFromCamel(t) == e
  {
    assert ToUpper('e') == 'E' && ToUpper('n') == 'N';
    assert CF.UnderscoresFromCamel(t[2..]) == "E";
  }

  lemma FinalCamelized(t: string, e: string)
    requires t == "final" && e == "final"
    ensures CF.CamelFromUnderscores(t, false) == e
  {
    assert ToLower('a') == 'a' && ToLower('f') == 'f' && ToLower('i') == 'i' && ToLower('l') == 'l' && ToLower('n') == 'n';
    assert CF.CamelFromUnderscores(t[4..], false) == "l";
    assert CF.CamelFromUnderscores(t[3..], false) == "al";
    assert CF.CamelFromUnderscores(t[2..], false) == "nal";
  }

  lemma ParamCamelized(t: string, e: string)
    requires t == "param" && e == "param"
    ensures CF.CamelFromUnderscores(t, false) == e
  {
    assert ToLower('a') == 'a' && ToLower('m') == 'm' && ToLower('p') == 'p' && ToLower('r') == 'r';
    assert CF.CamelFromUnderscores(t[4..], false) == "m";
    assert CF.CamelFromUnderscores(t[3..], false) == "am";
    assert CF.CamelFromUnderscores(t[2..], false) == "ram";
  }

  lemma CapitalInvalidCamelized(t: string, e: string)
    requires t == "Invalid" && e == "invalid"
    ensures CF.CamelFromUnderscores(t, false) == e
  {
    assert ToLower('I') == 'i' && ToLower('a') == 'a' && ToLower('d') == 'd' && ToLower('i') == 'i' && ToLower('l') == 'l' && ToLower('n') == 'n' && ToLower('v') == 'v';
    assert CF.CamelFromUnderscores(t[6..], false) == "d";
    assert CF.CamelFromUnderscores(t[5..], false) == "id";
    assert CF.CamelFromUnderscores(t[4..], false) == "lid";
    assert CF.CamelFromUnderscores(t[3..], false) == "alid";
    assert CF.CamelFromUnderscores(t[2..], false) == "valid";
  }

  lemma UnderscoreCapitalFuncCamelized(t: string, e: string)
    requires t == "_Func" && e == "Func"
    ensures CF.CamelFromUnderscores(t, false) == e
  {
    assert ToLower('c') == 'c' && ToLower('n') == 'n' && ToLower('u') == 'u' && ToUpper('F') == 'F';
    assert CF.CamelFromUnderscores(t[4..], false) == "c";
    assert CF.CamelFromUnderscores(t[3..], false) == "nc";
    assert CF.CamelFromUnderscores(t[2..], false) == "unc";
  }

  lemma UnderscoreCapitalNameCamelized(t: string, e: string)
    requires t == "_Name" && e == "Name"
    ensures CF.CamelFromUnderscores(t, false) == e
  {
    assert ToLower('a') == 'a' && ToLower('e') == 'e' && ToLower('m') == 'm' && ToUpper('N') == 'N';
    assert CF.CamelFromUnderscores(t[4..], false) == "e";
    assert CF.CamelFromUnderscores(t[3..], false) == "me";
    assert CF.CamelFromUnderscores(t[2..], false) == "ame";
  }

  lemma CapitalInvalidCapitalized(t: string, e: string)
    requires t == "Invalid" && e == "Invalid"
    ensures CF.CamelFromUnderscores(t, true) == e
  {
    assert ToLower('a') == 'a' && ToLower('d') == 'd' && ToLower('i') == 'i' && ToLower('l') == 'l' && ToLower('n') == 'n' && ToLower('v') == 'v' && ToUpper('I') == 'I';
    assert CF.CamelFromUnderscores(t[6..], false) == "d";
    assert CF.CamelFromUnderscores(t[5..], false) == "id";
    assert CF.CamelFromUnderscores(t[4..], false) == "lid";
    assert CF.CamelFromUnderscores(t[3..], false) == "alid";
    assert CF.CamelFromUnderscores(t[2..], false) == "valid";
  }

  lemma UnderscoreCapitalClassCamelized(t: string, e: string)
    requires t == "_Class" && e == "Class"
    ensures CF.CamelFromUnderscores(t, false) == e
  {
    assert ToLower('a') == 'a' && ToLower('l') == 'l' && ToLower('s') == 's' && ToUpper('C') == 'C';
    assert CF.CamelFromUnderscores(t[5..], false) == "s";
    assert CF.CamelFromUnderscores(t[4..], false) == "ss";
    assert CF.CamelFromUnderscores(t[3..], false) == "ass";
    assert CF.CamelFromUnderscores(t[2..], false) == "lass";
  }
}

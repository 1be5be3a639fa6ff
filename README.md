# Error Prone checkers: a Dafny model

The repository is a set of custom Error Prone bug checkers. Each checker is a visitor that javac calls on
one kind of syntax node (a variable, method or class declaration, a method invocation, a `new`
expression, a binary comparison, a `return` statement). It either reports a finding, optionally with a
suggested fix, or reports `NO_MATCH`. This project models seven of them:

- **JavaCase**: declarations follow Java naming conventions. Constants and interface fields must be
  UPPER_UNDERSCORE, other variables and methods lowerCamel, classes UpperCamel. The suggested name comes
  from a Guava `CaseFormat` conversion whose source format is guessed from the name.
- **MathTargetType**: a call to `Math.min` / `max` / `addExact` / … where no argument has the type the
  result is used as (a `long` target fed only `int`s, say). The target type is found by walking up the
  tree through arithmetic.
- **DoNotUseDeprecatedFastutilMethod**: a call to one of fastutil's deprecated boxing methods (for
  example `IntList.contains(Object)` or `IntList.set(int, Integer)`). A fastutil map's `entrySet()` gets a
  suggested rename such as `int2ObjectEntrySet`.
- **UseFastutil**: a `new ArrayList<>()` / `new HashMap<>()` / `List.of` / `Map.of` whose element, key or
  value type is a boxed primitive.
- **ReferenceComparison**: `==` / `!=` between references, except for null, `this`, enums, `Class`
  objects and primitives.
- **ReturnsPrivateMutable**: a public method of mutable return type that directly returns a private
  mutable instance field.
- **DoNotReturnNullOptionals**: a `return` of a possibly-null value from the innermost method or lambda
  that returns `Optional`.

## How the model is organised

- **`Ascii`** holds character classes and `toUpperCase` / `toLowerCase` on ASCII letters.
- **`JavaTypes`** describes a javac type as a value `JType(kind, name, text, args, supers, unboxed)`:
  - its type tag;
  - its erased qualified name;
  - its `toString()`;
  - its type arguments;
  - the names of all its supertypes, which is what `isSubtypeOf` and `onDescendantOf` consult;
  - for boxed types, the primitive they unbox to.

  A resolved callee is a `MethodRef`.
- **`Trees`** models a `TreePath` as a sequence of nodes, leaf first. Node identity (javac's reference
  equality on trees) is an `id` field. `EnclosingReturnType` is the first-match search for the innermost
  method or lambda.
- **`Diagnostics`** gives a checker's answer as a `Description`: `NoMatch`, `Finding(message, fix)`, or
  `Thrown(exception)`. `Thrown` stands for an exception the code raises instead of answering.
- **`CaseFormat`** holds the part of Guava's `CaseFormat` that JavaCase uses. Words are split at
  underscores or before capitals, then normalised and joined. It proves the closed forms of the four
  conversions the checker makes.
- There is one module per checker, and one `…Examples` module per checker that restates the cases in
  the repository's positive and negative test resources as lemmas about the model.

Everything is pure functions except for two methods:
- `JavaCase.IsTestMethod` scans the annotations with a loop.
- `DoNotReturnNullOptionals.GetReturnType` walks the path with a loop.

Each method is proved equal to the specification function its caller uses.

`isLowerCamel` (src/main/java/tech/pegasys/tools/epchecks/JavaCase.java:125-127) accepts a single
lower-case word such as `lower`, and the negative test case `public void lower()` relies on that:
`JavaCaseExamples.SingleWordMethod`.

## Model

| member | source | states |
|---|---|---|
| JavaCase.MatchVariable | src/main/java/tech/pegasys/tools/epchecks/JavaCase.java:54-72 | A constant (static and final) or an interface field is reported exactly when its name has a lower-case letter, and the fix is its UPPER_UNDERSCORE form. Any other variable is reported exactly when it is neither all underscores nor lowerCamel, and the fix is its lowerCamel form. The message is always the checker's summary. |
| JavaCase.MatchMethod | src/main/java/tech/pegasys/tools/epchecks/JavaCase.java:75-90 | Constructors (`<init>`) are never reported. Any other method is reported exactly when its name is not lowerCamel and no annotation's type contains `Test`. The fix is the lowerCamel name. |
| JavaCase.MatchClass | src/main/java/tech/pegasys/tools/epchecks/JavaCase.java:93-109 | Anonymous classes (empty name) are never reported. A class is reported exactly when its name is neither all capitals nor UpperCamel. The fix is the UpperCamel name. |
| JavaCase.IsTestMethod | src/main/java/tech/pegasys/tools/epchecks/JavaCase.java:139-146 | The loop returns true exactly when some annotation's type name contains `Test`. |
| JavaCase.ToLowerCamel | src/main/java/tech/pegasys/tools/epchecks/JavaCase.java:152-160 | An UpperCamel name only has its first letter lowered. Any other name is read as UPPER_UNDERSCORE or lower_underscore words: every `_` is dropped and the letter after it raised, the first letter is lowered, and every other letter is lowered. |
| JavaCase.ToUpperCamel | src/main/java/tech/pegasys/tools/epchecks/JavaCase.java:162-170 | A lowerCamel name only has its first letter raised. Any other name is read as underscore words: every `_` is dropped, the first letter and every letter after a `_` are raised, and every other letter is lowered. |
| JavaCase.ToUpperUnderscore | src/main/java/tech/pegasys/tools/epchecks/JavaCase.java:172-180 | A lowerCamel or UpperCamel name gets its first letter raised, then `_` before every later capital and every letter raised. Any other name is read as lower_underscore and only upper-cased. |
| JavaCase.AllUpperIsUpperUnderscore | src/main/java/tech/pegasys/tools/epchecks/JavaCase.java:135-150 | A name of capitals only (`isAllUpper`) also passes `isUpperUnderscore`. |
| JavaCase.CamelClassesDisjoint | src/main/java/tech/pegasys/tools/epchecks/JavaCase.java:125-133 | No name is both lowerCamel and UpperCamel, so the order in which the conversions test the two classes never matters. |
| JavaCase.ToUpperUnderscoreIsUpper | src/main/java/tech/pegasys/tools/epchecks/JavaCase.java:172-180 | The suggested constant name never has a lower-case letter, whatever the input. |
| JavaCase.ToLowerCamelIsLowerCamel | src/main/java/tech/pegasys/tools/epchecks/JavaCase.java:152-160 | For a name that starts with a letter, the suggested lowerCamel name is lowerCamel. |
| JavaCase.ToUpperCamelIsUpperCamel | src/main/java/tech/pegasys/tools/epchecks/JavaCase.java:162-170 | For a name that starts with a letter, the suggested class name is UpperCamel, or all capitals when it has no lower-case letter. |
| JavaCase.ConstantFixAccepted | src/main/java/tech/pegasys/tools/epchecks/JavaCase.java:54-63 | Renaming a constant or interface field to its suggested name silences the checker. |
| JavaCase.VariableFixAccepted | src/main/java/tech/pegasys/tools/epchecks/JavaCase.java:64-72 | Renaming a variable that starts with a letter to its suggested name silences the checker. |
| JavaCase.MethodFixAccepted | src/main/java/tech/pegasys/tools/epchecks/JavaCase.java:75-90 | Renaming a method that starts with a letter to its suggested name silences the checker. |
| JavaCase.ClassFixAccepted | src/main/java/tech/pegasys/tools/epchecks/JavaCase.java:93-109 | Renaming a class that starts with a letter to its suggested name silences the checker. |
| JavaCase.LowerCamelRoundTrip | src/main/java/tech/pegasys/tools/epchecks/JavaCase.java:152-170 | A lowerCamel name with a lower-case letter after its first character survives the round trip to UpperCamel and back unchanged. |
| CaseFormat.CamelToCamel | src/main/java/tech/pegasys/tools/epchecks/JavaCase.java:152-170 | Converting between lowerCamel and UpperCamel changes only the case of the first character. |
| CaseFormat.CamelToUpperUnderscore | src/main/java/tech/pegasys/tools/epchecks/JavaCase.java:172-180 | Converting camel to UPPER_UNDERSCORE raises the first character, then puts `_` before every later capital and raises every letter. |
| CaseFormat.UnderscoreToCamel | src/main/java/tech/pegasys/tools/epchecks/JavaCase.java:152-170 | Converting an underscore format to camel drops every `_`, capitalises the letter after it and lowers every other letter (the first letter is raised or lowered by the target format). This holds for every input, including leading, trailing and doubled underscores. |
| CaseFormat.UnderscoreToUpperUnderscore | src/main/java/tech/pegasys/tools/epchecks/JavaCase.java:172-180 | Converting an underscore format to UPPER_UNDERSCORE is plain upper-casing: the split and the join give back the name. |
| CaseFormat.UnderscoreWordsJoin | src/main/java/tech/pegasys/tools/epchecks/JavaCase.java:152-180 | Splitting at underscores loses nothing: joining the words with `_` gives back the input, and no word contains `_`. |
| CaseFormat.SplitBeforeUpperCamel | src/main/java/tech/pegasys/tools/epchecks/JavaCase.java:152-170 | Splitting before capitals loses nothing: joining the camel words gives back the input. |
| CaseFormat.CamelFromUnderscoresAppend | src/main/java/tech/pegasys/tools/epchecks/JavaCase.java:152-170 | The underscore-to-camel conversion distributes over concatenation, given whether the first part ends in `_`. |
| CaseFormat.UnderscoresFromCamelAppend | src/main/java/tech/pegasys/tools/epchecks/JavaCase.java:172-180 | The camel-to-UPPER_UNDERSCORE tail conversion distributes over concatenation. |
| JavaCaseExamples.LowerUnderscoreConstant | src/test/resources/tech/pegasys/tools/epchecks/JavaCasePositiveCases.java:20-21 | The constant `param_name` is reported, with `PARAM_NAME`. |
| JavaCaseExamples.LowerCamelConstant | src/test/resources/tech/pegasys/tools/epchecks/JavaCasePositiveCases.java:23-24 | The constant `paramName` is reported, with `PARAM_NAME`. |
| JavaCaseExamples.UpperCamelConstant | src/test/resources/tech/pegasys/tools/epchecks/JavaCasePositiveCases.java:26-27 | The constant `ParamName` is reported, with `PARAM_NAME`. |
| JavaCaseExamples.LowerUnderscoreStaticField | src/test/resources/tech/pegasys/tools/epchecks/JavaCasePositiveCases.java:29-30 | The static, non-final field `another_param_name` is reported, with `anotherParamName`. |
| JavaCaseExamples.LowerUnderscoreFinalField | src/test/resources/tech/pegasys/tools/epchecks/JavaCasePositiveCases.java:32-33 | The final instance field `final_param_name` is reported, with `finalParamName`. |
| JavaCaseExamples.UpperStaticField | src/test/resources/tech/pegasys/tools/epchecks/JavaCasePositiveCases.java:35-36 | The static, non-final field `UPPER` is reported, with `upper`. |
| JavaCaseExamples.LowerUnderscoreLocal | src/test/resources/tech/pegasys/tools/epchecks/JavaCasePositiveCases.java:38-53 | A local variable or parameter `param_name`, outside an interface, is reported, with `paramName`. |
| JavaCaseExamples.LowerUnderscoreMethod | src/test/resources/tech/pegasys/tools/epchecks/JavaCasePositiveCases.java:43-44 | The method `invalid_func_name` is reported, with `invalidFuncName`. |
| JavaCaseExamples.CapitalUnderscoreMethod | src/test/resources/tech/pegasys/tools/epchecks/JavaCasePositiveCases.java:46-47 | The method `Invalid_Func_Name` is reported, with `invalidFuncName`. |
| JavaCaseExamples.UpperUnderscoreMethod | src/test/resources/tech/pegasys/tools/epchecks/JavaCasePositiveCases.java:49-50 | The method `INVALID_FUNC_NAME` is reported, with `invalidFuncName`. |
| JavaCaseExamples.LowerCamelClass | src/test/resources/tech/pegasys/tools/epchecks/JavaCasePositiveCases.java:55-56 | The class `invalidClassName` is reported, with `InvalidClassName`. |
| JavaCaseExamples.CapitalUnderscoreClass | src/test/resources/tech/pegasys/tools/epchecks/JavaCasePositiveCases.java:58-59 | The class `Invalid_Class_Name` is reported, with `InvalidClassName`. |
| JavaCaseExamples.LowerUnderscoreClass | src/test/resources/tech/pegasys/tools/epchecks/JavaCasePositiveCases.java:61-62 | The class `invalid_class_name` is reported, with `InvalidClassName`. |
| JavaCaseExamples.UpperUnderscoreClass | src/test/resources/tech/pegasys/tools/epchecks/JavaCasePositiveCases.java:64-65 | The class `INVALID_CLASS_NAME` is reported, with `InvalidClassName`. |
| JavaCaseExamples.LowerCamelInterfaceField | src/test/resources/tech/pegasys/tools/epchecks/JavaCasePositiveCases.java:68-69 | The interface field `numberOne` is reported, with `NUMBER_ONE`. |
| JavaCaseExamples.UpperCamelInterfaceField | src/test/resources/tech/pegasys/tools/epchecks/JavaCasePositiveCases.java:71-72 | The interface field `NumberTwo` is reported, with `NUMBER_TWO`. |
| JavaCaseExamples.LowerUnderscoreInterfaceField | src/test/resources/tech/pegasys/tools/epchecks/JavaCasePositiveCases.java:74-75 | The interface field `number_three` is reported, with `NUMBER_THREE`. |
| JavaCaseExamples.FinalInstanceField | src/test/resources/tech/pegasys/tools/epchecks/JavaCaseNegativeCases.java:27 | The final, non-static field `myAST` is accepted. |
| JavaCaseExamples.SingleWordMethod | src/test/resources/tech/pegasys/tools/epchecks/JavaCaseNegativeCases.java:33 | The single-word method `lower` is accepted. |
| JavaCaseExamples.TestMethodExempt | src/test/resources/tech/pegasys/tools/epchecks/JavaCaseNegativeCases.java:39-40 | `test_OneIsTwo` is accepted with a `@Test` annotation and reported without one. |
| JavaCaseExamples.ConstructorExempt | src/main/java/tech/pegasys/tools/epchecks/JavaCase.java:79-81 | A constructor, whose javac name is `<init>`, is accepted. |
| JavaCaseExamples.AcceptedClassNames | src/test/resources/tech/pegasys/tools/epchecks/JavaCaseNegativeCases.java:44-56 | The classes `Bytes8`, `LRUCache` and `BLS` are accepted. |
| JavaCaseExamples.AnonymousClass | src/test/resources/tech/pegasys/tools/epchecks/JavaCaseNegativeCases.java:58-68 | An anonymous class is accepted. |
| JavaCaseExamples.UnderscoreVariables | src/main/java/tech/pegasys/tools/epchecks/JavaCase.java:121-123 | Variables named `_` or `__` are accepted. |
| JavaCaseExamples.LeadingUnderscoreFix | src/main/java/tech/pegasys/tools/epchecks/JavaCase.java:152-160 | The local `_id` is reported, with the suggestion `Id`, because its leading empty word is dropped. |
| JavaCaseExamples.LeadingUnderscoreFixFlaggedAgain | src/main/java/tech/pegasys/tools/epchecks/JavaCase.java:152-160 | The suggestion `Id` is itself reported, with `id`. So for a name that does not start with a letter, the fix is not always accepted. |
| MathTargetType.IndexOf | src/main/java/tech/pegasys/tools/epchecks/MathTargetType.java:116-120 | The result is the first position of the argument among the call's arguments, or -1 exactly when it is absent. |
| MathTargetType.AnyArgumentIs | src/main/java/tech/pegasys/tools/epchecks/MathTargetType.java:84-91 | True exactly when some argument's type has the given type tag. |
| MathTargetType.TargetType | src/main/java/tech/pegasys/tools/epchecks/MathTargetType.java:93-148 | The corrected walk raises only NullPointerException, and only when every node from the current one up to the root is a non-comparison binary operator: the walk passes the root, whose `getParentPath()` is null. |
| MathTargetType.TargetTypeAsWritten | src/main/java/tech/pegasys/tools/epchecks/MathTargetType.java:93-148 | The walk as written raises only NullPointerException or IndexOutOfBoundsException. NullPointerException comes only from arithmetic up to the root. IndexOutOfBoundsException comes only from a method invocation on the path where the previous node's `indexOf` among the arguments is not a position of a declared parameter. |
| MathTargetType.ArithmeticToRootThrows | src/main/java/tech/pegasys/tools/epchecks/MathTargetType.java:99-114 | Conversely, a run of non-comparison binary operators up to the root always ends in NullPointerException. |
| MathTargetType.DirectParentCases | src/main/java/tech/pegasys/tools/epchecks/MathTargetType.java:93-148 | An assignment gives its variable's type, a cast its cast type, and a variable declaration its declared type. A parent of any kind the walk does not handle gives no target type. |
| MathTargetType.Match | src/main/java/tech/pegasys/tools/epchecks/MathTargetType.java:66-82 | A call outside the confused `Math` methods is never reported. A call to one of them is reported exactly when a target type is found and no argument has that type's tag. |
| MathTargetType.Decide | src/main/java/tech/pegasys/tools/epchecks/MathTargetType.java:66-82 | Given the walk's outcome: a call outside the confused `Math` methods is never reported. For one of them, the walk's exception is passed on. Otherwise the call is reported exactly when there is a target type and no argument has its tag, with the message naming that kind. |
| MathTargetType.MatchAsWritten | src/main/java/tech/pegasys/tools/epchecks/MathTargetType.java:66-82 | The checker as written: the same condition over the as-written walk, and an exception, NullPointerException or IndexOutOfBoundsException, exactly when the walk raises one. |
| MathTargetType.CorrectedAgrees | src/main/java/tech/pegasys/tools/epchecks/MathTargetType.java:116-120 | The corrected target-type walk agrees with the code as written on every path where the latter does not throw IndexOutOfBoundsException. |
| MathTargetType.ArithmeticIsTransparent | src/main/java/tech/pegasys/tools/epchecks/MathTargetType.java:99-114 | A run of non-comparison binary parents does not change the target type: the walk continues to their parent. |
| MathTargetType.ComparisonTakesOtherOperand | src/main/java/tech/pegasys/tools/epchecks/MathTargetType.java:99-109 | Under a comparison the target type is the type of the other operand. |
| MathTargetType.ArgumentTakesParameterType | src/main/java/tech/pegasys/tools/epchecks/MathTargetType.java:116-120 | As an argument of a call, the target type is the declared type of the matching parameter. |
| MathTargetType.ReturnTakesEnclosingReturnType | src/main/java/tech/pegasys/tools/epchecks/MathTargetType.java:122-135 | Under a `return`, the target type is the innermost method's or lambda's return type, and none when there is no such function. |
| MathTargetType.ArgumentOfTargetKindClears | src/main/java/tech/pegasys/tools/epchecks/MathTargetType.java:71-80 | One argument of the target type is enough to silence the checker. |
| MathTargetTypeExamples.LongMessageText | src/main/java/tech/pegasys/tools/epchecks/MathTargetType.java:72-77 | The message for a `long` target starts with "Neither of the function arguments are long types". |
| MathTargetTypeExamples.LongVariable | src/test/resources/tech/pegasys/tools/epchecks/MathTargetTypePositiveCases.java:24 | `long a = Math.min(0, 1)` is reported. |
| MathTargetTypeExamples.LongCast | src/test/resources/tech/pegasys/tools/epchecks/MathTargetTypePositiveCases.java:26 | `a = (long) Math.min(0, 1)` is reported. |
| MathTargetTypeExamples.LongParameter | src/test/resources/tech/pegasys/tools/epchecks/MathTargetTypePositiveCases.java:20-28 | `takesLong(0, Math.min(0, 1), 0)` is reported, through the `long` second parameter. |
| MathTargetTypeExamples.LongReturn | src/test/resources/tech/pegasys/tools/epchecks/MathTargetTypePositiveCases.java:22-30 | `return Math.min(0, 1)` in a method returning `long` is reported. |
| MathTargetTypeExamples.ThroughAddition | src/test/resources/tech/pegasys/tools/epchecks/MathTargetTypePositiveCases.java:75-81 | `long i = Math.min(0, 1) + 1` is reported. |
| MathTargetTypeExamples.ThroughAdditionToInt | src/main/java/tech/pegasys/tools/epchecks/MathTargetType.java:99-114 | The same sum assigned to an `int` is accepted. |
| MathTargetTypeExamples.IntVariable | src/test/resources/tech/pegasys/tools/epchecks/MathTargetTypeNegativeCases.java:22-55 | `int a = Math.min(…)` of `int`s is accepted. |
| MathTargetTypeExamples.OneLongArgument | src/main/java/tech/pegasys/tools/epchecks/MathTargetType.java:84-91 | A call with one `long` argument, assigned to a `long`, is accepted. |
| MathTargetTypeExamples.ComparedWithLong | src/main/java/tech/pegasys/tools/epchecks/MathTargetType.java:99-109 | `Math.min(…) == someLong` is reported. |
| MathTargetTypeExamples.VarargsArgumentAsWritten | src/main/java/tech/pegasys/tools/epchecks/MathTargetType.java:116-120 | As written, `Math.min(…)` passed as the third argument of `String.format(String, Object...)` makes the checker throw IndexOutOfBoundsException. |
| MathTargetTypeExamples.VarargsArgumentCorrected | src/main/java/tech/pegasys/tools/epchecks/MathTargetType.java:116-120 | With the corrected lookup, the same call is an ordinary NO_MATCH. |
| FastutilDeprecated.AllFamilyTypes | src/main/java/tech/pegasys/tools/epchecks/DoNotUseDeprecatedFastutilMethod.java:58-100 | Each of the per-kind interface sets contains that interface of every primitive family. |
| FastutilDeprecated.Abbr | src/main/java/tech/pegasys/tools/epchecks/DoNotUseDeprecatedFastutilMethod.java:339-342 | Every abbreviation is a capital followed by lower-case letters, and it is `Object` exactly when the type is not in the table. |
| FastutilDeprecated.EntrySetFuncName | src/main/java/tech/pegasys/tools/epchecks/DoNotUseDeprecatedFastutilMethod.java:339-343 | The name starts with a lower-case letter. Its first `2` sits right after the key's abbreviation, and the value's abbreviation and `EntrySet` follow it. |
| FastutilDeprecated.EntrySetName | src/main/java/tech/pegasys/tools/epchecks/DoNotUseDeprecatedFastutilMethod.java:332-344 | A name is produced exactly when the first type argument of the call's type has at least two type arguments. It is the abbreviation of the key, lower-cased, then `2`, then the abbreviation of the value, then `EntrySet`. Any other type raises IndexOutOfBoundsException. |
| FastutilDeprecated.Decide | src/main/java/tech/pegasys/tools/epchecks/DoNotUseDeprecatedFastutilMethod.java:315-330 | A deprecated method is always reported with the summary. Otherwise a call is reported exactly when it is `entrySet` on a fastutil function other than Object2Object. Such a call is reported with the type-specific name as its fix when the entry type has two type arguments, and throws IndexOutOfBoundsException when it does not (a raw type); no other exception arises. |
| FastutilDeprecated.Match | src/main/java/tech/pegasys/tools/epchecks/DoNotUseDeprecatedFastutilMethod.java:315-330 | The rule with the corrected `set` table: a deprecated method is reported with the summary. Otherwise only `entrySet` on a fastutil map other than Object2Object is reported, with the type-specific name. The entry-set name's IndexOutOfBoundsException is the only exception. |
| FastutilDeprecated.MatchAsWritten | src/main/java/tech/pegasys/tools/epchecks/DoNotUseDeprecatedFastutilMethod.java:315-330 | The same over the `set` table as written: deprecated calls get the summary; a non-deprecated `entrySet` on a map other than Object2Object gets the type-specific fix, or IndexOutOfBoundsException on a raw entry type; everything else is NO_MATCH. |
| FastutilDeprecated.AbbrOfBoxed | src/main/java/tech/pegasys/tools/epchecks/DoNotUseDeprecatedFastutilMethod.java:46-56 | A family's boxed type abbreviates to that family's prefix. |
| FastutilDeprecated.EntrySetNameOfFamilies | src/main/java/tech/pegasys/tools/epchecks/DoNotUseDeprecatedFastutilMethod.java:332-344 | For boxed key and value types, the suggested name is the lower-cased key prefix, `2`, the value prefix and `EntrySet`. |
| FastutilDeprecated.UnlistedIsObject | src/main/java/tech/pegasys/tools/epchecks/DoNotUseDeprecatedFastutilMethod.java:339-342 | Key and value types outside the abbreviation table give `object2ObjectEntrySet`. |
| FastutilDeprecated.EntrySetFuncNameInjective | src/main/java/tech/pegasys/tools/epchecks/DoNotUseDeprecatedFastutilMethod.java:332-344 | Two pairs of types get the same suggested name only when their abbreviations agree. |
| FastutilDeprecated.DeprecatedComesFirst | src/main/java/tech/pegasys/tools/epchecks/DoNotUseDeprecatedFastutilMethod.java:316-318 | A deprecated method is reported with the generic message before the entry-set rule is consulted. |
| FastutilDeprecated.EntrySetFix | src/main/java/tech/pegasys/tools/epchecks/DoNotUseDeprecatedFastutilMethod.java:320-330 | `entrySet` on an Object2Object map is accepted. On any other fastutil map with a parameterised entry type it is reported with the entry-set message and the type-specific name. |
| FastutilDeprecated.SetFlaggedForEveryFamily | src/main/java/tech/pegasys/tools/epchecks/DoNotUseDeprecatedFastutilMethod.java:208-241 | With the corrected table, `set(int, Boxed)` on any family's list is reported. |
| FastutilDeprecated.CorrectionOnlyAffectsBooleanList | src/main/java/tech/pegasys/tools/epchecks/DoNotUseDeprecatedFastutilMethod.java:210-213 | The correction changes the answer only for receivers below `BooleanList`. |
| FastutilDeprecated.BooleanListSetMissedAsWritten | src/main/java/tech/pegasys/tools/epchecks/DoNotUseDeprecatedFastutilMethod.java:210-213 | As written, `set(int, Boolean)` on a `BooleanList` (and no other family's list) is not reported. |
| FastutilDeprecated.FamilyTypeDeterminesFamily | src/main/java/tech/pegasys/tools/epchecks/DoNotUseDeprecatedFastutilMethod.java:58-100 | Distinct families have distinct interface names. |
| FastutilDeprecated.OnlySetTableHasSet | src/main/java/tech/pegasys/tools/epchecks/DoNotUseDeprecatedFastutilMethod.java:289-301 | A method named `set` is deprecated exactly when the `set` table matches it. |
| FastutilDeprecated.DeprecatedNames | src/main/java/tech/pegasys/tools/epchecks/DoNotUseDeprecatedFastutilMethod.java:289-301 | Every deprecated method has one of the tables' names, or is one of the `toXArray` names. |
| FastutilDeprecatedExamples.BoxedContainsReported | src/test/resources/tech/pegasys/tools/epchecks/DoNotUseDeprecatedFastutilMethodPositiveCases.java:74-75 | `INT_LIST.contains(Integer.valueOf(1))` is reported. |
| FastutilDeprecatedExamples.BoxedSetReported | src/test/resources/tech/pegasys/tools/epchecks/DoNotUseDeprecatedFastutilMethodPositiveCases.java:134-135 | `INT_LIST.set(0, Integer.valueOf(4))` is reported. |
| FastutilDeprecatedExamples.PrimitiveSetAccepted | src/test/resources/tech/pegasys/tools/epchecks/DoNotUseDeprecatedFastutilMethodNegativeCases.java:107 | `INT_LIST.set(0, 4)` is accepted. |
| FastutilDeprecatedExamples.BooleanSetMissedAsWritten | src/main/java/tech/pegasys/tools/epchecks/DoNotUseDeprecatedFastutilMethod.java:210-213 | As written, `booleans.set(0, Boolean.TRUE)` on a `BooleanList` is not reported. |
| FastutilDeprecatedExamples.BooleanSetReported | src/main/java/tech/pegasys/tools/epchecks/DoNotUseDeprecatedFastutilMethod.java:208-241 | With the corrected table, the same call is reported. |
| FastutilDeprecatedExamples.EntrySetNotDeprecated | src/main/java/tech/pegasys/tools/epchecks/DoNotUseDeprecatedFastutilMethod.java:289-301 | No deprecated-method table matches `entrySet`. |
| FastutilDeprecatedExamples.EntrySetTypeName | src/main/java/tech/pegasys/tools/epchecks/DoNotUseDeprecatedFastutilMethod.java:332-338 | For `ObjectSet<Map.Entry<K, V>>`, the name is built from `K` and `V`. |
| FastutilDeprecatedExamples.StringIsObject | src/main/java/tech/pegasys/tools/epchecks/DoNotUseDeprecatedFastutilMethod.java:339-342 | `java.lang.String` abbreviates to `Object`. |
| FastutilDeprecatedExamples.Int2ObjectName | src/test/resources/tech/pegasys/tools/epchecks/DoNotUseDeprecatedFastutilMethodPositiveCases.java:41-42 | `Integer` and `String` give `int2ObjectEntrySet`. |
| FastutilDeprecatedExamples.Int2ObjectEntrySetReported | src/test/resources/tech/pegasys/tools/epchecks/DoNotUseDeprecatedFastutilMethodPositiveCases.java:40-42 | `entrySet()` on an `Int2ObjectMap<String>` is reported, with the fix `int2ObjectEntrySet`. |
| FastutilDeprecatedExamples.Object2ObjectEntrySetAccepted | src/main/java/tech/pegasys/tools/epchecks/DoNotUseDeprecatedFastutilMethod.java:308-312 | `entrySet()` on any Object2Object map is accepted. |
| UseFastutil.CheckList | src/main/java/tech/pegasys/tools/epchecks/UseFastutil.java:94-102 | A list or set type is reported exactly when its element type is a boxed primitive. |
| UseFastutil.CheckMap | src/main/java/tech/pegasys/tools/epchecks/UseFastutil.java:104-114 | A map type is reported exactly when its key or its value is a boxed primitive. |
| UseFastutil.MatchNewClass | src/main/java/tech/pegasys/tools/epchecks/UseFastutil.java:74-82 | `new` of a listed list or set class is checked as a list, `new` of a listed map class as a map, and nothing else is reported. |
| UseFastutil.MatchMethodInvocation | src/main/java/tech/pegasys/tools/epchecks/UseFastutil.java:84-92 | `List.of` / `Set.of` are checked as lists, `Map.of` / `Map.ofEntries` as maps, and nothing else is reported. |
| UseFastutil.ListAndMapMatchersDisjoint | src/main/java/tech/pegasys/tools/epchecks/UseFastutil.java:48-72 | No class or factory method is both a list matcher and a map matcher. |
| UseFastutil.MapFlagSymmetric | src/main/java/tech/pegasys/tools/epchecks/UseFastutil.java:104-114 | Swapping a map's key and value types does not change the answer. |
| UseFastutil.MapWithOneBoxFlagged | src/main/java/tech/pegasys/tools/epchecks/UseFastutil.java:104-114 | One boxed primitive, on either side, is enough for a map to be reported. |
| UseFastutil.ListWithBoxFlagged | src/main/java/tech/pegasys/tools/epchecks/UseFastutil.java:94-102 | A single-element collection of a boxed primitive is reported, whether made by a listed constructor or by `List.of` / `Set.of`. |
| UseFastutil.NoBoxNoFinding | src/main/java/tech/pegasys/tools/epchecks/UseFastutil.java:94-119 | A type with no boxed-primitive argument is never reported. |
| UseFastutil.FastutilNeverFlagged | src/main/java/tech/pegasys/tools/epchecks/UseFastutil.java:48-72 | fastutil's own classes and factory methods are never reported. |
| UseFastutilExamples.ListOfInts | src/test/resources/tech/pegasys/tools/epchecks/UseFastutilPositiveCases.java:35-38 | `List.of(1, 2, 3)` and `Set.of(1, 2, 3)` are reported. |
| UseFastutilExamples.MapOfStringToInt | src/test/resources/tech/pegasys/tools/epchecks/UseFastutilPositiveCases.java:41-42 | `Map.of("1", 1, …)` of type `Map<String, Integer>` is reported. |
| UseFastutilExamples.NewArrayListOfBooleans | src/test/resources/tech/pegasys/tools/epchecks/UseFastutilPositiveCases.java:46-47 | `new ArrayList<>()` as a `List<Boolean>` is reported. |
| UseFastutilExamples.NewHashMapEitherSide | src/test/resources/tech/pegasys/tools/epchecks/UseFastutilPositiveCases.java:157-159 | `new HashMap<>()` as `Map<Boolean, String>` and as `Map<String, Boolean>` are both reported. |
| UseFastutilExamples.NewHashMapOfStrings | src/main/java/tech/pegasys/tools/epchecks/UseFastutil.java:104-114 | `new HashMap<>()` as `Map<String, String>` is accepted. |
| ReferenceComparison.MatchBinary | src/main/java/tech/pegasys/tools/epchecks/ReferenceComparison.java:44-86 | A binary node is reported exactly when it is `==` or `!=`, both operand types are known, and neither operand is exempt. An operand is exempt when it is primitive, the null literal, `this`, an enum, or of type `Class`. |
| ReferenceComparison.Symmetric | src/main/java/tech/pegasys/tools/epchecks/ReferenceComparison.java:54-83 | Swapping the operands does not change the answer. |
| ReferenceComparison.OtherOperatorsIgnored | src/main/java/tech/pegasys/tools/epchecks/ReferenceComparison.java:39-49 | Operators other than `==` and `!=` are never reported. |
| ReferenceComparison.ExemptOperandClears | src/main/java/tech/pegasys/tools/epchecks/ReferenceComparison.java:58-83 | One exempt operand is enough to silence the checker. |
| ReferenceComparison.ThisIsExempt | src/main/java/tech/pegasys/tools/epchecks/ReferenceComparison.java:69-72 | A comparison with `this`, on either side, is accepted. |
| ReferenceComparisonExamples.IdentifiersReported | src/test/resources/tech/pegasys/tools/epchecks/ReferenceComparisonPositiveCases.java:21-26 | `a == b` on two `List<Integer>` parameters is reported. |
| ReferenceComparisonExamples.CallOperandReported | src/test/resources/tech/pegasys/tools/epchecks/ReferenceComparisonPositiveCases.java:28-40 | `a == List.of(1, 2, 3)` and `List.of(1, 2, 3) == b` are reported. |
| ReferenceComparisonExamples.EnumConstantsExempt | src/test/resources/tech/pegasys/tools/epchecks/ReferenceComparisonNegativeCases.java:26-28 | `TestEnum.A == TestEnum.B` is accepted. |
| ReferenceComparisonExamples.EnumVariablesExempt | src/test/resources/tech/pegasys/tools/epchecks/ReferenceComparisonNegativeCases.java:51-53 | `a == b` on two enum parameters is accepted. |
| ReferenceComparisonExamples.ThisExempt | src/test/resources/tech/pegasys/tools/epchecks/ReferenceComparisonNegativeCases.java:30-33 | `this == o` is accepted. |
| ReferenceComparisonExamples.NullExempt | src/test/resources/tech/pegasys/tools/epchecks/ReferenceComparisonNegativeCases.java:35-37 | `a == null` is accepted. |
| ReferenceComparisonExamples.PrimitiveExempt | src/test/resources/tech/pegasys/tools/epchecks/ReferenceComparisonNegativeCases.java:39-41 | `a == 27` with `a` an `Integer` is accepted. |
| ReferenceComparisonExamples.ClassObjectsExempt | src/test/resources/tech/pegasys/tools/epchecks/ReferenceComparisonNegativeCases.java:43-45 | `a.getClass() == b.getClass()` is accepted. |
| ReturnsPrivateMutable.MatchReturn | src/main/java/tech/pegasys/tools/epchecks/ReturnsPrivateMutable.java:99-123 | A `return` is reported exactly when the returned expression is a private, mutable instance field and the node two levels up is a public method returning a mutable type. The message names that method and its return type. A NullPointerException is raised exactly when the field condition holds and the path is shorter than three nodes. |
| ReturnsPrivateMutable.MutableByName | src/main/java/tech/pegasys/tools/epchecks/ReturnsPrivateMutable.java:53-91 | A type counts as mutable exactly when its erased name is in the list of mutable collection types. |
| ReturnsPrivateMutable.MessageNamesMethodAndType | src/main/java/tech/pegasys/tools/epchecks/ReturnsPrivateMutable.java:117-122 | The message contains both the method's name and its return type as written. |
| ReturnsPrivateMutable.OnlyGrandparentMatters | src/main/java/tech/pegasys/tools/epchecks/ReturnsPrivateMutable.java:108-111 | Of the path, only the node two levels above the `return` decides. |
| ReturnsPrivateMutable.NestedReturnNotExamined | src/main/java/tech/pegasys/tools/epchecks/ReturnsPrivateMutable.java:108-111 | A `return` not directly in a method's body block is never reported. |
| ReturnsPrivateMutable.FieldConditionsNecessary | src/main/java/tech/pegasys/tools/epchecks/ReturnsPrivateMutable.java:93-105 | A returned expression that is not private, not an instance field, or not of a mutable type is never reported. |
| ReturnsPrivateMutableExamples.GetterReported | src/main/java/tech/pegasys/tools/epchecks/ReturnsPrivateMutable.java:99-123 | `public List<String> getItems() { return items; }` on a private `items` is reported, naming `getItems` and `List<String>`. |
| ReturnsPrivateMutableExamples.PrivateGetterAccepted | src/main/java/tech/pegasys/tools/epchecks/ReturnsPrivateMutable.java:96-97 | The same getter, made private, is accepted. |
| ReturnsPrivateMutableExamples.ReturnInIfAccepted | src/main/java/tech/pegasys/tools/epchecks/ReturnsPrivateMutable.java:108-111 | The same `return` inside an `if` block of the getter is accepted. |
| Trees.FirstFunctionLike | src/main/java/tech/pegasys/tools/epchecks/DoNotReturnNullOptionals.java:71-87 | The search finds the first method or lambda on the path, with none before it, or reports that there is none. |
| Trees.EnclosingReturnType | src/main/java/tech/pegasys/tools/epchecks/DoNotReturnNullOptionals.java:71-87 | A return type found is the return type of some method or lambda on the path. |
| Trees.InnermostDecides | src/main/java/tech/pegasys/tools/epchecks/MathTargetType.java:122-135 | The innermost method or lambda decides the enclosing return type, whatever lies above it. |
| Trees.NoEnclosingFunction | src/main/java/tech/pegasys/tools/epchecks/DoNotReturnNullOptionals.java:84-86 | With no method or lambda on the path, there is no return type. |
| DoNotReturnNullOptionals.GetReturnType | src/main/java/tech/pegasys/tools/epchecks/DoNotReturnNullOptionals.java:71-87 | The loop computes the return type of the innermost enclosing method or lambda. |
| DoNotReturnNullOptionals.MatchReturn | src/main/java/tech/pegasys/tools/epchecks/DoNotReturnNullOptionals.java:42-67 | A `return` is reported exactly when the innermost enclosing function returns `Optional` and the returned value may be null. |
| DoNotReturnNullOptionals.InnermostNonOptionalAccepted | src/main/java/tech/pegasys/tools/epchecks/DoNotReturnNullOptionals.java:43-46 | A `return` whose innermost function does not return `Optional` is accepted, even inside a method that does. |
| DoNotReturnNullOptionals.NullFromOptionalMethodReported | src/main/java/tech/pegasys/tools/epchecks/DoNotReturnNullOptionals.java:59-64 | A possibly-null `return` directly in a method returning `Optional` is reported. |
| DoNotReturnNullOptionalsExamples.OptionalText | src/main/java/tech/pegasys/tools/epchecks/DoNotReturnNullOptionals.java:89-91 | `Optional<List<Integer>>` counts as an Optional. |
| DoNotReturnNullOptionalsExamples.NullInLambdaAccepted | src/test/resources/tech/pegasys/tools/epchecks/DoNotReturnNullOptionalsNegativeCases.java:40-49 | `return null` inside a lambda returning `Integer`, inside a method returning `Optional`, is accepted. |
| DoNotReturnNullOptionalsExamples.NonNullAccepted | src/test/resources/tech/pegasys/tools/epchecks/DoNotReturnNullOptionalsNegativeCases.java:31-33 | A non-null `return` (`Optional.of(3L)`) from an `Optional` method is accepted. |
| DoNotReturnNullOptionalsExamples.NullInMethodReported | src/main/java/tech/pegasys/tools/epchecks/DoNotReturnNullOptionals.java:59-64 | A possibly-null `return` from an `Optional` method is reported. |

## Left out

- Compiler services are inputs to the model: javac, `ASTHelpers`, `VisitorState` and Error Prone's
  matcher library. A node's type, a method's resolved symbol, modifiers, supertypes and nullness appear
  as fields of the values the checkers receive. Their own behaviour is not modelled.
- DoNotReturnNullOptionals.MatchReturn: the nullness analysis (`TrustingNullnessAnalysis`, a dataflow
  analysis) is not modelled. Its verdict is an input, `Nullness`.
- The rendering of findings into diagnostics, and the text edits of suggested fixes, are left out. This
  is Error Prone's `describeMatch` / `SuggestedFix`. A fix is modelled as the suggested new name.
- JavaCase.MatchClass: the code's fix (JavaCase.java:102-105) replaces the name in the class's printed
  source, keeps only its second line (the declaration header), and replaces the whole class with that one
  line. The model keeps only the suggested name. It does not model the printed text, or the
  ArrayIndexOutOfBoundsException of `[1]` when that text has a single line.
- CaseFormat: only Guava's algorithm for the four conversions JavaCase makes is modelled (the split into
  words, per-word normalisation, the join). The model does not claim equivalence with Guava's
  implementation. Guava's source is not part of this model.
- Ascii: `toLowerCase` / `toUpperCase` are modelled on ASCII letters only. The two no-argument
  `String.toLowerCase()` calls, for the kind name in the message (MathTargetType.java:72) and for the
  entry-set key (DoNotUseDeprecatedFastutilMethod.java:339), use the default locale. The model assumes a
  locale in which ASCII letters map to ASCII letters. Under a Turkish locale, `INT` and `Int` would
  become `ınt`.
- DoNotUseEntrySetWithFastutil is not modelled separately. Its rule is the same entry-set predicate and
  name as the entry-set branch of DoNotUseDeprecatedFastutilMethod, `FastutilDeprecated.EntrySetFix`.
- FastutilDeprecated.EntrySetName: an entry-set type with too few type arguments raises
  IndexOutOfBoundsException in the code. The model gives `None`, which `Decide` turns into
  `Thrown("IndexOutOfBoundsException")`.
- MathTargetType: the negative case `Optional.of(Math.min(…))` (MathTargetTypeNegativeCases.java:57-59)
  is not restated. The model, like the code at MathTargetType.java:70-78,116-120, reads the declared
  parameter of `Optional.of`, the type variable `T`, and so reports this call with the kind `typevar`.
  The test resource expects no finding, for a reason in javac's symbol handling that is not part of
  this model.
- ReturnsPrivateMutable.MatchReturn: a bare `return;` has no expression. It is modelled as a returned
  expression with no symbol, which is never a field, so it is never reported.
- UseFastutil.CheckMap: the code loops over the two type arguments. The model writes the two iterations
  out as one disjunction.
- JavaCase.IsTestMethod: the loop is kept as a method. The matchers use the equivalent predicate
  `HasTestAnnotation`.
- Concurrency, the Error Prone plugin registration, and the `@BugPattern` metadata other than the
  summary messages are outside the model.

## Findings

| source | as written | input that shows it | evidently intended | confidence | as-written member | corrected member |
|---|---|---|---|---|---|---|
| src/main/java/tech/pegasys/tools/epchecks/MathTargetType.java:116-120 | The parameter type is looked up at the argument's index in the callee's declared parameters. A varargs call has more arguments than parameters. | `String.format("%d %d", x, Math.min(a, b))`: the argument index 2 exceeds the 2 parameters, so `get(2)` throws IndexOutOfBoundsException | No target type, or the varargs element type; the checker should not crash | not executed | MathTargetTypeExamples.VarargsArgumentAsWritten | MathTargetTypeExamples.VarargsArgumentCorrected |
| src/main/java/tech/pegasys/tools/epchecks/DoNotUseDeprecatedFastutilMethod.java:210-213 | The `BooleanList` entry of the `set` table gives the parameters `(Boolean)` where every other family has `(int, Boxed)`. | `booleans.set(0, Boolean.TRUE)` on a `BooleanList` is not reported, whereas `ints.set(0, Integer.valueOf(4))` on an `IntList` is | `set(int, Boolean)`, like the other seven families | not executed | FastutilDeprecated.BooleanListSetMissedAsWritten | FastutilDeprecated.SetFlaggedForEveryFamily |

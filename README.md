# Kotlin call rendering and source-set naming, modelled in Dafny

This project models two small string-producing parts of the Kotlin repository.

1. **The call node of the Java-to-Kotlin converter** (`MethodCallExpression` in the j2k AST).
   - `toKotlinImpl` renders a call as Kotlin text. It writes the target in operand position, then the optional `<...>` type-argument block, then the parenthesised argument list, then the trailing lambda. The argument list is left out only when there are no arguments and a trailing lambda is present.
   - The factory functions `build`, `buildNotNull` and `buildNullable` assemble the call target. It is a bare identifier, or a qualified expression when a receiver is given.
2. **The naming rule of Kotlin source sets in the Gradle plugin** (`composeName`). It derives task and configuration names from a source set's name. The task and configuration names of `KotlinOnlySourceSet` are built on this rule. Its `toString`, a separate string format, is modelled as well.

Modules:
- `Wrappers` (`wrappers.dfy`): `Option`, which stands for Kotlin's nullable types.
- `PrettyPrint` (`pretty_print.dfy`): the join helpers the renderer relies on.
- `MethodCall` (`method_call_expression.dfy`): the AST datatypes, the factories and the renderer.
  - `ToKotlinImpl` is a method that appends to a local builder one guarded step at a time, as the source does.
  - It is proved equal to the specification function `CallText`, and the lemmas state the rendering properties about `CallText`.
- `KotlinSourceSets` (`kotlin_source_sets.dfy`): `capitalize`, `composeName` and the source-set names, all as functions, with lemmas about them.

Collaborators whose code is not part of this model become inputs:
- The renderings the call node delegates to (`operandToKotlin`, an expression's `toKotlin`, a type's and a lambda's `toKotlin`) are the function-valued fields of a `Printer`. They are left uninterpreted.
- `CommentConverter` is an opaque token passed unchanged to each of those renderings.
- The list helper `toKotlin(commentConverter, sep, prefix, suffix)` is ASSUMED to give the empty string for an empty list, and otherwise prefix, the fragments joined by `sep`, and suffix (`PrettyPrint.ListToKotlin`). `makeString(sep)` is assumed to be a plain join (`PrettyPrint.Join`).
- `disambiguateName` is an uninterpreted function-valued field of `KotlinPlatformExtension`. `platformName`, the classes and process-resources task names and the disambiguation classifier are plain input fields.

## Model

| member | source | states |
|---|---|---|
| PrettyPrint.Join | j2k/src/org/jetbrains/jet/j2k/ast/MethodCallExpression.kt:34 | an empty list joins to nothing; otherwise the text starts with the first fragment (its full placement is JoinPartAt) |
| PrettyPrint.ListToKotlin | j2k/src/org/jetbrains/jet/j2k/ast/MethodCallExpression.kt:32 | an empty list renders as nothing, with no brackets; a non-empty one starts with the prefix and ends with the suffix |
| PrettyPrint.JoinPartAt | j2k/src/org/jetbrains/jet/j2k/ast/MethodCallExpression.kt:34 | each fragment appears verbatim, in list order, at its offset; adjacent fragments are separated by exactly the separator; the last fragment ends the text |
| PrettyPrint.JoinLength | j2k/src/org/jetbrains/jet/j2k/ast/MethodCallExpression.kt:34 | the joined text is the fragments plus exactly one separator per adjacent pair |
| MethodCall.Build | j2k/src/org/jetbrains/jet/j2k/ast/MethodCallExpression.kt:57-69 | the call's receiver is the given receiver, or none; its selector is the method name as a non-nullable identifier; arguments, type arguments, flag and lambda are copied unchanged |
| MethodCall.BuildInjective | j2k/src/org/jetbrains/jet/j2k/ast/MethodCallExpression.kt:57-69 | two equal built calls come from equal inputs: nothing is dropped, reordered or merged |
| MethodCall.BuildNotNull | j2k/src/org/jetbrains/jet/j2k/ast/MethodCallExpression.kt:43-48 | the call is not nullable; the receiver, name, arguments, type arguments and lambda are passed through; by default the lists are empty and there is no lambda |
| MethodCall.BuildNullable | j2k/src/org/jetbrains/jet/j2k/ast/MethodCallExpression.kt:50-55 | the call is nullable; everything else as for BuildNotNull |
| MethodCall.CallText | j2k/src/org/jetbrains/jet/j2k/ast/MethodCallExpression.kt:29-40 | the specification of the rendered call: it always starts with the head, that is the operand rendering of the target and the type-argument block |
| MethodCall.ToKotlinImpl | j2k/src/org/jetbrains/jet/j2k/ast/MethodCallExpression.kt:29-40 | the text built by successive appends equals the specification CallText |
| MethodCall.StartsWithTargetAndTypeArguments | j2k/src/org/jetbrains/jet/j2k/ast/MethodCallExpression.kt:31-32 | the text begins with the target's operand rendering, directly followed by the type-argument block; the block is empty exactly when there are no type arguments, and otherwise it is the type renderings in angle brackets, separated by ", " |
| MethodCall.ArgumentListIff | j2k/src/org/jetbrains/jet/j2k/ast/MethodCallExpression.kt:33-35 | the parenthesised list follows the head if and only if there are arguments or no lambda; otherwise the lambda follows the head directly |
| MethodCall.EmptyArgumentList | j2k/src/org/jetbrains/jet/j2k/ast/MethodCallExpression.kt:33-34 | with no arguments and no lambda the call ends in exactly "()" |
| MethodCall.ArgumentInOrder | j2k/src/org/jetbrains/jet/j2k/ast/MethodCallExpression.kt:34 | argument i's rendering stands at its position inside the parentheses, followed by ", " or, for the last argument, by ")" |
| MethodCall.EndsWithLambdaOrParenthesis | j2k/src/org/jetbrains/jet/j2k/ast/MethodCallExpression.kt:33-39 | a lambda's rendering ends the text; without a lambda the text ends with ")" (that nothing stands between the head or argument list and the lambda is ArgumentListIff) |
| MethodCall.NullabilityNotRendered | j2k/src/org/jetbrains/jet/j2k/ast/MethodCallExpression.kt:25-40 | two calls that differ only in the nullability flag render identically |
| MethodCall.NotNullAndNullableRenderAlike | j2k/src/org/jetbrains/jet/j2k/ast/MethodCallExpression.kt:43-55 | buildNotNull and buildNullable with the same inputs render to the same text |
| MethodCall.BareCallScenario | j2k/src/org/jetbrains/jet/j2k/ast/MethodCallExpression.kt:29-48 | a call to foo with nothing else renders as "foo()" |
| MethodCall.LambdaOnlyScenario | j2k/src/org/jetbrains/jet/j2k/ast/MethodCallExpression.kt:33-39 | foo with only a trailing lambda " { y }" renders as "foo { y }", with no empty parentheses |
| MethodCall.ArgumentAndLambdaScenario | j2k/src/org/jetbrains/jet/j2k/ast/MethodCallExpression.kt:33-39 | foo with argument x and lambda " { y }" renders as "foo(x) { y }" |
| MethodCall.TypeArgumentScenario | j2k/src/org/jetbrains/jet/j2k/ast/MethodCallExpression.kt:31-34 | foo with type argument T renders as "foo<T>()" |
| KotlinSourceSets.ToUpper | libraries/tools/kotlin-gradle-plugin/src/main/kotlin/org/jetbrains/kotlin/gradle/plugin/sources/KotlinSourceSets.kt:141 | ASCII lower-case letters map to their capitals; every other character is unchanged |
| KotlinSourceSets.Capitalize | libraries/tools/kotlin-gradle-plugin/src/main/kotlin/org/jetbrains/kotlin/gradle/plugin/sources/KotlinSourceSets.kt:141 | the length is kept, the first character is upper-cased, the rest is unchanged, the empty string stays empty |
| KotlinSourceSets.CapitalizeInjective | libraries/tools/kotlin-gradle-plugin/src/main/kotlin/org/jetbrains/kotlin/gradle/plugin/sources/KotlinSourceSets.kt:141 | distinct strings that do not start with a capital stay distinct after capitalising |
| KotlinSourceSets.MainContributesNothing | libraries/tools/kotlin-gradle-plugin/src/main/kotlin/org/jetbrains/kotlin/gradle/plugin/sources/KotlinSourceSets.kt:140 | a set named "main" composes exactly like a set with an empty name |
| KotlinSourceSets.ComposeName | libraries/tools/kotlin-gradle-plugin/src/main/kotlin/org/jetbrains/kotlin/gradle/plugin/sources/KotlinSourceSets.kt:139-146 | the result starts with the prefix (or nothing), and its length is the prefix's, plus the set name's unless the set is main, plus the suffix's |
| KotlinSourceSets.ComposeNameSetPart | libraries/tools/kotlin-gradle-plugin/src/main/kotlin/org/jetbrains/kotlin/gradle/plugin/sources/KotlinSourceSets.kt:140-143 | after the prefix, any set name other than main stands verbatim when the prefix is null or empty and capitalised otherwise; for a non-empty lower-case-first name the verbatim form appears if and only if the prefix is null or empty |
| KotlinSourceSets.ComposeNameSuffixPart | libraries/tools/kotlin-gradle-plugin/src/main/kotlin/org/jetbrains/kotlin/gradle/plugin/sources/KotlinSourceSets.kt:143-145 | a suffix is appended to the name composed without it, verbatim when nothing precedes it and capitalised otherwise; for a lower-case-first suffix the verbatim form appears if and only if nothing precedes it; a null suffix adds nothing |
| KotlinSourceSets.ComposeNameBare | libraries/tools/kotlin-gradle-plugin/src/main/kotlin/org/jetbrains/kotlin/gradle/plugin/sources/KotlinSourceSets.kt:139-146 | with no prefix and no suffix the result is "" for main and the set's own name otherwise |
| KotlinSourceSets.ComposeNameSuffixOnly | libraries/tools/kotlin-gradle-plugin/src/main/kotlin/org/jetbrains/kotlin/gradle/plugin/sources/KotlinSourceSets.kt:143-145 | with only a suffix the result is the bare suffix for main, and otherwise the name followed by the capitalised suffix |
| KotlinSourceSets.ComposeNameInjective | libraries/tools/kotlin-gradle-plugin/src/main/kotlin/org/jetbrains/kotlin/gradle/plugin/sources/KotlinSourceSets.kt:139-146 | for the same prefix and suffix, different non-empty names that do not start with a capital give different names |
| KotlinSourceSets.ComposeNameSuffixInjective | libraries/tools/kotlin-gradle-plugin/src/main/kotlin/org/jetbrains/kotlin/gradle/plugin/sources/KotlinSourceSets.kt:143-145 | for one set and any one prefix, different suffixes that do not start with a capital give different names |
| KotlinSourceSets.ConfigurationSuffix | libraries/tools/kotlin-gradle-plugin/src/main/kotlin/org/jetbrains/kotlin/gradle/plugin/sources/KotlinSourceSets.kt:182-201 | every configuration suffix is non-empty and starts with a lower-case letter |
| KotlinSourceSets.ConfigurationSuffixRoundTrip | libraries/tools/kotlin-gradle-plugin/src/main/kotlin/org/jetbrains/kotlin/gradle/plugin/sources/KotlinSourceSets.kt:182-201 | each configuration is recovered from its suffix |
| KotlinSourceSets.ClassesTaskName | libraries/tools/kotlin-gradle-plugin/src/main/kotlin/org/jetbrains/kotlin/gradle/plugin/sources/KotlinSourceSets.kt:174 | the name starts with the platform's classes task name |
| KotlinSourceSets.JarTaskName | libraries/tools/kotlin-gradle-plugin/src/main/kotlin/org/jetbrains/kotlin/gradle/plugin/sources/KotlinSourceSets.kt:176 | the name is "jar" or ends in "Jar" |
| KotlinSourceSets.ProcessResourcesTaskName | libraries/tools/kotlin-gradle-plugin/src/main/kotlin/org/jetbrains/kotlin/gradle/plugin/sources/KotlinSourceSets.kt:178 | the name starts with the platform's process-resources task name |
| KotlinSourceSets.CompileKotlinTaskName | libraries/tools/kotlin-gradle-plugin/src/main/kotlin/org/jetbrains/kotlin/gradle/plugin/sources/KotlinSourceSets.kt:180 | the name starts with "compile" |
| KotlinSourceSets.ConfigurationName | libraries/tools/kotlin-gradle-plugin/src/main/kotlin/org/jetbrains/kotlin/gradle/plugin/sources/KotlinSourceSets.kt:182-201 | the configuration name is the platform's disambiguateName applied to the name composed with the configuration's suffix (its shape is ConfigurationNames) |
| KotlinSourceSets.ToString | libraries/tools/kotlin-gradle-plugin/src/main/kotlin/org/jetbrains/kotlin/gradle/plugin/sources/KotlinSourceSets.kt:156-158 | the text starts with "source set '<name>'" |
| KotlinSourceSets.JarTaskNames | libraries/tools/kotlin-gradle-plugin/src/main/kotlin/org/jetbrains/kotlin/gradle/plugin/sources/KotlinSourceSets.kt:176 | the jar task is "jar" for main and "<name>Jar" for any other non-empty name |
| KotlinSourceSets.PrefixedTaskNames | libraries/tools/kotlin-gradle-plugin/src/main/kotlin/org/jetbrains/kotlin/gradle/plugin/sources/KotlinSourceSets.kt:174-178 | the classes and process-resources tasks are the platform's task name, followed by the capitalised set name except for main |
| KotlinSourceSets.CompileKotlinTaskNames | libraries/tools/kotlin-gradle-plugin/src/main/kotlin/org/jetbrains/kotlin/gradle/plugin/sources/KotlinSourceSets.kt:180 | the compile task starts with "compile"; for main it is "compile" followed by the capitalised platform name; otherwise the capitalised set name comes between them |
| KotlinSourceSets.CompileKotlinTaskNamesDistinct | libraries/tools/kotlin-gradle-plugin/src/main/kotlin/org/jetbrains/kotlin/gradle/plugin/sources/KotlinSourceSets.kt:180 | two lower-case-first, non-empty source sets of one platform never share a compile task name |
| KotlinSourceSets.ConfigurationNames | libraries/tools/kotlin-gradle-plugin/src/main/kotlin/org/jetbrains/kotlin/gradle/plugin/sources/KotlinSourceSets.kt:182-201 | a configuration name is disambiguateName of the bare suffix for main, and of "<name><Suffix>" for any other non-empty name |
| KotlinSourceSets.ConfigurationNamesDistinct | libraries/tools/kotlin-gradle-plugin/src/main/kotlin/org/jetbrains/kotlin/gradle/plugin/sources/KotlinSourceSets.kt:182-201 | before disambiguation, the seven configurations of one set get seven different names |
| KotlinSourceSets.ToStringShape | libraries/tools/kotlin-gradle-plugin/src/main/kotlin/org/jetbrains/kotlin/gradle/plugin/sources/KotlinSourceSets.kt:156-158 | the text starts with "source set '<name>'"; it ends in ")" exactly when the platform has a disambiguation classifier; without one it is exactly "source set '<name>'"; with classifier c it is exactly "source set '<name>' (c)" |

## Left out

- The rendering collaborators (`operandToKotlin` with its precedence-based grouping, `Expression.toKotlin` with comment re-emission, and type and lambda rendering) are defined elsewhere. They are uninterpreted `Printer` functions, so no precedence table is modelled.
- `PrettyPrint.ListToKotlin`: the empty-list behaviour of the j2k list helper is an assumption, because that helper's source is not part of this model.
- Expression kinds other than identifier and qualified expression (nested calls, lambdas, casts and so on) are one opaque `OtherExpression` variant, rendered only through the `Printer`. Their classes are not part of this model, so no lemma ties the rendering of a lambda used as an argument to the rendering of a trailing lambda.
- `StringBuilder` is modelled as a local string variable that the method reassigns. Buffer capacity and in-place growth are not modelled.
- KotlinSourceSets.Capitalize: upper-cases only the ASCII letters a-z and keeps the length. Kotlin upper-cases any lower-case first character through the default locale: `ß` becomes `SS`, which changes the length, and under a Turkish locale `i` becomes `İ`. The length facts in ComposeName, Capitalize and the "one name is longer" step of ComposeNameInjective hold only for this ASCII model.
- KotlinSourceSets.CapitalizeInjective, KotlinSourceSets.ComposeNameInjective, KotlinSourceSets.CompileKotlinTaskNamesDistinct, KotlinSourceSets.ComposeNameSuffixInjective: hold only for names and suffixes whose first character is ASCII. Kotlin capitalises a non-ASCII lower-case first letter, so for example the source sets `éa` and `Éa` would both get the compile task name `compileÉa...`, while this model keeps `éa` unchanged.
- Gradle plumbing in KotlinSourceSets.kt is left out. This covers the `KotlinJavaSourceSet` delegating getters and setters, `compiledBy`, closure configuration, `SourceDirectorySet` creation and its filters, and the class-path properties. It is thin wrapping of Gradle APIs whose code is not part of this model.
- The reflection-based `createDefaultSourceDirectorySet` and `constructorOrNull` are runtime class lookups with exception handling, so they are left out.
- `disambiguateName` and the platform extension's values are opaque inputs. Their definitions are not part of this model.
- The parser test inputs under compiler/tests-spec have no logic to model.
- Thread safety of the immutable nodes is not modelled. Datatype values are immutable by construction.

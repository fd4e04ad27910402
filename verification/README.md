# NSInit member macro, modelled in Dafny

`@NSInit` is a Swift member macro. Attached to a struct or a class, it adds one
`init` whose parameters are taken from the variable members and whose body assigns
each of them to `self`. This project models the expansion and proves what it does
with any member block, including the edge cases that the written code produces.

The expansion works in four steps, and each has its own part of the model:

1. **Declaration kind.** `DeclGroup` has a `DeclKind`: struct, class, actor, enum,
   extension or protocol. `Expansion` (a method) and `Expand` (its specification
   function) accept structs and classes. Every other kind throws
   `onlyApplicableToStructOrClass`.
2. **Field extraction** (`getStructInfo` / `getClassInfo`). Two lists are extracted
   independently, each as a `compactMap` pipeline over the member block:
   - the names are the first-binding patterns of every variable member;
   - the types are the first-binding type annotations of the members that have one.

   Every `VariableDeclSyntax` member counts: `var` or `let`, static or not, stored or
   computed.
3. **Header text.** `BuildHeader` is a loop over `zip(names, types)`. Starting from
   `"init("`, it appends `"name: type, "` for each pair, drops the last two
   characters, then appends `")"`.
4. **Body and build.** `BuildBody` makes one statement `self.n = n` per *name*.
   SwiftSyntax's `InitializerDeclSyntax(header) { ... }` is an oracle parameter,
   `parses`, that may reject the text. `BuildInit` returns nil when it does. The
   expansion then throws `unableToBuildInit`; otherwise it returns exactly that one
   initializer.

Proved consequences of the code as written:
- The header has `min(|names|, |types|)` parameters. Since `|types| <= |names|`, that is `|types|`.
- The body has `|names|` statements.
- A variable without a type annotation shifts every later type onto an earlier name.
- Pattern and type texts are interpolated with their trivia, so `var count = 0` yields `count ` (with the space before `=`).
- With no pairs, the header is `"ini)"`: `dropLast(2)` removes the `"t("` of `"init("`.
- The struct path and the class path give identical results.

Modules:
- `SwiftStdlib`: `Optional`, throwing results, `compactMap`, `zip` and `dropLast`.
- `Syntax`: the abstract declaration tree.
- `NSInitErrors`: the error enum and its `description`.
- `NSInitMacro`: the macro itself.
- `NSInitScenarios`: the test suite's `Car` expansions and the edge cases on concrete input.

Consequences of the code that a reader might not expect (the model follows the code):
- computed properties are not filtered out;
- a missing annotation drops a type rather than producing an empty one;
- an empty member block gives the header `"ini)"`, not a no-argument `init()`;
- the parameter count is `min(|names|, |types|)`, not the field count.

## Model

| member | source | states |
|---|---|---|
| `SwiftStdlib.CompactMap` | Sources/NSInitMacros/NSInitMacro.swift:88-90 | `compactMap` keeps at most as many elements as its input |
| `SwiftStdlib.Zip` | Sources/NSInitMacros/NSInitMacro.swift:98 | `zip` has the length of the shorter sequence and pairs elements position by position |
| `SwiftStdlib.DropLast` | Sources/NSInitMacros/NSInitMacro.swift:101 | `dropLast(k)` gives a prefix k shorter, or the empty string when at most k characters remain |
| `NSInitErrors.Description` | Sources/NSInitMacros/NSInitError.swift:15-23 | `description` is total over both cases and each message is a sentence ending in `.` |
| `NSInitErrors.DescriptionTexts` | Sources/NSInitMacros/NSInitError.swift:17-21 | the two messages are exactly `@NSInit is only applied to a struct or class.` and `@NSInit was unable to build the initialzer.` (misspelling kept) |
| `NSInitErrors.DescriptionInjective` | Sources/NSInitMacros/NSInitError.swift:11-23 | the two cases have distinct messages: equal messages iff equal errors |
| `NSInitMacro.GetInfo` | Sources/NSInitMacros/NSInitMacro.swift:86-93 | the extracted types are never more than the extracted names (same for `getClassInfo`, lines 57-64) |
| `NSInitMacro.NamesAreFieldPatterns` | Sources/NSInitMacros/NSInitMacro.swift:88-89 | the names are exactly the first-binding patterns of the variable members, one per such member, in source order |
| `NSInitMacro.TypesAreFieldAnnotations` | Sources/NSInitMacros/NSInitMacro.swift:88-90 | the types are the first-binding annotations of the variable members that have one, in source order; unannotated members are skipped |
| `NSInitMacro.ExtractionAppend` | Sources/NSInitMacros/NSInitMacro.swift:86-93 | extraction of a split member block is the concatenation of the extractions of the parts (order preserved) |
| `NSInitMacro.AnnotatedVariableInfo` | Sources/NSInitMacros/NSInitMacro.swift:88-90 | a variable member with an annotated first binding adds its name and its type, whether `var` or `let`, static or not, stored or computed |
| `NSInitMacro.UnannotatedVariableShiftsTypes` | Sources/NSInitMacros/NSInitMacro.swift:89-90 | a variable member with no annotation on its first binding adds a name but no type, so later types move one name left |
| `NSInitMacro.SkippedMember` | Sources/NSInitMacros/NSInitMacro.swift:88-89 | non-variable members and variable members without bindings add nothing |
| `NSInitMacro.AlignedWhenAllAnnotated` | Sources/NSInitMacros/NSInitMacro.swift:88-99 | when every first binding is annotated, names and types have equal length and the i-th zipped pair is the i-th field's own pattern and type |
| `NSInitMacro.ParameterCount` | Sources/NSInitMacros/NSInitMacro.swift:98 | the zipped pair list has min(\|names\|, \|types\|) = \|types\| entries |
| `NSInitMacro.AppendedIsJoinedList` | Sources/NSInitMacros/NSInitMacro.swift:98-100 | after at least one pair, the loop's appended text is the `", "`-joined parameter list plus one trailing `", "` |
| `NSInitMacro.HeaderOfPairs` | Sources/NSInitMacros/NSInitMacro.swift:97-102 | with at least one pair, the header is `init(` + the `", "`-joined `name: type` list + `)` |
| `NSInitMacro.HeaderOfNoPairs` | Sources/NSInitMacros/NSInitMacro.swift:97-102 | with no pair, the header is `ini)` |
| `NSInitMacro.BuildHeader` | Sources/NSInitMacros/NSInitMacro.swift:97-102 | the loop over `zip(names, types)` yields `ini)` when a list is empty and `init(n1: t1, ..., nk: tk)` otherwise (same code at lines 68-73) |
| `NSInitMacro.BuildBody` | Sources/NSInitMacros/NSInitMacro.swift:105-109 | the body has one statement `self.n = n` per name, in name order, independent of the types |
| `NSInitMacro.BuildInit` | Sources/NSInitMacros/NSInitMacro.swift:95-112 | the builder returns the initializer iff SwiftSyntax accepts its header and body, and then it has one statement per name (same code at lines 66-83) |
| `NSInitMacro.CandidateShape` | Sources/NSInitMacros/NSInitMacro.swift:95-112 | the initializer handed to SwiftSyntax has \|names\| statements `self.n = n`, and its header is `ini)` without types or `init(` + joined parameters + `)` with them |
| `NSInitMacro.Expansion` | Sources/NSInitMacros/NSInitMacro.swift:34-54 | other kinds throw `onlyApplicableToStructOrClass`; structs and classes get exactly the built initializer, or `unableToBuildInit` when the build fails |
| `NSInitMacro.KindGating` | Sources/NSInitMacros/NSInitMacro.swift:41-47 | the expansion throws `onlyApplicableToStructOrClass` iff the declaration is neither a struct nor a class |
| `NSInitMacro.ResultShape` | Sources/NSInitMacros/NSInitMacro.swift:49-53 | for a struct or class, the expansion fails iff the build fails, with `unableToBuildInit`, and otherwise returns exactly one declaration |
| `NSInitMacro.StructClassEquivalence` | Sources/NSInitMacros/NSInitMacro.swift:57-112 | the struct path and the class path give the same result for the same members |
| `NSInitScenarios.CarInfo` | Tests/NSInitTests/NSInitTests.swift:23-29 | `Car`'s members give the names number, name, model, color, size and the types Int, String, String, String, Double |
| `NSInitScenarios.CarHeaderText` | Tests/NSInitTests/NSInitTests.swift:40 | `Car`'s header is `init(number: Int, name: String, model: String, color: String, size: Double)` |
| `NSInitScenarios.CarBody` | Tests/NSInitTests/NSInitTests.swift:41-45 | `Car`'s body is the five assignments `self.number = number` ... `self.size = size` |
| `NSInitScenarios.CarExpansion` | Tests/NSInitTests/NSInitTests.swift:19-83 | `Car` as a struct and as a class expands to that one initializer when SwiftSyntax accepts it |
| `NSInitScenarios.MissingAnnotationMisaligns` | Sources/NSInitMacros/NSInitMacro.swift:89-108 | `var count = 0; var label: String` (pattern text `count ` with its trailing trivia) gives the header `init(count : String)` and the two assignments `self.count  = count ` and `self.label = label` |
| `NSInitScenarios.NoVariableMembersNoFields` | Sources/NSInitMacros/NSInitMacro.swift:88-89 | a member block whose members are all non-variables or binding-less variables has no fields |
| `NSInitScenarios.NoFieldsHeader` | Sources/NSInitMacros/NSInitMacro.swift:95-112 | any struct or class with no variable member that has a binding (the empty block included) gets the header `ini)` and an empty body, or `unableToBuildInit` if SwiftSyntax rejects that |
| `NSInitScenarios.EnumRefused` | Sources/NSInitMacros/NSInitMacro.swift:45-46 | an enum is refused, whatever its members, with the message `@NSInit is only applied to a struct or class.` |

## Left out

- SwiftSyntax's parsing and building are out of scope. This covers `PartialSyntaxNodeString`, `InitializerDeclSyntax(header) { ... }` and `ExprSyntax(...)`. The model uses the oracle `parses`, which accepts or rejects a header and a body. It makes no assumption about whether `ini)` or a misaligned header parses. The built initializer is modelled as its header text and statement texts, not as a formatted syntax node.
- Interpolated syntax nodes (`"\(name)"`, `"\(type)"`) are modelled by their full description: `pattern` and `typeAnnotation` hold each node's text with its trivia. How SwiftSyntax assigns trivia to tokens is not modelled; the properties hold for any such text. A trailing comment in a type's trivia (`var a: Int // note`) would therefore swallow the appended `)`, and the model reflects that when given that text.
- Swift `String` counts grapheme clusters and Dafny `string` counts characters. `dropLast(2)` only ever removes `", "` or the `"t("` of `"init("`, so the two agree here.
- The dynamic casts (`declaration.as(...)`, `$0.decl.as(...)`) are replaced by the closed `DeclKind` and `Member` datatypes. The `AttributeSyntax` node and the `MacroExpansionContext` are not used by the code and are not modelled.
- The duplicated struct and class code is modelled once. `getStructInfo` and `getClassInfo` are the single `GetInfo`; `buildStructInit` and `buildClassInit` are the single `BuildInit`. `StructClassEquivalence` states that the two paths agree.
- Throwing is modelled as a `Result` value.
- The `@main` compiler-plugin registration (`NSInitPlugin`) is plugin wiring with no logic.
- `Sources/NSInit/NSInit.swift` only declares the macro, and `Sources/NSInitClient/main.swift` only applies it. Neither is part of this model.
- The indentation and line breaks of the expanded source in the tests come from the SwiftSyntax formatter and are not modelled.
- Running extraction twice on the same declaration gives equal results. This holds because `GetInfo` is a function, so it needs no separate lemma.

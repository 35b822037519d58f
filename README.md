# A line-by-line recogniser for PHP source, in Dafny

The repository reads a PHP file line by line and builds a tree of the declarations it finds: namespaces, global variables and constants, functions, classes, interfaces, traits, their members, and the docblock comments (`/** ... */`) in front of them. It has two versions of this recogniser:

- **parser.py** is the canonical one.
  - `Parser.parse` is a state machine over the normalised lines. Its states are out of PHP, global scope, in a docblock, in a function, in a class, interface or trait, and in a method.
  - It keeps a brace-depth counter that looks only at the first character of a line.
  - It holds a parsed docblock as pending until a declaration consumes it.
  - It fills a declaration tree rooted at the root namespace.
  - The extractors `parser_namespace` … `parser_method` read one declaration out of one line by slicing at fixed offsets around `str.find` results. `parser_docblock` turns a comment body into a summary and a description.
- **parcer.py** is an earlier draft of the same recogniser.
  - It classifies lines with regular expressions.
  - It starts the brace depth of a scope at the number of `{` on its header line.
  - It follows the scope through the `cur_token`/`parent_token` chain of a token tree.
  - It parks a docblock on the parent token until `set_docblock` moves it onto the next declaration.

The model has three layers:

- **Specifications.**
  - `ScopeMachine` and `Draft` are the scans as pure step functions over a state record, with `Run` over all lines.
  - `Extractors` and `Docs` are the line readers.
  - `Lines`, `PyStr` and `LinePatterns` hold Python's string operations and the regular expressions.
- **Imperative code, in the source's own form.**
  - `Parser.Parser` is a class whose fields are those of the Python object.
  - `DraftParser.TokenTree` is a token tree changed in place, with `DraftParser.SetDocblock` acting on it.
  - The normalisation loop, the parameter walk and the docblock loop are methods with loops.
  - Each method is proved to compute its specification: `Parse` computes `Steps`/`Run` over the same lines.
- **Laws.** `ScopeLaws`, `DraftLaws` and `ExtractorLaws` prove what the parser promises about the specifications:
  - the transitions of each state, one law per branch of the scan;
  - that a function or method body closes on the line where the depth returns to zero and restores the enclosing scope;
  - where a docblock ends up, and that the root namespace is documented at most once;
  - that each extractor gives back the name, value, visibility and parameters written into a well-formed line.

The scans are stated over any line classifier (`ScopeMachine.Classifier`, `Draft.Patterns`), because the `utils` recognisers of parser.py are not part of this model. parcer.py's own regular expressions are written out in `LinePatterns`, and `Draft.Regexes` gathers them.

## Model

| member | source | states |
|---|---|---|
| PyStr.Find | parser.py:99 | `str.find`: -1 exactly when the pattern occurs nowhere; otherwise an occurrence with none before it |
| PyStr.StartsWithIsFindZero | parser.py:99 | `line.find(p) == 0` holds exactly when the line starts with `p` |
| PyStr.Slice | parser.py:322 | Python slicing: an in-range slice is the subsequence, the result is empty when the clamped end is not after the clamped start, and it is never longer than the string |
| PyStr.Drop | parser.py:384 | `s[i:]`: the suffix from `i` when `i` is in range, counted from the end when `i` is negative |
| PyStr.Strip | parser.py:85 | `str.strip()`: the result is the slice of the input that starts at its first non-whitespace character; everything outside the slice is whitespace, and the result neither starts nor ends with whitespace |
| PyStr.StripVisible | parser.py:85 | stripping keeps every non-whitespace character, in order |
| PyStr.VisibleOfSlice | parser.py:85 | a slice with only whitespace outside it holds every non-whitespace character of the string, in order |
| PyStr.StripLeadingBlank | parser.py:85 | a leading whitespace character does not change the result of `strip()` |
| PyStr.StripTrimmed | parser.py:85 | stripping a string that already has no surrounding whitespace leaves it unchanged |
| PyStr.CollapseSpaces | parser.py:83 | `re.sub(' +', ' ', s)`: no two adjacent blanks remain, every character other than a blank is kept in order, the first character is kept, and the result is no longer |
| PyStr.CollapseNoDoubleSpace | parser.py:83 | collapsing a string with no double blank leaves it unchanged |
| PyStr.Split | parser.py:444 | `str.split(sep)` always yields at least one part |
| PyStr.Join | parser.py:444 | joining parts with a separator starts with the first part |
| PyStr.SplitJoin | parser.py:444 | splitting the join of parts that do not contain the separator's first character gives the parts back |
| PyStr.Replace | parser.py:473 | `str.replace` leaves a string without the target unchanged, and a string with it at least as long as the replacement |
| PyStr.CountChar | parcer.py:58 | `len(re.findall('{', line))` is the number of `{` in the line: at most its length, and zero exactly when there is none |
| PyStr.VisibleOfNonBlanks | parser.py:83-85 | removing blanks leaves the non-whitespace characters as they were |
| Lines.NormalForm | parser.py:81-88 | a normalised line is empty or has no surrounding whitespace, and it keeps every non-whitespace character of the raw line, in order |
| Lines.Normalised | parser.py:81-88 | the kept lines are all normal, and there are no more of them than raw lines |
| Lines.NormaliseLines | parser.py:81-88 | the loop that collapses, strips and keeps non-empty lines computes `Normalised` |
| Lines.NormalFormFixed | parser.py:83-85 | normalising a normalised line changes nothing |
| Lines.NormalisedFixed | parser.py:81-88 | every kept line is non-empty and is its own normal form |
| Lines.NormalisedOfFixed | parser.py:81-88 | lines that are their own non-empty normal forms pass through normalisation unchanged |
| Lines.NormalisedIdempotent | parser.py:81-88 | normalising already normalised lines gives the same lines |
| Lines.Delta | parser.py:164-169 | the depth change of a body line counts only its first character: +1 for `{`, -1 for `}` |
| Docs.CommentText | parser.py:267-269 | the text after a comment line's first `*` has no surrounding whitespace |
| Docs.TextsAt | parser.py:266-269 | the k-th text is the comment text of the k-th body line |
| Docs.Kept | parser.py:270-271 | the kept texts are never empty and never more than the lines |
| Docs.DescriptionLines | parser.py:296-299 | the description lines are the longest prefix of non-tag lines: each is not a tag, and the next one, if any, is a tag |
| Docs.ParseDocblock | parser.py:261-308 | the imperative `parser_docblock` computes `DocblockOf` |
| Docs.KeptTexts | parser.py:263-271 | the skip-empty-lines loop keeps exactly the non-empty comment texts, in order (`Kept(Texts(lines))`) |
| Docs.SummaryAndDescriptionOf | parser.py:285-308 | the pop-and-concatenate loop computes the summary and description that `FromKept` defines |
| Docs.BlankDocblock | parser.py:273-277 | `parser_docblock` returns nothing exactly when every line's comment text is empty |
| Docs.KeptEmpty | parser.py:270-273 | nothing is kept exactly when every text is empty |
| Docs.SummaryAndDescription | parser.py:286-292 | the summary is never a tag line; it is empty exactly when the first kept line is a tag, and then the description is empty too |
| Docs.StarText | parser.py:267-269 | the comment text of `* x` is `x` |
| Docs.TextsOfStars | parser.py:266-269 | the comment texts of starred lines are the original texts |
| Docs.KeptNonEmpty | parser.py:270-271 | non-empty texts are all kept |
| Docs.DescriptionOfTexts | parser.py:296-299 | the description stops exactly at the first tag line |
| Docs.StarsDocblock | parser.py:261-308 | a starred comment of non-empty texts reads back through `FromKept` on those texts |
| Docs.FirstLineSummary | parser.py:289-292 | a first line that is not a tag is the summary |
| Docs.WrittenDocblock | parser.py:261-308 | a written docblock of summary, description lines and tags reads back as that summary and the description lines concatenated |
| Extractors.Delimiter | parser.py:389-392 | the end of the next parameter is -1 or a position inside the remainder |
| Extractors.ParameterNames | parser.py:386-395 | the imperative parameter loop computes `Parameters`, including the case where it never ends |
| Extractors.NextParameter | parser.py:388-395 | one pass of the loop body yields the next name and a strictly shorter rest, or nothing exactly when no delimiter remains and the walk never ends |
| Extractors.DelimiterOf | parser.py:389-392 | `pos_var_end` is the delimiter position and indexes a `,` or `)`; -1 when neither remains |
| Extractors.StuckWalk | parser.py:388-395 | when a `$` remains but no `,` or `)`, the remainder does not shrink and the walk never ends |
| Extractors.AsGlobalVars | parser.py:394 | each parameter name becomes an untyped global variable, in order |
| Extractors.ParseFunction | parser.py:378-405 | the imperative `parser_function` computes `FunctionDeclOf` |
| Extractors.ParseMethod | parser.py:523-562 | the imperative `parser_method` computes `MethodDeclOf` |
| Extractors.WithoutStatic | parser.py:469-473 | removing `static` never empties a line that is neither empty nor `"static "` |
| ExtractorLaws.NamespaceRoundTrip | parser.py:252-258 | `parser_namespace("namespace N;")` gives `N` |
| ExtractorLaws.PhpPrefixIgnored | parser.py:253-254 | a leading `<?php ` does not change the namespace read |
| ExtractorLaws.PhpNamespaceRoundTrip | parser.py:252-258 | `parser_namespace("<?php namespace N;")` gives `N` |
| ExtractorLaws.DefineRoundTrip | parser.py:352-357 | `parser_define("define('N', V);")` gives name `N` and value `V` |
| ExtractorLaws.ConstRoundTrip | parser.py:364-369 | `parser_const("const N = V;")` gives name `N` and value `V` |
| ExtractorLaws.PropertyConstBranch | parser.py:501-520 | the visibility is public for `const ` or `public `, else protected, else private, tested at the start in that order |
| ExtractorLaws.PropertyConstBare | parser.py:503-507 | `const N = V;` in a class is a public constant `N` with value `V` |
| ExtractorLaws.PropertyConstRoundTrip | parser.py:501-520 | `<access> const N = V;` gives back the access, name and value |
| ExtractorLaws.TraitRoundTrip | parser.py:458-462 | `parser_trait("trait T")` gives `T` |
| ExtractorLaws.ClassRoundTrip | parser.py:423-424 | `class C` gives `C` with neither parent nor interface |
| ExtractorLaws.ExtendsRoundTrip | parser.py:417-419 | `class C extends P` gives `C` with parent `P` |
| ExtractorLaws.ImplementsRoundTrip | parser.py:420-422 | `class C implements I` gives `C` with interface `I` |
| ExtractorLaws.InterfaceRoundTrip | parser.py:447-448 | `interface I` gives `I` with no parents |
| ExtractorLaws.InterfaceExtendsRoundTrip | parser.py:441-444 | `interface I extends A, B, …` gives `I` with parents `[A, B, …]` |
| ExtractorLaws.WalkStep | parser.py:388-395 | one parameter `$p` ended by `,` or `)` is recorded and the walk continues after it |
| ExtractorLaws.WalkEmpty | parser.py:388 | a list with no `$` yields no parameters |
| ExtractorLaws.WalkLast | parser.py:391-392 | the last parameter is ended by `)` |
| ExtractorLaws.WalkParamList | parser.py:384-395 | the walk over `($a, $b, …)` yields exactly `[a, b, …]` |
| ExtractorLaws.FunctionRoundTrip | parser.py:378-405 | `function f($a, $b)` gives name `f` and parameters `a`, `b` as untyped variables |
| ExtractorLaws.VisibilityOfFunction | parser.py:525 | a header with no visibility word is public and is left as it is |
| ExtractorLaws.VisibilityOfAccess | parser.py:527-534 | a leading visibility word is recognised and removed |
| ExtractorLaws.MethodBareRoundTrip | parser.py:523-562 | `function m($a, …)` is a public method `m` with parameters `a`, … |
| ExtractorLaws.MethodRoundTrip | parser.py:523-562 | `<access> function m($a, …)` gives back the access, name and parameters |
| ExtractorLaws.VarRoundTrip | parser.py:315-326 | any line whose normal form is `$n = v` gives `n` |
| ExtractorLaws.BareVarRoundTrip | parser.py:323-324 | any line whose normal form is `$n;` gives `n` |
| ExtractorLaws.WrittenVarRoundTrip | parser.py:315-326 | `parser_var("$n = v")` gives `n` |
| ExtractorLaws.GlobalVarRoundTrip | parser.py:334-344 | any line whose normal form starts `$GLOBALS['n']` gives `n` |
| ExtractorLaws.WrittenGlobalVarRoundTrip | parser.py:334-344 | `parser_global_var("$GLOBALS['n'] = v")` gives `n` |
| ExtractorLaws.PropertyVarBranch | parser.py:475-497 | the visibility is public when the line starts with `$` or contains `public`, else protected, else private, tested in that order |
| ExtractorLaws.WithoutStaticKeeps | parser.py:470-473 | a line without a `static` keyword is left as it is |
| ExtractorLaws.StaticDropped | parser.py:472-473 | an inner ` static ` is replaced by one blank |
| ExtractorLaws.BarePropertyRoundTrip | parser.py:470-481 | `$n;` and `static $n;` are public properties `n` |
| ExtractorLaws.PropertyVarRoundTrip | parser.py:467-497 | `<access> $n;` gives back the access and the name |
| ExtractorLaws.StaticPropertyRoundTrip | parser.py:467-497 | `<access> static $n;` gives back the access and the name |
| ExtractorLaws.PublicWordWins | parser.py:475 | a property whose name contains `public` is public whatever its visibility word |
| ScopeMachine.Init | parser.py:31-72 | the scan starts out of PHP with the root namespace `/` and the invariant holding |
| ScopeMachine.EnterNamespace | parser.py:116 | the new namespace is appended to the tree, listed under the root, and becomes current; the root's documentation and every other variable stay as they were |
| ScopeMachine.StepOutOfPhp | parser.py:98-106 | the line outside PHP keeps every reference valid and preserves the invariant |
| ScopeMachine.EnterFunction | parser.py:129-134 | the new function is appended, listed under the current namespace and becomes current; the depth is 0, the first-level flag is off, and nothing else changes; the invariant is kept |
| ScopeMachine.EnterClass | parser.py:135-139 | the new class is appended, listed under the current namespace and becomes current; the state is the class body, the first-level flag is off, and nothing else changes; the invariant is kept |
| ScopeMachine.EnterInterface | parser.py:140-144 | the new interface is appended, listed under the current namespace and becomes current; the state is the interface body, the first-level flag is off, and nothing else changes; the invariant is kept |
| ScopeMachine.EnterTrait | parser.py:145-149 | the new trait is appended, listed under the current namespace and becomes current; the state is the trait body, the first-level flag is off, and nothing else changes; the invariant is kept |
| ScopeMachine.StepGlobal | parser.py:107-151 | a global-scope line keeps every reference valid and preserves the invariant; `?>`, `/**` and namespace lines are tested first, in the source's order, and what a namespace line adds is stated by `ScopeLaws.NamespaceInGlobal` |
| ScopeMachine.GlobalDeclaration | parser.py:117-128 | a `$GLOBALS`, variable, `define` or `const` line keeps every reference valid and preserves the invariant; what each line adds to the root is stated by `ScopeLaws.DeclarationToRoot` |
| ScopeMachine.GlobalDefinition | parser.py:129-151 | a function, class, interface or trait header keeps every reference valid and preserves the invariant; what each header adds is stated by `ScopeLaws.EnterFunctionBody`, `EnterClassBody`, `EnterInterfaceBody` and `EnterTraitBody` |
| ScopeMachine.StepDocblock | parser.py:152-162 | a docblock line keeps every reference valid and preserves the invariant, including the at-most-once root documentation |
| ScopeMachine.StepFunction | parser.py:163-181 | a function body line keeps every reference valid and preserves the invariant |
| ScopeMachine.StepClass | parser.py:182-199 | a class body line keeps every reference valid and preserves the invariant; what each line adds is stated by `ScopeLaws.PropertyToType`, `ConstantToType`, `EnterMethodBody` and `TypeLineSkipped` |
| ScopeMachine.StepInterface | parser.py:200-212 | an interface body line keeps every reference valid and preserves the invariant; what each line adds is stated by `ScopeLaws.ConstantToType`, `InterfaceMethodListed` and `TypeLineSkipped` |
| ScopeMachine.StepTrait | parser.py:213-228 | a trait body line keeps every reference valid and preserves the invariant; what each line adds is stated by `ScopeLaws.PropertyToType`, `EnterMethodBody` and `TypeLineSkipped` |
| ScopeMachine.StepMethod | parser.py:229-248 | a method body line keeps every reference valid and preserves the invariant |
| ScopeMachine.NormalNotStatic | parser.py:467-475 | a normal line can be handed to `parser_property_var`: it is neither empty nor `"static "` |
| ScopeMachine.Step | parser.py:96-248 | one line preserves the invariant, and a fault carries the number of that line |
| ScopeMachine.Steps | parser.py:96-249 | a scan that succeeds keeps every reference valid |
| ScopeMachine.StepsKeep | parser.py:96-249 | from a valid state, a scan that succeeds ends in a valid state |
| ScopeMachine.RunKeeps | parser.py:90-249 | a whole parse that succeeds ends in a valid state |
| ScopeLaws.LeaveOutOfPhp | parser.py:98-106 | out of PHP, a line is accepted exactly when it starts with `<?php`; otherwise the scan faults at that line; on success the state is global and a namespace on the line is added under the root and becomes current |
| ScopeLaws.CloseTag | parser.py:108-109 | `?>` at global scope leads out of PHP and changes nothing else |
| ScopeLaws.UnrecognisedSkipped | parser.py:150-151 | a global line that no recogniser accepts changes nothing but the line count |
| ScopeLaws.GlobalsToRoot | parser.py:117-119 | a `$GLOBALS` line, at global scope or inside a function body, adds its variable to the root namespace |
| ScopeLaws.NamespaceInGlobal | parser.py:113-116 | a namespace line at global scope appends the namespace under the root and makes it current, clears both docblock flags, and changes nothing else |
| ScopeLaws.DeclarationToRoot | parser.py:117-128 | a `$GLOBALS` or `$var` line appends its variable, and a `define` or `const` line its constant, to the root namespace whatever namespace is current; the first-level flag is cleared and nothing else changes |
| ScopeLaws.EnterFunctionBody | parser.py:129-134 | the global scan enters a function body exactly on a function line that no earlier test took and whose parameter walk ends; then the depth starts at 0, the body is empty, and the new function is current and listed under the current namespace |
| ScopeLaws.FunctionNeverEnds | parser.py:129-134 | the global scan faults exactly on a function line whose parameter walk never ends |
| ScopeLaws.EnterClassBody | parser.py:135-139 | a class header that no earlier test took lists the new class under the current namespace and makes it current; the state is the class body, the first-level flag is cleared, and the pending docblock is left in place |
| ScopeLaws.EnterInterfaceBody | parser.py:140-144 | the same for an interface header |
| ScopeLaws.EnterTraitBody | parser.py:145-149 | the same for a trait header |
| ScopeLaws.CloseType | parser.py:182-186 | a `}`-leading line in a class, interface or trait always returns to global scope and clears the pending flag; the current class, interface or trait becomes a fresh blank one |
| ScopeLaws.EnterMethodBody | parser.py:194-199 | a class or trait body enters a method body exactly on a method line that no earlier test took and whose parameter walk ends; then the depth starts at 0, the saved state is the type, and the new method is listed under the current class or trait |
| ScopeLaws.InterfaceMethodStays | parser.py:210-212 | a method line in an interface does not enter a method body |
| ScopeLaws.PropertyToType | parser.py:190-222 | a property line in a class or trait body is appended to the properties of the current class or trait, and nothing else changes |
| ScopeLaws.ConstantToType | parser.py:192-209 | a constant line that `parser_property_const` reads, in a class or interface body, is appended to the constants of the current class or interface, and nothing else changes |
| ScopeLaws.InterfaceMethodListed | parser.py:210-212 | a method line in an interface body appends the method and lists it under the current interface, resets the depth to 0 and stays in the interface |
| ScopeLaws.TypeLineSkipped | parser.py:182-228 | a type body line that no test takes changes nothing but the line count |
| ScopeLaws.TypeBodyFaults | parser.py:190-199 | a type body faults only on a constant line that `parser_property_const` rejects, or on a method line whose parameter walk never ends |
| ScopeLaws.BodyDepth | parser.py:163-170 | in a function or method body only the first character changes the depth, and the body stays open exactly while the depth is not 0 |
| ScopeLaws.FunctionBodyLine | parser.py:178-181 | while the depth is not 0, the line is appended to the body, and a `$GLOBALS` line also goes to the root namespace |
| ScopeLaws.CloseFunction | parser.py:170-177 | the line that brings the depth to 0 ends the body, is its last element, hands the pending docblock to the function, and returns to global scope; nothing else changes |
| ScopeLaws.MethodBodyLine | parser.py:247-248 | while the depth is not 0, the line is appended to the method body |
| ScopeLaws.CloseMethod | parser.py:236-246 | the line that brings the depth to 0 ends the method body, returns to the class or trait saved on entry, and clears the pending flag |
| ScopeLaws.OpenDocblock | parser.py:110-112 | `/**` at global scope or in a type body saves the state and opens a docblock |
| ScopeLaws.DocblockLine | parser.py:161-162 | a docblock line other than `*/` is accumulated |
| ScopeLaws.CloseDocblock | parser.py:152-160 | `*/` returns to the saved state, stores the parsed docblock as pending, empties the accumulator, and hands the earlier pending docblock to the root only in the first-level global case |
| ScopeLaws.StepsAppend | parser.py:96 | scanning two runs of lines is scanning the first, then the second from where it ended |
| ScopeLaws.WholeFunctionBody | parser.py:163-181 | a function body that closes on its last line ends in global scope with that body stored and its `$GLOBALS` lines added to the root |
| ScopeLaws.WholeMethodBody | parser.py:229-248 | a method body that closes on its last line ends in the saved type state with that body stored |
| ScopeLaws.WholeDocblock | parser.py:152-162 | a docblock body followed by `*/` ends with the body parsed as the pending docblock |
| ScopeLaws.RootDocumentedAtMostOnce | parser.py:154-156 | in any parse that succeeds, the root namespace receives documentation at most once |
| Parser.Parser.constructor | parser.py:31-88 | the fields start as `Init` says and the lines are the normalised file lines |
| Parser.Parser.AddRootNamespace | parser.py:116 | the new namespace is added under the root and becomes current; no other field changes |
| Parser.Parser.ScanOutOfPhp | parser.py:98-106 | the in-place branch computes `StepOutOfPhp` |
| Parser.Parser.ScanGlobal | parser.py:107-151 | the in-place branch computes `StepGlobal` |
| Parser.Parser.ScanGlobalDeclaration | parser.py:117-128 | the in-place branch computes `GlobalDeclaration` |
| Parser.Parser.ScanGlobalDefinition | parser.py:129-149 | the in-place branch computes `GlobalDefinition` |
| Parser.Parser.ScanFunctionHeader | parser.py:129-134 | the in-place function branch computes `GlobalDefinition` |
| Parser.Parser.ScanTypeHeader | parser.py:135-149 | the in-place class, interface and trait branches compute `GlobalDefinition` |
| Parser.Parser.ScanDocblock | parser.py:152-162 | the in-place branch computes `StepDocblock` |
| Parser.Parser.CloseDocblock | parser.py:153-160 | the in-place `*/` branch computes `StepDocblock` on `*/` |
| Parser.Parser.ScanFunction | parser.py:163-181 | the in-place branch computes `StepFunction` |
| Parser.Parser.EndFunctionBody | parser.py:170-177 | the in-place closing of a function body computes `StepFunction` on its last line |
| Parser.Parser.ScanClass | parser.py:182-199 | the in-place branch computes `StepClass` |
| Parser.Parser.ScanInterface | parser.py:200-212 | the in-place branch computes `StepInterface` |
| Parser.Parser.ScanTrait | parser.py:213-228 | the in-place branch computes `StepTrait` |
| Parser.Parser.ScanMethod | parser.py:229-248 | the in-place branch computes `StepMethod` |
| Parser.Parser.ScanLine | parser.py:98-248 | the loop body computes `Step` |
| Parser.Parser.Parse | parser.py:90-249 | the loop succeeds exactly when `Steps` over the parser's lines does, with the same fault, and leaves the fields as the final state says |
| LinePatterns.GlobalsIsVariable | parcer.py:64-69 | every `$GLOBALS['n']` line also matches the `$var` pattern, so only the order of the tests sends it to the root |
| LinePatterns.GlobalsExample | parcer.py:64-67 | `$GLOBALS['count'] = 0;` matches both patterns |
| LinePatterns.StaticMethodHeader | parcer.py:149 | `public static function name` matches the member function pattern for any name |
| Draft.AddChild | parcer.py:57 | `add_tokens`: the new token is a child of the caller with empty docblock slots; every other token is kept, and the parent chain still ends at the root |
| Draft.SetNext | parcer.py:113 | only the token's `next_docblock` changes |
| Draft.SetDocblock | parcer.py:204-206 | the token takes its parent's `next_docblock`, the parent's slot is emptied, and no other token changes |
| Draft.MoveRootDocblock | parcer.py:109-110 | the root's `next_docblock` becomes `root_docblock` and is emptied; no other token changes |
| Draft.Init | parcer.py:17-27 | the scan starts out of PHP on the root, with the invariant holding |
| Draft.StepOutOfPhp | parcer.py:38-43 | the line outside PHP preserves the invariant |
| Draft.Open | parcer.py:53-105 | entering a function, class, interface or trait makes the new child the current scope, preserves the invariant, and leaves the root documentation alone |
| Draft.StepGlobal | parcer.py:44-105 | a global line preserves the invariant and the root documentation, and never sets the first-level flag again |
| Draft.GlobalDeclaration | parcer.py:50-105 | a declaration line preserves the invariant and the root documentation |
| Draft.StepDocblock | parcer.py:106-117 | a docblock line preserves the invariant; once the first-level flag is off, the root documentation no longer changes |
| Draft.StepFunction | parcer.py:118-130 | a function body line preserves the invariant and the root documentation |
| Draft.OpenMember | parcer.py:149-156 | a member function header enters a function body and preserves the invariant |
| Draft.StepType | parcer.py:131-198 | a class, interface or trait body line preserves the invariant and the root documentation |
| Draft.Step | parcer.py:36-198 | one line preserves the invariant; the scan exits only out of PHP, at that line |
| Draft.Steps | parcer.py:36-199 | a scan that succeeds ends in a valid state |
| DraftLaws.OpenPhp | parcer.py:38-43 | out of PHP, a line is accepted exactly when it starts with `<?php`, leading to global scope; any other line exits at that line |
| DraftLaws.CloseTag | parcer.py:45-46 | `?>` at global scope leads out of PHP and changes nothing else |
| DraftLaws.GlobalOpens | parcer.py:53-105 | the first matching opening pattern adds a child of the current token, which becomes current; a function saves the global scope |
| DraftLaws.NamespaceOpens | parcer.py:50-52 | a namespace line adds a child of the root, which becomes current, and clears the first-level flag |
| DraftLaws.GlobalsToRoot | parcer.py:64-66 | a `$GLOBALS` line, at global scope or inside a function body, adds a token to the root namespace and nothing else |
| DraftLaws.GlobalsBeforeVariables | parcer.py:64-69 | with the real patterns, a `$GLOBALS` line also matches `$var` yet goes to the root |
| DraftLaws.LocalDeclaration | parcer.py:67-75 | a variable, `define` or `const` line adds a token under the current scope |
| DraftLaws.UnmatchedSkipped | parcer.py:44-105 | a global line that matches no pattern is ignored without any diagnostic |
| DraftLaws.CloseType | parcer.py:131-135 | a `}`-leading line in a class, interface or trait always returns to global scope, moves to the parent namespace and clears the pending flag |
| DraftLaws.MemberDocblockToType | parcer.py:139-143 | a member variable or constant is added under the type, and a pending docblock is set on the type itself, not on the member |
| DraftLaws.MemberFunctionOpens | parcer.py:149-156 | a member function header adds a function child that becomes current, saves the type state, and starts the depth at the number of `{` on the line |
| DraftLaws.MemberSkipped | parcer.py:131-198 | a type body line that matches no member pattern changes nothing but the line count |
| DraftLaws.OpenDocblock | parcer.py:47-49 | `/**` at global scope or in a type body saves the state and opens a docblock |
| DraftLaws.DocblockLine | parcer.py:116-117 | a docblock line other than `*/` is accumulated |
| DraftLaws.CloseDocblock | parcer.py:106-115 | `*/` stores the raw lines as the current token's `next_docblock`, returns to the saved state and sets the pending flag; only the first-level global case moves the root's slot to `root_docblock` |
| DraftLaws.StepsAppend | parcer.py:36 | scanning two runs of lines is scanning the first, then the second from where it ended |
| DraftLaws.RootGlobals | parcer.py:129-130 | the tokens a body adds to the root are `$GLOBALS` lines, children of the root |
| DraftLaws.FunctionBodyLine | parcer.py:128-130 | while the depth is not 0, a body line changes only the depth and the root's `$GLOBALS` tokens |
| DraftLaws.CloseFunction | parcer.py:125-127 | the line that brings the depth to 0 returns to the saved state and to the function's parent token |
| DraftLaws.WholeFunctionBody | parcer.py:118-130 | a function body that closes on its last line ends in the saved state on the parent token, with its `$GLOBALS` lines added to the root |
| DraftLaws.GlobalFunctionRestoresScope | parcer.py:53-63 | a global function header followed by a body that closes restores global scope and the current token, leaving the function as a child of that token |
| DraftLaws.MemberFunctionRestoresScope | parcer.py:149-156 | a member function header followed by a body that closes restores the type state and the type token, leaving the function as a child of the type |
| DraftLaws.WholeDocblock | parcer.py:106-117 | a docblock body followed by `*/` ends as one `*/` step from the accumulated body says |
| DraftLaws.DocComment | parcer.py:106-117 | a whole `/** … */` comment in an ordinary scope returns to that scope on the same token, with the body as its `next_docblock`, and moves the root's slot to `root_docblock` only in the first-level global case |
| DraftLaws.DocblockBeforeOpening | parcer.py:59-61 | a docblock followed by a declaration header becomes that declaration's docblock, and the parent's slot is emptied |
| DraftLaws.RootDocblockFixed | parcer.py:108-111 | once the first-level flag is off, `root_docblock` never changes again |
| DraftLaws.FirstDocblockToRoot | parcer.py:108-111 | after `<?php` and two comments, the first is the root documentation and the second waits in the root's slot |
| DraftParser.TokenTree.constructor | parcer.py:17 | the tree holds the root namespace alone |
| DraftParser.TokenTree.AddTokens | parcer.py:57 | the in-place `add_tokens` computes `AddChild` and returns the new token |
| DraftParser.TokenTree.SetNextDocblock | parcer.py:113 | the in-place assignment computes `SetNext` |
| DraftParser.TokenTree.MoveRootDocblock | parcer.py:109-110 | the in-place move computes `Draft.MoveRootDocblock` |
| DraftParser.SetDocblock | parcer.py:204-206 | the in-place `set_docblock` computes `Draft.SetDocblock` |
| DraftParser.OpenScope | parcer.py:53-105 | the in-place opening branch computes `Open` |
| DraftParser.ScanGlobal | parcer.py:44-105 | the in-place branch computes `StepGlobal` |
| DraftParser.ScanGlobalDeclaration | parcer.py:50-105 | the in-place branch computes `GlobalDeclaration` |
| DraftParser.ScanDocblock | parcer.py:106-117 | the in-place branch computes `StepDocblock` |
| DraftParser.ScanFunction | parcer.py:118-130 | the in-place branch computes `StepFunction` |
| DraftParser.ScanType | parcer.py:131-198 | the in-place branch computes `StepType` |
| DraftParser.ScanMemberFunction | parcer.py:149-156 | the in-place branch computes `OpenMember` |
| DraftParser.ScanLine | parcer.py:38-198 | the loop body computes `Step` |
| DraftParser.Parse | parcer.py:16-201 | `parse` succeeds exactly when `Run` over the normalised lines does, with the same exit line, and returns a new tree equal to the final one |

## Left out

- File access is not modelled. `os.path.isfile`, `open` and `readlines` (parser.py:74-79, parcer.py:29-30) are replaced by the raw lines, given as a parameter.
- `sys.exit(-1)` on a first line that does not start with `<?php` (parser.py:105-106; parcer.py:43) becomes an error result that carries the line number. The exit on a missing file (parser.py:74-76) goes with file access, which is left out.
- `logging` and `print` output (for example parser.py:239-243, 279-283; parcer.py:19-20, 200) is left out because it is diagnostics only.
- `__main__` (parser.py:565-572) is entry-point plumbing with a hard-coded path.
- The `utils` recognisers `is_*_line` and `is_tag_line` are not part of this model. The parser.py scan is proved for any `Classifier`. `is_tag_line` is taken to mean "starts with `@`".
- The `items`, `docblock` and `entities` modules are not part of this model. Their objects are datatypes holding only what the parsers store. Each `add_*`/`process_docblock` call appends to a list. Objects are positions in a list of their kind, which keeps Python's sharing between `cur_*` fields and tree children.
- The `Parser.namespaces` field (parser.py:40) is never used by `parse` and is not modelled.
- Regular expressions: `\w` in parcer.py's patterns is taken to be the ASCII word characters, and `\s` is Python's whitespace set.
- Text encoding is not modelled: a line is a sequence of characters.
- Extractors.ParseFunction, Extractors.ParseMethod: a parameter list with a `$` but no `,` or `)` makes the source loop forever. The model returns `None` for it, and the scan stops with the fault `ParamsNeverEnd` instead of hanging.
- Extractors.PropertyVarOf: lines that are empty or exactly `static ` would make the source index an empty string. The scan never passes them (`ScopeMachine.NormalNotStatic`), so they map to `None`.
- parser.py: `parser_property_const` raising an exception (parser.py:520) is the fault `NotPropertyConst`, which stops the scan.
- parser.py: `nm_name.strip()` (parser.py:257) discards its result, so namespace names are not stripped, as in the source.
- parser.py: on a `}` line the source sets `cur_class`, `cur_interface` or `cur_trait` to a fresh blank object (parser.py:184, 202, 215). The model adds that object to the list of its kind without attaching it to any namespace.
- parser.py is modelled as its code behaves in these places:
  - the first file-level docblock becomes root documentation only when a second docblock closes while the first is still pending (parser.py:154-156);
  - `class Foo {` reads as the class name `Foo {`, because `parser_class` takes the rest of the line;
  - a function header closes its body on the next line unless that line starts with `{` or `}`, because the depth is reset to 0 on the header (parser.py:133) and the body ends as soon as a line leaves it at 0 (parser.py:170-177);
  - a method header in a class or trait does the same: the depth is reset to 0 on the header (parser.py:199, 228) and the method body ends as soon as a line leaves it at 0 (parser.py:236-246);
  - a property whose name contains `public` is public whatever its visibility word (`ExtractorLaws.PublicWordWins`).
- parcer.py: the root namespace's `filename` argument (parcer.py:17) is not modelled.
- parcer.py: the following are assumptions about the unseen `entities` module:
  - the root is its own parent;
  - `add_namespace` makes a child of the root;
  - new tokens start with empty docblock slots;
  - a token's text is its line;
  - children lists are represented by the parent links.
- parcer.py follows the code in these places:
  - in a class or trait body, a pending docblock before a member variable or constant is set on the type token, not on the member (`DraftLaws.MemberDocblockToType`);
  - `braces_diff` is set on class, interface and trait headers but never read in those states;
  - a function header with no `{` closes on the next line unless that line starts with `{` or `}`.
- parcer.py: the variable, `define` and `const` branches (parcer.py:67-75) do the same thing, so they are one case.

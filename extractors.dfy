/** The line extractors of parser.py:252-562. Each one reads a declaration
    out of a single line by slicing at fixed offsets around the first
    occurrence of a keyword or a punctuation mark, with Python's `find`
    (-1 when absent) and Python's slice clamping. */
module Extractors {
  import opened Wrappers
  import opened PyStr
  import opened Lines
  import opened Items

  /** `parser_namespace` (parser.py:252-258): the text after `namespace `
      (after `<?php ` when the line has it), without its last character. */
  function ParseNamespace(line: string): string {
    var l := if Find(line, "<?php") != -1 then Drop(line, Find(line, "<?php") + 6) else line;
    var name := Drop(l, Find(l, "namespace") + 10);
    Slice(name, 0, -1)
  }

  /** `parser_var` (parser.py:315-326): in the normalised line, the text
      from index 1 up to the blank before the first `=`, or up to the first
      `;` when there is no `=`. */
  function ParseVar(line: string): GlobalVar {
    var s := NormalForm(line);
    var name := if Contains(s, "=") then Slice(s, 1, Find(s, "=") - 1) else Slice(s, 1, Find(s, ";"));
    GlobalVar(name, "")
  }

  /** `parser_global_var` (parser.py:334-344): in the normalised line, the
      text from two past the first `[` to one before the first `]`. */
  function ParseGlobalVar(line: string): GlobalVar {
    var s := NormalForm(line);
    GlobalVar(Slice(s, Find(s, "[") + 2, Find(s, "]") - 1), "")
  }

  /** `parser_define` (parser.py:352-357). */
  function ParseDefine(line: string): GlobalConst {
    GlobalConst(Slice(line, Find(line, "(") + 2, Find(line, ",") - 1),
                Slice(line, Find(line, ",") + 2, Find(line, ")")))
  }

  /** The name and value slices that `parser_const` and
      `parser_property_const` share (parser.py:365-366, 504-505). */
  function ConstName(line: string): string {
    Slice(line, Find(line, "const") + 6, Find(line, "=") - 1)
  }

  function ConstValue(line: string): string {
    Slice(line, Find(line, "=") + 2, Find(line, ";"))
  }

  /** `parser_const` (parser.py:364-369). */
  function ParseConst(line: string): GlobalConst {
    GlobalConst(ConstName(line), ConstValue(line))
  }

  // ---------------------------------------------------------------------
  // Parameter lists (parser.py:384-395, 540-551).

  /** How the parameter loop ends: with the collected names, or never,
      when a `$` remains but neither `,` nor `)` does. */
  datatype Walk = Ends(names: seq<string>) | LoopsForever

  /** The end of the next parameter: the first `,`, or the first `)` when
      no `,` remains. */
  function Delimiter(s: string): (d: int)
    ensures -1 <= d < |s|
  {
    if Contains(s, ",") then Find(s, ",") else Find(s, ")")
  }

  /** The walk over the rest `s` of a header line. */
  function Parameters(s: string): Walk
    decreases |s|
  {
    if !Contains(s, "$") then Ends([])
    else
      var end := Delimiter(s);
      if end == -1 then LoopsForever
      else
        var name := Slice(s, Find(s, "$") + 1, end);
        match Parameters(Drop(s, end + 1))
        case Ends(names) => Ends([name] + names)
        case LoopsForever => LoopsForever
  }

  function Prepend(names: seq<string>, w: Walk): Walk {
    match w
    case Ends(rest) => Ends(names + rest)
    case LoopsForever => LoopsForever
  }

  /** The parameter loop, proved to compute `Parameters`. Where the source
      loops forever (a `$` with neither `,` nor `)` after it) the remainder
      no longer changes (`StuckWalk`), and the method reports
      `LoopsForever` instead of spinning. */
  method ParameterNames(s: string) returns (w: Walk)
    ensures w == Parameters(s)
  {
    var str := s;
    var parameters: seq<string> := [];
    while Contains(str, "$")
      invariant Parameters(s) == Prepend(parameters, Parameters(str))
      decreases |str|
    {
      var step := NextParameter(str);
      if step.None? {
        return LoopsForever;
      }
      var (name, next) := step.value;
      PrependTwice(parameters, [name], Parameters(next));
      parameters := parameters + [name];
      str := next;
    }
    assert parameters + [] == parameters;
    return Ends(parameters);
  }

  /** One pass of the loop body: the name between the first `$` and the
      delimiter, and the rest after the delimiter; `None` where no
      delimiter remains and the source's loop spins. */
  method NextParameter(str: string) returns (step: Option<(string, string)>)
    requires Contains(str, "$")
    ensures step.None? <==> Delimiter(str) == -1
    ensures step.None? ==> Parameters(str) == LoopsForever
    ensures step.Some? ==> |step.value.1| < |str| && Parameters(str) == Prepend([step.value.0], Parameters(step.value.1))
  {
    var posVarEnd := DelimiterOf(str);
    if posVarEnd == -1 {
      return None;
    }
    ParametersStep(str);
    step := Some((Slice(str, Find(str, "$") + 1, posVarEnd), Drop(str, posVarEnd + 1)));
  }

  /** `pos_var_end`: the first `,`, or the first `)` when there is none;
      -1 when neither remains. */
  method DelimiterOf(str: string) returns (posVarEnd: int)
    ensures posVarEnd == Delimiter(str)
    ensures posVarEnd != -1 ==> str[posVarEnd] == ',' || str[posVarEnd] == ')'
  {
    if Contains(str, ",") {
      posVarEnd := Find(str, ",");
      assert OccursAt(str, ",", posVarEnd);
      assert str[posVarEnd..posVarEnd + 1][0] == str[posVarEnd];
    } else {
      posVarEnd := Find(str, ")");
      if posVarEnd != -1 {
        assert OccursAt(str, ")", posVarEnd);
        assert str[posVarEnd..posVarEnd + 1][0] == str[posVarEnd];
      }
    }
  }

  lemma ParametersStep(str: string)
    requires Contains(str, "$") && Delimiter(str) != -1
    ensures Parameters(str) == Prepend([Slice(str, Find(str, "$") + 1, Delimiter(str))], Parameters(Drop(str, Delimiter(str) + 1)))
  {
  }

  lemma PrependTwice(a: seq<string>, b: seq<string>, w: Walk)
    ensures Prepend(a, Prepend(b, w)) == Prepend(a + b, w)
  {
    if w.Ends? {
      assert a + (b + w.names) == (a + b) + w.names;
    }
  }

  /** With a `$` and no delimiter, one more iteration leaves `str` as it
      was: the source's loop never ends. */
  lemma StuckWalk(str: string)
    requires Contains(str, "$") && Delimiter(str) == -1
    ensures Drop(str, Delimiter(str) + 1) == str
    ensures Parameters(str) == LoopsForever
  {
  }

  /** Each name wrapped as `Global_var(name)`, as `parser_function` stores
      them. */
  function AsGlobalVars(names: seq<string>): (vs: seq<GlobalVar>)
    ensures |vs| == |names| && forall k :: 0 <= k < |names| ==> vs[k] == GlobalVar(names[k], "")
  {
    seq(|names|, k requires 0 <= k < |names| => GlobalVar(names[k], ""))
  }

  /** The name between `function ` and the first `(`, and the walk over
      the text from that `(` on (parser.py:380-384, 536-540). */
  function SignatureName(s: string): string {
    Slice(s, Find(s, "function") + 9, Find(s, "("))
  }

  function SignatureRest(s: string): string {
    Drop(s, Find(s, "("))
  }

  /** `parser_function` (parser.py:378-405); `None` where it never
      returns. */
  function FunctionDeclOf(line: string): Option<FunctionDecl> {
    match Parameters(SignatureRest(line))
    case Ends(names) => Some(FunctionDecl(SignatureName(line), "", AsGlobalVars(names)))
    case LoopsForever => None
  }

  method ParseFunction(line: string) returns (r: Option<FunctionDecl>)
    ensures r == FunctionDeclOf(line)
  {
    var functionName := SignatureName(line);
    var str := SignatureRest(line);
    var w := ParameterNames(str);
    match w
    case Ends(parameters) =>
      r := Some(FunctionDecl(functionName, "", AsGlobalVars(parameters)));
    case LoopsForever =>
      r := None;
  }

  /** The leading visibility keyword of a method line and the text after
      it; `public` when there is none (parser.py:525-534). */
  function Visibility(line: string): (Access, string) {
    if StartsWith(line, "public ") then (Public, Drop(line, 7))
    else if StartsWith(line, "protected ") then (Protected, Drop(line, 10))
    else if StartsWith(line, "private ") then (Private, Drop(line, 8))
    else (Public, line)
  }

  /** `parser_method` (parser.py:523-562); `None` where it never
      returns. */
  function MethodDeclOf(line: string): Option<MethodDecl> {
    var (access, s) := Visibility(line);
    match Parameters(SignatureRest(s))
    case Ends(names) => Some(MethodDecl(SignatureName(s), access, "", names))
    case LoopsForever => None
  }

  method ParseMethod(line: string) returns (r: Option<MethodDecl>)
    ensures r == MethodDeclOf(line)
  {
    var am := Public;
    var str := line;
    if StartsWith(str, "public ") {
      str := Drop(str, 7);
    } else if StartsWith(str, "protected ") {
      am := Protected;
      str := Drop(str, 10);
    } else if StartsWith(str, "private ") {
      am := Private;
      str := Drop(str, 8);
    }
    var methodName := SignatureName(str);
    str := SignatureRest(str);
    var w := ParameterNames(str);
    match w
    case Ends(parameters) =>
      r := Some(MethodDecl(methodName, am, "", parameters));
    case LoopsForever =>
      r := None;
  }

  // ---------------------------------------------------------------------
  // Type headers (parser.py:414-462).

  /** `parser_class`: `extends` anywhere in the line wins over
      `implements`. */
  function ParseClass(line: string): ClassDecl {
    if Contains(line, "extends") then
      ClassDecl(Slice(line, Find(line, "class") + 6, Find(line, "extends") - 1),
                Drop(line, Find(line, "extends") + 8), "")
    else if Contains(line, "implements") then
      ClassDecl(Slice(line, Find(line, "class") + 6, Find(line, "implements") - 1),
                "", Drop(line, Find(line, "implements") + 11))
    else
      ClassDecl(Drop(line, Find(line, "class") + 6), "", "")
  }

  /** `parser_interface`: the parents are the text after `extends ` split
      on `", "`. */
  function ParseInterface(line: string): InterfaceDecl {
    if Contains(line, "extends") then
      InterfaceDecl(Slice(line, Find(line, "interface") + 10, Find(line, "extends") - 1),
                    Split(Drop(line, Find(line, "extends") + 8), ", "))
    else
      InterfaceDecl(Drop(line, Find(line, "interface") + 10), [])
  }

  /** `parser_trait` */
  function ParseTrait(line: string): TraitDecl {
    TraitDecl(Drop(line, Find(line, "trait") + 6))
  }

  // ---------------------------------------------------------------------
  // Class members (parser.py:467-520).

  /** `re.match(r'.* static .*', s)`: ` static ` occurs with no line break
      before it (`.` does not match a line break). */
  predicate StaticInside(s: string) {
    Contains(s, " static ") && '\n' !in s[..Find(s, " static ")]
  }

  /** The line with its `static` keyword removed (parser.py:470-473). */
  function WithoutStatic(line: string): (s: string)
    ensures line != [] && line != "static " ==> s != []
  {
    if StartsWith(line, "static ") then Drop(line, 7)
    else if StaticInside(line) then Replace(line, " static ", " ")
    else line
  }

  /** The property name: from after the first `$` to the blank before the
      first `=`, or to the first `;` when there is no `=`. */
  function PropertyName(s: string): string {
    if Contains(s, "=") then Slice(s, Find(s, "$") + 1, Find(s, "=") - 1)
    else Slice(s, Find(s, "$") + 1, Find(s, ";"))
  }

  /** `parser_property_var` (parser.py:467-497); `None` where no visibility
      is found. The source indexes `str[0]`, so the line must not be empty
      once `static` is removed. */
  function ParsePropertyVar(line: string): Option<Property>
    requires line != [] && line != "static "
  {
    var s := WithoutStatic(line);
    if s[0] == '$' || Contains(s, "public") then Some(Property(PropertyName(s), Public))
    else if Contains(s, "protected") then Some(Property(PropertyName(s), Protected))
    else if Contains(s, "private") then Some(Property(PropertyName(s), Private))
    else None
  }

  /** `parser_property_const` (parser.py:501-520); `None` where the source
      raises. */
  function ParsePropertyConst(line: string): Option<Const> {
    if StartsWith(line, "const ") || StartsWith(line, "public ") then Some(Const(ConstName(line), Public, ConstValue(line)))
    else if StartsWith(line, "protected ") then Some(Const(ConstName(line), Protected, ConstValue(line)))
    else if StartsWith(line, "private ") then Some(Const(ConstName(line), Private, ConstValue(line)))
    else None
  }

  /** `parser_property_var` on the lines the scan hands it: they are
      normal, so never empty or `"static "` (`NormalNotStatic`); `None`
      stands for the lines it is never given. */
  function PropertyVarOf(line: string): Option<Property> {
    if line != [] && line != "static " then ParsePropertyVar(line) else None
  }
}

/** The earlier scan of parcer.py:16-206. It works line by line like
    `Parser.parse`, but classifies each line with the regular
    expressions it shows, tracks scopes through a chain of tokens
    (`cur_token` and its `parent_token`), and leaves a pending docblock on
    the enclosing token until `set_docblock` hands it on. `Step` is one
    pass of the loop of `parse` and `Steps` the loop; `DraftParser.Parse`
    is proved to compute them.

    The tokens come from the `entities` module, which is not part of this
    model: they are records in a list, a reference is a position in it,
    and a token's parent is a reference, so that the aliasing of
    `cur_token` with the token it designates is kept. */
module Draft {
  import opened Wrappers
  import opened PyStr
  import opened Lines
  import LinePatterns

  /** The `State` enumeration of parcer.py:6-13. */
  datatype State = OutOfPhp | InFunction | InClass | InTrait | InInterface | InDocblock | InGlobal

  /** The regular expressions `parse` tests lines with, one field each.
      The scan is stated for any patterns; `Regexes` gives the ones of
      parcer.py. */
  datatype Patterns = Patterns(
    namespaceLine: string -> bool,
    functionLine: string -> bool,
    globalsLine: string -> bool,
    variableLine: string -> bool,
    defineLine: string -> bool,
    constLine: string -> bool,
    classLine: string -> bool,
    interfaceLine: string -> bool,
    traitLine: string -> bool,
    memberVarLine: string -> bool,
    memberConstLine: string -> bool,
    memberFunctionLine: string -> bool)

  const Regexes: Patterns := Patterns(
    LinePatterns.NamespaceLine, LinePatterns.FunctionLine, LinePatterns.GlobalsLine, LinePatterns.VariableLine,
    LinePatterns.DefineLine, LinePatterns.ConstLine, LinePatterns.ClassLine, LinePatterns.InterfaceLine,
    LinePatterns.TraitLine, LinePatterns.MemberVarLine, LinePatterns.MemberConstLine, LinePatterns.MemberFunctionLine)

  // ---------------------------------------------------------------------
  // Tokens.

  /** A docblock slot of a token: `""`, or the raw lines of a docblock. */
  datatype Doc = Blank | Text(lines: seq<string>)

  /** The `token_type` of a token; `PlainToken` for `add_tokens(line)`
      without one. */
  datatype Kind = NamespaceToken | FunctionToken | ClassToken | InterfaceToken | TraitToken | PlainToken

  /** A token, by its position in the tree. */
  type Ref = nat

  /** A token: the line it was made from, its type, its `parent_token`,
      and its `docblock` and `next_docblock` slots. */
  datatype Token = Token(text: string, kind: Kind, parent: Ref, docblock: Doc, nextDocblock: Doc)

  /** Every token made so far, and the `root_docblock` of the root
      namespace. */
  datatype Tree = Tree(tokens: seq<Token>, rootDocblock: Doc)

  /** `root_namespace`, the first token. */
  const Root: Ref := 0

  /** `Namespace("\\")`: the root namespace alone. */
  const InitialTree: Tree := Tree([Token("\\", NamespaceToken, Root, Blank, Blank)], Blank)

  /** The root is a namespace that is its own parent, and every other
      token was made after its parent, so that the parent chain of any
      token ends at the root. */
  predicate TreeValid(t: Tree) {
    && 0 < |t.tokens| && t.tokens[Root].kind == NamespaceToken && t.tokens[Root].parent == Root
    && forall i :: 0 < i < |t.tokens| ==> t.tokens[i].parent < i
  }

  /** `t'` keeps every token of `t` with its type and its parent. */
  predicate Grows(t: Tree, t': Tree) {
    && |t.tokens| <= |t'.tokens|
    && forall i :: 0 <= i < |t.tokens| ==> t'.tokens[i].kind == t.tokens[i].kind && t'.tokens[i].parent == t.tokens[i].parent
  }

  /** `x.add_tokens(line, token_type=k)`, and `root_namespace.add_namespace(line)`
      with `x` the root: a new token, child of `x`, with empty slots.
      Its position is `|t.tokens|`. */
  function AddChild(t: Tree, x: Ref, line: string, k: Kind): (t': Tree)
    requires TreeValid(t) && x < |t.tokens|
    ensures TreeValid(t') && Grows(t, t') && |t'.tokens| == |t.tokens| + 1
    ensures t'.tokens[|t.tokens|] == Token(line, k, x, Blank, Blank)
    ensures forall i :: 0 <= i < |t.tokens| ==> t'.tokens[i] == t.tokens[i]
    ensures t'.rootDocblock == t.rootDocblock
  {
    t.(tokens := t.tokens + [Token(line, k, x, Blank, Blank)])
  }

  /** `x.next_docblock = d` */
  function SetNext(t: Tree, x: Ref, d: Doc): (t': Tree)
    requires TreeValid(t) && x < |t.tokens|
    ensures TreeValid(t') && Grows(t, t') && |t'.tokens| == |t.tokens|
    ensures t'.tokens[x].nextDocblock == d && t'.tokens[x].docblock == t.tokens[x].docblock
    ensures forall i :: 0 <= i < |t.tokens| && i != x ==> t'.tokens[i] == t.tokens[i]
    ensures t'.rootDocblock == t.rootDocblock
  {
    t.(tokens := t.tokens[x := t.tokens[x].(nextDocblock := d)])
  }

  /** `set_docblock(x)` (parcer.py:204-206): the docblock waiting on the
      parent of `x` moves to `x`, and the parent's slot is emptied.
      Nothing else changes. */
  function SetDocblock(t: Tree, x: Ref): (t': Tree)
    requires TreeValid(t) && x < |t.tokens|
    ensures TreeValid(t') && Grows(t, t') && |t'.tokens| == |t.tokens|
    ensures t'.tokens[x].docblock == t.tokens[t.tokens[x].parent].nextDocblock
    ensures t'.tokens[t.tokens[x].parent].nextDocblock == Blank
    ensures x != t.tokens[x].parent ==> t'.tokens[x].nextDocblock == t.tokens[x].nextDocblock
    ensures t'.tokens[t.tokens[x].parent].docblock == if x == t.tokens[x].parent then t'.tokens[x].docblock else t.tokens[t.tokens[x].parent].docblock
    ensures forall i :: 0 <= i < |t.tokens| && i != x && i != t.tokens[x].parent ==> t'.tokens[i] == t.tokens[i]
    ensures t'.rootDocblock == t.rootDocblock
  {
    var p := t.tokens[x].parent;
    var t1 := t.(tokens := t.tokens[x := t.tokens[x].(docblock := t.tokens[p].nextDocblock)]);
    t1.(tokens := t1.tokens[p := t1.tokens[p].(nextDocblock := Blank)])
  }

  /** `root_namespace.root_docblock = root_namespace.next_docblock` and
      `root_namespace.next_docblock = ""` (parcer.py:109-110). */
  function MoveRootDocblock(t: Tree): (t': Tree)
    requires TreeValid(t)
    ensures TreeValid(t') && Grows(t, t') && |t'.tokens| == |t.tokens|
    ensures t'.rootDocblock == t.tokens[Root].nextDocblock && t'.tokens[Root].nextDocblock == Blank
    ensures t'.tokens[Root].docblock == t.tokens[Root].docblock
    ensures forall i :: 0 < i < |t.tokens| ==> t'.tokens[i] == t.tokens[i]
  {
    Tree(t.tokens[Root := t.tokens[Root].(nextDocblock := Blank)], t.tokens[Root].nextDocblock)
  }

  // ---------------------------------------------------------------------
  // The variables of the scan and their invariant.

  /** The locals of `parse` (parcer.py:17-27), with every token made so
      far in `tree` and `cur_token` as `cur`. */
  datatype Scan = Scan(
    state: State,
    prevState: State,
    bracesDiff: int,
    isFirstLevelDocblock: bool,
    isPrevDocblock: bool,
    docblock: seq<string>,
    lineNum: nat,
    cur: Ref,
    tree: Tree)

  /** `sys.exit(-1)` on the numbered line. */
  datatype Exit = Exit(lineNum: nat)

  /** The locals before the first line. */
  function Init(): (s: Scan)
    ensures Valid(s) && s.state == OutOfPhp && s.cur == Root
  {
    Scan(OutOfPhp, OutOfPhp, 0, true, false, [], 0, Root, InitialTree)
  }

  /** The states a scope can be in between its declarations. */
  predicate Ordinary(st: State) {
    st == InGlobal || st == InClass || st == InInterface || st == InTrait
  }

  /** The type of the token `cur_token` designates in a state. */
  function KindOf(st: State): Kind {
    match st
    case InFunction => FunctionToken
    case InClass => ClassToken
    case InInterface => InterfaceToken
    case InTrait => TraitToken
    case _ => NamespaceToken
  }

  /** `x` is a token of the type state `st` calls for and, unless that is a
      namespace, its parent is a namespace. */
  predicate ScopeAt(t: Tree, x: Ref, st: State) {
    && x < |t.tokens| && t.tokens[x].kind == KindOf(st)
    && (st != InGlobal ==> t.tokens[x].parent < |t.tokens| && t.tokens[t.tokens[x].parent].kind == NamespaceToken)
  }

  /** Where `cur_token` stands: on a namespace at global scope and outside
      PHP, on the type whose body is being read, on the function whose
      body is being read with its parent the scope it was declared in,
      and, in a docblock, where it stood when the docblock opened. */
  predicate ScopeValid(s: Scan) {
    match s.state
    case OutOfPhp => ScopeAt(s.tree, s.cur, InGlobal)
    case InDocblock => Ordinary(s.prevState) && ScopeAt(s.tree, s.cur, s.prevState)
    case InFunction =>
      && s.cur < |s.tree.tokens| && s.tree.tokens[s.cur].kind == FunctionToken && Ordinary(s.prevState)
      && ScopeAt(s.tree, s.tree.tokens[s.cur].parent, s.prevState)
    case _ => ScopeAt(s.tree, s.cur, s.state)
  }

  /** While the first-level flag holds, `cur_token` is the root and no
      root documentation has been stored; lines accumulate only in a
      docblock. */
  predicate DocsValid(s: Scan) {
    && (s.isFirstLevelDocblock ==> s.cur == Root && s.tree.rootDocblock == Blank)
    && (s.state != InDocblock ==> s.docblock == [])
  }

  predicate Valid(s: Scan) {
    TreeValid(s.tree) && s.cur < |s.tree.tokens| && ScopeValid(s) && DocsValid(s)
  }

  // ---------------------------------------------------------------------
  // One line, state by state (parcer.py:38-198). `s.lineNum` already
  // counts the line.

  /** Outside PHP only a line that opens with `<?php` is accepted, and it
      leads into the global scope; any other line ends the program. */
  function StepOutOfPhp(s: Scan, line: string): (r: Result<Scan, Exit>)
    requires Valid(s) && s.state == OutOfPhp
    ensures r.Ok? ==> Valid(r.value)
  {
    if Find(line, "<?php") == 0 then Ok(s.(prevState := OutOfPhp, state := InGlobal))
    else Err(Exit(s.lineNum))
  }

  /** A declaration that opens a scope at global scope: the new token,
      child of `cur_token`, becomes `cur_token`, the depth starts at the
      number of `{` on the line, and a pending docblock goes to the new
      token by `set_docblock`. */
  function Open(s: Scan, line: string, st: State): (r: Scan)
    requires Valid(s) && s.state == InGlobal && !s.isFirstLevelDocblock
    requires st == InFunction || st == InClass || st == InInterface || st == InTrait
    requires st == InFunction ==> s.prevState == InGlobal
    ensures Valid(r) && r.state == st
    ensures r.tree.rootDocblock == s.tree.rootDocblock && (r.isFirstLevelDocblock ==> s.isFirstLevelDocblock)
  {
    var x := |s.tree.tokens|;
    var t := AddChild(s.tree, s.cur, line, KindOf(st));
    s.(cur := x, bracesDiff := CountChar(line, '{'),
       tree := if s.isPrevDocblock then SetDocblock(t, x) else t,
       isPrevDocblock := false, state := st)
  }

  // The global scope: `?>` leaves PHP, `/**` opens a docblock, and
  // otherwise the first pattern that matches decides what the line
  // declares (parcer.py:44-105).
  function StepGlobal(p: Patterns, s: Scan, line: string): (r: Scan)
    requires Valid(s) && s.state == InGlobal
    ensures Valid(r)
    ensures r.tree.rootDocblock == s.tree.rootDocblock && (r.isFirstLevelDocblock ==> s.isFirstLevelDocblock)
  {
    if line == "?>" then s.(state := OutOfPhp)
    else if line == "/**" then s.(prevState := InGlobal, state := InDocblock)
    else if p.namespaceLine(line) then
      s.(isFirstLevelDocblock := false, tree := AddChild(s.tree, Root, line, NamespaceToken), cur := |s.tree.tokens|)
    else if p.functionLine(line) then
      Open(s.(isFirstLevelDocblock := false, prevState := InGlobal), line, InFunction)
    else GlobalDeclaration(p, s, line)
  }

  /** `$GLOBALS['name']` lines go to the root namespace, other variables,
      `define(...)` and `const` lines to `cur_token`; classes, interfaces
      and traits open their body; a line no pattern matches is skipped.
      The variable, `define` and `const` branches do the same thing, so
      they are tested together. */
  function GlobalDeclaration(p: Patterns, s: Scan, line: string): (r: Scan)
    requires Valid(s) && s.state == InGlobal
    ensures Valid(r)
    ensures r.tree.rootDocblock == s.tree.rootDocblock && (r.isFirstLevelDocblock ==> s.isFirstLevelDocblock)
  {
    if p.globalsLine(line) then
      s.(isFirstLevelDocblock := false, tree := AddChild(s.tree, Root, line, PlainToken))
    else if p.variableLine(line) || p.defineLine(line) || p.constLine(line) then
      s.(isFirstLevelDocblock := false, tree := AddChild(s.tree, s.cur, line, PlainToken))
    else if p.classLine(line) then Open(s.(isFirstLevelDocblock := false), line, InClass)
    else if p.interfaceLine(line) then Open(s.(isFirstLevelDocblock := false), line, InInterface)
    else if p.traitLine(line) then Open(s.(isFirstLevelDocblock := false), line, InTrait)
    else s
  }

  // Whether the closing `*/` line moves the root's pending docblock to
  // `root_docblock` (parcer.py:108).
  predicate ToRoot(s: Scan) {
    s.isFirstLevelDocblock && s.prevState == InGlobal && s.isPrevDocblock
  }

  // Inside a docblock lines accumulate until `*/`, which stores them raw
  // in the `next_docblock` slot of `cur_token`, marks a docblock as
  // pending and returns to the saved state; the root's earlier pending
  // docblock first becomes root documentation when `ToRoot` holds.
  function StepDocblock(s: Scan, line: string): (r: Scan)
    requires Valid(s) && s.state == InDocblock
    ensures Valid(r)
    ensures !s.isFirstLevelDocblock ==> r.tree.rootDocblock == s.tree.rootDocblock && !r.isFirstLevelDocblock
  {
    if line == "*/" then
      var toRoot := ToRoot(s);
      var t := if toRoot then MoveRootDocblock(s.tree) else s.tree;
      s.(isFirstLevelDocblock := if toRoot then false else s.isFirstLevelDocblock,
         state := s.prevState,
         tree := SetNext(t, s.cur, Text(s.docblock)),
         docblock := [],
         isPrevDocblock := true)
    else
      s.(docblock := s.docblock + [line])
  }

  /** A function body: the depth moves by the first character only; at
      depth 0 the scan returns to the saved state and `cur_token` to the
      function's parent; before that, `$GLOBALS` lines go to the root
      namespace. */
  function StepFunction(p: Patterns, s: Scan, line: string): (r: Scan)
    requires Valid(s) && s.state == InFunction && line != []
    ensures Valid(r)
    ensures r.tree.rootDocblock == s.tree.rootDocblock && (r.isFirstLevelDocblock ==> s.isFirstLevelDocblock)
  {
    var d := s.bracesDiff + Delta(line);
    if d == 0 then
      s.(bracesDiff := d, state := s.prevState, cur := s.tree.tokens[s.cur].parent)
    else
      s.(bracesDiff := d, tree := if p.globalsLine(line) then AddChild(s.tree, Root, line, PlainToken) else s.tree)
  }

  /** A function member of a type: a pending docblock goes to the type by
      `set_docblock`, then the function token, child of the type, becomes
      `cur_token` and its body starts at the number of `{` on the line. */
  function OpenMember(s: Scan, line: string): (r: Scan)
    requires Valid(s) && (s.state == InClass || s.state == InInterface || s.state == InTrait)
    ensures Valid(r) && r.state == InFunction
    ensures r.tree.rootDocblock == s.tree.rootDocblock && (r.isFirstLevelDocblock ==> s.isFirstLevelDocblock)
  {
    var t := if s.isPrevDocblock then SetDocblock(s.tree, s.cur) else s.tree;
    s.(isPrevDocblock := false, prevState := s.state, state := InFunction,
       tree := AddChild(t, s.cur, line, FunctionToken), cur := |t.tokens|, bracesDiff := CountChar(line, '{'))
  }

  // A class, interface or trait body (parcer.py:131-198): a line opening
  // with `}` closes it to the global scope, `/**` opens a docblock;
  // variables (not in an interface) and constants (not in a trait) are
  // added to the type, and a pending docblock goes to the type; a
  // function opens its body.
  function StepType(p: Patterns, s: Scan, line: string): (r: Scan)
    requires Valid(s) && (s.state == InClass || s.state == InInterface || s.state == InTrait) && line != []
    ensures Valid(r)
    ensures r.tree.rootDocblock == s.tree.rootDocblock && (r.isFirstLevelDocblock ==> s.isFirstLevelDocblock)
  {
    if line[0] == '}' then
      s.(state := InGlobal, cur := s.tree.tokens[s.cur].parent, isPrevDocblock := false)
    else if line == "/**" then s.(prevState := s.state, state := InDocblock)
    else if (s.state != InInterface && p.memberVarLine(line)) || (s.state != InTrait && p.memberConstLine(line)) then
      var t := AddChild(s.tree, s.cur, line, PlainToken);
      s.(tree := if s.isPrevDocblock then SetDocblock(t, s.cur) else t, isPrevDocblock := false)
    else if p.memberFunctionLine(line) then OpenMember(s, line)
    else s
  }

  // ---------------------------------------------------------------------
  // The loop.

  /** One pass of the loop body: `line_num` counts the line, then the
      branch of the current state runs. Only a line outside PHP can end
      the program. */
  function Step(p: Patterns, s: Scan, line: string): (r: Result<Scan, Exit>)
    requires Valid(s) && NormalLine(line)
    ensures r.Ok? ==> Valid(r.value)
    ensures r.Err? ==> s.state == OutOfPhp && r.error.lineNum == s.lineNum + 1
    ensures r.Ok? && !s.isFirstLevelDocblock ==> r.value.tree.rootDocblock == s.tree.rootDocblock && !r.value.isFirstLevelDocblock
  {
    var s0 := s.(lineNum := s.lineNum + 1);
    match s.state
    case OutOfPhp => StepOutOfPhp(s0, line)
    case InGlobal => Ok(StepGlobal(p, s0, line))
    case InDocblock => Ok(StepDocblock(s0, line))
    case InFunction => Ok(StepFunction(p, s0, line))
    case _ => Ok(StepType(p, s0, line))
  }

  /** The branch `Step` takes in each state. */
  lemma StepDispatch(p: Patterns, s: Scan, line: string)
    requires Valid(s) && NormalLine(line)
    ensures var s0 := s.(lineNum := s.lineNum + 1);
      && (s.state == OutOfPhp ==> Step(p, s, line) == StepOutOfPhp(s0, line))
      && (s.state == InGlobal ==> Step(p, s, line) == Ok(StepGlobal(p, s0, line)))
      && (s.state == InDocblock ==> Step(p, s, line) == Ok(StepDocblock(s0, line)))
      && (s.state == InFunction ==> Step(p, s, line) == Ok(StepFunction(p, s0, line)))
      && (s.state == InClass || s.state == InInterface || s.state == InTrait ==> Step(p, s, line) == Ok(StepType(p, s0, line)))
  {
    match s.state
    case OutOfPhp =>
    case InGlobal =>
    case InDocblock =>
    case InFunction =>
    case InClass =>
    case InInterface =>
    case InTrait =>
  }

  /** The loop over `lines` from the variables `s`: the variables after the
      last line, or the exit that stopped it. */
  function Steps(p: Patterns, s: Scan, lines: seq<string>): (r: Result<Scan, Exit>)
    requires Valid(s) && AllNormal(lines)
    ensures r.Ok? ==> Valid(r.value)
    decreases |lines|
  {
    if lines == [] then Ok(s)
    else
      match Step(p, s, lines[0])
      case Err(e) => Err(e)
      case Ok(s1) => Steps(p, s1, lines[1..])
  }

  /** `parse` on the normalised lines of a file. */
  function Run(p: Patterns, lines: seq<string>): Result<Scan, Exit>
    requires AllNormal(lines)
  {
    Steps(p, Init(), lines)
  }
}

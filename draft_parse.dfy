/** `parse` and `set_docblock` of parcer.py as the source writes them: a
    loop over the lines that updates the locals of `parse` and changes the
    tokens in place. Each branch of the loop body is a method proved to do
    what the matching function of `Draft` says, and `Parse` is proved to
    compute `Run`. */
module DraftParser {
  import opened Wrappers
  import opened PyStr
  import opened Lines
  import opened Draft

  /** The tokens of one parse, changed in place. `tokens[Root]` is
      `root_namespace` and `rootDocblock` its `root_docblock`. */
  class TokenTree {
    var tokens: seq<Token>
    var rootDocblock: Doc

    ghost function Value(): Tree
      reads this
    {
      Tree(tokens, rootDocblock)
    }

    /** `Namespace("\\")` */
    constructor ()
      ensures Value() == InitialTree
    {
      tokens := [Token("\\", NamespaceToken, Root, Blank, Blank)];
      rootDocblock := Blank;
    }

    /** `x.add_tokens(line, token_type=k)`, which returns the new token. */
    method AddTokens(x: Ref, line: string, k: Kind) returns (r: Ref)
      requires TreeValid(Value()) && x < |tokens|
      modifies this
      ensures Value() == AddChild(old(Value()), x, line, k) && r == old(|tokens|)
    {
      r := |tokens|;
      tokens := tokens + [Token(line, k, x, Blank, Blank)];
    }

    /** `x.next_docblock = d` */
    method SetNextDocblock(x: Ref, d: Doc)
      requires TreeValid(Value()) && x < |tokens|
      modifies this
      ensures Value() == SetNext(old(Value()), x, d)
    {
      tokens := tokens[x := tokens[x].(nextDocblock := d)];
    }

    /** parcer.py:109-110 */
    method MoveRootDocblock()
      requires TreeValid(Value())
      modifies this
      ensures Value() == Draft.MoveRootDocblock(old(Value()))
    {
      rootDocblock := tokens[Root].nextDocblock;
      tokens := tokens[Root := tokens[Root].(nextDocblock := Blank)];
    }
  }

  /** `set_docblock(cur_token)` (parcer.py:204-206). */
  method SetDocblock(tree: TokenTree, x: Ref)
    requires TreeValid(tree.Value()) && x < |tree.tokens|
    modifies tree
    ensures tree.Value() == Draft.SetDocblock(old(tree.Value()), x)
  {
    var parent := tree.tokens[x].parent;
    tree.tokens := tree.tokens[x := tree.tokens[x].(docblock := tree.tokens[parent].nextDocblock)];
    tree.tokens := tree.tokens[parent := tree.tokens[parent].(nextDocblock := Blank)];
  }

  /** The locals of `parse` other than the tokens (parcer.py:18-27). */
  datatype Locals = Locals(
    state: State,
    prevState: State,
    bracesDiff: int,
    isFirstLevelDocblock: bool,
    isPrevDocblock: bool,
    docblock: seq<string>,
    lineNum: nat,
    cur: Ref)

  /** The scan's variables: the locals and the tokens. */
  ghost function Join(l: Locals, t: Tree): Scan {
    Scan(l.state, l.prevState, l.bracesDiff, l.isFirstLevelDocblock, l.isPrevDocblock, l.docblock, l.lineNum, l.cur, t)
  }

  ghost function Outcome(r: Result<Locals, Exit>, t: Tree): Result<Scan, Exit> {
    match r
    case Ok(l) => Ok(Join(l, t))
    case Err(e) => Err(e)
  }

  /** A declaration that opens a scope at global scope (parcer.py:57-61,
      80-84, 90-94, 100-104). */
  method OpenScope(tree: TokenTree, l: Locals, line: string, st: State) returns (l2: Locals)
    requires Valid(Join(l, tree.Value())) && l.state == InGlobal && !l.isFirstLevelDocblock
    requires st == InFunction || st == InClass || st == InInterface || st == InTrait
    requires st == InFunction ==> l.prevState == InGlobal
    modifies tree
    ensures Join(l2, tree.Value()) == Open(old(Join(l, tree.Value())), line, st)
  {
    var x := tree.AddTokens(l.cur, line, KindOf(st));
    l2 := l.(cur := x, bracesDiff := CountChar(line, '{'));
    if l2.isPrevDocblock {
      SetDocblock(tree, x);
      l2 := l2.(isPrevDocblock := false);
    }
    l2 := l2.(state := st);
  }

  /** The global branch of the loop (parcer.py:44-63). */
  method ScanGlobal(p: Patterns, tree: TokenTree, l: Locals, line: string) returns (l2: Locals)
    requires Valid(Join(l, tree.Value())) && l.state == InGlobal
    modifies tree
    ensures Join(l2, tree.Value()) == StepGlobal(p, old(Join(l, tree.Value())), line)
  {
    if line == "?>" {
      l2 := l.(state := OutOfPhp);
    } else if line == "/**" {
      l2 := l.(prevState := l.state, state := InDocblock);
    } else if p.namespaceLine(line) {
      var x := tree.AddTokens(Root, line, NamespaceToken);
      l2 := l.(isFirstLevelDocblock := false, cur := x);
    } else if p.functionLine(line) {
      l2 := OpenScope(tree, l.(isFirstLevelDocblock := false, prevState := l.state), line, InFunction);
    } else {
      l2 := ScanGlobalDeclaration(p, tree, l, line);
    }
  }

  /** parcer.py:64-105. */
  method ScanGlobalDeclaration(p: Patterns, tree: TokenTree, l: Locals, line: string) returns (l2: Locals)
    requires Valid(Join(l, tree.Value())) && l.state == InGlobal
    modifies tree
    ensures Join(l2, tree.Value()) == GlobalDeclaration(p, old(Join(l, tree.Value())), line)
  {
    if p.globalsLine(line) {
      var child := tree.AddTokens(Root, line, PlainToken);
      l2 := l.(isFirstLevelDocblock := false);
    } else if p.variableLine(line) || p.defineLine(line) || p.constLine(line) {
      var child := tree.AddTokens(l.cur, line, PlainToken);
      l2 := l.(isFirstLevelDocblock := false);
    } else if p.classLine(line) {
      l2 := OpenScope(tree, l.(isFirstLevelDocblock := false), line, InClass);
    } else if p.interfaceLine(line) {
      l2 := OpenScope(tree, l.(isFirstLevelDocblock := false), line, InInterface);
    } else if p.traitLine(line) {
      l2 := OpenScope(tree, l.(isFirstLevelDocblock := false), line, InTrait);
    } else {
      l2 := l;
    }
  }

  /** The docblock branch of the loop (parcer.py:106-117). */
  method ScanDocblock(tree: TokenTree, l: Locals, line: string) returns (l2: Locals)
    requires Valid(Join(l, tree.Value())) && l.state == InDocblock
    modifies tree
    ensures Join(l2, tree.Value()) == StepDocblock(old(Join(l, tree.Value())), line)
  {
    if line == "*/" {
      l2 := l;
      if l.isFirstLevelDocblock && l.prevState == InGlobal && l.isPrevDocblock {
        tree.MoveRootDocblock();
        l2 := l2.(isFirstLevelDocblock := false);
      }
      l2 := l2.(state := l.prevState);
      tree.SetNextDocblock(l.cur, Text(l.docblock));
      l2 := l2.(docblock := [], isPrevDocblock := true);
    } else {
      l2 := l.(docblock := l.docblock + [line]);
    }
  }

  /** The function-body branch of the loop (parcer.py:118-130). */
  method ScanFunction(p: Patterns, tree: TokenTree, l: Locals, line: string) returns (l2: Locals)
    requires Valid(Join(l, tree.Value())) && l.state == InFunction && line != []
    modifies tree
    ensures Join(l2, tree.Value()) == StepFunction(p, old(Join(l, tree.Value())), line)
  {
    var bracesDiff := l.bracesDiff;
    if line[0] == '{' {
      bracesDiff := bracesDiff + 1;
    } else if line[0] == '}' {
      bracesDiff := bracesDiff - 1;
    }
    if bracesDiff == 0 {
      l2 := l.(bracesDiff := bracesDiff, state := l.prevState, cur := tree.tokens[l.cur].parent);
    } else {
      if p.globalsLine(line) {
        var child := tree.AddTokens(Root, line, PlainToken);
      }
      l2 := l.(bracesDiff := bracesDiff);
    }
  }

  /** The class, interface and trait branches of the loop
      (parcer.py:131-198). */
  method ScanType(p: Patterns, tree: TokenTree, l: Locals, line: string) returns (l2: Locals)
    requires Valid(Join(l, tree.Value())) && (l.state == InClass || l.state == InInterface || l.state == InTrait) && line != []
    modifies tree
    ensures Join(l2, tree.Value()) == StepType(p, old(Join(l, tree.Value())), line)
  {
    if line[0] == '}' {
      l2 := l.(state := InGlobal, cur := tree.tokens[l.cur].parent, isPrevDocblock := false);
    } else if line == "/**" {
      l2 := l.(prevState := l.state, state := InDocblock);
    } else if (l.state != InInterface && p.memberVarLine(line)) || (l.state != InTrait && p.memberConstLine(line)) {
      var child := tree.AddTokens(l.cur, line, PlainToken);
      l2 := l;
      if l.isPrevDocblock {
        SetDocblock(tree, l.cur);
        l2 := l2.(isPrevDocblock := false);
      }
    } else if p.memberFunctionLine(line) {
      l2 := ScanMemberFunction(tree, l, line);
    } else {
      l2 := l;
    }
  }

  /** A function member of a type (parcer.py:149-156, 170-177, 191-198). */
  method ScanMemberFunction(tree: TokenTree, l: Locals, line: string) returns (l2: Locals)
    requires Valid(Join(l, tree.Value())) && (l.state == InClass || l.state == InInterface || l.state == InTrait)
    modifies tree
    ensures Join(l2, tree.Value()) == OpenMember(old(Join(l, tree.Value())), line)
  {
    l2 := l;
    if l.isPrevDocblock {
      SetDocblock(tree, l.cur);
      l2 := l2.(isPrevDocblock := false);
    }
    l2 := l2.(prevState := l.state, state := InFunction);
    var x := tree.AddTokens(l.cur, line, FunctionToken);
    l2 := l2.(cur := x, bracesDiff := CountChar(line, '{'));
  }

  /** One pass of the loop body: `line_num += 1`, then the branch of the
      current state; a line outside PHP that does not open with `<?php`
      ends the program. */
  method ScanLine(p: Patterns, tree: TokenTree, l: Locals, line: string) returns (r: Result<Locals, Exit>)
    requires Valid(Join(l, tree.Value())) && NormalLine(line)
    modifies tree
    ensures Outcome(r, tree.Value()) == Step(p, old(Join(l, tree.Value())), line)
  {
    var l0 := l.(lineNum := l.lineNum + 1);
    ghost var s := Join(l, tree.Value());
    assert Join(l0, tree.Value()) == s.(lineNum := s.lineNum + 1);
    StepDispatch(p, s, line);
    if l0.state == OutOfPhp {
      if Find(line, "<?php") == 0 {
        r := Ok(l0.(prevState := l0.state, state := InGlobal));
      } else {
        r := Err(Exit(l0.lineNum));
      }
    } else if l0.state == InGlobal {
      var l2 := ScanGlobal(p, tree, l0, line);
      r := Ok(l2);
    } else if l0.state == InDocblock {
      var l2 := ScanDocblock(tree, l0, line);
      r := Ok(l2);
    } else if l0.state == InFunction {
      var l2 := ScanFunction(p, tree, l0, line);
      r := Ok(l2);
    } else {
      var l2 := ScanType(p, tree, l0, line);
      r := Ok(l2);
    }
  }

  /** `parse`: the root namespace and every token under it, or the exit
      that ended the program, as `Run` computes them on the normalised
      lines. */
  method Parse(p: Patterns, raw: seq<string>) returns (r: Result<TokenTree, Exit>)
    ensures var run := Run(p, Normalised(raw));
            && (r.Ok? <==> run.Ok?)
            && (r.Err? ==> r.error == run.error)
            && (r.Ok? ==> fresh(r.value) && r.value.Value() == run.value.tree)
  {
    var tree := new TokenTree();
    var l := Locals(OutOfPhp, OutOfPhp, 0, true, false, [], 0, Root);
    var lines := NormaliseLines(raw);
    assert Join(l, tree.Value()) == Init();
    for i := 0 to |lines|
      invariant fresh(tree)
      invariant Valid(Join(l, tree.Value()))
      invariant Steps(p, Join(l, tree.Value()), lines[i..]) == Run(p, lines)
    {
      assert lines[i..][0] == lines[i] && lines[i..][1..] == lines[i + 1..];
      var step := ScanLine(p, tree, l, lines[i]);
      match step
      case Err(e) =>
        return Err(e);
      case Ok(l2) =>
        l := l2;
    }
    assert lines[|lines|..] == [];
    return Ok(tree);
  }
}

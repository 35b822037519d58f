/** What one line does to the scan of parcer.py, state by state
    (parcer.py:38-198), and what a whole function body, a whole docblock
    and a matched open/close pair do. Every law holds for any `Patterns`
    unless it names `Regexes`. */
module DraftLaws {
  import opened Wrappers
  import opened PyStr
  import opened Lines
  import opened Draft
  import LinePatterns

  // ---------------------------------------------------------------------
  // Leaving and re-entering PHP (parcer.py:38-46).

  /** Only a line that starts with `<?php` leaves `OUT_OF_PHP`, into the
      global scope, changing nothing else; any other line ends the
      program. */
  lemma OpenPhp(p: Patterns, s: Scan, line: string)
    requires Valid(s) && NormalLine(line) && s.state == OutOfPhp
    ensures var r := Step(p, s, line);
            && (r.Ok? <==> StartsWith(line, "<?php"))
            && (r.Err? ==> r.error == Exit(s.lineNum + 1))
            && (r.Ok? ==> r.value == s.(lineNum := s.lineNum + 1, prevState := OutOfPhp, state := InGlobal))
  {
    StartsWithIsFindZero(line, "<?php");
  }

  /** `?>` at global scope leads out of PHP and changes nothing else. */
  lemma CloseTag(p: Patterns, s: Scan)
    requires Valid(s) && s.state == InGlobal
    ensures NormalLine("?>") && Step(p, s, "?>") == Ok(s.(lineNum := s.lineNum + 1, state := OutOfPhp))
  {
  }

  // ---------------------------------------------------------------------
  // The global scope: the first pattern that matches decides
  // (parcer.py:44-105).

  /** No earlier branch of the global scope takes `line`. */
  predicate NoGlobalKeyword(p: Patterns, line: string) {
    line != "?>" && line != "/**" && !p.namespaceLine(line)
  }

  /** None of the declaration patterns before the class pattern matches. */
  predicate NoGlobalDeclaration(p: Patterns, line: string) {
    && NoGlobalKeyword(p, line) && !p.functionLine(line) && !p.globalsLine(line)
    && !p.variableLine(line) && !p.defineLine(line) && !p.constLine(line)
  }

  /** `line` opens a scope of state `st` at global scope: its pattern is
      the first to match. */
  predicate GlobalOpening(p: Patterns, line: string, st: State) {
    || (st == InFunction && NoGlobalKeyword(p, line) && p.functionLine(line))
    || (st == InClass && NoGlobalDeclaration(p, line) && p.classLine(line))
    || (st == InInterface && NoGlobalDeclaration(p, line) && !p.classLine(line) && p.interfaceLine(line))
    || (st == InTrait && NoGlobalDeclaration(p, line) && !p.classLine(line) && !p.interfaceLine(line) && p.traitLine(line))
  }

  /** `r` is `s` after a scope opened on `line`: a new token of type `k`
      made from the line, child of the old `cur_token`, is `cur_token`;
      the depth is the number of `{` on the line; no docblock is pending,
      and one that was pending has moved to the new token from the old
      `cur_token`'s slot. */
  predicate Opened(s: Scan, r: Scan, line: string, k: Kind)
    requires Valid(s) && Valid(r)
  {
    && r.cur == |s.tree.tokens| && |r.tree.tokens| == |s.tree.tokens| + 1
    && r.tree.tokens[r.cur].text == line && r.tree.tokens[r.cur].kind == k && r.tree.tokens[r.cur].parent == s.cur
    && r.bracesDiff == CountChar(line, '{') && !r.isPrevDocblock && r.lineNum == s.lineNum + 1
    && r.tree.tokens[r.cur].docblock == (if s.isPrevDocblock then s.tree.tokens[s.cur].nextDocblock else Blank)
    && r.tree.tokens[r.cur].nextDocblock == Blank
    && (s.isPrevDocblock ==> r.tree.tokens[s.cur].nextDocblock == Blank)
    && r.tree.rootDocblock == s.tree.rootDocblock && !r.isFirstLevelDocblock
  }

  /** A function, class, interface or trait header at global scope opens
      its scope under `cur_token` and takes the pending docblock; a
      function saves the global scope to return to. */
  lemma GlobalOpens(p: Patterns, s: Scan, line: string, st: State)
    requires Valid(s) && NormalLine(line) && s.state == InGlobal && GlobalOpening(p, line, st)
    ensures var r := Step(p, s, line);
            && r.Ok? && r.value.state == st && Opened(s, r.value, line, KindOf(st))
            && (st == InFunction ==> r.value.prevState == InGlobal)
  {
  }

  /** A namespace line makes a new namespace, child of the root whatever
      `cur_token` was, and makes it `cur_token`; a pending docblock stays
      pending. */
  lemma NamespaceOpens(p: Patterns, s: Scan, line: string)
    requires Valid(s) && NormalLine(line) && s.state == InGlobal && line != "?>" && line != "/**" && p.namespaceLine(line)
    ensures var r := Step(p, s, line);
            && r.Ok? && r.value.state == InGlobal && r.value.cur == |s.tree.tokens|
            && r.value.tree.tokens == s.tree.tokens + [Token(line, NamespaceToken, Root, Blank, Blank)]
            && r.value.isPrevDocblock == s.isPrevDocblock && !r.value.isFirstLevelDocblock
  {
  }

  /** A `$GLOBALS['name']` line adds a token to the root namespace, whatever
      `cur_token` is: at global scope when no earlier pattern takes it, and
      in a function body on any line but the closing one. Nothing else in
      the tree changes. */
  lemma GlobalsToRoot(p: Patterns, s: Scan, line: string)
    requires Valid(s) && NormalLine(line) && p.globalsLine(line)
    requires || (s.state == InGlobal && NoGlobalKeyword(p, line) && !p.functionLine(line))
             || (s.state == InFunction && s.bracesDiff + Delta(line) != 0)
    ensures var r := Step(p, s, line);
            && r.Ok? && r.value.state == s.state && r.value.cur == s.cur
            && r.value.tree == s.tree.(tokens := s.tree.tokens + [Token(line, PlainToken, Root, Blank, Blank)])
  {
  }

  /** With the patterns of parcer.py, a `$GLOBALS['name']` line also
      matches the variable pattern, and it is only because its pattern is
      tried first that the line goes to the root namespace rather than to
      `cur_token`. */
  lemma GlobalsBeforeVariables(s: Scan, line: string)
    requires Valid(s) && NormalLine(line) && s.state == InGlobal && LinePatterns.GlobalsLine(line)
    requires !LinePatterns.NamespaceLine(line) && !LinePatterns.FunctionLine(line)
    ensures LinePatterns.VariableLine(line)
    ensures var r := Step(Regexes, s, line);
            r.Ok? && r.value.tree.tokens == s.tree.tokens + [Token(line, PlainToken, Root, Blank, Blank)]
  {
    LinePatterns.GlobalsIsVariable(line);
    GlobalsToRoot(Regexes, s, line);
  }

  /** A variable, `define` or `const` line that no earlier pattern takes
      adds a token to `cur_token`; the scope does not change. */
  lemma LocalDeclaration(p: Patterns, s: Scan, line: string)
    requires Valid(s) && NormalLine(line) && s.state == InGlobal && NoGlobalKeyword(p, line)
    requires !p.functionLine(line) && !p.globalsLine(line)
    requires p.variableLine(line) || p.defineLine(line) || p.constLine(line)
    ensures var r := Step(p, s, line);
            && r.Ok? && r.value.state == InGlobal && r.value.cur == s.cur && !r.value.isFirstLevelDocblock
            && r.value.tree == s.tree.(tokens := s.tree.tokens + [Token(line, PlainToken, s.cur, Blank, Blank)])
  {
  }

  /** A global line no pattern matches is skipped without a trace. */
  lemma UnmatchedSkipped(p: Patterns, s: Scan, line: string)
    requires Valid(s) && NormalLine(line) && s.state == InGlobal && NoGlobalDeclaration(p, line)
    requires !p.classLine(line) && !p.interfaceLine(line) && !p.traitLine(line)
    ensures Step(p, s, line) == Ok(s.(lineNum := s.lineNum + 1))
  {
  }

  // ---------------------------------------------------------------------
  // Class, interface and trait bodies (parcer.py:131-198).

  predicate TypeState(st: State) {
    st == InClass || st == InInterface || st == InTrait
  }

  /** A line opening with `}` closes a type body to the global scope, not
      to the saved state, clears the pending flag, and makes the type's
      parent, a namespace, `cur_token` again. */
  lemma CloseType(p: Patterns, s: Scan, line: string)
    requires Valid(s) && NormalLine(line) && TypeState(s.state) && line[0] == '}'
    ensures var r := Step(p, s, line);
            && r == Ok(s.(lineNum := s.lineNum + 1, state := InGlobal, cur := s.tree.tokens[s.cur].parent, isPrevDocblock := false))
            && r.value.tree.tokens[r.value.cur].kind == NamespaceToken
  {
  }

  /** A member line of a type, as its patterns are tried: variables in a
      class or a trait, constants in a class or an interface. */
  predicate MemberLine(p: Patterns, st: State, line: string) {
    (st != InInterface && p.memberVarLine(line)) || (st != InTrait && p.memberConstLine(line))
  }

  /** A variable or constant member adds a token to the type; a pending
      docblock does not go to it: `set_docblock` is applied to the type,
      which takes whatever waits on its namespace, and the member's
      docblock stays in the type's own slot. */
  lemma MemberDocblockToType(p: Patterns, s: Scan, line: string)
    requires Valid(s) && NormalLine(line) && TypeState(s.state) && line[0] != '}' && line != "/**" && MemberLine(p, s.state, line)
    ensures var r := Step(p, s, line);
            && r.Ok? && r.value.state == s.state && r.value.cur == s.cur && !r.value.isPrevDocblock
            && |r.value.tree.tokens| == |s.tree.tokens| + 1
            && r.value.tree.tokens[|s.tree.tokens|] == Token(line, PlainToken, s.cur, Blank, Blank)
            && r.value.tree.tokens[s.cur].nextDocblock == s.tree.tokens[s.cur].nextDocblock
            && r.value.tree.tokens[s.cur].docblock ==
                 if s.isPrevDocblock then s.tree.tokens[s.tree.tokens[s.cur].parent].nextDocblock else s.tree.tokens[s.cur].docblock
  {
  }

  /** A function member opens a function under the type; a pending
      docblock is first handed to the type, so the function gets none. */
  lemma MemberFunctionOpens(p: Patterns, s: Scan, line: string)
    requires Valid(s) && NormalLine(line) && TypeState(s.state) && line[0] != '}' && line != "/**"
    requires !MemberLine(p, s.state, line) && p.memberFunctionLine(line)
    ensures var r := Step(p, s, line);
            && r.Ok? && r.value.state == InFunction && r.value.prevState == s.state
            && r.value.cur == |s.tree.tokens| && |r.value.tree.tokens| == |s.tree.tokens| + 1
            && r.value.tree.tokens[r.value.cur] == Token(line, FunctionToken, s.cur, Blank, Blank)
            && r.value.bracesDiff == CountChar(line, '{') && !r.value.isPrevDocblock
  {
  }

  /** A type-body line no pattern matches is skipped. */
  lemma MemberSkipped(p: Patterns, s: Scan, line: string)
    requires Valid(s) && NormalLine(line) && TypeState(s.state) && line[0] != '}' && line != "/**"
    requires !MemberLine(p, s.state, line) && !p.memberFunctionLine(line)
    ensures Step(p, s, line) == Ok(s.(lineNum := s.lineNum + 1))
  {
  }

  // ---------------------------------------------------------------------
  // Docblocks (parcer.py:47-49, 106-117, 136-138).

  // `/**` at global scope or in a type body saves the state and opens a
  // docblock.
  lemma OpenDocblock(p: Patterns, s: Scan)
    requires Valid(s) && Ordinary(s.state)
    ensures NormalLine("/**") && Step(p, s, "/**") == Ok(s.(lineNum := s.lineNum + 1, prevState := s.state, state := InDocblock))
  {
  }

  lemma DocblockLine(p: Patterns, s: Scan, line: string)
    requires Valid(s) && NormalLine(line) && s.state == InDocblock && line != "*/"
    ensures Step(p, s, line) == Ok(s.(lineNum := s.lineNum + 1, docblock := s.docblock + [line]))
  {
  }

  // `*/` stores the lines raw in the slot of `cur_token`, marks them
  // pending and returns to the saved state; when `ToRoot` holds, the
  // root's earlier pending docblock becomes root documentation first.
  lemma CloseDocblock(p: Patterns, s: Scan)
    requires Valid(s) && s.state == InDocblock
    ensures NormalLine("*/")
    ensures var r := Step(p, s, "*/");
            && r.Ok? && r.value.state == s.prevState && r.value.cur == s.cur && r.value.docblock == [] && r.value.isPrevDocblock
            && r.value.tree.tokens[s.cur].nextDocblock == Text(s.docblock)
            && r.value.tree.rootDocblock == (if ToRoot(s) then s.tree.tokens[Root].nextDocblock else s.tree.rootDocblock)
            && r.value.isFirstLevelDocblock == (s.isFirstLevelDocblock && !ToRoot(s))
  {
  }

  // ---------------------------------------------------------------------
  // Runs of lines.

  lemma {:induction false} StepsAppend(p: Patterns, s: Scan, a: seq<string>, b: seq<string>)
    requires Valid(s) && AllNormal(a) && AllNormal(b)
    ensures AllNormal(a + b)
    ensures Steps(p, s, a + b) ==
              match Steps(p, s, a)
              case Ok(s1) => Steps(p, s1, b)
              case Err(e) => Err(e)
    decreases |a|
  {
    assert AllNormal(a + b) by {
      forall k | 0 <= k < |a + b| ensures NormalLine((a + b)[k]) {
        if k < |a| { assert (a + b)[k] == a[k]; } else { assert (a + b)[k] == b[k - |a|]; }
      }
    }
    if a == [] {
      assert a + b == b;
    } else {
      assert (a + b)[0] == a[0] && (a + b)[1..] == a[1..] + b;
      match Step(p, s, a[0])
      case Err(e) =>
      case Ok(s1) =>
        StepsAppend(p, s1, a[1..], b);
    }
  }

  /** Once `a` has run to `s1`, the lines after it run from `s1`. */
  lemma StepsThen(p: Patterns, s: Scan, a: seq<string>, b: seq<string>, s1: Scan)
    requires Valid(s) && AllNormal(a) && AllNormal(b) && Steps(p, s, a) == Ok(s1)
    ensures AllNormal(a + b) && Steps(p, s, a + b) == Steps(p, s1, b)
  {
    StepsAppend(p, s, a, b);
  }

  lemma StepsCons(p: Patterns, s: Scan, lines: seq<string>)
    requires Valid(s) && AllNormal(lines) && lines != [] && Step(p, s, lines[0]).Ok?
    ensures Steps(p, s, lines) == Steps(p, Step(p, s, lines[0]).value, lines[1..])
  {
  }

  // ---------------------------------------------------------------------
  // A whole function body (parcer.py:118-130).

  /** The tokens the `$GLOBALS` lines of `lines` add to the root, in
      order. */
  function RootGlobals(p: Patterns, lines: seq<string>): (ts: seq<Token>)
    ensures |ts| <= |lines|
    ensures forall k :: 0 <= k < |ts| ==> ts[k].parent == Root && ts[k].kind == PlainToken && p.globalsLine(ts[k].text)
  {
    if lines == [] then []
    else (if p.globalsLine(lines[0]) then [Token(lines[0], PlainToken, Root, Blank, Blank)] else []) + RootGlobals(p, lines[1..])
  }

  /** The scan after a line of a function body that does not close it. */
  function FunctionLineNext(p: Patterns, s: Scan, line: string): Scan
    requires line != []
  {
    s.(lineNum := s.lineNum + 1, bracesDiff := s.bracesDiff + Delta(line), tree := s.tree.(tokens := s.tree.tokens + RootGlobals(p, [line])))
  }

  /** A line of a function body before the closing one moves the depth
      and adds a `$GLOBALS` line to the root; the scope does not change. */
  lemma FunctionBodyLine(p: Patterns, s: Scan, line: string)
    requires Valid(s) && NormalLine(line) && s.state == InFunction && s.bracesDiff + Delta(line) != 0
    ensures Step(p, s, line) == Ok(FunctionLineNext(p, s, line))
  {
    var s0 := s.(lineNum := s.lineNum + 1);
    assert Step(p, s, line) == Ok(StepFunction(p, s0, line)) by {
      StepDispatch(p, s, line);
    }
    BodyLineTree(p, s.tree, line);
  }

  /** The tree after one body line, as `StepFunction` and
      `FunctionLineNext` each write it. */
  lemma BodyLineTree(p: Patterns, t: Tree, line: string)
    requires TreeValid(t)
    ensures t.(tokens := t.tokens + RootGlobals(p, [line]))
            == if p.globalsLine(line) then AddChild(t, Root, line, PlainToken) else t
  {
    RootGlobalsOne(p, line);
    if !p.globalsLine(line) {
      assert t.tokens + RootGlobals(p, [line]) == t.tokens;
    }
  }

  /** The line that brings the depth to 0 ends the body: the scan returns
      to the state saved on entry and `cur_token` to the function's
      parent; nothing else changes. */
  lemma CloseFunction(p: Patterns, s: Scan, line: string)
    requires Valid(s) && NormalLine(line) && s.state == InFunction && s.bracesDiff + Delta(line) == 0
    ensures Step(p, s, line) == Ok(s.(lineNum := s.lineNum + 1, bracesDiff := 0, state := s.prevState, cur := s.tree.tokens[s.cur].parent))
  {
  }

  /** The scan after the whole of `body`, as `WholeFunctionBody` states
      it. */
  function AfterFunction(p: Patterns, s: Scan, body: seq<string>): Scan
    requires s.cur < |s.tree.tokens| && body != []
  {
    s.(lineNum := s.lineNum + |body|, bracesDiff := 0, state := s.prevState, cur := s.tree.tokens[s.cur].parent,
       tree := s.tree.(tokens := s.tree.tokens + RootGlobals(p, body[..|body| - 1])))
  }

  lemma FunctionBodyStep(p: Patterns, s: Scan, body: seq<string>)
    requires Valid(s) && s.state == InFunction && AllNormal(body) && |body| > 1 && s.bracesDiff + Delta(body[0]) != 0
    ensures Valid(FunctionLineNext(p, s, body[0])) && AllNormal(body[1..])
    ensures Steps(p, s, body) == Steps(p, FunctionLineNext(p, s, body[0]), body[1..])
  {
    FunctionBodyLine(p, s, body[0]);
    StepsCons(p, s, body);
  }

  lemma RootGlobalsOne(p: Patterns, line: string)
    ensures RootGlobals(p, [line]) == if p.globalsLine(line) then [Token(line, PlainToken, Root, Blank, Blank)] else []
  {
    assert [line][1..] == [];
  }

  lemma RootGlobalsCons(p: Patterns, line: string, rest: seq<string>)
    ensures RootGlobals(p, [line] + rest) == RootGlobals(p, [line]) + RootGlobals(p, rest)
  {
    RootGlobalsOne(p, line);
    assert ([line] + rest)[0] == line && ([line] + rest)[1..] == rest;
  }

  lemma AfterFunctionShift(p: Patterns, s: Scan, body: seq<string>)
    requires s.cur < |s.tree.tokens| && |body| > 1 && body[0] != []
    ensures AfterFunction(p, FunctionLineNext(p, s, body[0]), body[1..]) == AfterFunction(p, s, body)
  {
    var s1 := FunctionLineNext(p, s, body[0]);
    var rest := body[1..][..|body[1..]| - 1];
    assert s1.tree.tokens[s.cur] == s.tree.tokens[s.cur];
    assert s1.tree.tokens + RootGlobals(p, rest) == s.tree.tokens + RootGlobals(p, body[..|body| - 1]) by {
      assert body[..|body| - 1] == [body[0]] + rest;
      RootGlobalsCons(p, body[0], rest);
    }
  }

  /** A whole function body: the scan is back in the state saved on entry,
      `cur_token` is the function's parent, the depth is 0, and the
      `$GLOBALS` lines before the closing one have gone to the root, in
      order. Nothing else changes. */
  lemma {:induction false} WholeFunctionBody(p: Patterns, s: Scan, body: seq<string>)
    requires Valid(s) && s.state == InFunction && AllNormal(body) && ClosesOn(s.bracesDiff, body)
    ensures Steps(p, s, body) == Ok(AfterFunction(p, s, body))
    decreases |body|
  {
    if |body| == 1 {
      CloseFunction(p, s, body[0]);
      assert body[..0] == [];
      assert s.tree.(tokens := s.tree.tokens + []) == s.tree;
    } else {
      FunctionBodyStep(p, s, body);
      WholeFunctionBody(p, FunctionLineNext(p, s, body[0]), body[1..]);
      AfterFunctionShift(p, s, body);
    }
  }

  /** A function declared at global scope, header and whole body: the scan
      is back at global scope with `cur_token` where it was, and the
      function is a child of it. */
  lemma GlobalFunctionRestoresScope(p: Patterns, s: Scan, header: string, body: seq<string>)
    requires Valid(s) && s.state == InGlobal && NormalLine(header) && GlobalOpening(p, header, InFunction)
    requires AllNormal(body) && ClosesOn(CountChar(header, '{'), body)
    ensures AllNormal([header] + body)
    ensures var r := Steps(p, s, [header] + body);
            && r.Ok? && r.value.state == InGlobal && r.value.cur == s.cur && r.value.bracesDiff == 0
            && |s.tree.tokens| < |r.value.tree.tokens|
            && r.value.tree.tokens[|s.tree.tokens|].kind == FunctionToken && r.value.tree.tokens[|s.tree.tokens|].parent == s.cur
  {
    GlobalOpens(p, s, header, InFunction);
    var s1 := Step(p, s, header).value;
    HeaderThenBody(p, s, header, body);
    WholeFunctionBody(p, s1, body);
  }

  /** A function member of a type, header and whole body: the scan is back
      in the type's body with `cur_token` on the type again. */
  lemma MemberFunctionRestoresScope(p: Patterns, s: Scan, header: string, body: seq<string>)
    requires Valid(s) && TypeState(s.state) && NormalLine(header) && header[0] != '}' && header != "/**"
    requires !MemberLine(p, s.state, header) && p.memberFunctionLine(header)
    requires AllNormal(body) && ClosesOn(CountChar(header, '{'), body)
    ensures AllNormal([header] + body)
    ensures var r := Steps(p, s, [header] + body);
            && r.Ok? && r.value.state == s.state && r.value.cur == s.cur && r.value.bracesDiff == 0
            && |s.tree.tokens| < |r.value.tree.tokens|
            && r.value.tree.tokens[|s.tree.tokens|].kind == FunctionToken && r.value.tree.tokens[|s.tree.tokens|].parent == s.cur
  {
    MemberFunctionOpens(p, s, header);
    var s1 := Step(p, s, header).value;
    HeaderThenBody(p, s, header, body);
    WholeFunctionBody(p, s1, body);
  }

  /** A header line that the scan accepts, then a body: the body runs from
      the scan the header leaves. */
  lemma HeaderThenBody(p: Patterns, s: Scan, header: string, body: seq<string>)
    requires Valid(s) && NormalLine(header) && AllNormal(body) && Step(p, s, header).Ok?
    ensures AllNormal([header] + body)
    ensures Steps(p, s, [header] + body) == Steps(p, Step(p, s, header).value, body)
  {
    StepsOne(p, s, header);
    StepsAppend(p, s, [header], body);
  }

  /** A single line runs as one step. */
  lemma StepsOne(p: Patterns, s: Scan, line: string)
    requires Valid(s) && NormalLine(line)
    ensures AllNormal([line]) && Steps(p, s, [line]) == Step(p, s, line)
  {
    assert [line][1..] == [];
  }

  // ---------------------------------------------------------------------
  // A whole docblock (parcer.py:106-117).

  // The scan after the lines of `body` and the closing `*/`, as
  // `WholeDocblock` states it.
  function AfterDocblock(s: Scan, body: seq<string>): Scan
    requires TreeValid(s.tree) && s.cur < |s.tree.tokens|
  {
    s.(lineNum := s.lineNum + |body| + 1, state := s.prevState, docblock := [], isPrevDocblock := true,
       isFirstLevelDocblock := s.isFirstLevelDocblock && !ToRoot(s),
       tree := SetNext(if ToRoot(s) then MoveRootDocblock(s.tree) else s.tree, s.cur, Text(s.docblock + body)))
  }

  lemma AllNormalEnd(body: seq<string>)
    requires AllNormal(body)
    ensures AllNormal(body + ["*/"])
  {
    assert NormalLine("*/");
    forall k | 0 <= k < |body + ["*/"]| ensures NormalLine((body + ["*/"])[k]) {
      if k < |body| { assert (body + ["*/"])[k] == body[k]; }
    }
  }

  lemma DocblockStep(p: Patterns, s: Scan, body: seq<string>)
    requires Valid(s) && s.state == InDocblock && AllNormal(body) && body != [] && "*/" !in body
    ensures AllNormal(body + ["*/"]) && AllNormal(body[1..])
    ensures Valid(s.(lineNum := s.lineNum + 1, docblock := s.docblock + [body[0]]))
    ensures Steps(p, s, body + ["*/"]) == Steps(p, s.(lineNum := s.lineNum + 1, docblock := s.docblock + [body[0]]), body[1..] + ["*/"])
  {
    DocblockLine(p, s, body[0]);
    AllNormalEnd(body);
    assert (body + ["*/"])[0] == body[0] && (body + ["*/"])[1..] == body[1..] + ["*/"];
    StepsCons(p, s, body + ["*/"]);
  }

  // The closing line alone: the base case of `WholeDocblock`.
  lemma DocblockEnd(p: Patterns, s: Scan)
    requires Valid(s) && s.state == InDocblock
    ensures AllNormal(["*/"])
    ensures Steps(p, s, ["*/"]) == Ok(AfterDocblock(s, []))
  {
    AllNormalEnd([]);
    assert s.docblock + [] == s.docblock;
  }

  lemma AfterDocblockShift(s: Scan, body: seq<string>)
    requires TreeValid(s.tree) && s.cur < |s.tree.tokens| && body != []
    ensures AfterDocblock(s.(lineNum := s.lineNum + 1, docblock := s.docblock + [body[0]]), body[1..]) == AfterDocblock(s, body)
  {
    assert s.docblock + [body[0]] + body[1..] == s.docblock + body;
  }

  /** A whole docblock, up to and including its closing line. */
  lemma {:induction false} WholeDocblock(p: Patterns, s: Scan, body: seq<string>)
    requires Valid(s) && s.state == InDocblock && AllNormal(body) && "*/" !in body
    ensures AllNormal(body + ["*/"])
    ensures Steps(p, s, body + ["*/"]) == Ok(AfterDocblock(s, body))
    decreases |body|
  {
    if body == [] {
      DocblockEnd(p, s);
    } else {
      DocblockStep(p, s, body);
      WholeDocblock(p, s.(lineNum := s.lineNum + 1, docblock := s.docblock + [body[0]]), body[1..]);
      AfterDocblockShift(s, body);
    }
  }

  // A docblock at global scope or in a type body, from `/**` to `*/`:
  // the scan is back where it was, with the raw lines in the slot of
  // `cur_token` and marked pending. The root's pending docblock becomes
  // root documentation when the first-level flag holds at global scope
  // and a docblock was already pending; no token is added.
  lemma DocComment(p: Patterns, s: Scan, body: seq<string>)
    requires Valid(s) && Ordinary(s.state) && AllNormal(body) && "*/" !in body
    ensures AllNormal(["/**"] + body + ["*/"])
    ensures var r := Steps(p, s, ["/**"] + body + ["*/"]);
            && r.Ok? && r.value.state == s.state && r.value.cur == s.cur && r.value.isPrevDocblock
            && r.value.tree.tokens[s.cur].nextDocblock == Text(body) && |r.value.tree.tokens| == |s.tree.tokens|
            && r.value.tree.rootDocblock ==
                 (if s.isFirstLevelDocblock && s.state == InGlobal && s.isPrevDocblock then s.tree.tokens[Root].nextDocblock else s.tree.rootDocblock)
            && r.value.isFirstLevelDocblock == (s.isFirstLevelDocblock && !(s.state == InGlobal && s.isPrevDocblock))
  {
    OpenDocblock(p, s);
    var s1 := s.(lineNum := s.lineNum + 1, prevState := s.state, state := InDocblock);
    WholeDocblock(p, s1, body);
    assert ["/**"] + body + ["*/"] == ["/**"] + (body + ["*/"]);
    HeaderThenBody(p, s, "/**", body + ["*/"]);
    assert s1.docblock + body == body;
  }

  /** A docblock just before a function, class, interface or trait header
      at global scope is the docblock of the new token, and the slot it
      waited in is empty again. */
  lemma DocblockBeforeOpening(p: Patterns, s: Scan, body: seq<string>, header: string, st: State)
    requires Valid(s) && s.state == InGlobal && AllNormal(body) && "*/" !in body
    requires NormalLine(header) && GlobalOpening(p, header, st)
    ensures AllNormal(["/**"] + body + ["*/", header])
    ensures var r := Steps(p, s, ["/**"] + body + ["*/", header]);
            && r.Ok? && r.value.state == st && r.value.tree.tokens[r.value.cur].parent == s.cur
            && r.value.tree.tokens[r.value.cur].docblock == Text(body) && r.value.tree.tokens[s.cur].nextDocblock == Blank
  {
    var doc := ["/**"] + body + ["*/"];
    DocComment(p, s, body);
    var s2 := Steps(p, s, doc).value;
    GlobalOpens(p, s2, header, st);
    StepsOne(p, s2, header);
    StepsThen(p, s, doc, [header], s2);
    DocThenHeader(body, header);
  }

  lemma DocThenHeader(body: seq<string>, header: string)
    ensures (["/**"] + body + ["*/"]) + [header] == ["/**"] + body + ["*/", header]
  {
  }

  // ---------------------------------------------------------------------
  // Root documentation (parcer.py:108-111).

  /** Once the first-level flag is down it stays down and root
      documentation never changes again: the root namespace is documented
      at most once. */
  lemma {:induction false} RootDocblockFixed(p: Patterns, s: Scan, lines: seq<string>)
    requires Valid(s) && !s.isFirstLevelDocblock && AllNormal(lines)
    ensures var r := Steps(p, s, lines);
            r.Ok? ==> r.value.tree.rootDocblock == s.tree.rootDocblock && !r.value.isFirstLevelDocblock
    decreases |lines|
  {
    if lines != [] && Step(p, s, lines[0]).Ok? {
      RootDocblockFixed(p, Step(p, s, lines[0]).value, lines[1..]);
    }
  }

  /** A file that opens with two docblocks in a row: the first becomes root
      documentation when the second closes, and the second waits on the
      root. A single docblock before a declaration goes to the
      declaration instead (`DocblockBeforeOpening`). */
  lemma FirstDocblockToRoot(p: Patterns, a: seq<string>, b: seq<string>)
    requires AllNormal(a) && AllNormal(b) && "*/" !in a && "*/" !in b
    ensures AllNormal(["<?php"] + (["/**"] + a + ["*/"]) + (["/**"] + b + ["*/"]))
    ensures var r := Run(p, ["<?php"] + (["/**"] + a + ["*/"]) + (["/**"] + b + ["*/"]));
            && r.Ok? && r.value.state == InGlobal && r.value.cur == Root && r.value.isPrevDocblock
            && r.value.tree.rootDocblock == Text(a) && r.value.tree.tokens[Root].nextDocblock == Text(b)
            && !r.value.isFirstLevelDocblock
  {
    var s := Init();
    var open := ["<?php"];
    var da := ["/**"] + a + ["*/"];
    var db := ["/**"] + b + ["*/"];
    assert NormalLine("<?php");
    OpenPhp(p, s, "<?php");
    assert StartsWith("<?php", "<?php");
    var s1 := Step(p, s, "<?php").value;
    assert Steps(p, s, open) == Ok(s1);
    DocComment(p, s1, a);
    var s2 := Steps(p, s1, da).value;
    DocComment(p, s2, b);
    StepsAppend(p, s, open, da);
    StepsAppend(p, s, open + da, db);
  }
}

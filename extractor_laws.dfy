/** What each extractor of parser.py returns for the declaration lines it is
    written for: a line rendered from its parts gives those parts back. The
    hypotheses are the spelling rules stated in the comments above each
    extractor (one blank around `=`, no blank inside `()`, ...) together
    with names that do not contain the keywords the extractor searches
    for. */
module ExtractorLaws {
  import opened Wrappers
  import opened PyStr
  import opened Lines
  import opened Items
  import opened Extractors

  predicate IsNameChar(c: char) {
    ('a' <= c <= 'z') || ('A' <= c <= 'Z') || ('0' <= c <= '9') || c == '_'
  }

  /** An identifier: letters, digits and underscores. */
  predicate Name(s: string) {
    s != [] && forall i :: 0 <= i < |s| ==> IsNameChar(s[i])
  }

  lemma NameLacks(s: string, c: char)
    requires Name(s) && !IsNameChar(c)
    ensures c !in s
  {
  }

  /** A one-character pattern is found at its first occurrence. */
  lemma FindChar(a: string, c: char, b: string)
    requires c !in a
    ensures Find(a + [c] + b, [c]) == |a|
  {
    FindAfterPart(a, [c], b);
  }

  lemma NoChar(s: string, c: char)
    requires c !in s
    ensures !Contains(s, [c])
  {
    MissingChar(s, [c], 0);
  }

  // ---------------------------------------------------------------------
  // parser_trait, parser_namespace

  /** `trait T` gives `T`, whatever follows the keyword. */
  lemma TraitRoundTrip(n: string)
    ensures ParseTrait("trait " + n) == TraitDecl(n)
  {
    TraitShape(n);
    FindAtFront("trait", " " + n);
  }

  lemma TraitShape(n: string)
    ensures "trait " + n == "trait" + (" " + n)
    ensures Drop("trait " + n, 6) == n
  {
    assert ("trait " + n)[6..] == n;
  }

  function NamespaceLine(n: string): string {
    "namespace " + n + ";"
  }

  /** `namespace N;` gives `N`. */
  lemma NamespaceRoundTrip(n: string)
    requires '<' !in n
    ensures ParseNamespace(NamespaceLine(n)) == n
  {
    NamespaceShape(n);
    NoPhpOpen(n);
    FindAtFront("namespace", " " + n + ";");
  }

  lemma NamespaceShape(n: string)
    ensures NamespaceLine(n) == "namespace" + (" " + n + ";")
    ensures Drop(NamespaceLine(n), 10) == n + ";" && Slice(n + ";", 0, -1) == n
  {
    assert NamespaceLine(n)[10..] == n + ";";
    assert (n + ";")[..|n|] == n;
  }

  lemma NoPhpOpen(n: string)
    requires '<' !in n
    ensures !Contains(NamespaceLine(n), "<?php")
  {
    assert '<' !in NamespaceLine(n);
    MissingChar(NamespaceLine(n), "<?php", 0);
  }

  /** An opening `<?php ` in front of a line that has no other changes
      nothing. */
  lemma PhpPrefixIgnored(line: string)
    requires !Contains(line, "<?php")
    ensures ParseNamespace("<?php " + line) == ParseNamespace(line)
  {
    var full := "<?php " + line;
    PhpShape(line);
    FindAtFront("<?php", " " + line);
    assert Find(full, "<?php") == 0 && Drop(full, 6) == line;
    assert Find(line, "<?php") == -1;
  }

  lemma PhpShape(line: string)
    ensures "<?php " + line == "<?php" + (" " + line)
    ensures Drop("<?php " + line, 6) == line
  {
    assert ("<?php " + line)[6..] == line;
  }

  /** `<?php namespace N;` gives `N` as well. */
  lemma PhpNamespaceRoundTrip(n: string)
    requires '<' !in n
    ensures ParseNamespace("<?php " + NamespaceLine(n)) == n
  {
    NoPhpOpen(n);
    PhpPrefixIgnored(NamespaceLine(n));
    NamespaceRoundTrip(n);
  }

  // ---------------------------------------------------------------------
  // parser_define, parser_const

  function DefineLine(n: string, v: string): string {
    "define('" + n + "', " + v + ");"
  }

  lemma DefineFindOpen(n: string, v: string)
    requires Name(n)
    ensures Find(DefineLine(n, v), "(") == 6
  {
    NameLacks(n, '(');
    assert DefineLine(n, v) == "define" + "(" + ("'" + n + "', " + v + ");");
    FindAfterPart("define", "(", "'" + n + "', " + v + ");");
  }

  lemma DefineFindComma(n: string, v: string)
    requires Name(n)
    ensures Find(DefineLine(n, v), ",") == 9 + |n|
  {
    NameLacks(n, ',');
    var a := "define('" + n + "'";
    assert DefineLine(n, v) == a + "," + (" " + v + ");");
    FindAfterPart(a, ",", " " + v + ");");
  }

  lemma DefineFindClose(n: string, v: string)
    requires Name(n) && ')' !in v
    ensures Find(DefineLine(n, v), ")") == 11 + |n| + |v|
  {
    NameLacks(n, ')');
    var b := "define('" + n + "', " + v;
    assert DefineLine(n, v) == b + ")" + ";";
    FindAfterPart(b, ")", ";");
  }

  /** `define('N', V);` gives the constant `N` with the value `V`. */
  lemma DefineRoundTrip(n: string, v: string)
    requires Name(n) && ')' !in v
    ensures ParseDefine(DefineLine(n, v)) == GlobalConst(n, v)
  {
    var line := DefineLine(n, v);
    DefineFindOpen(n, v);
    DefineFindComma(n, v);
    DefineFindClose(n, v);
    assert line[8..8 + |n|] == n;
    assert line[11 + |n|..11 + |n| + |v|] == v;
  }

  /** The keyword written for each access modifier. */
  function AccessWord(a: Access): (w: string)
    ensures w != [] && w[0] == 'p' && 'n' !in w && '=' !in w && ';' !in w && ' ' !in w && '$' !in w && '\n' !in w
    ensures a != Public ==> 'u' !in w
    ensures a == Private ==> 'o' !in w
  {
    match a
    case Public => "public"
    case Protected => "protected"
    case Private => "private"
  }

  /** `const N = V;` after a prefix: nothing, or a keyword and a blank. */
  function ConstLine(pre: string, n: string, v: string): string {
    pre + "const " + n + " = " + v + ";"
  }

  lemma ConstKeyword(pre: string, rest: string)
    requires pre == [] || ('n' !in pre && pre[|pre| - 1] == ' ')
    ensures Find(pre + "const" + rest, "const") == |pre|
  {
    if pre == [] {
      FindAtFront("const", rest);
    } else {
      var u := pre[..|pre| - 1];
      assert 'n' !in u;
      MissingChar(u, "const", 2);
      assert pre + "const" + rest == u + (" " + "const" + rest);
      FindAfterPart(" ", "const", rest);
      FindPast(u, " " + "const" + rest, "const");
    }
  }

  lemma ConstFindKeyword(pre: string, n: string, v: string)
    requires pre == [] || ('n' !in pre && pre[|pre| - 1] == ' ')
    ensures Find(ConstLine(pre, n, v), "const") == |pre|
  {
    assert ConstLine(pre, n, v) == pre + "const" + (" " + n + " = " + v + ";");
    ConstKeyword(pre, " " + n + " = " + v + ";");
  }

  lemma ConstFindEquals(pre: string, n: string, v: string)
    requires '=' !in pre && Name(n)
    ensures Find(ConstLine(pre, n, v), "=") == |pre| + 7 + |n|
  {
    NameLacks(n, '=');
    var a := pre + "const " + n + " ";
    assert ConstLine(pre, n, v) == a + "=" + (" " + v + ";");
    FindAfterPart(a, "=", " " + v + ";");
  }

  lemma ConstFindSemicolon(pre: string, n: string, v: string)
    requires ';' !in pre && Name(n) && ';' !in v
    ensures Find(ConstLine(pre, n, v), ";") == |pre| + 9 + |n| + |v|
  {
    NameLacks(n, ';');
    var b := pre + "const " + n + " = " + v;
    assert ConstLine(pre, n, v) == b + ";" + [];
    FindAfterPart(b, ";", []);
  }

  lemma ConstSlices(pre: string, n: string, v: string)
    requires pre == [] || ('n' !in pre && pre[|pre| - 1] == ' ')
    requires '=' !in pre && ';' !in pre && Name(n) && ';' !in v
    ensures ConstName(ConstLine(pre, n, v)) == n
    ensures ConstValue(ConstLine(pre, n, v)) == v
  {
    ConstFindKeyword(pre, n, v);
    ConstFindEquals(pre, n, v);
    ConstFindSemicolon(pre, n, v);
    ConstShape(pre, n, v);
  }

  lemma ConstShape(pre: string, n: string, v: string)
    ensures ConstLine(pre, n, v)[|pre| + 6..|pre| + 6 + |n|] == n
    ensures ConstLine(pre, n, v)[|pre| + 9 + |n|..|pre| + 9 + |n| + |v|] == v
  {
  }

  /** `const N = V;` gives the constant `N` with the value `V`. */
  lemma ConstRoundTrip(n: string, v: string)
    requires Name(n) && ';' !in v
    ensures ParseConst(ConstLine([], n, v)) == GlobalConst(n, v)
  {
    ConstSlices([], n, v);
  }

  lemma StartsWithFront(pat: string, rest: string)
    ensures StartsWith(pat + rest, pat)
  {
    assert (pat + rest)[..|pat|] == pat;
  }

  /** Which branch of `parser_property_const` a line takes. */
  lemma PropertyConstBranch(line: string, a: Access)
    requires a == Public ==> StartsWith(line, "const ") || StartsWith(line, "public ")
    requires a == Protected ==> !StartsWith(line, "const ") && !StartsWith(line, "public ") && StartsWith(line, "protected ")
    requires a == Private ==> !StartsWith(line, "const ") && !StartsWith(line, "public ") && !StartsWith(line, "protected ") && StartsWith(line, "private ")
    ensures ParsePropertyConst(line) == Some(Const(ConstName(line), a, ConstValue(line)))
  {
  }

  /** A class constant without a keyword is public. */
  lemma PropertyConstBare(n: string, v: string)
    requires Name(n) && ';' !in v
    ensures ParsePropertyConst(ConstLine([], n, v)) == Some(Const(n, Public, v))
  {
    ConstSlices([], n, v);
    BareConstStarts(n, v);
    PropertyConstBranch(ConstLine([], n, v), Public);
  }

  lemma BareConstStarts(n: string, v: string)
    ensures StartsWith(ConstLine([], n, v), "const ")
  {
    assert ConstLine([], n, v) == "const " + (n + " = " + v + ";");
    StartsWithFront("const ", n + " = " + v + ";");
  }

  lemma NotStartsWith(s: string, pat: string, k: nat)
    requires k < |pat| && k < |s| && s[k] != pat[k]
    ensures !StartsWith(s, pat)
  {
    if |pat| <= |s| {
      assert s[..|pat|][k] == s[k];
    }
  }

  /** A line that opens with an access keyword and a blank. */
  function AccessLine(a: Access, rest: string): string {
    AccessWord(a) + " " + rest
  }

  /** The keyword checks of `parser_property_const` and `parser_method` on
      such a line. */
  lemma AccessStarts(a: Access, rest: string)
    ensures StartsWith(AccessLine(a, rest), AccessWord(a) + " ")
    ensures !StartsWith(AccessLine(a, rest), "const ")
    ensures a != Public ==> !StartsWith(AccessLine(a, rest), "public ")
    ensures a == Private ==> !StartsWith(AccessLine(a, rest), "protected ")
  {
    var w := AccessWord(a) + " ";
    var line := w + rest;
    StartsWithFront(w, rest);
    NotStartsWith(line, "const ", 0);
    match a
    case Public =>
    case Protected =>
      assert line[1] == w[1] == 'r';
      NotStartsWith(line, "public ", 1);
    case Private =>
      assert line[1] == w[1] == 'r';
      assert line[2] == w[2] == 'i';
      NotStartsWith(line, "public ", 1);
      NotStartsWith(line, "protected ", 2);
  }

  lemma ConstLineSplit(a: Access, n: string, v: string)
    ensures ConstLine(AccessWord(a) + " ", n, v) == AccessLine(a, "const " + n + " = " + v + ";")
  {
  }

  /** A class constant keeps its name, value and access. */
  lemma PropertyConstRoundTrip(a: Access, n: string, v: string)
    requires Name(n) && ';' !in v
    ensures ParsePropertyConst(ConstLine(AccessWord(a) + " ", n, v)) == Some(Const(n, a, v))
  {
    var pre := AccessWord(a) + " ";
    var line := ConstLine(pre, n, v);
    AccessPrefix(a);
    ConstSlices(pre, n, v);
    ConstLineSplit(a, n, v);
    AccessStarts(a, "const " + n + " = " + v + ";");
    PropertyConstOf(line, a, n, v);
  }

  lemma PropertyConstOf(line: string, a: Access, n: string, v: string)
    requires ConstName(line) == n && ConstValue(line) == v
    requires StartsWith(line, AccessWord(a) + " ") && !StartsWith(line, "const ")
    requires a != Public ==> !StartsWith(line, "public ")
    requires a == Private ==> !StartsWith(line, "protected ")
    ensures ParsePropertyConst(line) == Some(Const(n, a, v))
  {
    AccessSpaced(a);
    PropertyConstBranch(line, a);
  }

  lemma AccessSpaced(a: Access)
    ensures a == Public ==> AccessWord(a) + " " == "public "
    ensures a == Protected ==> AccessWord(a) + " " == "protected "
    ensures a == Private ==> AccessWord(a) + " " == "private "
  {
  }

  /** The blank-ended access keyword holds none of the characters the
      constant extractor searches for. */
  lemma AccessPrefix(a: Access)
    ensures var pre := AccessWord(a) + " ";
      'n' !in pre && pre[|pre| - 1] == ' ' && '=' !in pre && ';' !in pre
  {
  }

  // ---------------------------------------------------------------------
  // parser_class, parser_interface

  /** A keyword that a blank-ended prefix and a text both lack is missing
      from the two together. */
  lemma NotAfterBlank(a: string, w: string, pat: string)
    requires !Contains(a, pat) && !Contains(w, pat)
    requires a != [] && a[|a| - 1] == ' ' && ' ' !in pat
    ensures !Contains(a + w, pat)
  {
    NotInConcat(a, w, pat);
  }

  /** The first occurrence of `kw` in `u + " " + kw + " " + rest`, where `u`
      lacks it, is right after `u`'s blank. */
  lemma FindKeywordAfter(u: string, kw: string, rest: string)
    requires kw != [] && ' ' !in kw && !Contains(u, kw)
    ensures Find(u + " " + kw + rest, kw) == |u| + 1
  {
    FindAfterPart(" ", kw, rest);
    assert u + " " + kw + rest == u + (" " + kw + rest);
    FindPast(u, " " + kw + rest, kw);
  }

  function ClassLine(n: string): string {
    "class " + n
  }

  function ExtendsLine(n: string, p: string): string {
    "class " + n + " extends " + p
  }

  function ImplementsLine(n: string, p: string): string {
    "class " + n + " implements " + p
  }

  lemma ClassHead(n: string, rest: string)
    ensures Find("class " + n + rest, "class") == 0
    ensures ("class " + n + rest)[6..6 + |n|] == n
  {
    assert "class " + n + rest == "class" + (" " + n + rest);
    FindAtFront("class", " " + n + rest);
  }

  lemma ClassNameLacks(n: string, kw: string)
    requires kw == "extends" || kw == "implements"
    requires !Contains(n, kw)
    ensures !Contains("class " + n, kw)
  {
    MissingChar("class ", kw, if kw == "extends" then 1 else 0);
    NotAfterBlank("class ", n, kw);
  }

  /** `class C` gives `C` with no parent: everything after `class ` is the
      name. */
  lemma ClassRoundTrip(n: string)
    requires !Contains(n, "extends") && !Contains(n, "implements")
    ensures ParseClass(ClassLine(n)) == ClassDecl(n, "", "")
  {
    ClassNameLacks(n, "extends");
    ClassNameLacks(n, "implements");
    ClassHead(n, []);
    assert ClassLine(n) == "class " + n + [];
  }

  lemma ExtendsFinds(n: string, p: string)
    requires !Contains(n, "extends")
    ensures Find(ExtendsLine(n, p), "extends") == 7 + |n|
  {
    ClassNameLacks(n, "extends");
    FindKeywordAfter("class " + n, "extends", " " + p);
    ExtendsShape(n, p);
  }

  lemma ExtendsShape(n: string, p: string)
    ensures ExtendsLine(n, p) == "class " + n + " " + "extends" + (" " + p)
    ensures ExtendsLine(n, p) == "class " + n + (" extends " + p)
    ensures ExtendsLine(n, p)[15 + |n|..] == p
  {
  }

  /** `class C extends P` gives `C` and the parent `P`. */
  lemma ExtendsRoundTrip(n: string, p: string)
    requires !Contains(n, "extends")
    ensures ParseClass(ExtendsLine(n, p)) == ClassDecl(n, p, "")
  {
    ExtendsFinds(n, p);
    ClassHead(n, " extends " + p);
    ExtendsShape(n, p);
  }

  lemma ImplementsFind(n: string, p: string)
    requires !Contains(n, "implements")
    ensures Find(ImplementsLine(n, p), "implements") == 7 + |n|
  {
    ClassNameLacks(n, "implements");
    FindKeywordAfter("class " + n, "implements", " " + p);
    ImplementsShape(n, p);
  }

  lemma ImplementsShape(n: string, p: string)
    ensures ImplementsLine(n, p) == "class " + n + " " + "implements" + (" " + p)
    ensures ImplementsLine(n, p) == "class " + n + (" implements " + p)
    ensures ImplementsLine(n, p) == "class " + n + " implements " + p
    ensures ImplementsLine(n, p)[18 + |n|..] == p
  {
  }

  lemma ImplementsLacksExtends(n: string, p: string)
    requires !Contains(n, "extends") && !Contains(p, "extends")
    ensures !Contains(ImplementsLine(n, p), "extends")
  {
    ClassNameLacks(n, "extends");
    MissingChar(" implements ", "extends", 1);
    NotInConcat("class " + n, " implements ", "extends");
    NotAfterBlank("class " + n + " implements ", p, "extends");
  }

  /** `class C implements I` gives `C` and the interface `I`. */
  lemma ImplementsRoundTrip(n: string, p: string)
    requires !Contains(n, "extends") && !Contains(n, "implements") && !Contains(p, "extends")
    ensures ParseClass(ImplementsLine(n, p)) == ClassDecl(n, "", p)
  {
    ImplementsFind(n, p);
    ImplementsLacksExtends(n, p);
    ClassHead(n, " implements " + p);
    ImplementsShape(n, p);
  }

  function InterfaceLine(n: string): string {
    "interface " + n
  }

  function InterfaceExtendsLine(n: string, parents: seq<string>): string
    requires parents != []
  {
    "interface " + n + " extends " + Join(parents, ", ")
  }

  lemma InterfaceHead(n: string, rest: string)
    requires !Contains(n, "extends")
    ensures Find("interface " + n + rest, "interface") == 0
    ensures ("interface " + n + rest)[10..10 + |n|] == n
    ensures !Contains("interface " + n, "extends")
  {
    assert "interface " + n + rest == "interface" + (" " + n + rest);
    FindAtFront("interface", " " + n + rest);
    MissingChar("interface ", "extends", 1);
    NotAfterBlank("interface ", n, "extends");
  }

  /** `interface I` gives `I` with no parents. */
  lemma InterfaceRoundTrip(n: string)
    requires !Contains(n, "extends")
    ensures ParseInterface(InterfaceLine(n)) == InterfaceDecl(n, [])
  {
    InterfaceHead(n, []);
    assert InterfaceLine(n) == "interface " + n + [];
  }

  lemma InterfaceExtendsFind(n: string, parents: seq<string>)
    requires !Contains(n, "extends") && parents != []
    ensures Find(InterfaceExtendsLine(n, parents), "extends") == 11 + |n|
    ensures InterfaceExtendsLine(n, parents)[19 + |n|..] == Join(parents, ", ")
  {
    var ps := Join(parents, ", ");
    InterfaceHead(n, []);
    assert "interface " + n == "interface " + n + [];
    FindKeywordAfter("interface " + n, "extends", " " + ps);
    InterfaceExtendsShape(n, parents);
  }

  lemma InterfaceExtendsShape(n: string, parents: seq<string>)
    requires parents != []
    ensures InterfaceExtendsLine(n, parents) == "interface " + n + " " + "extends" + (" " + Join(parents, ", "))
    ensures InterfaceExtendsLine(n, parents) == "interface " + n + (" extends " + Join(parents, ", "))
    ensures InterfaceExtendsLine(n, parents)[19 + |n|..] == Join(parents, ", ")
  {
  }

  /** `interface I extends A, B` gives `I` and the parents `A`, `B`, in
      order. */
  lemma InterfaceExtendsRoundTrip(n: string, parents: seq<string>)
    requires !Contains(n, "extends") && parents != []
    requires forall k :: 0 <= k < |parents| ==> ',' !in parents[k]
    ensures ParseInterface(InterfaceExtendsLine(n, parents)) == InterfaceDecl(n, parents)
  {
    var ps := Join(parents, ", ");
    InterfaceHead(n, " extends " + ps);
    InterfaceExtendsShape(n, parents);
    InterfaceExtendsFind(n, parents);
    SplitJoin(parents, ", ");
  }

  // ---------------------------------------------------------------------
  // parser_function, parser_method

  /** A parameter list as written after the opening `(`: `$a, $b)`. */
  function ParamList(ps: seq<string>): string
    decreases |ps|
  {
    if ps == [] then ")"
    else if |ps| == 1 then "$" + ps[0] + ")"
    else "$" + ps[0] + ", " + ParamList(ps[1..])
  }

  predicate Names(ps: seq<string>) {
    forall k :: 0 <= k < |ps| ==> Name(ps[k])
  }

  lemma WalkDollar(c: char, p: string, d: char, rest: string)
    requires c == '(' || c == ' '
    ensures Find([c] + "$" + p + [d] + rest, "$") == 1
  {
    assert [c] + "$" + p + [d] + rest == [c] + "$" + (p + [d] + rest);
    FindAfterPart([c], "$", p + [d] + rest);
  }

  lemma WalkDelimiter(c: char, p: string, d: char, rest: string)
    requires c == '(' || c == ' '
    requires Name(p)
    requires d == ',' || (d == ')' && ',' !in rest)
    ensures Delimiter([c] + "$" + p + [d] + rest) == 2 + |p|
  {
    var s := [c] + "$" + p + [d] + rest;
    NameLacks(p, d);
    FindAfterPart([c] + "$" + p, [d], rest);
    if d == ')' {
      NameLacks(p, ',');
      assert ',' !in s;
      NoChar(s, ',');
    }
  }

  /** One turn of the parameter loop over `c$p,...` or `c$p)...`. */
  lemma WalkStep(c: char, p: string, d: char, rest: string)
    requires c == '(' || c == ' '
    requires Name(p)
    requires d == ',' || (d == ')' && ',' !in rest)
    ensures Parameters([c] + "$" + p + [d] + rest) == Prepend([p], Parameters(rest))
  {
    var s := [c] + "$" + p + [d] + rest;
    WalkDollar(c, p, d, rest);
    WalkDelimiter(c, p, d, rest);
    WalkSlices(c, p, d, rest);
    ParametersStep(s);
  }

  lemma WalkSlices(c: char, p: string, d: char, rest: string)
    ensures Slice([c] + "$" + p + [d] + rest, 2, 2 + |p|) == p
    ensures Drop([c] + "$" + p + [d] + rest, 3 + |p|) == rest
  {
    var s := [c] + "$" + p + [d] + rest;
    assert s[2..2 + |p|] == p;
    assert s[3 + |p|..] == rest;
  }

  lemma WalkEmpty(c: char, tail: string)
    requires c == '(' || c == ' '
    requires '$' !in tail
    ensures Parameters([c] + ParamList([]) + tail) == Ends([])
  {
    assert '$' !in [c] + ParamList([]) + tail;
    NoChar([c] + ParamList([]) + tail, '$');
  }

  lemma WalkLast(c: char, ps: seq<string>, tail: string)
    requires c == '(' || c == ' '
    requires |ps| == 1 && Name(ps[0])
    requires '$' !in tail && ',' !in tail
    ensures Parameters([c] + ParamList(ps) + tail) == Ends(ps)
  {
    var p := ps[0];
    assert [c] + ParamList(ps) + tail == [c] + "$" + p + [')'] + tail;
    WalkStep(c, p, ')', tail);
    NoChar(tail, '$');
    assert ps == [p] + [];
  }

  lemma PrependFirst(ps: seq<string>)
    requires ps != []
    ensures Prepend([ps[0]], Ends(ps[1..])) == Ends(ps)
  {
    assert ps == [ps[0]] + ps[1..];
  }

  lemma WalkNext(c: char, ps: seq<string>, tail: string)
    requires c == '(' || c == ' '
    requires |ps| >= 2 && Name(ps[0])
    ensures Parameters([c] + ParamList(ps) + tail) == Prepend([ps[0]], Parameters([' '] + ParamList(ps[1..]) + tail))
  {
    var rest := [' '] + ParamList(ps[1..]) + tail;
    assert [c] + ParamList(ps) + tail == [c] + "$" + ps[0] + [','] + rest;
    WalkStep(c, ps[0], ',', rest);
  }

  /** The parameter loop collects the names of a written parameter list,
      in order, when nothing after the list has a `$` or a `,`. */
  lemma {:induction false} WalkParamList(c: char, ps: seq<string>, tail: string)
    requires c == '(' || c == ' '
    requires Names(ps)
    requires '$' !in tail && ',' !in tail
    ensures Parameters([c] + ParamList(ps) + tail) == Ends(ps)
    decreases |ps|
  {
    if ps == [] {
      WalkEmpty(c, tail);
    } else if |ps| == 1 {
      WalkLast(c, ps, tail);
    } else {
      WalkNext(c, ps, tail);
      WalkParamList(' ', ps[1..], tail);
      PrependFirst(ps);
    }
  }

  /** `function f($a, $b)` followed by a tail without `$` or `,`. */
  function FunctionLine(n: string, ps: seq<string>, tail: string): string {
    "function " + n + "(" + ParamList(ps) + tail
  }

  lemma SignatureKeyword(n: string, ps: seq<string>, tail: string)
    ensures Find(FunctionLine(n, ps, tail), "function") == 0
  {
    assert FunctionLine(n, ps, tail) == "function" + (" " + n + "(" + ParamList(ps) + tail);
    FindAtFront("function", " " + n + "(" + ParamList(ps) + tail);
  }

  lemma SignatureParen(n: string, ps: seq<string>, tail: string)
    requires Name(n)
    ensures Find(FunctionLine(n, ps, tail), "(") == 9 + |n|
  {
    NameLacks(n, '(');
    assert FunctionLine(n, ps, tail) == "function " + n + "(" + (ParamList(ps) + tail);
    FindAfterPart("function " + n, "(", ParamList(ps) + tail);
  }

  lemma SignatureParts(n: string, ps: seq<string>, tail: string)
    requires Name(n)
    ensures SignatureName(FunctionLine(n, ps, tail)) == n
    ensures SignatureRest(FunctionLine(n, ps, tail)) == ['('] + ParamList(ps) + tail
  {
    var line := FunctionLine(n, ps, tail);
    SignatureKeyword(n, ps, tail);
    SignatureParen(n, ps, tail);
    FunctionLineShape(n, ps, tail);
  }

  lemma FunctionLineShape(n: string, ps: seq<string>, tail: string)
    ensures var line := FunctionLine(n, ps, tail);
      9 + |n| <= |line| && line[9..9 + |n|] == n && line[9 + |n|..] == ['('] + ParamList(ps) + tail
  {
  }

  /** A function header gives its name and its parameters, in order. */
  lemma FunctionRoundTrip(n: string, ps: seq<string>, tail: string)
    requires Name(n) && Names(ps)
    requires '$' !in tail && ',' !in tail
    ensures FunctionDeclOf(FunctionLine(n, ps, tail)) == Some(FunctionDecl(n, "", AsGlobalVars(ps)))
  {
    SignatureParts(n, ps, tail);
    WalkParamList('(', ps, tail);
  }

  lemma VisibilityOfFunction(n: string, ps: seq<string>, tail: string)
    ensures Visibility(FunctionLine(n, ps, tail)) == (Public, FunctionLine(n, ps, tail))
  {
    var line := FunctionLine(n, ps, tail);
    assert line[0] == 'f';
    NotStartsWith(line, "public ", 0);
    NotStartsWith(line, "protected ", 0);
    NotStartsWith(line, "private ", 0);
  }

  lemma VisibilityOfAccess(a: Access, rest: string)
    ensures Visibility(AccessLine(a, rest)) == (a, rest)
  {
    AccessStarts(a, rest);
    assert AccessLine(a, rest)[|AccessWord(a)| + 1..] == rest;
  }

  /** A method header without an access keyword is public. */
  lemma MethodBareRoundTrip(n: string, ps: seq<string>, tail: string)
    requires Name(n) && Names(ps)
    requires '$' !in tail && ',' !in tail
    ensures MethodDeclOf(FunctionLine(n, ps, tail)) == Some(MethodDecl(n, Public, "", ps))
  {
    VisibilityOfFunction(n, ps, tail);
    SignatureParts(n, ps, tail);
    WalkParamList('(', ps, tail);
  }

  /** A method header gives its name, its access and its parameters, in
      order. */
  lemma MethodRoundTrip(a: Access, n: string, ps: seq<string>, tail: string)
    requires Name(n) && Names(ps)
    requires '$' !in tail && ',' !in tail
    ensures MethodDeclOf(AccessLine(a, FunctionLine(n, ps, tail))) == Some(MethodDecl(n, a, "", ps))
  {
    VisibilityOfAccess(a, FunctionLine(n, ps, tail));
    SignatureParts(n, ps, tail);
    WalkParamList('(', ps, tail);
  }

  // ---------------------------------------------------------------------
  // parser_var, parser_global_var

  /** A value as written after `= `: single blanks only, none at either
      end. */
  predicate SingleSpaced(v: string) {
    NoDoubleSpace(v) && (v == [] || (v[0] != ' ' && v[|v| - 1] != ' '))
  }

  lemma NoBlankNoDouble(s: string)
    requires ' ' !in s
    ensures NoDoubleSpace(s)
  {
  }

  lemma NoDoubleSpaceJoin(a: string, b: string)
    requires NoDoubleSpace(a) && NoDoubleSpace(b)
    requires a == [] || b == [] || a[|a| - 1] != ' ' || b[0] != ' '
    ensures NoDoubleSpace(a + b)
  {
    var s := a + b;
    forall i, j | 0 <= i < |s| && j == i + 1 && j < |s| ensures !(s[i] == ' ' && s[j] == ' ') {
      if j < |a| {
        assert s[i] == a[i] && s[j] == a[j];
      } else if i >= |a| {
        assert s[i] == b[i - |a|] && s[j] == b[j - |a|];
      } else {
        assert s[i] == a[|a| - 1] && s[j] == b[0];
      }
    }
  }

  /** An assignment `L = V;` whose left side has no blank. */
  function Assignment(lhs: string, v: string): string {
    lhs + " = " + v + ";"
  }

  lemma AssignmentSingleSpaced(lhs: string, v: string)
    requires lhs != [] && ' ' !in lhs && SingleSpaced(v)
    ensures NoDoubleSpace(Assignment(lhs, v))
  {
    NoBlankNoDouble(lhs);
    assert NoDoubleSpace(" = ");
    NoDoubleSpaceJoin(lhs, " = ");
    NoDoubleSpaceJoin(lhs + " = ", v);
    assert NoDoubleSpace(";");
    NoDoubleSpaceJoin(lhs + " = " + v, ";");
  }

  /** A written assignment is already in normal form. */
  lemma AssignmentNormal(lhs: string, v: string)
    requires lhs != [] && ' ' !in lhs && !IsSpace(lhs[0]) && SingleSpaced(v)
    ensures NormalForm(Assignment(lhs, v)) == Assignment(lhs, v)
  {
    var s := Assignment(lhs, v);
    AssignmentSingleSpaced(lhs, v);
    CollapseNoDoubleSpace(s);
    assert s[0] == lhs[0];
    StripTrimmed(s);
  }

  lemma NameNormal(s: string)
    requires s != [] && ' ' !in s && Trimmed(s)
    ensures NormalForm(s) == s
  {
    NoBlankNoDouble(s);
    CollapseNoDoubleSpace(s);
    StripTrimmed(s);
  }

  function VarName(n: string): (s: string)
    ensures |s| == |n| + 1 && s[0] == '$'
  {
    "$" + n
  }

  lemma VarNameFacts(n: string)
    requires Name(n)
    ensures VarName(n) != [] && ' ' !in VarName(n) && '=' !in VarName(n) && ';' !in VarName(n)
    ensures !IsSpace(VarName(n)[0]) && VarName(n)[1..] == n
  {
  }

  /** Any line whose normal form is `$N = V;` declares `N`. */
  lemma VarRoundTrip(line: string, n: string, v: string)
    requires Name(n) && NormalForm(line) == Assignment(VarName(n), v)
    ensures ParseVar(line) == GlobalVar(n, "")
  {
    VarNameFacts(n);
    AssignmentShape(n, v);
    FindAfterPart(VarName(n) + " ", "=", " " + v + ";");
  }

  lemma AssignmentShape(n: string, v: string)
    ensures Assignment(VarName(n), v) == VarName(n) + " " + "=" + (" " + v + ";")
    ensures Assignment(VarName(n), v)[1..1 + |n|] == n
  {
  }

  /** Any line whose normal form is `$N;` declares `N` as well. */
  lemma BareVarRoundTrip(line: string, n: string)
    requires Name(n) && NormalForm(line) == VarName(n) + ";"
    ensures ParseVar(line) == GlobalVar(n, "")
  {
    var s := VarName(n) + ";";
    VarNameFacts(n);
    assert '=' !in s;
    NoChar(s, '=');
    FindAfterPart(VarName(n), ";", []);
    assert s == VarName(n) + ";" + [];
    assert s[1..1 + |n|] == n;
  }

  /** In particular a written `$N = V;` declares `N`. */
  lemma WrittenVarRoundTrip(n: string, v: string)
    requires Name(n) && SingleSpaced(v)
    ensures ParseVar(Assignment(VarName(n), v)) == GlobalVar(n, "")
  {
    VarNameFacts(n);
    AssignmentNormal(VarName(n), v);
    VarRoundTrip(Assignment(VarName(n), v), n, v);
  }

  /** `$GLOBALS['N']` */
  function GlobalsName(n: string): string {
    "$GLOBALS['" + n + "']"
  }

  lemma GlobalsNameFacts(n: string)
    requires Name(n)
    ensures GlobalsName(n) != [] && ' ' !in GlobalsName(n) && !IsSpace(GlobalsName(n)[0])
  {
  }

  lemma GlobalsFindOpen(n: string, rest: string)
    ensures Find(GlobalsName(n) + rest, "[") == 8
  {
    assert GlobalsName(n) + rest == "$GLOBALS" + "[" + ("'" + n + "']" + rest);
    FindAfterPart("$GLOBALS", "[", "'" + n + "']" + rest);
  }

  lemma GlobalsFindClose(n: string, rest: string)
    requires Name(n)
    ensures Find(GlobalsName(n) + rest, "]") == 11 + |n|
    ensures (GlobalsName(n) + rest)[10..10 + |n|] == n
  {
    NameLacks(n, ']');
    assert GlobalsName(n) + rest == "$GLOBALS['" + n + "'" + "]" + rest;
    FindAfterPart("$GLOBALS['" + n + "'", "]", rest);
  }

  /** Any line whose normal form opens with `$GLOBALS['N']` declares `N`. */
  lemma GlobalVarRoundTrip(line: string, n: string, rest: string)
    requires Name(n) && NormalForm(line) == GlobalsName(n) + rest
    ensures ParseGlobalVar(line) == GlobalVar(n, "")
  {
    GlobalsFindOpen(n, rest);
    GlobalsFindClose(n, rest);
  }

  /** In particular a written `$GLOBALS['N'] = V;` declares `N`. */
  lemma WrittenGlobalVarRoundTrip(n: string, v: string)
    requires Name(n) && SingleSpaced(v)
    ensures ParseGlobalVar(Assignment(GlobalsName(n), v)) == GlobalVar(n, "")
  {
    GlobalsNameFacts(n);
    AssignmentNormal(GlobalsName(n), v);
    assert Assignment(GlobalsName(n), v) == GlobalsName(n) + (" = " + v + ";");
    GlobalVarRoundTrip(Assignment(GlobalsName(n), v), n, " = " + v + ";");
  }

  // ---------------------------------------------------------------------
  // parser_property_var

  lemma PropertyNameOf(u: string, n: string)
    requires '$' !in u && '=' !in u && ';' !in u && Name(n)
    ensures PropertyName(u + VarName(n) + ";") == n
  {
    var s := u + VarName(n) + ";";
    VarNameFacts(n);
    assert '=' !in s;
    NoChar(s, '=');
    assert s == u + "$" + (n + ";");
    FindAfterPart(u, "$", n + ";");
    NameLacks(n, ';');
    assert s == u + "$" + n + ";" + [];
    FindAfterPart(u + "$" + n, ";", []);
    assert s[|u| + 1..|u| + 1 + |n|] == n;
  }

  /** The only blank of `a + " " + b` is the one between them. */
  lemma OneBlank(a: string, b: string, k: nat)
    requires ' ' !in a && ' ' !in b && k < |a + " " + b|
    ensures (a + " " + b)[k] == ' ' ==> k == |a|
  {
    if k < |a| {
      assert (a + " " + b)[k] == a[k];
    } else if k > |a| {
      assert (a + " " + b)[k] == b[k - |a| - 1];
    }
  }

  /** ` static ` needs two blanks, so a line with one has none. */
  lemma NoStaticBetween(a: string, b: string)
    requires ' ' !in a && ' ' !in b
    ensures !Contains(a + " " + b, " static ")
  {
    var s := a + " " + b;
    forall i | 0 <= i ensures !OccursAt(s, " static ", i) {
      if i + 8 <= |s| {
        assert s[i..i + 8][0] == s[i] && s[i..i + 8][7] == s[i + 7];
        OneBlank(a, b, i);
        OneBlank(a, b, i + 7);
      }
    }
  }

  lemma ContainsWithin(a: string, b: string, c: string, pat: string)
    requires Contains(b, pat)
    ensures Contains(a + b + c, pat)
  {
    var k := Find(b, pat);
    assert (a + b + c)[|a| + k..|a| + k + |pat|] == b[k..k + |pat|];
    assert OccursAt(a + b + c, pat, |a| + k);
  }

  /** Which branch of `parser_property_var` a line takes, read off the
      line with `static` removed. */
  lemma PropertyVarBranch(line: string, a: Access)
    requires line != [] && line != "static "
    requires var s := WithoutStatic(line);
             && (a == Public ==> s[0] == '$' || Contains(s, "public"))
             && (a != Public ==> s[0] != '$' && !Contains(s, "public"))
             && (a == Protected ==> Contains(s, "protected"))
             && (a == Private ==> !Contains(s, "protected") && Contains(s, "private"))
    ensures ParsePropertyVar(line) == Some(Property(PropertyName(WithoutStatic(line)), a))
  {
  }

  lemma WithoutStaticKeeps(line: string)
    requires !StartsWith(line, "static ") && !Contains(line, " static ")
    ensures WithoutStatic(line) == line
  {
  }

  lemma BareLine(n: string)
    requires Name(n)
    ensures WithoutStatic(VarName(n) + ";") == VarName(n) + ";"
    ensures (VarName(n) + ";")[0] == '$'
    ensures PropertyName(VarName(n) + ";") == n
    ensures VarName(n) + ";" != "static "
  {
    var line := VarName(n) + ";";
    VarNameFacts(n);
    NotStartsWith(line, "static ", 0);
    assert ' ' !in line;
    MissingChar(line, " static ", 0);
    WithoutStaticKeeps(line);
    PropertyNameOf([], n);
    assert [] + VarName(n) + ";" == line;
  }

  lemma StaticBareLine(n: string)
    ensures WithoutStatic("static " + VarName(n) + ";") == VarName(n) + ";"
    ensures "static " + VarName(n) + ";" != "static "
  {
    StartsWithFront("static ", VarName(n) + ";");
    assert Drop("static " + VarName(n) + ";", 7) == VarName(n) + ";";
  }

  /** `$N;` and `static $N;` declare the public property `N`. */
  lemma BarePropertyRoundTrip(n: string)
    requires Name(n)
    ensures VarName(n) + ";" != "static " && ParsePropertyVar(VarName(n) + ";") == Some(Property(n, Public))
    ensures ParsePropertyVar("static " + VarName(n) + ";") == Some(Property(n, Public))
  {
    BareLine(n);
    StaticBareLine(n);
    PropertyVarBranch(VarName(n) + ";", Public);
    PropertyVarBranch("static " + VarName(n) + ";", Public);
  }

  /** The access keyword is followed by a single blank. */
  predicate Keyword(w: string) {
    w != [] && w[0] == 'p' && ' ' !in w && '$' !in w && '=' !in w && ';' !in w && '\n' !in w
  }

  lemma PlainNoStatic(w: string, n: string)
    requires Keyword(w) && Name(n)
    ensures WithoutStatic(w + " " + (VarName(n) + ";")) == w + " " + (VarName(n) + ";")
  {
    var line := w + " " + (VarName(n) + ";");
    VarNameFacts(n);
    assert line[0] == 'p';
    NotStartsWith(line, "static ", 0);
    NoStaticBetween(w, VarName(n) + ";");
    WithoutStaticKeeps(line);
  }

  lemma PlainName(w: string, n: string)
    requires Keyword(w) && Name(n)
    ensures PropertyName(w + " " + (VarName(n) + ";")) == n
    ensures (w + " " + (VarName(n) + ";"))[0] != '$'
  {
    assert w + " " + (VarName(n) + ";") == (w + " ") + VarName(n) + ";";
    PropertyNameOf(w + " ", n);
  }

  /** A word that neither the blank-ended prefix nor the name holds is
      missing from the line. */
  lemma LacksWord(u: string, n: string, pat: string)
    requires u != [] && u[|u| - 1] !in pat && ';' !in pat && pat != []
    requires !Contains(u, pat) && !Contains(n, pat)
    ensures !Contains(u + n + ";", pat)
  {
    NotInConcat(u, n, pat);
    MissingChar(";", pat, 0);
    NotInConcat(u + n, ";", pat);
  }

  lemma NoPublicPrefix(w: string)
    requires 'u' !in w
    ensures !Contains(w + " $", "public")
  {
    assert 'u' !in w + " $";
    MissingChar(w + " $", "public", 1);
  }

  lemma NoProtectedPrefix(w: string)
    requires 'o' !in w
    ensures !Contains(w + " $", "protected")
  {
    assert 'o' !in w + " $";
    MissingChar(w + " $", "protected", 2);
  }

  lemma AccessVarShape(a: Access, n: string)
    ensures AccessLine(a, VarName(n) + ";") == AccessWord(a) + (" $" + n + ";")
    ensures AccessLine(a, VarName(n) + ";") == AccessWord(a) + " $" + n + ";"
  {
  }

  lemma AccessWordsIn(a: Access, n: string)
    requires Name(n) && !Contains(n, "public") && !Contains(n, "protected")
    ensures Contains(AccessLine(a, VarName(n) + ";"), AccessWord(a))
    ensures a != Public ==> !Contains(AccessLine(a, VarName(n) + ";"), "public")
    ensures a == Private ==> !Contains(AccessLine(a, VarName(n) + ";"), "protected")
  {
    var w := AccessWord(a);
    var u := w + " $";
    AccessVarShape(a, n);
    FindAtFront(w, " $" + n + ";");
    if a != Public {
      NoPublicPrefix(w);
      LacksWord(u, n, "public");
    }
    if a == Private {
      NoProtectedPrefix(w);
      LacksWord(u, n, "protected");
    }
  }

  /** `public $N;`, `protected $N;` and `private $N;` declare `N` with that
      access, when the name holds neither `public` nor `protected`. */
  lemma PropertyVarRoundTrip(a: Access, n: string)
    requires Name(n) && !Contains(n, "public") && !Contains(n, "protected")
    ensures ParsePropertyVar(AccessLine(a, VarName(n) + ";")) == Some(Property(n, a))
  {
    PlainNoStatic(AccessWord(a), n);
    PlainName(AccessWord(a), n);
    AccessWordsIn(a, n);
    PropertyVarBranch(AccessLine(a, VarName(n) + ";"), a);
  }

  lemma PublicInLine(a: Access, n: string)
    requires Contains(n, "public")
    ensures Contains(AccessLine(a, VarName(n) + ";"), "public")
  {
    assert AccessLine(a, VarName(n) + ";") == (AccessWord(a) + " $") + n + ";";
    ContainsWithin(AccessWord(a) + " $", n, ";", "public");
  }

  /** Whatever the keyword, a name holding `public` makes the property
      public: the access is decided by the word `public` anywhere in the
      line. */
  lemma PublicWordWins(a: Access, n: string)
    requires Name(n) && Contains(n, "public")
    ensures ParsePropertyVar(AccessLine(a, VarName(n) + ";")) == Some(Property(n, Public))
  {
    PlainNoStatic(AccessWord(a), n);
    PlainName(AccessWord(a), n);
    PublicInLine(a, n);
    PropertyVarBranch(AccessLine(a, VarName(n) + ";"), Public);
  }

  /** `s.replace(target, repl)` on a string with exactly one occurrence. */
  lemma ReplaceOnce(u: string, target: string, repl: string, rest: string)
    requires target != [] && Find(u + target + rest, target) == |u| && !Contains(rest, target)
    ensures Replace(u + target + rest, target, repl) == u + repl + rest
  {
    var s := u + target + rest;
    assert s[..|u|] == u;
    assert s[|u| + |target|..] == rest;
  }

  lemma StaticDropped(w: string, rest: string)
    requires Keyword(w) && ' ' !in rest
    ensures WithoutStatic(w + " " + ("static " + rest)) == w + " " + rest
  {
    var line := w + " static " + rest;
    assert w + " " + ("static " + rest) == line;
    assert line[0] == 'p';
    NotStartsWith(line, "static ", 0);
    FindAfterPart(w, " static ", rest);
    assert line[..|w|] == w;
    MissingChar(rest, " static ", 0);
    ReplaceOnce(w, " static ", " ", rest);
  }

  /** `public static $N;` and the like declare `N` just as without
      `static`. */
  lemma StaticPropertyRoundTrip(a: Access, n: string)
    requires Name(n) && !Contains(n, "public") && !Contains(n, "protected")
    ensures ParsePropertyVar(AccessLine(a, "static " + VarName(n) + ";")) == Some(Property(n, a))
  {
    VarNameFacts(n);
    StaticDropped(AccessWord(a), VarName(n) + ";");
    assert "static " + VarName(n) + ";" == "static " + (VarName(n) + ";");
    PlainNoStatic(AccessWord(a), n);
    PlainName(AccessWord(a), n);
    AccessWordsIn(a, n);
    PropertyVarBranch(AccessLine(a, "static " + VarName(n) + ";"), a);
  }
}

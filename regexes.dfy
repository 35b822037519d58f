/** The regular expressions parcer.py:50-198 classifies lines with, each
    written out as the predicate "the pattern matches". `re.search` finds
    the pattern anywhere in the line, `re.match` only at its start; a
    trailing `[...]*` can match the empty string and so adds nothing to
    either. `\s` is Python's whitespace (`IsSpace`); `\w` is taken to be
    the ASCII word characters. */
module LinePatterns {
  import opened PyStr

  /** `[a-zA-Z_]` */
  predicate IsNameStart(c: char) {
    'a' <= c <= 'z' || 'A' <= c <= 'Z' || c == '_'
  }

  /** `[a-zA-Z0-9_]`, and `\w` on ASCII. */
  predicate IsNameChar(c: char) {
    IsNameStart(c) || '0' <= c <= '9'
  }

  /** `re.search(kw + '<c>', s)` where the character class `<c>` is `first`:
      `kw` occurs somewhere and the character after it is in the class. */
  predicate SearchWordThen(s: string, kw: string, first: char -> bool) {
    exists i | 0 <= i < |s| :: OccursAt(s, kw, i) && i + |kw| < |s| && first(s[i + |kw|])
  }

  /** `re.search(kw + r'\s' + '<c>', s)` */
  predicate SearchWordSpaceThen(s: string, kw: string, first: char -> bool) {
    exists i | 0 <= i < |s| :: OccursAt(s, kw, i) && i + |kw| + 1 < |s| && IsSpace(s[i + |kw|]) && first(s[i + |kw| + 1])
  }

  /** `namespace [a-zA-Z_][a-zA-Z0-9.]*` (parcer.py:50) */
  predicate NamespaceLine(s: string) {
    SearchWordThen(s, "namespace ", IsNameStart)
  }

  /** `function\s[a-zA-Z_][\w0-9_]*` (parcer.py:53) */
  predicate FunctionLine(s: string) {
    SearchWordSpaceThen(s, "function", IsNameStart)
  }

  /** The characters of `s` from `a` to `b` are all word characters. */
  predicate WordRun(s: string, a: int, b: int)
    requires 0 <= a && b <= |s|
  {
    forall k :: a <= k < b ==> IsNameChar(s[k])
  }

  /** `[$]GLOBALS\['[a-zA-Z_][\w]*'\]` (parcer.py:64, 129) */
  predicate GlobalsLine(s: string) {
    exists i, j | 0 <= i < j < |s| :: OccursAt(s, "$GLOBALS['", i) && OccursAt(s, "']", j) && i + 10 < j
                   && IsNameStart(s[i + 10]) && WordRun(s, i + 11, j)
  }

  /** `[$][a-zA-Z_][\w]*` (parcer.py:67) */
  predicate VariableLine(s: string) {
    SearchWordThen(s, "$", IsNameStart)
  }

  /** `define\(.*\)` (parcer.py:70): `.` is any character but a line
      break. */
  predicate DefineLine(s: string) {
    exists i, j | 0 <= i < j < |s| :: OccursAt(s, "define(", i) && i + 7 <= j && s[j] == ')' && '\n' !in s[i + 7..j]
  }

  /** `const\s[a-zA-Z0-9_][\w]*` (parcer.py:73) */
  predicate ConstLine(s: string) {
    SearchWordSpaceThen(s, "const", IsNameChar)
  }

  /** `class [a-zA-Z_][a-zA-Z0-9_]*` (parcer.py:76) */
  predicate ClassLine(s: string) {
    SearchWordThen(s, "class ", IsNameStart)
  }

  /** `interface [a-zA-Z_][a-zA-Z0-9_]*` (parcer.py:86) */
  predicate InterfaceLine(s: string) {
    SearchWordThen(s, "interface ", IsNameStart)
  }

  /** `trait\s[a-zA-Z0-9_][\w]*` (parcer.py:96) */
  predicate TraitLine(s: string) {
    SearchWordSpaceThen(s, "trait", IsNameChar)
  }

  // ---------------------------------------------------------------------
  // Member lines, matched at the start (parcer.py:139-198).

  /** `kw` followed by whitespace occurs at `i`. */
  predicate WordSpaceAt(s: string, kw: string, i: int) {
    OccursAt(s, kw, i) && i + |kw| < |s| && IsSpace(s[i + |kw|])
  }

  /** Where the optional group `((public\s)|(protected\s)|(private\s))?`
      can end when matched at the start of `s`. */
  function AccessEnds(s: string): set<nat> {
    {0} + (if WordSpaceAt(s, "public", 0) then {7} else {})
        + (if WordSpaceAt(s, "protected", 0) then {10} else {})
        + (if WordSpaceAt(s, "private", 0) then {8} else {})
  }

  /** Where the optional group `(static\s)?` can end when it starts at
      `k`. */
  function StaticEnds(s: string, k: nat): set<nat> {
    {k} + (if WordSpaceAt(s, "static", k) then {k + 7} else {})
  }

  /** `((public\s)|(protected\s)|(private\s))?(static\s)?[$][a-zA-Z_]...`
      (parcer.py:139, 186) */
  predicate MemberVarLine(s: string) {
    exists k, k2 :: k in AccessEnds(s) && k2 in StaticEnds(s, k) && k2 + 1 < |s| && s[k2] == '$' && IsNameStart(s[k2 + 1])
  }

  /** `((public\s)|(protected\s)|(private\s))?const\s[a-zA-Z_]...`
      (parcer.py:144, 165) */
  predicate MemberConstLine(s: string) {
    exists k :: k in AccessEnds(s) && WordSpaceAt(s, "const", k) && k + 6 < |s| && IsNameStart(s[k + 6])
  }

  /** `((public\s)|(protected\s)|(private\s))?(static\s)?function\s[a-zA-Z_]...`
      (parcer.py:149, 170, 191) */
  predicate MemberFunctionLine(s: string) {
    exists k, k2 :: k in AccessEnds(s) && k2 in StaticEnds(s, k) && WordSpaceAt(s, "function", k2) && k2 + 9 < |s|
                    && IsNameStart(s[k2 + 9])
  }

  // ---------------------------------------------------------------------
  // How the patterns overlap.

  /** Every `$GLOBALS['name']` line is also a `$name` line: only the order
      of the tests (parcer.py:64-69) sends it to the root namespace. */
  lemma GlobalsIsVariable(s: string)
    requires GlobalsLine(s)
    ensures VariableLine(s)
  {
    var i, j :| 0 <= i < j < |s| && OccursAt(s, "$GLOBALS['", i) && OccursAt(s, "']", j) && i + 10 < j
                && IsNameStart(s[i + 10]) && WordRun(s, i + 11, j);
    assert s[i..i + 10][0] == '$' && s[i..i + 10][1] == 'G';
    assert OccursAt(s, "$", i);
  }

  lemma GlobalsExample()
    ensures GlobalsLine("$GLOBALS['count'] = 0;") && VariableLine("$GLOBALS['count'] = 0;")
  {
    var s := "$GLOBALS['count'] = 0;";
    assert OccursAt(s, "$GLOBALS['", 0) && OccursAt(s, "']", 15);
    assert WordRun(s, 11, 15);
    GlobalsIsVariable(s);
  }

  /** A pattern occurs wherever its characters do. */
  lemma OccursByChars(s: string, pat: string, i: nat)
    requires i + |pat| <= |s| && forall k :: 0 <= k < |pat| ==> s[i + k] == pat[k]
    ensures OccursAt(s, pat, i)
  {
    assert s[i..i + |pat|] == pat;
  }

  /** A public static method header in a class body: visibility, `static`
      and `function` are all matched, whatever the method is called. */
  lemma StaticMethodHeader(name: string)
    requires name != [] && IsNameStart(name[0])
    ensures MemberFunctionLine("public static function " + name)
  {
    var p := "public static function ";
    var s := p + name;
    assert forall k :: 0 <= k < |p| ==> s[k] == p[k];
    OccursByChars(s, "public", 0);
    OccursByChars(s, "static", 7);
    OccursByChars(s, "function", 14);
    assert 7 in AccessEnds(s);
    assert 14 in StaticEnds(s, 7);
    assert WordSpaceAt(s, "function", 14) && IsNameStart(s[23]);
  }
}

/** How both recognisers prepare the file before the scan (parser.py:81-88,
    parcer.py:31-35): every run of blanks becomes one blank, the line is
    stripped, and lines left empty are dropped. */
module Lines {
  import opened PyStr

  /** A line as the scan sees it: non-empty and without surrounding
      whitespace, so that `line[0]` is always defined. */
  predicate NormalLine(line: string) {
    line != [] && Trimmed(line)
  }

  /** One line normalised: `re.sub(' +', ' ', line).strip()`. It keeps
      every visible character of the line, in order. */
  function NormalForm(line: string): (r: string)
    ensures r == [] || NormalLine(r)
    ensures Visible(r) == Visible(line)
  {
    StripVisible(CollapseSpaces(line));
    VisibleOfNonBlanks(CollapseSpaces(line));
    VisibleOfNonBlanks(line);
    Strip(CollapseSpaces(line))
  }

  /** The lines the scan walks: the non-empty normal forms, in file order. */
  function Normalised(raw: seq<string>): (lines: seq<string>)
    ensures |lines| <= |raw|
    ensures forall k :: 0 <= k < |lines| ==> NormalLine(lines[k])
  {
    if raw == [] then []
    else
      var init := Normalised(raw[..|raw| - 1]);
      var l := NormalForm(raw[|raw| - 1]);
      SnocNormal(init, l);
      init + (if l != [] then [l] else [])
  }

  lemma SnocNormal(init: seq<string>, l: string)
    requires forall k :: 0 <= k < |init| ==> NormalLine(init[k])
    requires l == [] || NormalLine(l)
    ensures var lines := init + (if l != [] then [l] else []);
      forall k :: 0 <= k < |lines| ==> NormalLine(lines[k])
  {
    var lines := init + (if l != [] then [l] else []);
    forall k | 0 <= k < |lines| ensures NormalLine(lines[k]) {
      if k < |init| {
        assert lines[k] == init[k];
      }
    }
  }

  /** The loop of parser.py:81-88 (and parcer.py:31-35). */
  method NormaliseLines(raw: seq<string>) returns (lines: seq<string>)
    ensures lines == Normalised(raw)
  {
    lines := [];
    for i := 0 to |raw|
      invariant lines == Normalised(raw[..i])
    {
      var line := NormalForm(raw[i]);
      NormalisedPrefix(raw, i);
      if line != [] {
        lines := lines + [line];
      }
    }
    assert raw[..|raw|] == raw;
  }

  lemma NormalisedPrefix(raw: seq<string>, i: nat)
    requires i < |raw|
    ensures Normalised(raw[..i + 1]) == Normalised(raw[..i]) + (if NormalForm(raw[i]) != [] then [NormalForm(raw[i])] else [])
  {
    assert raw[..i + 1][..i] == raw[..i];
  }

  // ---------------------------------------------------------------------
  // Normalising twice changes nothing.

  lemma NoDoubleSpaceSlice(s: string, i: nat, j: nat)
    requires i <= j <= |s| && NoDoubleSpace(s)
    ensures NoDoubleSpace(s[i..j])
  {
    forall k, l | 0 <= k && l == k + 1 && l < |s[i..j]| ensures !(s[i..j][k] == ' ' && s[i..j][l] == ' ') {
      assert s[i..j][k] == s[i + k] && s[i..j][l] == s[i + l];
    }
  }

  lemma StripKeepsNoDoubleSpace(s: string)
    requires NoDoubleSpace(s)
    ensures NoDoubleSpace(Strip(s))
  {
    var l := StripLeft(s);
    NoDoubleSpaceSlice(s, |s| - |l|, |s|);
    assert l == s[|s| - |l|..|s|];
    NoDoubleSpaceSlice(l, 0, |StripRight(l)|);
  }

  /** A normal line is its own normal form. */
  lemma NormalFormFixed(line: string)
    ensures NormalForm(NormalForm(line)) == NormalForm(line)
  {
    var c := CollapseSpaces(line);
    StripKeepsNoDoubleSpace(c);
    var n := Strip(c);
    CollapseNoDoubleSpace(n);
    StripTrimmed(n);
  }

  lemma NormalisedSnoc(raw: seq<string>, line: string)
    ensures Normalised(raw + [line]) == Normalised(raw) + (if NormalForm(line) != [] then [NormalForm(line)] else [])
  {
    assert (raw + [line])[..|raw|] == raw;
  }

  /** Lines that normalisation leaves as they are. */
  predicate FixedLines(lines: seq<string>) {
    forall k :: 0 <= k < |lines| ==> lines[k] != [] && NormalForm(lines[k]) == lines[k]
  }

  /** Every line of the scan's input is its own normal form. */
  lemma {:induction false} NormalisedFixed(raw: seq<string>)
    ensures FixedLines(Normalised(raw))
  {
    if raw != [] {
      var init := raw[..|raw| - 1];
      var l := NormalForm(raw[|raw| - 1]);
      NormalisedFixed(init);
      assert Normalised(raw) == Normalised(init) + (if l != [] then [l] else []);
      NormalFormFixed(raw[|raw| - 1]);
    }
  }

  /** Lines left as they are by normalisation are kept as they are. */
  lemma {:induction false} NormalisedOfFixed(lines: seq<string>)
    requires FixedLines(lines)
    ensures Normalised(lines) == lines
  {
    if lines != [] {
      var init := lines[..|lines| - 1];
      assert FixedLines(init) by {
        forall k | 0 <= k < |init| ensures init[k] != [] && NormalForm(init[k]) == init[k] {
          assert init[k] == lines[k];
        }
      }
      NormalisedOfFixed(init);
      assert lines == init + [lines[|lines| - 1]];
    }
  }

  /** Normalisation is idempotent: the scan's input is already in normal
      form. */
  lemma NormalisedIdempotent(raw: seq<string>)
    ensures Normalised(Normalised(raw)) == Normalised(raw)
  {
    NormalisedFixed(raw);
    NormalisedOfFixed(Normalised(raw));
  }

  // ---------------------------------------------------------------------
  // Brace depth in a function or method body, as both scans count it.

  /** The change of depth a line makes: only its first character counts. */
  function Delta(line: string): (d: int)
    requires line != []
    ensures d == CountChar(line[..1], '{') - CountChar(line[..1], '}')
  {
    if line[0] == '{' then 1 else if line[0] == '}' then -1 else 0
  }

  /** Every line of `lines` is normal. */
  predicate AllNormal(lines: seq<string>) {
    forall k :: 0 <= k < |lines| ==> NormalLine(lines[k])
  }

  /** A body that closes on its last line: each line moves the depth `d`
      by its first character, and the depth first reaches 0 on the last
      line. */
  predicate ClosesOn(d: int, body: seq<string>)
    requires AllNormal(body)
    decreases |body|
  {
    && body != []
    && var d' := d + Delta(body[0]);
       if |body| == 1 then d' == 0 else d' != 0 && ClosesOn(d', body[1..])
  }
}

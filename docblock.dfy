/** `parser_docblock` (parser.py:261-308): the body lines of a `/** ... */`
    comment become a summary and a description. */
module Docs {
  import opened Wrappers
  import opened PyStr

  datatype Docblock = Docblock(summary: string, description: string)

  /** What `cur_docblock` holds: before any docblock has closed it is the
      `Docblock` class itself (parser.py:72), afterwards whatever
      `parser_docblock` returned, which is `None` for a blank docblock. */
  datatype Pending = DocblockClass | Parsed(doc: Option<Docblock>)

  /** `is_tag_line`: the utils module is not part of this model; a tag line is
      one that starts with `@`. */
  predicate IsTagLine(s: string) {
    |s| > 0 && s[0] == '@'
  }

  /** One body line reduced: the text after its first `*` (the whole line
      when it has none), stripped. */
  function CommentText(line: string): (t: string)
    ensures Trimmed(t)
  {
    Strip(Drop(line, Find(line, "*") + 1))
  }

  /** The comment text of every body line. */
  function Texts(lines: seq<string>): (ts: seq<string>)
    ensures |ts| == |lines|
  {
    MapEach(CommentText, lines)
  }

  /** `[f(x) for x in xs]`. */
  function MapEach(f: string -> string, xs: seq<string>): (ys: seq<string>)
    ensures |ys| == |xs|
  {
    if xs == [] then [] else MapEach(f, xs[..|xs| - 1]) + [f(xs[|xs| - 1])]
  }

  lemma {:induction false} MapEachAt(f: string -> string, xs: seq<string>)
    ensures forall k :: 0 <= k < |xs| ==> MapEach(f, xs)[k] == f(xs[k])
  {
    if xs != [] {
      var init := xs[..|xs| - 1];
      MapEachAt(f, init);
      assert forall k :: 0 <= k < |init| ==> init[k] == xs[k];
    }
  }

  /** The `k`-th text is the text of the `k`-th line. */
  lemma TextsAt(lines: seq<string>)
    ensures forall k :: 0 <= k < |lines| ==> Texts(lines)[k] == CommentText(lines[k])
  {
    MapEachAt(CommentText, lines);
  }

  /** `true_docblock`: the non-empty texts, in their order. */
  function Kept(ts: seq<string>): (t: seq<string>)
    ensures |t| <= |ts|
    ensures forall k :: 0 <= k < |t| ==> t[k] != ""
  {
    if ts == [] then []
    else Kept(ts[..|ts| - 1]) + (if ts[|ts| - 1] != "" then [ts[|ts| - 1]] else [])
  }

  /** The lines that make up the description: the lines opening `t` up to,
      not including, its first tag line. */
  function DescriptionLines(t: seq<string>): (d: seq<string>)
    ensures |d| <= |t| && d == t[..|d|]
    ensures forall k :: 0 <= k < |d| ==> !IsTagLine(d[k])
    ensures |d| < |t| ==> IsTagLine(t[|d|])
  {
    if t == [] || IsTagLine(t[0]) then [] else [t[0]] + DescriptionLines(t[1..])
  }

  /** `"".join(xs)` */
  function Concat(xs: seq<string>): string {
    if xs == [] then "" else xs[0] + Concat(xs[1..])
  }

  /** What `parser_docblock` returns: `None` when no line has text; otherwise
      the first line as summary unless it is a tag line (summary `""`), and
      the following non-tag lines, joined without separator, as
      description. */
  function DocblockOf(lines: seq<string>): Option<Docblock> {
    FromKept(Kept(Texts(lines)))
  }

  /** The docblock built from the kept texts `t`. */
  function FromKept(t: seq<string>): Option<Docblock> {
    if t == [] then None
    else
      var summary := if IsTagLine(t[0]) then "" else t[0];
      var rest := if IsTagLine(t[0]) then t else t[1..];
      Some(Docblock(summary, Concat(DescriptionLines(rest))))
  }

  /** `parser_docblock`: the non-empty comment texts, then the summary and
      the description; proved to compute `DocblockOf`. */
  method ParseDocblock(lines: seq<string>) returns (r: Option<Docblock>)
    ensures r == DocblockOf(lines)
  {
    var trueDocblock := KeptTexts(lines);
    r := SummaryAndDescriptionOf(trueDocblock);
  }

  /** The loop of `parser_docblock` that keeps the non-empty comment
      texts, proved to compute `Kept(Texts(lines))`. */
  method KeptTexts(lines: seq<string>) returns (trueDocblock: seq<string>)
    ensures trueDocblock == Kept(Texts(lines))
  {
    trueDocblock := [];
    for i := 0 to |lines|
      invariant trueDocblock == Kept(Texts(lines[..i]))
    {
      var nline := CommentText(lines[i]);
      assert Kept(Texts(lines[..i + 1])) == trueDocblock + (if nline != "" then [nline] else []) by {
        KeptStep(lines, i);
      }
      if nline != "" {
        trueDocblock := trueDocblock + [nline];
      }
    }
    assert lines[..|lines|] == lines;
  }

  /** The rest of `parser_docblock`: the summary and the loop that pops the
      description lines, proved to compute `FromKept`. */
  method SummaryAndDescriptionOf(t: seq<string>) returns (r: Option<Docblock>)
    ensures r == FromKept(t)
  {
    if t == [] {
      return None;
    }
    var trueDocblock := t;
    var summary := "";
    if !IsTagLine(trueDocblock[0]) {
      summary := trueDocblock[0];
      trueDocblock := trueDocblock[1..];
    }
    ghost var rest := trueDocblock;
    var description := "";
    while |trueDocblock| > 0 && !IsTagLine(trueDocblock[0])
      invariant description + Concat(DescriptionLines(trueDocblock)) == Concat(DescriptionLines(rest))
      decreases |trueDocblock|
    {
      DescriptionStep(trueDocblock);
      ghost var later := Concat(DescriptionLines(trueDocblock[1..]));
      assert description + trueDocblock[0] + later == description + (trueDocblock[0] + later);
      description := description + trueDocblock[0];
      trueDocblock := trueDocblock[1..];
    }
    assert DescriptionLines(trueDocblock) == [];
    assert description + "" == description;
    r := Some(Docblock(summary, description));
  }

  lemma TextsSnoc(lines: seq<string>, i: nat)
    requires i < |lines|
    ensures Texts(lines[..i + 1]) == Texts(lines[..i]) + [CommentText(lines[i])]
  {
    assert lines[..i + 1][..i] == lines[..i];
  }

  /** One more body line keeps its text when that is not empty. */
  lemma KeptStep(lines: seq<string>, i: nat)
    requires i < |lines|
    ensures var t := CommentText(lines[i]);
      Kept(Texts(lines[..i + 1])) == Kept(Texts(lines[..i])) + (if t != "" then [t] else [])
  {
    var ts := Texts(lines[..i + 1]);
    TextsSnoc(lines, i);
    assert ts[..|ts| - 1] == Texts(lines[..i]);
  }

  lemma DescriptionStep(t: seq<string>)
    requires t != [] && !IsTagLine(t[0])
    ensures Concat(DescriptionLines(t)) == t[0] + Concat(DescriptionLines(t[1..]))
  {
    assert ([t[0]] + DescriptionLines(t[1..]))[1..] == DescriptionLines(t[1..]);
  }

  // ---------------------------------------------------------------------
  // Properties

  /** A docblock parses to `None` exactly when every body line reduces to
      nothing. */
  lemma BlankDocblock(lines: seq<string>)
    ensures DocblockOf(lines) == None <==> forall k :: 0 <= k < |lines| ==> CommentText(lines[k]) == ""
  {
    KeptEmpty(Texts(lines));
    TextsAt(lines);
  }

  lemma {:induction false} KeptEmpty(ts: seq<string>)
    ensures Kept(ts) == [] <==> forall k :: 0 <= k < |ts| ==> ts[k] == ""
  {
    if ts != [] {
      var init := ts[..|ts| - 1];
      KeptEmpty(init);
      assert forall k :: 0 <= k < |init| ==> init[k] == ts[k];
    }
  }

  /** The summary is never a tag line, and it is empty exactly when the first
      line with text is a tag line; the description never runs into a tag
      line. */
  lemma SummaryAndDescription(lines: seq<string>)
    requires DocblockOf(lines).Some?
    ensures var t := Kept(Texts(lines));
            var d := DocblockOf(lines).value;
            && !IsTagLine(d.summary)
            && (d.summary == "" <==> IsTagLine(t[0]))
            && (IsTagLine(t[0]) ==> d.description == "")
  {
  }

  /** A body line `* x`, as documentation comments are written. */
  function Star(x: string): string {
    "* " + x
  }

  lemma StarText(x: string)
    requires Trimmed(x)
    ensures CommentText(Star(x)) == x
  {
    assert Star(x) == "*" + ([' '] + x);
    FindAtFront("*", [' '] + x);
    assert Drop(Star(x), 1) == [' '] + x;
    StripLeadingBlank(' ', x);
    StripTrimmed(x);
  }

  function Stars(xs: seq<string>): (r: seq<string>)
    ensures |r| == |xs|
  {
    MapEach(Star, xs)
  }

  /** Mapping `g` and then `f` gives back every element that `f` undoes
      `g` on. */
  lemma {:induction false} MapEachUndone(f: string -> string, g: string -> string, xs: seq<string>)
    requires forall k :: 0 <= k < |xs| ==> f(g(xs[k])) == xs[k]
    ensures MapEach(f, MapEach(g, xs)) == xs
  {
    var ys := MapEach(g, xs);
    MapEachAt(g, xs);
    MapEachAt(f, ys);
    assert forall k :: 0 <= k < |xs| ==> MapEach(f, ys)[k] == xs[k];
  }

  lemma TextsOfStars(xs: seq<string>)
    requires forall k :: 0 <= k < |xs| ==> Trimmed(xs[k])
    ensures Texts(Stars(xs)) == xs
  {
    forall k | 0 <= k < |xs| ensures CommentText(Star(xs[k])) == xs[k] {
      StarText(xs[k]);
    }
    MapEachUndone(CommentText, Star, xs);
  }

  lemma {:induction false} KeptNonEmpty(xs: seq<string>)
    requires forall k :: 0 <= k < |xs| ==> xs[k] != ""
    ensures Kept(xs) == xs
  {
    if xs != [] {
      KeptNonEmpty(xs[..|xs| - 1]);
    }
  }

  lemma {:induction false} DescriptionOfTexts(desc: seq<string>, tags: seq<string>)
    requires forall k :: 0 <= k < |desc| ==> !IsTagLine(desc[k])
    requires tags == [] || IsTagLine(tags[0])
    ensures DescriptionLines(desc + tags) == desc
  {
    if desc != [] {
      assert (desc + tags)[1..] == desc[1..] + tags;
      DescriptionOfTexts(desc[1..], tags);
    }
  }

  /** Body lines written as `* text` give back their texts. */
  lemma StarsDocblock(xs: seq<string>)
    requires forall k :: 0 <= k < |xs| ==> xs[k] != "" && Trimmed(xs[k])
    ensures DocblockOf(Stars(xs)) == FromKept(xs)
  {
    TextsOfStars(xs);
    KeptNonEmpty(xs);
  }

  lemma FirstLineSummary(summary: string, rest: seq<string>)
    requires summary != "" && !IsTagLine(summary)
    ensures FromKept([summary] + rest) == Some(Docblock(summary, Concat(DescriptionLines(rest))))
  {
    assert ([summary] + rest)[1..] == rest;
  }

  lemma WrittenTexts(summary: string, desc: seq<string>, tags: seq<string>)
    requires summary != "" && Trimmed(summary)
    requires forall k :: 0 <= k < |desc| ==> desc[k] != "" && Trimmed(desc[k])
    requires forall k :: 0 <= k < |tags| ==> tags[k] != "" && Trimmed(tags[k])
    ensures var xs := [summary] + (desc + tags);
      forall k :: 0 <= k < |xs| ==> xs[k] != "" && Trimmed(xs[k])
  {
    var xs := [summary] + (desc + tags);
    forall k | 0 <= k < |xs| ensures xs[k] != "" && Trimmed(xs[k]) {
      if k == 0 {
      } else if k <= |desc| {
        assert xs[k] == desc[k - 1];
      } else {
        assert xs[k] == tags[k - 1 - |desc|];
      }
    }
  }

  /** A docblock written as a summary line, description lines and tag lines,
      each as `* text`, parses back to that summary and the description lines
      joined together. */
  lemma WrittenDocblock(summary: string, desc: seq<string>, tags: seq<string>)
    requires summary != "" && Trimmed(summary) && !IsTagLine(summary)
    requires forall k :: 0 <= k < |desc| ==> desc[k] != "" && Trimmed(desc[k]) && !IsTagLine(desc[k])
    requires forall k :: 0 <= k < |tags| ==> tags[k] != "" && Trimmed(tags[k])
    requires tags == [] || IsTagLine(tags[0])
    ensures DocblockOf(Stars([summary] + desc + tags)) == Some(Docblock(summary, Concat(desc)))
  {
    WrittenParts(summary, desc, tags);
    DescriptionOfTexts(desc, tags);
  }

  lemma WrittenParts(summary: string, desc: seq<string>, tags: seq<string>)
    requires summary != "" && Trimmed(summary) && !IsTagLine(summary)
    requires forall k :: 0 <= k < |desc| ==> desc[k] != "" && Trimmed(desc[k])
    requires forall k :: 0 <= k < |tags| ==> tags[k] != "" && Trimmed(tags[k])
    ensures DocblockOf(Stars([summary] + desc + tags)) == Some(Docblock(summary, Concat(DescriptionLines(desc + tags))))
  {
    var rest := desc + tags;
    var xs := [summary] + rest;
    assert [summary] + desc + tags == xs;
    assert DocblockOf(Stars(xs)) == FromKept(xs) by {
      WrittenTexts(summary, desc, tags);
      StarsDocblock(xs);
    }
    FirstLineSummary(summary, rest);
  }
}

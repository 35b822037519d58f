/** The Python string operations the recogniser is written with, each with
    Python's own semantics: `str.find`, slicing with negative and clamped
    bounds, `str.strip`, `str.split`, `str.replace`, `re.sub(' +', ' ', s)`. */
module PyStr {

  /** True when `pat` occurs in `s` starting at index `i`. */
  predicate OccursAt(s: string, pat: string, i: int) {
    0 <= i && i + |pat| <= |s| && s[i..i + |pat|] == pat
  }

  /** `s.find(pat, i)`: the search from index `i` on. */
  function FindFrom(s: string, pat: string, i: nat): (r: int)
    requires i <= |s|
    ensures r == -1 || (i <= r && OccursAt(s, pat, r))
    ensures r == -1 ==> forall j :: i <= j ==> !OccursAt(s, pat, j)
    ensures r != -1 ==> forall j :: i <= j < r ==> !OccursAt(s, pat, j)
    decreases |s| - i
  {
    if OccursAt(s, pat, i) then i
    else if i == |s| then -1
    else FindFrom(s, pat, i + 1)
  }

  /** Python's `s.find(pat)`: the least index where `pat` occurs, -1 when it
      occurs nowhere. */
  function Find(s: string, pat: string): (r: int)
    ensures -1 <= r <= |s|
    ensures r == -1 <==> forall j :: !OccursAt(s, pat, j)
    ensures r != -1 ==> OccursAt(s, pat, r) && forall j :: 0 <= j < r ==> !OccursAt(s, pat, j)
  {
    FindFrom(s, pat, 0)
  }

  /** `s.find(pat) != -1`, that is Python's `pat in s`. */
  predicate Contains(s: string, pat: string) {
    Find(s, pat) != -1
  }

  /** `re.match(pat, s)` for a pattern without metacharacters, and
      `s.find(pat) == 0`. */
  predicate StartsWith(s: string, pat: string) {
    |pat| <= |s| && s[..|pat|] == pat
  }

  lemma StartsWithIsFindZero(s: string, pat: string)
    ensures StartsWith(s, pat) <==> Find(s, pat) == 0
  {
    if StartsWith(s, pat) {
      assert OccursAt(s, pat, 0);
    }
  }

  /** Python's normalisation of a slice bound `i` against a length `n`:
      negative bounds count from the end, and bounds are clamped. */
  function Bound(i: int, n: nat): (k: nat)
    ensures k <= n
    ensures 0 <= i <= n ==> k == i
    ensures i < 0 && 0 <= n + i ==> k == n + i
    ensures n + i < 0 ==> k == 0
    ensures n < i ==> k == n
  {
    if i < 0 then (if n + i < 0 then 0 else n + i)
    else if i > n then n
    else i
  }

  /** Python's `s[i:j]`. */
  function Slice(s: string, i: int, j: int): (r: string)
    ensures |r| <= |s|
    ensures 0 <= i <= j <= |s| ==> r == s[i..j]
    ensures Bound(j, |s|) <= Bound(i, |s|) ==> r == []
  {
    var a, b := Bound(i, |s|), Bound(j, |s|);
    if a <= b then s[a..b] else []
  }

  /** Python's `s[i:]`. */
  function Drop(s: string, i: int): (r: string)
    ensures |r| <= |s|
    ensures 0 <= i <= |s| ==> r == s[i..]
    ensures i < 0 ==> r == s[Bound(i, |s|)..]
  {
    Slice(s, i, |s|)
  }

  /** The characters Python's `str.strip()` and the regular-expression class
      `\s` treat as whitespace. */
  predicate IsSpace(c: char) {
    c == ' ' || ('\t' <= c <= '\r') || ('\U{1C}' <= c <= '\U{1F}')
    || c == '\U{85}' || c == '\U{A0}' || c == '\U{1680}'
    || ('\U{2000}' <= c <= '\U{200A}') || c == '\U{2028}' || c == '\U{2029}'
    || c == '\U{202F}' || c == '\U{205F}' || c == '\U{3000}'
  }

  /** The index of the first non-whitespace character at or after `i`, or
      `|s|` when there is none. */
  function SkipSpaces(s: string, i: nat): (k: nat)
    requires i <= |s|
    ensures i <= k <= |s| && (k < |s| ==> !IsSpace(s[k]))
    ensures forall j :: i <= j < k ==> IsSpace(s[j])
    decreases |s| - i
  {
    if i < |s| && IsSpace(s[i]) then SkipSpaces(s, i + 1) else i
  }

  /** The index just past the last non-whitespace character before `j`, or
      0 when there is none. */
  function BackSpaces(s: string, j: nat): (k: nat)
    requires j <= |s|
    ensures k <= j && (k > 0 ==> !IsSpace(s[k - 1]))
    ensures forall i :: k <= i < j ==> IsSpace(s[i])
  {
    if j > 0 && IsSpace(s[j - 1]) then BackSpaces(s, j - 1) else j
  }

  /** `s.lstrip()` */
  function StripLeft(s: string): (r: string)
    ensures |r| <= |s| && r == s[|s| - |r|..]
    ensures r == [] || !IsSpace(r[0])
    ensures forall k :: 0 <= k < |s| - |r| ==> IsSpace(s[k])
  {
    s[SkipSpaces(s, 0)..]
  }

  /** `s.rstrip()` */
  function StripRight(s: string): (r: string)
    ensures |r| <= |s| && r == s[..|r|]
    ensures r == [] || !IsSpace(r[|r| - 1])
    ensures forall k :: |r| <= k < |s| ==> IsSpace(s[k])
  {
    s[..BackSpaces(s, |s|)]
  }

  /** `s.strip()`: `s` without its leading and trailing whitespace. The
      result is the part of `s` from its first non-whitespace character
      on, every character of `s` outside it is whitespace, and it neither
      starts nor ends with whitespace. */
  function Strip(s: string): (r: string)
    ensures r == [] || (!IsSpace(r[0]) && !IsSpace(r[|r| - 1]))
    ensures |r| <= |s|
    ensures var a := SkipSpaces(s, 0); a + |r| <= |s| && r == s[a..a + |r|]
    ensures var a := SkipSpaces(s, 0);
      forall k :: 0 <= k < |s| && !(a <= k < a + |r|) ==> IsSpace(s[k])
  {
    var t := StripLeft(s);
    var r := StripRight(t);
    assert forall k :: |s| - |t| + |r| <= k < |s| ==> s[k] == t[k - (|s| - |t|)];
    r
  }

  /** The characters of `s` other than the blank `' '`, in order. */
  function NonBlanks(s: string): string
    decreases |s|
  {
    if s == [] then [] else (if s[0] == ' ' then [] else [s[0]]) + NonBlanks(s[1..])
  }

  /** The characters of `s` that are not whitespace, in order. */
  function Visible(s: string): string
    decreases |s|
  {
    if s == [] then [] else (if IsSpace(s[0]) then [] else [s[0]]) + Visible(s[1..])
  }

  lemma {:induction false} VisibleAppend(a: string, b: string)
    ensures Visible(a + b) == Visible(a) + Visible(b)
    decreases |a|
  {
    if a == [] {
      assert a + b == b;
    } else {
      assert (a + b)[0] == a[0] && (a + b)[1..] == a[1..] + b;
      VisibleAppend(a[1..], b);
    }
  }

  lemma {:induction false} VisibleOfSpaces(s: string)
    requires forall k :: 0 <= k < |s| ==> IsSpace(s[k])
    ensures Visible(s) == []
    decreases |s|
  {
    if s != [] {
      assert forall k :: 0 <= k < |s[1..]| ==> s[1..][k] == s[k + 1];
      VisibleOfSpaces(s[1..]);
    }
  }

  /** Dropping blanks first changes none of the visible characters. */
  lemma {:induction false} VisibleOfNonBlanks(s: string)
    ensures Visible(NonBlanks(s)) == Visible(s)
    decreases |s|
  {
    if s != [] {
      var head := if s[0] == ' ' then [] else [s[0]];
      VisibleOfNonBlanks(s[1..]);
      VisibleAppend(head, NonBlanks(s[1..]));
      assert Visible(head) == if IsSpace(s[0]) then [] else [s[0]] by {
        if head != [] {
          assert head[1..] == [];
        }
      }
    }
  }

  /** Whitespace around a string adds no visible character. */
  lemma VisibleInSpaces(front: string, r: string, back: string)
    requires forall k :: 0 <= k < |front| ==> IsSpace(front[k])
    requires forall k :: 0 <= k < |back| ==> IsSpace(back[k])
    ensures Visible(front + r + back) == Visible(r)
  {
    VisibleOfSpaces(front);
    VisibleOfSpaces(back);
    VisibleAppend(front + r, back);
    VisibleAppend(front, r);
  }

  /** A slice with only whitespace outside it has all the visible
      characters of the string. */
  lemma VisibleOfSlice(s: string, a: nat, r: string)
    requires a + |r| <= |s| && r == s[a..a + |r|]
    requires forall k :: 0 <= k < |s| && !(a <= k < a + |r|) ==> IsSpace(s[k])
    ensures Visible(r) == Visible(s)
  {
    var b := a + |r|;
    var front, back := s[..a], s[b..];
    assert s == front + r + back;
    assert forall k :: 0 <= k < |front| ==> IsSpace(front[k]) by {
      assert forall k :: 0 <= k < |front| ==> front[k] == s[k];
    }
    assert forall k :: 0 <= k < |back| ==> IsSpace(back[k]) by {
      assert forall k :: 0 <= k < |back| ==> back[k] == s[b + k];
    }
    VisibleInSpaces(front, r, back);
  }

  /** `strip()` keeps every visible character. */
  lemma StripVisible(s: string)
    ensures Visible(Strip(s)) == Visible(s)
  {
    VisibleOfSlice(s, SkipSpaces(s, 0), Strip(s));
  }

  /** A string that `strip()` leaves as it is. */
  predicate Trimmed(s: string) {
    s == [] || (!IsSpace(s[0]) && !IsSpace(s[|s| - 1]))
  }

  lemma StripTrimmed(s: string)
    requires Trimmed(s)
    ensures Strip(s) == s
  {
    assert SkipSpaces(s, 0) == 0;
    assert BackSpaces(s, |s|) == |s|;
  }

  /** Leading whitespace does not survive `strip()`. */
  lemma StripLeadingSpace(c: char, s: string)
    requires IsSpace(c)
    ensures StripLeft([c] + s) == StripLeft(s)
  {
    var t := [c] + s;
    var k := SkipSpaces(t, 1);
    assert SkipSpaces(t, 0) == k;
    forall j | 0 <= j < k - 1 ensures IsSpace(s[j]) {
      assert t[j + 1] == s[j];
    }
    if k < |t| {
      assert t[k] == s[k - 1];
    }
    assert SkipSpaces(s, 0) == k - 1 by {
      SkipSpacesFirst(s, k - 1);
    }
    assert t[k..] == s[k - 1..];
  }

  /** A leading whitespace character makes no difference to `strip()`. */
  lemma StripLeadingBlank(c: char, s: string)
    requires IsSpace(c)
    ensures Strip([c] + s) == Strip(s)
  {
    StripLeadingSpace(c, s);
  }

  /** `SkipSpaces(s, 0)` is the unique index that is preceded only by
      whitespace and sits on a non-whitespace character or the end. */
  lemma SkipSpacesFirst(s: string, k: nat)
    requires k <= |s| && (k < |s| ==> !IsSpace(s[k]))
    requires forall j :: 0 <= j < k ==> IsSpace(s[j])
    ensures SkipSpaces(s, 0) == k
  {
  }

  /** No two consecutive blanks. */
  predicate NoDoubleSpace(s: string) {
    forall i, j :: 0 <= i < |s| && j == i + 1 && j < |s| ==> !(s[i] == ' ' && s[j] == ' ')
  }

  /** `re.sub(' +', ' ', s[i:])`. */
  function CollapseFrom(s: string, i: nat): (r: string)
    requires i <= |s|
    ensures |r| <= |s| - i
    ensures i < |s| ==> r != [] && r[0] == s[i]
    ensures NoDoubleSpace(r)
    ensures NonBlanks(r) == NonBlanks(s[i..])
    decreases |s| - i
  {
    assert i < |s| ==> s[i..][0] == s[i] && s[i..][1..] == s[i + 1..];
    if |s| - i <= 1 then s[i..]
    else if s[i] == ' ' && s[i + 1] == ' ' then CollapseFrom(s, i + 1)
    else
      var rest := CollapseFrom(s, i + 1);
      var r := [s[i]] + rest;
      assert r[0] == s[i] && r[1..] == rest;
      assert NoDoubleSpace(r) by {
        forall a, b | 0 <= a < |r| && b == a + 1 && b < |r| ensures !(r[a] == ' ' && r[b] == ' ') {
          if a > 0 {
            assert r[a] == rest[a - 1] && r[b] == rest[b - 1];
          }
        }
      }
      r
  }

  /** `re.sub(' +', ' ', s)`: every run of blanks becomes one blank, and
      every other character is kept, in order. */
  function CollapseSpaces(s: string): (r: string)
    ensures |r| <= |s|
    ensures s != [] ==> r != [] && r[0] == s[0]
    ensures NoDoubleSpace(r)
    ensures NonBlanks(r) == NonBlanks(s)
  {
    assert s[0..] == s;
    CollapseFrom(s, 0)
  }

  lemma {:induction false} CollapseFromNoDoubleSpace(s: string, i: nat)
    requires i <= |s| && NoDoubleSpace(s)
    ensures CollapseFrom(s, i) == s[i..]
    decreases |s| - i
  {
    if |s| - i > 1 {
      CollapseFromNoDoubleSpace(s, i + 1);
      var j := i + 1;
      assert !(s[i] == ' ' && s[j] == ' ');
      assert [s[i]] + s[i + 1..] == s[i..];
    }
  }

  /** A string without double blanks is left as it is. */
  lemma CollapseNoDoubleSpace(s: string)
    requires NoDoubleSpace(s)
    ensures CollapseSpaces(s) == s
  {
    CollapseFromNoDoubleSpace(s, 0);
  }

  /** Python's `s.split(sep)` for a non-empty separator. */
  function Split(s: string, sep: string): (r: seq<string>)
    requires sep != []
    ensures |r| >= 1
    decreases |s|
  {
    var p := Find(s, sep);
    if p == -1 then [s] else [s[..p]] + Split(s[p + |sep|..], sep)
  }

  /** Python's `sep.join(parts)` for a non-empty list. */
  function Join(parts: seq<string>, sep: string): (r: string)
    requires parts != []
    ensures |r| >= |parts[0]| && r[..|parts[0]|] == parts[0]
  {
    if |parts| == 1 then parts[0] else parts[0] + sep + Join(parts[1..], sep)
  }

  /** Python's `s.replace(target, repl)` for a non-empty `target`: occurrences are
      replaced left to right, without overlaps. */
  function Replace(s: string, target: string, repl: string): (r: string)
    requires target != []
    ensures !Contains(s, target) ==> r == s
    ensures Contains(s, target) ==> |r| >= |repl|
    decreases |s|
  {
    var p := Find(s, target);
    if p == -1 then s else s[..p] + repl + Replace(s[p + |target|..], target, repl)
  }

  /** `len(re.findall(c, s))` for a one-character literal pattern. */
  function CountChar(s: string, c: char): (n: nat)
    ensures n <= |s|
    ensures n == 0 <==> c !in s
    ensures n == multiset(s)[c]
  {
    if s == [] then 0
    else
      assert s == [s[0]] + s[1..];
      (if s[0] == c then 1 else 0) + CountChar(s[1..], c)
  }

  // ---------------------------------------------------------------------
  // Where `find` lands in a string assembled from known parts.

  /** Occurrences in `a + b` that start at or after `|a|` are occurrences in
      `b`, shifted. */
  lemma OccursShift(a: string, b: string, pat: string, j: int)
    requires 0 <= j
    ensures OccursAt(a + b, pat, |a| + j) <==> OccursAt(b, pat, j)
  {
    if 0 <= j && j + |pat| <= |b| {
      assert (a + b)[|a| + j..|a| + j + |pat|] == b[j..j + |pat|];
    }
  }

  /** When nothing occurs before `|a|`, searching `a + b` is searching `b`. */
  lemma {:induction false} FindAfter(a: string, b: string, pat: string)
    requires forall i :: 0 <= i < |a| ==> !OccursAt(a + b, pat, i)
    ensures Find(a + b, pat) == if Find(b, pat) == -1 then -1 else |a| + Find(b, pat)
  {
    var f := Find(b, pat);
    if f == -1 {
      forall j | |a| <= j ensures !OccursAt(a + b, pat, j) {
        OccursShift(a, b, pat, j - |a|);
      }
    } else {
      OccursShift(a, b, pat, f);
      forall j | 0 <= j < |a| + f ensures !OccursAt(a + b, pat, j) {
        if j >= |a| {
          OccursShift(a, b, pat, j - |a|);
        }
      }
    }
  }

  /** A string lacking one of `pat`'s characters does not contain `pat`. */
  lemma MissingChar(s: string, pat: string, k: nat)
    requires k < |pat| && pat[k] !in s
    ensures !Contains(s, pat)
  {
    forall i | 0 <= i ensures !OccursAt(s, pat, i) {
      if i + |pat| <= |s| {
        assert s[i..i + |pat|][k] == s[i + k];
      }
    }
  }

  /** An occurrence in `a + w` lies in `a`, in `w`, or across the boundary. A
      boundary character missing from `pat` rules the last case out. */
  lemma NotInConcat(a: string, w: string, pat: string)
    requires !Contains(a, pat) && !Contains(w, pat)
    requires (a != [] && a[|a| - 1] !in pat) || (w != [] && w[0] !in pat)
    ensures !Contains(a + w, pat)
  {
    var s := a + w;
    forall i | 0 <= i && i + |pat| <= |s| ensures !OccursAt(s, pat, i) {
      if i + |pat| <= |a| {
        assert s[i..i + |pat|] == a[i..i + |pat|];
        assert !OccursAt(a, pat, i);
      } else if i >= |a| {
        OccursShift(a, w, pat, i - |a|);
      } else if a != [] && a[|a| - 1] !in pat {
        assert s[i..i + |pat|][|a| - 1 - i] == a[|a| - 1];
      } else {
        assert s[i..i + |pat|][|a| - i] == w[0];
      }
    }
  }

  /** In `u + b`, where `b` starts with a character that `pat` lacks and `u`
      does not contain `pat`, the first occurrence is found in `b`. */
  lemma FindPast(u: string, b: string, pat: string)
    requires !Contains(u, pat)
    requires b != [] && b[0] !in pat
    ensures Find(u + b, pat) == if Find(b, pat) == -1 then -1 else |u| + Find(b, pat)
  {
    var s := u + b;
    forall i | 0 <= i < |u| ensures !OccursAt(s, pat, i) {
      if i + |pat| <= |u| {
        assert s[i..i + |pat|] == u[i..i + |pat|];
        assert !OccursAt(u, pat, i);
      } else if i + |pat| <= |s| {
        assert s[i..i + |pat|][|u| - i] == b[0];
      }
    }
    FindAfter(u, b, pat);
  }

  /** `pat` is found at the front of `pat + rest`. */
  lemma FindAtFront(pat: string, rest: string)
    ensures Find(pat + rest, pat) == 0
  {
    assert OccursAt(pat + rest, pat, 0);
  }

  /** The separator is found right after a first part that lacks its first
      character. */
  lemma FindAfterPart(part: string, sep: string, rest: string)
    requires sep != [] && sep[0] !in part
    ensures Find(part + sep + rest, sep) == |part|
  {
    forall i | 0 <= i < |part| ensures !OccursAt(part + (sep + rest), sep, i) {
      if i + |sep| <= |part + (sep + rest)| {
        assert (part + (sep + rest))[i..i + |sep|][0] == part[i];
      }
    }
    FindAfter(part, sep + rest, sep);
    FindAtFront(sep, rest);
    assert part + sep + rest == part + (sep + rest);
  }

  /** `split` undoes `join` when no part holds the separator's first
      character. */
  lemma {:induction false} SplitJoin(parts: seq<string>, sep: string)
    requires parts != [] && sep != []
    requires forall k :: 0 <= k < |parts| ==> sep[0] !in parts[k]
    ensures Split(Join(parts, sep), sep) == parts
  {
    if |parts| == 1 {
      MissingChar(parts[0], sep, 0);
    } else {
      SplitAfterPart(parts[0], sep, Join(parts[1..], sep));
      SplitJoin(parts[1..], sep);
      assert parts == [parts[0]] + parts[1..];
    }
  }

  /** A first part lacking the separator's first character is split off
      whole. */
  lemma SplitAfterPart(part: string, sep: string, rest: string)
    requires sep != [] && sep[0] !in part
    ensures Split(part + sep + rest, sep) == [part] + Split(rest, sep)
  {
    FindAfterPart(part, sep, rest);
    var s := part + sep + rest;
    assert s[..|part|] == part;
    assert s[|part| + |sep|..] == rest;
  }
}

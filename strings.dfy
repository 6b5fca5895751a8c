/** The Python `str` built-ins the nodes rely on, as functions on `seq<char>`:
    `strip`, `lstrip(chars)`, `in`, `find`, `split(sep)`, `sep.join`, `replace`,
    `startswith`, `endswith`, `lower`, `str(int)`, `str(bool)` and slicing. */
module Strings {
  import opened Wrappers

  /** Python's `c.isspace()`. */
  predicate IsSpace(c: char) {
    || ('\t' <= c <= '\r')
    || ('\U{1C}' <= c <= ' ')
    || c == '\U{85}' || c == '\U{A0}' || c == '\U{1680}'
    || ('\U{2000}' <= c <= '\U{200A}')
    || c == '\U{2028}' || c == '\U{2029}' || c == '\U{202F}' || c == '\U{205F}' || c == '\U{3000}'
  }

  /** `s.lstrip(chars)`: drops every leading character that belongs to `chars`. */
  function TrimStart(s: string, chars: set<char>): (r: string)
    ensures |r| <= |s| && r == s[|s| - |r|..]
    ensures |r| == 0 || r[0] !in chars
    ensures forall i :: 0 <= i < |s| - |r| ==> s[i] in chars
  {
    if |s| > 0 && s[0] in chars then
      var r := TrimStart(s[1..], chars);
      assert forall i :: 1 <= i < |s| ==> s[i] == s[1..][i - 1];
      r
    else s
  }

  /** `s.lstrip()`: drops the leading whitespace. */
  function StripStart(s: string): (r: string)
    ensures |r| <= |s| && r == s[|s| - |r|..]
    ensures |r| == 0 || !IsSpace(r[0])
    ensures forall i :: 0 <= i < |s| - |r| ==> IsSpace(s[i])
  {
    if |s| > 0 && IsSpace(s[0]) then
      var r := StripStart(s[1..]);
      assert forall i :: 1 <= i < |s| ==> s[i] == s[1..][i - 1];
      r
    else s
  }

  /** `s.rstrip()`: drops the trailing whitespace. */
  function StripEnd(s: string): (r: string)
    ensures |r| <= |s| && r == s[..|r|]
    ensures |r| == 0 || !IsSpace(r[|r| - 1])
    ensures forall i :: |r| <= i < |s| ==> IsSpace(s[i])
  {
    if |s| > 0 && IsSpace(s[|s| - 1]) then
      var r := StripEnd(s[..|s| - 1]);
      assert forall i :: 0 <= i < |s| - 1 ==> s[i] == s[..|s| - 1][i];
      r
    else s
  }

  /** No leading and no trailing whitespace. */
  predicate IsStripped(s: string) {
    |s| == 0 || (!IsSpace(s[0]) && !IsSpace(s[|s| - 1]))
  }

  /** Every character is whitespace (so `not s.strip()` in Python). */
  predicate IsBlank(s: string) {
    forall i :: 0 <= i < |s| ==> IsSpace(s[i])
  }

  /** `s.strip()`. */
  function Strip(s: string): (r: string)
    ensures IsStripped(r)
    ensures forall c :: c in r ==> c in s
    ensures |r| == 0 <==> IsBlank(s)
    ensures IsStripped(s) ==> r == s
  {
    var t := StripStart(s);
    var r := StripEnd(t);
    StripFacts(s, t, r);
    r
  }

  lemma StripFacts(s: string, t: string, r: string)
    requires t == StripStart(s) && r == StripEnd(t)
    ensures IsStripped(r)
    ensures forall c :: c in r ==> c in s
    ensures |r| == 0 <==> IsBlank(s)
    ensures IsStripped(s) ==> r == s
  {
    StripKeepsChars(s, t, r);
    assert |r| > 0 ==> r[0] == t[0];
    if |t| > 0 {
      assert t[0] == s[|s| - |t|] && !IsSpace(t[0]);
      assert |r| > 0;
    }
    assert |r| == 0 <==> |t| == 0;
    assert |t| == 0 <==> IsBlank(s);
    if IsStripped(s) && |s| > 0 {
      assert t == s;
      assert r == s;
    }
  }

  lemma StripKeepsChars(s: string, t: string, r: string)
    requires t == StripStart(s) && r == StripEnd(t)
    ensures forall c :: c in r ==> c in s
  {
    SliceChars(t, 0, |r|);
    assert r == t[0..|r|];
    SliceChars(s, |s| - |t|, |s|);
  }

  /** A character of a slice is a character of the whole. */
  lemma SliceChars(s: string, a: nat, b: nat)
    requires a <= b <= |s|
    ensures forall c :: c in s[a..b] ==> c in s
  {
    forall c | c in s[a..b] ensures c in s {
      var k :| 0 <= k < b - a && s[a..b][k] == c;
      assert s[a + k] == c;
    }
  }

  /** Whitespace appended after a non-blank string survives `lstrip`. */
  lemma {:induction false} StripStartAppend(a: string, w: string)
    requires !IsBlank(a)
    ensures StripStart(a + w) == StripStart(a) + w
    decreases |a|
  {
    if IsSpace(a[0]) {
      assert (a + w)[1..] == a[1..] + w;
      assert !IsBlank(a[1..]) by {
        var i :| 0 <= i < |a| && !IsSpace(a[i]);
        assert a[1..][i - 1] == a[i];
      }
      StripStartAppend(a[1..], w);
    }
  }

  /** `rstrip` removes whitespace appended at the end. */
  lemma {:induction false} StripEndBlank(t: string, w: string)
    requires IsBlank(w)
    ensures StripEnd(t + w) == StripEnd(t)
    decreases |w|
  {
    if |w| > 0 {
      var u := t + w;
      assert u[|u| - 1] == w[|w| - 1];
      assert u[..|u| - 1] == t + w[..|w| - 1];
      StripEndBlank(t, w[..|w| - 1]);
    } else {
      assert t + w == t;
    }
  }

  /** `(a + w).strip() == a.strip()` for whitespace `w`. */
  lemma StripBlankSuffix(a: string, w: string)
    requires IsBlank(w)
    ensures Strip(a + w) == Strip(a)
  {
    if IsBlank(a) {
      assert IsBlank(a + w) by {
        forall i | 0 <= i < |a + w| ensures IsSpace((a + w)[i]) {
          if i < |a| { assert (a + w)[i] == a[i]; } else { assert (a + w)[i] == w[i - |a|]; }
        }
      }
    } else {
      StripStartAppend(a, w);
      StripEndBlank(StripStart(a), w);
    }
  }

  /** `p` occurs in `s` at index `i`. */
  predicate OccursAt(s: string, p: string, i: int) {
    0 <= i <= |s| - |p| && s[i..i + |p|] == p
  }

  /** Python's `p in s` for strings. */
  predicate Contains(s: string, p: string) {
    exists i :: 0 <= i <= |s| - |p| && OccursAt(s, p, i)
  }

  lemma OccursShift(s: string, p: string)
    requires |s| > 0
    ensures forall j :: 0 <= j ==> (OccursAt(s[1..], p, j) <==> OccursAt(s, p, j + 1))
  {
    forall j | 0 <= j ensures OccursAt(s[1..], p, j) <==> OccursAt(s, p, j + 1) {
      if 0 <= j <= |s| - 1 - |p| {
        assert s[1..][j..j + |p|] == s[j + 1..j + 1 + |p|];
      }
    }
  }

  /** `s.find(p)`, with `None` for Python's -1: the leftmost occurrence. */
  function Find(s: string, p: string): (r: Option<nat>)
    ensures r.Some? ==> OccursAt(s, p, r.value)
    ensures r.Some? ==> forall j :: 0 <= j < r.value ==> !OccursAt(s, p, j)
    ensures r.None? <==> !Contains(s, p)
    decreases |s|
  {
    if |s| < |p| then None
    else if s[..|p|] == p then (assert OccursAt(s, p, 0); Some(0))
    else
      OccursShift(s, p);
      assert !OccursAt(s, p, 0);
      match Find(s[1..], p)
      case None =>
        assert !Contains(s, p) by {
          forall j | 0 < j <= |s| - |p| ensures !OccursAt(s, p, j) {
            assert !OccursAt(s[1..], p, j - 1);
          }
        }
        None
      case Some(i) =>
        assert OccursAt(s, p, i + 1);
        assert forall j :: 0 <= j < i + 1 ==> !OccursAt(s, p, j) by {
          forall j | 0 < j < i + 1 ensures !OccursAt(s, p, j) {
            assert !OccursAt(s[1..], p, j - 1);
          }
        }
        Some(i + 1)
  }

  lemma ContainsChar(s: string, c: char)
    ensures Contains(s, [c]) <==> c in s
  {
    if c in s {
      var i :| 0 <= i < |s| && s[i] == c;
      assert s[i..i + 1] == [c];
      assert OccursAt(s, [c], i);
    }
    if Contains(s, [c]) {
      var i :| 0 <= i <= |s| - 1 && OccursAt(s, [c], i);
      assert s[i] == s[i..i + 1][0];
    }
  }

  /** `s.split(sep)` for a non-empty separator: the pieces between the
      non-overlapping occurrences of `sep`, scanned from the left. */
  function Split(s: string, sep: string): (parts: seq<string>)
    requires |sep| > 0
    ensures |parts| >= 1
    decreases |s|
  {
    match Find(s, sep)
    case None => [s]
    case Some(i) => [s[..i]] + Split(s[i + |sep|..], sep)
  }

  /** No piece of `s.split(sep)` contains `sep`. */
  lemma {:induction false} SplitAvoids(s: string, sep: string)
    requires |sep| > 0
    ensures forall k :: 0 <= k < |Split(s, sep)| ==> !Contains(Split(s, sep)[k], sep)
    decreases |s|
  {
    SplitStep(s, sep);
    if Find(s, sep).Some? {
      var i := Find(s, sep).value;
      SplitAvoids(s[i + |sep|..], sep);
      PrefixAvoids(s, sep, i);
    }
  }

  /** A text that splits into two pieces is the first piece, the separator and
      the second piece, and neither piece contains the separator. */
  lemma SplitTwo(s: string, sep: string)
    requires |sep| > 0 && |Split(s, sep)| == 2
    ensures var p := Split(s, sep); s == p[0] + sep + p[1] && !Contains(p[0], sep) && !Contains(p[1], sep)
  {
    var p := Split(s, sep);
    JoinSplit(s, sep);
    SplitAvoids(s, sep);
    assert Join(p[1..], sep) == p[1];
  }

  /** The text before the leftmost occurrence of `sep` does not contain it. */
  lemma PrefixAvoids(s: string, sep: string, i: nat)
    requires |sep| > 0 && Find(s, sep) == Some(i)
    ensures !Contains(s[..i], sep)
  {
    forall j | OccursAt(s[..i], sep, j) ensures false {
      assert s[..i][j..j + |sep|] == s[j..j + |sep|];
      assert OccursAt(s, sep, j);
    }
  }

  /** `sep.join(parts)`. */
  function Join(parts: seq<string>, sep: string): string
    decreases |parts|
  {
    if |parts| == 0 then ""
    else if |parts| == 1 then parts[0]
    else parts[0] + sep + Join(parts[1..], sep)
  }

  /** A text followed by a blank line, or nothing for an empty text: how the
      nodes put earlier memory in front of new content. */
  function Paragraph(s: string): string {
    if |s| > 0 then s + "\n\n" else ""
  }

  /** `Paragraph(s)` as the two pieces the nodes append. */
  function ParagraphParts(s: string): seq<string> {
    if |s| > 0 then [s, "\n\n"] else []
  }

  /** `"".join(parts)`. */
  function Concat(parts: seq<string>): string
    decreases |parts|
  {
    if |parts| == 0 then "" else parts[0] + Concat(parts[1..])
  }

  lemma {:induction false} ConcatAppend(xs: seq<string>, ys: seq<string>)
    ensures Concat(xs + ys) == Concat(xs) + Concat(ys)
    decreases |xs|
  {
    if |xs| > 0 {
      assert (xs + ys)[1..] == xs[1..] + ys;
      ConcatAppend(xs[1..], ys);
    } else {
      assert xs + ys == ys;
    }
  }

  lemma Concat2(a: string, b: string)
    ensures Concat([a]) == a
    ensures Concat([a, b]) == a + b
  {
    assert [a][1..] == [] && [b][1..] == [];
    assert Concat([b]) == b;
    assert [a, b][1..] == [b];
  }

  lemma ParagraphJoined(s: string)
    ensures Concat(ParagraphParts(s)) == Paragraph(s)
  {
    Concat2(s, "\n\n");
  }

  lemma Concat3(a: string, b: string, c: string)
    ensures Concat([a, b, c]) == a + b + c
  {
    assert [c][1..] == [];
    assert Concat([c]) == c;
    assert [b, c][1..] == [c];
    assert Concat([b, c]) == b + c;
    assert [a, b, c][1..] == [b, c];
  }

  lemma {:induction false} JoinSplit(s: string, sep: string)
    requires |sep| > 0
    ensures Join(Split(s, sep), sep) == s
    decreases |s|
  {
    SplitStep(s, sep);
    if Find(s, sep).Some? {
      var i := Find(s, sep).value;
      JoinSplit(s[i + |sep|..], sep);
      JoinAround(s, sep, i, Split(s[i + |sep|..], sep));
    }
  }

  /** One step of `split`: the piece before the leftmost occurrence, then the rest. */
  lemma SplitStep(s: string, sep: string)
    requires |sep| > 0
    ensures Find(s, sep).None? ==> Split(s, sep) == [s]
    ensures Find(s, sep).Some? ==>
      Split(s, sep) == [s[..Find(s, sep).value]] + Split(s[Find(s, sep).value + |sep|..], sep)
  {
  }

  /** Joining the piece before an occurrence of `sep` to pieces that join to what
      follows it gives back the whole string. */
  lemma JoinAround(s: string, sep: string, i: nat, parts: seq<string>)
    requires OccursAt(s, sep, i) && |parts| > 0
    requires Join(parts, sep) == s[i + |sep|..]
    ensures Join([s[..i]] + parts, sep) == s
  {
    assert ([s[..i]] + parts)[1..] == parts;
    assert s == s[..i] + s[i..i + |sep|] + s[i + |sep|..];
  }

  /** Splitting on a one-character separator undoes joining with it, when no
      piece contains that character. */
  lemma {:induction false} SplitJoin(parts: seq<string>, c: char)
    requires |parts| > 0
    requires forall k :: 0 <= k < |parts| ==> c !in parts[k]
    ensures Split(Join(parts, [c]), [c]) == parts
    decreases |parts|
  {
    var s := Join(parts, [c]);
    ContainsChar(parts[0], c);
    if |parts| == 1 {
      assert s == parts[0];
      assert Find(s, [c]).None?;
    } else {
      var rest := Join(parts[1..], [c]);
      assert s == parts[0] + [c] + rest;
      assert OccursAt(s, [c], |parts[0]|);
      forall j | 0 <= j < |parts[0]| ensures !OccursAt(s, [c], j) {
        assert s[j] == parts[0][j];
      }
      assert Find(s, [c]) == Some(|parts[0]|);
      assert s[|parts[0]| + 1..] == rest;
      assert s[..|parts[0]|] == parts[0];
      assert Split(s, [c]) == [parts[0]] + Split(rest, [c]);
      SplitJoin(parts[1..], c);
      assert parts == [parts[0]] + parts[1..];
    }
  }

  /** A pattern free of the separator character that occurs in no piece does
      not occur in the joined text either. */
  lemma {:induction false} JoinAvoids(parts: seq<string>, c: char, p: string)
    requires |p| > 0 && c !in p
    requires forall k :: 0 <= k < |parts| ==> !Contains(parts[k], p)
    ensures !Contains(Join(parts, [c]), p)
    decreases |parts|
  {
    if |parts| > 1 {
      JoinAvoids(parts[1..], c, p);
      AvoidsAround(parts[0], c, Join(parts[1..], [c]), p);
    }
  }

  lemma AvoidsAround(a: string, c: char, b: string, p: string)
    requires |p| > 0 && c !in p && !Contains(a, p) && !Contains(b, p)
    ensures !Contains(a + [c] + b, p)
  {
    var s := a + [c] + b;
    forall i | 0 <= i <= |s| - |p| ensures !OccursAt(s, p, i) {
      if i + |p| <= |a| {
        assert s[i..i + |p|] == a[i..i + |p|];
        assert !OccursAt(a, p, i);
      } else if i <= |a| {
        assert s[i..i + |p|][|a| - i] == c;
      } else {
        assert s[i..i + |p|] == b[i - |a| - 1..i - |a| - 1 + |p|];
        assert !OccursAt(b, p, i - |a| - 1);
      }
    }
  }

  /** A pattern whose first character does not recur in it, written right
      after a text that does not contain it, is first found there. */
  lemma FindAfter(a: string, p: string, b: string)
    requires |p| > 0 && !Contains(a, p)
    requires forall k :: 1 <= k < |p| ==> p[k] != p[0]
    ensures Find(a + p + b, p) == Some(|a|)
  {
    var s := a + p + b;
    assert s[|a|..|a| + |p|] == p;
    assert OccursAt(s, p, |a|);
    forall j | 0 <= j < |a| ensures !OccursAt(s, p, j) {
      if j + |p| <= |a| {
        assert s[j..j + |p|] == a[j..j + |p|];
        assert !OccursAt(a, p, j);
      } else if j + |p| <= |s| {
        assert s[j..j + |p|][|a| - j] == p[0];
      }
    }
  }

  /** Splitting a text that holds the separator exactly once. */
  lemma SplitOnce(a: string, sep: string, b: string)
    requires |sep| > 0 && Find(a + sep + b, sep) == Some(|a|) && !Contains(b, sep)
    ensures Split(a + sep + b, sep) == [a, b]
  {
    var s := a + sep + b;
    SplitStep(s, sep);
    SplitStep(b, sep);
    assert s[..|a|] == a;
    assert s[|a| + |sep|..] == b;
  }

  /** `s.replace(pat, rep)` for a non-empty pattern: every non-overlapping
      occurrence, scanned from the left, is replaced. */
  function Replace(s: string, pat: string, rep: string): string
    requires |pat| > 0
    decreases |s|
  {
    if |s| < |pat| then s
    else if s[..|pat|] == pat then rep + Replace(s[|pat|..], pat, rep)
    else [s[0]] + Replace(s[1..], pat, rep)
  }

  /** Replacing the first occurrence when it is the only one. */
  lemma {:induction false} ReplaceOnce(a: string, pat: string, rep: string, b: string)
    requires |pat| > 0 && !Contains(b, pat)
    requires forall j :: 0 <= j < |a| ==> !OccursAt(a + pat + b, pat, j)
    ensures Replace(a + pat + b, pat, rep) == a + rep + b
    decreases |a|
  {
    var s := a + pat + b;
    if |a| == 0 {
      assert s == pat + b && s[..|pat|] == pat && s[|pat|..] == b;
      ReplaceAbsent(b, pat, rep);
    } else {
      assert !OccursAt(s, pat, 0);
      assert s[1..] == a[1..] + pat + b;
      OccursShift(s, pat);
      ReplaceOnce(a[1..], pat, rep, b);
      assert [s[0]] + (a[1..] + rep + b) == a + rep + b;
    }
  }

  /** A pattern cannot start inside a text that lacks its first character. */
  lemma NoEarlierOccurrence(a: string, pat: string, b: string)
    requires |pat| > 0 && pat[0] !in a
    ensures forall j :: 0 <= j < |a| ==> !OccursAt(a + pat + b, pat, j)
  {
    forall j | 0 <= j < |a| ensures !OccursAt(a + pat + b, pat, j) {
      if j + |pat| <= |a + pat + b| {
        assert (a + pat + b)[j..j + |pat|][0] == a[j];
      }
    }
  }

  /** `replace` on a text whose only occurrence follows a prefix lacking the
      pattern's first character. */
  lemma ReplaceFreePrefix(a: string, pat: string, rep: string, b: string)
    requires |pat| > 0 && pat[0] !in a && !Contains(b, pat)
    ensures Replace(a + pat + b, pat, rep) == a + rep + b
  {
    NoEarlierOccurrence(a, pat, b);
    ReplaceOnce(a, pat, rep, b);
  }

  /** Replacing a pattern that does not occur leaves the text as it is. */
  lemma {:induction false} ReplaceAbsent(s: string, pat: string, rep: string)
    requires |pat| > 0 && !Contains(s, pat)
    ensures Replace(s, pat, rep) == s
    decreases |s|
  {
    if |s| >= |pat| {
      assert !OccursAt(s, pat, 0);
      OccursShift(s, pat);
      ReplaceAbsent(s[1..], pat, rep);
    }
  }

  /** A string that contains a pattern also contains every piece of it. */
  lemma ContainsPiece(s: string, p: string, q: string)
    requires Contains(s, p) && Contains(p, q)
    ensures Contains(s, q)
  {
    var i :| 0 <= i <= |s| - |p| && OccursAt(s, p, i);
    var j :| 0 <= j <= |p| - |q| && OccursAt(p, q, j);
    forall k | 0 <= k < |q| ensures s[i + j + k] == q[k] {
      assert q[k] == p[j..j + |q|][k] == p[j + k];
      assert p[j + k] == s[i..i + |p|][j + k] == s[i + j + k];
    }
    assert s[i + j..i + j + |q|] == q;
    assert OccursAt(s, q, i + j);
  }

  /** `s.startswith(p)`. */
  predicate StartsWith(s: string, p: string) {
    |p| <= |s| && s[..|p|] == p
  }

  /** `s.endswith(p)`. */
  predicate EndsWith(s: string, p: string) {
    |p| <= |s| && s[|s| - |p|..] == p
  }

  lemma EndsWithAppend(a: string, b: string)
    ensures EndsWith(a + b, b)
  {
    assert (a + b)[|a + b| - |b|..] == b;
  }

  lemma StartsWithExtend(s: string, b: string, p: string)
    requires StartsWith(s, p)
    ensures StartsWith(s + b, p)
  {
    assert (s + b)[..|p|] == s[..|p|];
  }

  lemma EndsWithExtend(a: string, s: string, p: string)
    requires EndsWith(s, p)
    ensures EndsWith(a + s, p)
  {
    assert (a + s)[|a + s| - |p|..] == s[|s| - |p|..];
  }

  /** Two prefixes that differ at some position cannot both open a string. */
  lemma DifferentStarts(s: string, p: string, q: string, k: nat)
    requires StartsWith(s, p) && k < |p| && k < |q| && p[k] != q[k]
    ensures !StartsWith(s, q)
  {
    assert s[..|p|][k] == s[k];
  }

  lemma ContainsExtend(a: string, s: string, b: string, p: string)
    requires Contains(s, p)
    ensures Contains(a + s, p) && Contains(s + b, p)
  {
    var i :| 0 <= i <= |s| - |p| && OccursAt(s, p, i);
    assert (a + s)[|a| + i..|a| + i + |p|] == s[i..i + |p|];
    assert OccursAt(a + s, p, |a| + i);
    assert (s + b)[i..i + |p|] == s[i..i + |p|];
    assert OccursAt(s + b, p, i);
  }

  lemma ContainsPrefix(s: string, b: string)
    ensures Contains(s + b, s)
  {
    assert (s + b)[..|s|] == s;
    assert OccursAt(s + b, s, 0);
  }

  lemma ContainsAppend(a: string, b: string, c: string)
    ensures Contains(a + b + c, b)
  {
    assert (a + b + c)[|a|..|a| + |b|] == b;
    assert OccursAt(a + b + c, b, |a|);
  }

  function LowerChar(c: char): char {
    if 'A' <= c <= 'Z' then (c as int + 32) as char else c
  }

  /** `s.lower()` on ASCII letters. */
  function Lower(s: string): (r: string)
    ensures |r| == |s|
    ensures forall i :: 0 <= i < |s| ==> r[i] == LowerChar(s[i])
  {
    seq(|s|, i requires 0 <= i < |s| => LowerChar(s[i]))
  }

  function Digit(d: nat): char
    requires d < 10
  {
    "0123456789"[d]
  }

  /** `str(n)` for a natural number: its decimal digits, no leading zero. */
  function NatToString(n: nat): (r: string)
    ensures |r| >= 1
    ensures forall c :: c in r ==> '0' <= c <= '9'
  {
    if n < 10 then [Digit(n)] else NatToString(n / 10) + [Digit(n % 10)]
  }

  /** `str(i)` for a Python int. */
  function IntToString(i: int): string {
    if i < 0 then "-" + NatToString(-i) else NatToString(i)
  }

  /** `str(b)` for a Python bool. */
  function BoolToString(b: bool): string {
    if b then "True" else "False"
  }

  /** Python's `s[:n]` for any int `n`: a negative bound counts from the end. */
  function Take<T>(s: seq<T>, n: int): (r: seq<T>)
    ensures |r| <= |s| && r == s[..|r|]
    ensures n >= 0 ==> |r| == if n < |s| then n else |s|
    ensures n < 0 ==> |r| == if |s| + n > 0 then |s| + n else 0
  {
    if n >= 0 then (if n < |s| then s[..n] else s)
    else (if |s| + n > 0 then s[..|s| + n] else [])
  }

  /** The last component of a '/'-separated path (`Path.name`). */
  function Basename(p: string): (r: string)
    ensures '/' !in r
    ensures EndsWith(p, r)
    decreases |p|
  {
    if |p| == 0 || p[|p| - 1] == '/' then []
    else
      var r := Basename(p[..|p| - 1]) + [p[|p| - 1]];
      assert p[|p| - |r|..] == p[..|p| - 1][|p| - 1 - (|r| - 1)..] + [p[|p| - 1]];
      r
  }
}

/**
 * The string operations of Rust's standard library that the core relies on:
 * `str::split` on a character, `join`, `str::find`, `str::replace`,
 * `String::replace_range`, `str::split_whitespace`, `str::trim`, decimal
 * formatting of integers and `u16::from_str`.
 *
 * Strings are sequences of characters; Rust indexes strings by bytes, which
 * coincides with character positions for the ASCII text the core handles.
 */
module Strings {
  import opened Wrappers

  type String = seq<char>

  /** ASCII white space; Rust's `char::is_whitespace` also accepts the other Unicode spaces. */
  predicate IsWhitespace(c: char) {
    c == ' ' || c == '\t' || c == '\n' || c == '\r' || c == '\U{000B}' || c == '\U{000C}'
  }

  predicate NoWhitespace(s: String) {
    forall i :: 0 <= i < |s| ==> !IsWhitespace(s[i])
  }

  // ---------------------------------------------------------------------------
  // split and join on a single separator character

  /** `s.split(sep).collect::<Vec<_>>()`: always at least one piece, and no piece holds `sep`. */
  function Split(s: String, sep: char): (pieces: seq<String>)
    ensures |pieces| >= 1
    ensures forall k :: 0 <= k < |pieces| ==> sep !in pieces[k]
    ensures sep !in s ==> pieces == [s]
  {
    if |s| == 0 then [""]
    else if s[0] == sep then [""] + Split(s[1..], sep)
    else
      var rest := Split(s[1..], sep);
      assert sep !in s ==> sep !in s[1..] && s == [s[0]] + s[1..];
      [[s[0]] + rest[0]] + rest[1..]
  }

  /** `pieces.join(sep)` */
  function Join(pieces: seq<String>, sep: char): String {
    if |pieces| == 0 then ""
    else if |pieces| == 1 then pieces[0]
    else pieces[0] + [sep] + Join(pieces[1..], sep)
  }

  /** Joining the pieces of a split gives back the string that was split. */
  lemma {:induction false} JoinSplit(s: String, sep: char)
    ensures Join(Split(s, sep), sep) == s
  {
    if |s| > 0 {
      JoinSplit(s[1..], sep);
      JoinSplitStep(s, sep);
    }
  }

  /** The step of `JoinSplit`: a split that joins back for `s[1..]` does so for `s`. */
  lemma JoinSplitStep(s: String, sep: char)
    requires |s| > 0 && Join(Split(s[1..], sep), sep) == s[1..]
    ensures Join(Split(s, sep), sep) == s
  {
    var rest := Split(s[1..], sep);
    if s[0] == sep {
      assert Split(s, sep) == [""] + rest;
      JoinEmptyHead(rest, sep);
    } else {
      assert Split(s, sep) == [[s[0]] + rest[0]] + rest[1..];
      JoinConsHead(s[0], rest, sep);
    }
    assert s == [s[0]] + s[1..];
  }

  /** An empty first piece contributes only its separator. */
  lemma JoinEmptyHead(rest: seq<String>, sep: char)
    requires |rest| >= 1
    ensures Join([""] + rest, sep) == [sep] + Join(rest, sep)
  {
    assert ([""] + rest)[1..] == rest;
  }

  /** A character put before the first piece comes first in the join. */
  lemma JoinConsHead(c: char, rest: seq<String>, sep: char)
    requires |rest| >= 1
    ensures Join([[c] + rest[0]] + rest[1..], sep) == [c] + Join(rest, sep)
  {
    var pieces := [[c] + rest[0]] + rest[1..];
    assert pieces[1..] == rest[1..];
  }

  /** Splitting a join of separator-free pieces gives back the pieces. */
  lemma {:induction false} SplitJoin(pieces: seq<String>, sep: char)
    requires |pieces| >= 1
    requires forall k :: 0 <= k < |pieces| ==> sep !in pieces[k]
    ensures Split(Join(pieces, sep), sep) == pieces
  {
    if |pieces| == 1 {
    } else {
      SplitJoin(pieces[1..], sep);
      SplitPrefix(pieces[0], Join(pieces[1..], sep), sep);
      assert Join(pieces, sep) == pieces[0] + [sep] + Join(pieces[1..], sep);
      assert pieces == [pieces[0]] + pieces[1..];
    }
  }

  /** Joining two non-empty lists of pieces puts one separator between their joins. */
  lemma {:induction false} JoinConcat(a: seq<String>, b: seq<String>, sep: char)
    requires |a| >= 1 && |b| >= 1
    ensures Join(a + b, sep) == Join(a, sep) + [sep] + Join(b, sep)
  {
    if |a| == 1 {
      assert (a + b)[1..] == b;
    } else {
      JoinConcat(a[1..], b, sep);
      assert (a + b)[1..] == a[1..] + b;
    }
  }

  /** A separator-free prefix followed by the separator forms the first piece. */
  lemma {:induction false} SplitPrefix(a: String, b: String, sep: char)
    requires sep !in a
    ensures Split(a + [sep] + b, sep) == [a] + Split(b, sep)
  {
    if |a| == 0 {
      assert a + [sep] + b == [sep] + b;
      assert ([sep] + b)[1..] == b;
    } else {
      SplitPrefix(a[1..], b, sep);
      SplitFirstChar(a, b, sep);
    }
  }

  /** The step of `SplitPrefix`: a first character other than the separator starts the first piece. */
  lemma SplitFirstChar(a: String, b: String, sep: char)
    requires |a| > 0 && a[0] != sep
    requires Split(a[1..] + [sep] + b, sep) == [a[1..]] + Split(b, sep)
    ensures Split(a + [sep] + b, sep) == [a] + Split(b, sep)
  {
    var s := a + [sep] + b;
    assert s[1..] == a[1..] + [sep] + b;
    assert [s[0]] + a[1..] == a;
  }

  // ---------------------------------------------------------------------------
  // find, replace and replace_range

  /** `t` occurs in `s` at position `i`. */
  predicate OccursAt(s: String, t: String, i: int) {
    0 <= i && i + |t| <= |s| && s[i..i + |t|] == t
  }

  /** `s[from..].find(t)`, as a position in `s`: the first occurrence at or after `from`. */
  function FindFrom(s: String, t: String, from: nat): (r: Option<nat>)
    requires from <= |s|
    ensures r.Some? ==> from <= r.value <= |s| && OccursAt(s, t, r.value)
    ensures r.Some? ==> forall j :: from <= j < r.value ==> !OccursAt(s, t, j)
    ensures r.None? ==> forall j :: from <= j <= |s| ==> !OccursAt(s, t, j)
    decreases |s| - from
  {
    if OccursAt(s, t, from) then Some(from)
    else if from == |s| then None
    else FindFrom(s, t, from + 1)
  }

  /** `s.find(t)`: the first occurrence of `t` in `s`. */
  function Find(s: String, t: String): (r: Option<nat>)
    ensures r.Some? ==> OccursAt(s, t, r.value) && forall j :: 0 <= j < r.value ==> !OccursAt(s, t, j)
    ensures r.None? ==> forall j :: 0 <= j <= |s| ==> !OccursAt(s, t, j)
  {
    FindFrom(s, t, 0)
  }

  /** `s.replace(from, to)`: every non-overlapping occurrence, left to right, is replaced. */
  function ReplaceAll(s: String, from: String, to: String): (r: String)
    ensures Find(s, from).None? ==> r == s
    decreases |s|, 1
  {
    if |from| == 0 then InterleaveEmpty(s, to)
    else match Find(s, from)
      case None => s
      case Some(k) => ReplaceAt(s, from, to, k)
  }

  /** The replacement once an occurrence of `from` is known at `k`: the text before it, `to`,
      and the replacement of what follows it. */
  function ReplaceAt(s: String, from: String, to: String, k: nat): String
    requires |from| > 0 && k + |from| <= |s|
    decreases |s|, 0
  {
    s[..k] + to + ReplaceAll(s[k + |from|..], from, to)
  }

  /** The first occurrence of `from` becomes `to`, and what comes before it stays as it was. */
  lemma ReplacesFirst(s: String, from: String, to: String)
    requires |from| > 0 && Find(s, from).Some?
    ensures OccursAt(ReplaceAll(s, from, to), to, Find(s, from).value)
    ensures ReplaceAll(s, from, to)[..Find(s, from).value] == s[..Find(s, from).value]
  {
    ReplaceFirst(s, from, to);
    var head := s[..Find(s, from).value] + to;
    var rest := ReplaceAll(s[Find(s, from).value + |from|..], from, to);
    assert (head + rest)[..Find(s, from).value] == s[..Find(s, from).value];
    assert (head + rest)[Find(s, from).value..Find(s, from).value + |to|] == to;
  }

  /** With an occurrence of `from`, the replacement is the text before the first one, `to`, and
      the replacement of what follows it. */
  lemma ReplaceFirst(s: String, from: String, to: String)
    requires |from| > 0 && Find(s, from).Some?
    ensures ReplaceAll(s, from, to)
      == s[..Find(s, from).value] + to + ReplaceAll(s[Find(s, from).value + |from|..], from, to)
  {
  }

  /** An occurrence in a suffix of `s` is an occurrence in `s`, shifted by where the suffix starts. */
  lemma OccursInSuffix(s: String, t: String, e: nat, p: nat)
    requires e <= |s|
    ensures OccursAt(s[e..], t, p) <==> OccursAt(s, t, p + e)
  {
    if p + |t| <= |s| - e {
      assert s[e..][p..p + |t|] == s[p + e..p + e + |t|];
    }
  }

  /** An occurrence in a part of a concatenation is an occurrence in the whole. */
  lemma OccursInConcat(a: String, b: String, t: String, i: nat)
    ensures OccursAt(a, t, i) ==> OccursAt(a + b, t, i)
    ensures OccursAt(b, t, i) ==> OccursAt(a + b, t, |a| + i)
  {
    if OccursAt(a, t, i) {
      assert (a + b)[i..i + |t|] == a[i..i + |t|];
    }
    if OccursAt(b, t, i) {
      assert (a + b)[|a| + i..|a| + i + |t|] == b[i..i + |t|];
    }
  }

  /** No occurrence of `from` in `s` ends strictly inside the occurrence of `t` at `i`. */
  predicate NoneEndsInside(s: String, from: String, t: String, i: int) {
    forall p :: OccursAt(s, from, p) ==> !(i < p + |from| < i + |t|)
  }

  /** Replacing `from` by `from + suffix` only inserts `suffix` after each occurrence it replaces,
      so an occurrence of `t` inside which no occurrence of `from` ends is still there afterwards. */
  lemma {:induction false} InsertionKeeps(s: String, from: String, suffix: String, t: String, i: nat) returns (j: nat)
    requires |from| > 0 && OccursAt(s, t, i) && NoneEndsInside(s, from, t, i)
    ensures OccursAt(ReplaceAll(s, from, from + suffix), t, j)
    decreases |s|, 1
  {
    var found, k := ReplaceCases(s, from, from + suffix);
    if !found {
      j := i;
    } else {
      j := KeptAroundFirst(s, from, suffix, t, i, k, ReplaceAll(s, from, from + suffix));
    }
  }

  /** Either `from` does not occur and nothing is replaced, or it occurs at some `k` and the
      replacement is the text before `k`, `to`, and the replacement of what follows. */
  lemma ReplaceCases(s: String, from: String, to: String) returns (found: bool, k: nat)
    requires |from| > 0
    ensures !found ==> ReplaceAll(s, from, to) == s
    ensures found ==> OccursAt(s, from, k) && ReplaceAll(s, from, to) == ReplaceAt(s, from, to, k)
    ensures !found ==> Absent(s, from)
    ensures found ==> NoneStartsBefore(s, from, k)
  {
    found := Find(s, from).Some?;
    if found {
      k := Find(s, from).value;
    } else {
      k := 0;
    }
  }

  /** The step of `InsertionKeeps` at an occurrence of `from` at `k`: the occurrence of `t` is
      either before its end or wholly after it. */
  lemma {:induction false} KeptAroundFirst(s: String, from: String, suffix: String, t: String, i: nat, k: nat,
                                          r: String) returns (j: nat)
    requires |from| > 0 && OccursAt(s, t, i) && NoneEndsInside(s, from, t, i) && OccursAt(s, from, k)
    requires r == s[..k] + (from + suffix) + ReplaceAll(s[k + |from|..], from, from + suffix)
    ensures OccursAt(r, t, j)
    decreases |s|, 0
  {
    if i + |t| <= k + |from| {
      KeptBeforeFirst(s, from, suffix, ReplaceAll(s[k + |from|..], from, from + suffix), t, i, k);
      j := i;
    } else {
      HypothesisInTail(s, from, t, i, k + |from|);
      var j' := InsertionKeeps(s[k + |from|..], from, suffix, t, i - (k + |from|));
      OccursInConcat(s[..k] + (from + suffix), ReplaceAll(s[k + |from|..], from, from + suffix), t, j');
      j := |s[..k] + (from + suffix)| + j';
    }
  }

  /** An occurrence that ends by the end of the first replaced `from` is still there. */
  lemma KeptBeforeFirst(s: String, from: String, suffix: String, rest: String, t: String, i: nat, k: nat)
    requires OccursAt(s, t, i) && OccursAt(s, from, k) && i + |t| <= k + |from|
    ensures OccursAt(s[..k] + (from + suffix) + rest, t, i)
  {
    var e := k + |from|;
    var head := s[..k] + (from + suffix);
    assert head == s[..e] + suffix by {
      assert s[..e] == s[..k] + from by {
        assert s[k..e] == from;
      }
    }
    assert s[..e][i..i + |t|] == s[i..i + |t|];
    OccursInConcat(s[..e], suffix, t, i);
    OccursInConcat(head, rest, t, i);
  }

  /** The condition of `InsertionKeeps` for an occurrence at or after `e` carries over to the
      text from `e` on. */
  lemma HypothesisInTail(s: String, from: String, t: String, i: nat, e: nat)
    requires e <= i && OccursAt(s, t, i) && NoneEndsInside(s, from, t, i)
    ensures OccursAt(s[e..], t, i - e) && NoneEndsInside(s[e..], from, t, i - e)
  {
    OccursInSuffix(s, t, e, i - e);
    forall p: nat | OccursAt(s[e..], from, p) ensures !(i - e < p + |from| < i - e + |t|) {
      OccursInSuffix(s, from, e, p);
    }
  }

  /** `t` does not occur in `s`. */
  ghost predicate Absent(s: String, t: String) {
    forall p :: !OccursAt(s, t, p)
  }

  /** No occurrence of `t` in `s` starts before position `n`. */
  predicate NoneStartsBefore(s: String, t: String, n: int) {
    forall p :: 0 <= p < n ==> !OccursAt(s, t, p)
  }

  /** A character of an occurrence is the character of what occurs. */
  lemma OccurrenceChar(s: String, t: String, p: nat, x: nat)
    requires OccursAt(s, t, p) && x < |t|
    ensures s[p + x] == t[x]
  {
    assert s[p..p + |t|][x] == t[x];
  }

  /** Two strings that agree on their first `n` characters have the same occurrences there. */
  lemma SamePrefixOccurs(a: String, b: String, n: nat, t: String, j: nat)
    requires n <= |a| && n <= |b| && a[..n] == b[..n] && j + |t| <= n
    ensures OccursAt(a, t, j) <==> OccursAt(b, t, j)
  {
    assert a[j..j + |t|] == a[..n][j..j + |t|];
    assert b[j..j + |t|] == b[..n][j..j + |t|];
  }

  // ---------------------------------------------------------------------------
  // replace as cutting at the leftmost occurrences

  /** The pieces with `sep` between consecutive ones. */
  function JoinOn(pieces: seq<String>, sep: String): String {
    if |pieces| == 0 then ""
    else if |pieces| == 1 then pieces[0]
    else pieces[0] + sep + JoinOn(pieces[1..], sep)
  }

  /** `pieces` cut their join with `from` at the leftmost non-overlapping occurrences of `from`:
      none starts inside a piece read with the `from` after it, and none occurs in the last. */
  ghost predicate LeftmostPieces(pieces: seq<String>, from: String) {
    && |pieces| > 0
    && (forall k :: 0 <= k < |pieces| - 1 ==> NoneStartsBefore(pieces[k] + from, from, |pieces[k]|))
    && Absent(pieces[|pieces| - 1], from)
  }

  /** `r` is `s` cut at the leftmost non-overlapping occurrences of `from`, with the pieces in
      their order and unchanged, joined with `to` instead. */
  ghost predicate ReplacedPieces(s: String, from: String, to: String, r: String) {
    exists pieces :: LeftmostPieces(pieces, from) && JoinOn(pieces, from) == s && JoinOn(pieces, to) == r
  }

  /** `s.replace(from, to)` keeps the text between the occurrences it replaces: it is `s` cut at
      the leftmost occurrences of `from`, joined with `to`. */
  lemma {:induction false} ReplaceAllPieces(s: String, from: String, to: String) returns (pieces: seq<String>)
    requires |from| > 0
    ensures LeftmostPieces(pieces, from) && JoinOn(pieces, from) == s && JoinOn(pieces, to) == ReplaceAll(s, from, to)
    decreases |s|
  {
    var found, k := ReplaceCases(s, from, to);
    if !found {
      pieces := [s];
    } else {
      var tail := ReplaceAllPieces(s[k + |from|..], from, to);
      FirstPiece(s, from, k);
      pieces := [s[..k]] + tail;
      assert pieces[1..] == tail;
    }
  }

  /** The text before the first occurrence, followed by it, holds no earlier occurrence. */
  lemma FirstPiece(s: String, from: String, k: nat)
    requires OccursAt(s, from, k) && NoneStartsBefore(s, from, k)
    ensures s == s[..k] + from + s[k + |from|..]
    ensures NoneStartsBefore(s[..k] + from, from, k)
  {
    assert s[..k] + from == s[..k + |from|] by {
      assert s[k..k + |from|] == from;
    }
    forall p: nat | p < k ensures !OccursAt(s[..k] + from, from, p) {
      SamePrefixOccurs(s[..k] + from, s, k + |from|, from, p);
    }
  }

  /** Only one way of cutting a string at the leftmost occurrences exists. */
  lemma {:induction false} PiecesUnique(p: seq<String>, q: seq<String>, from: String)
    requires |from| > 0 && LeftmostPieces(p, from) && LeftmostPieces(q, from) && JoinOn(p, from) == JoinOn(q, from)
    ensures p == q
    decreases |p|
  {
    if |p| == 1 && |q| > 1 {
      CutOccurs(q, from);
      assert false;
    } else if |q| == 1 && |p| > 1 {
      CutOccurs(p, from);
      assert false;
    } else if |p| > 1 {
      var s := JoinOn(p, from);
      CutOccurs(p, from);
      CutOccurs(q, from);
      if |p[0]| < |q[0]| {
        HeadOccurrence(q[0], from, JoinOn(q[1..], from), |p[0]|);
        assert false;
      } else if |q[0]| < |p[0]| {
        HeadOccurrence(p[0], from, JoinOn(p[1..], from), |q[0]|);
        assert false;
      } else {
        assert p[0] == s[..|p[0]|] == q[0];
        assert JoinOn(p[1..], from) == s[|p[0]| + |from|..] == JoinOn(q[1..], from);
        PiecesUnique(p[1..], q[1..], from);
        assert p == [p[0]] + p[1..];
        assert q == [q[0]] + q[1..];
      }
    }
  }

  /** Where a cut with more than one piece puts its first `from`. */
  lemma CutOccurs(p: seq<String>, from: String)
    requires |p| > 1
    ensures JoinOn(p, from) == p[0] + from + JoinOn(p[1..], from)
    ensures OccursAt(JoinOn(p, from), from, |p[0]|)
  {
    OccursInConcat(p[0], from, from, 0);
    OccursInConcat(p[0] + from, JoinOn(p[1..], from), from, |p[0]|);
  }

  /** An occurrence starting inside the head `a` of `a + from + b` lies in `a + from`. */
  lemma HeadOccurrence(a: String, from: String, b: String, i: nat)
    requires i < |a|
    ensures OccursAt(a + from + b, from, i) ==> OccursAt(a + from, from, i)
  {
    SamePrefixOccurs(a + from + b, a + from, |a| + |from|, from, i);
  }

  /** The cut determines the replacement: whatever satisfies `ReplacedPieces` is
      `s.replace(from, to)`. */
  lemma ReplacedPiecesIsReplaceAll(s: String, from: String, to: String, r: String)
    requires |from| > 0 && ReplacedPieces(s, from, to, r)
    ensures r == ReplaceAll(s, from, to)
  {
    var pieces :| LeftmostPieces(pieces, from) && JoinOn(pieces, from) == s && JoinOn(pieces, to) == r;
    var own := ReplaceAllPieces(s, from, to);
    PiecesUnique(pieces, own, from);
  }

  // ---------------------------------------------------------------------------
  // replace as tagging every occurrence

  /** Every occurrence of `t` in `s` is followed by `tag`. */
  ghost predicate Tagged(s: String, t: String, tag: String) {
    forall j :: OccursAt(s, t, j) ==> OccursAt(s, t + tag, j)
  }

  /** `c` ends `t` and occurs nowhere else in it. */
  predicate EndsOnlyIn(t: String, c: char) {
    |t| > 0 && t[|t| - 1] == c && forall x :: 0 <= x < |t| - 1 ==> t[x] != c
  }

  /** `a` and `b` agree wherever both have a character. */
  predicate Agree(a: String, b: String) {
    forall x :: 0 <= x < |a| && x < |b| ==> a[x] == b[x]
  }

  /** No tail of `u` agrees with `t`, so no occurrence of `t` can start inside `u`. */
  predicate NoTailStarts(u: String, t: String) {
    forall d :: 0 <= d < |u| ==> !Agree(u[d..], t)
  }

  /** No occurrence of `from` ends strictly inside any occurrence of `w`. */
  ghost predicate NoneEndsInsideAny(s: String, from: String, w: String) {
    forall i :: OccursAt(s, w, i) ==> NoneEndsInside(s, from, w, i)
  }

  /** A character that only ends `t` cannot stand before the end of an occurrence of `t`. */
  lemma NotBeforeEnd(r: String, t: String, c: char, j: nat, q: nat)
    requires EndsOnlyIn(t, c) && j <= q < j + |t| - 1 && q < |r| && r[q] == c
    ensures !OccursAt(r, t, j)
  {
    assert t[q - j] != c;
    if j + |t| <= |r| {
      assert r[j..j + |t|][q - j] == r[q];
    }
  }

  /** No occurrence of `t` starts inside an occurrence of `u` none of whose tails agrees with `t`. */
  lemma NotInside(r: String, u: String, e: nat, t: String, j: nat)
    requires OccursAt(r, u, e) && NoTailStarts(u, t) && e <= j < e + |u|
    ensures !OccursAt(r, t, j)
  {
    var d := j - e;
    assert !Agree(u[d..], t);
    var x :| 0 <= x < |u[d..]| && x < |t| && u[d..][x] != t[x];
    OccurrenceChar(r, u, e, d + x);
    if j + |t| <= |r| {
      assert r[j..j + |t|][x] == r[j + x];
    }
  }

  /** The shape of a replacement at its first occurrence `k`: the text before `k` as it was,
      `from` and `suffix` after it, and the replacement of the rest at the end. */
  lemma InsertedLayout(s: String, from: String, suffix: String, k: nat, rest: String)
    requires k <= |s|
    ensures var r := s[..k] + (from + suffix) + rest;
      && r[..k] == s[..k] && OccursAt(r, from, k) && OccursAt(r, from + suffix, k)
      && OccursAt(r, suffix, k + |from|) && r[k + |from| + |suffix|..] == rest
  {
    var head := s[..k] + (from + suffix);
    OccursInConcat(s[..k], from + suffix, from + suffix, 0);
    OccursInConcat(head, rest, from + suffix, k);
    OccursInConcat(s[..k], from + suffix, from, 0) by {
      assert (from + suffix)[..|from|] == from;
    }
    assert OccursAt(head + rest, from, k) by {
      assert (head + rest)[k..k + |from|] == (head + rest)[k..k + |from| + |suffix|][..|from|];
    }
    assert OccursAt(head + rest, suffix, k + |from|) by {
      assert (head + rest)[k + |from|..k + |from| + |suffix|] == (head + rest)[k..k + |from| + |suffix|][|from|..];
    }
  }

  /** After `s.replace(from, from + suffix)` every occurrence of `from` carries `suffix`, when the
      last character of `from` occurs nowhere else in it and no occurrence of `from` can start
      inside `suffix`: no new occurrence can form across the inserted text. */
  lemma {:induction false} ReplaceTagsAll(s: String, from: String, suffix: String)
    requires |from| > 0 && EndsOnlyIn(from, from[|from| - 1]) && NoTailStarts(suffix, from)
    ensures Tagged(ReplaceAll(s, from, from + suffix), from, suffix)
    decreases |s|
  {
    var found, k := ReplaceCases(s, from, from + suffix);
    if found {
      var rest := ReplaceAll(s[k + |from|..], from, from + suffix);
      ReplaceTagsAll(s[k + |from|..], from, suffix);
      TaggedAtFirst(s, from, suffix, k, rest);
    }
  }

  /** The step of `ReplaceTagsAll` at the first occurrence `k`. */
  lemma TaggedAtFirst(s: String, from: String, suffix: String, k: nat, rest: String)
    requires |from| > 0 && EndsOnlyIn(from, from[|from| - 1]) && NoTailStarts(suffix, from)
    requires OccursAt(s, from, k) && NoneStartsBefore(s, from, k) && Tagged(rest, from, suffix)
    ensures Tagged(s[..k] + (from + suffix) + rest, from, suffix)
  {
    var r := s[..k] + (from + suffix) + rest;
    var e := k + |from| + |suffix|;
    InsertedLayout(s, from, suffix, k, rest);
    forall j: nat | OccursAt(r, from, j) ensures OccursAt(r, from + suffix, j) {
      if j < e && j != k {
        NoneNearFirst(s, from, suffix, k, rest, j);
        assert false;
      } else if j >= e {
        OccursInSuffix(r, from, e, j - e);
        OccursInSuffix(r, from + suffix, e, j - e);
      }
    }
  }

  /** Around the first replaced occurrence `k`, `from` occurs only at `k` itself. */
  lemma NoneNearFirst(s: String, from: String, suffix: String, k: nat, rest: String, j: nat)
    requires |from| > 0 && EndsOnlyIn(from, from[|from| - 1]) && NoTailStarts(suffix, from)
    requires OccursAt(s, from, k) && NoneStartsBefore(s, from, k)
    requires j < k + |from| + |suffix| && j != k
    ensures !OccursAt(s[..k] + (from + suffix) + rest, from, j)
  {
    var r := s[..k] + (from + suffix) + rest;
    var e := k + |from|;
    InsertedLayout(s, from, suffix, k, rest);
    if j < k {
      if j + |from| <= k {
        SamePrefixOccurs(r, s, k, from, j);
      } else if OccursAt(r, from, j) {
        assert false;
      }
    } else if j < e {
      OccurrenceChar(r, from, k, |from| - 1);
      NotBeforeEnd(r, from, from[|from| - 1], j, e - 1);
    } else {
      NotInside(r, suffix, e, from, j);
    }
  }

  /** Replacing `from` by `from + suffix` keeps every occurrence of `t` followed by `tag`, when
      `from` ends in the character `c` that only ends `t`, no occurrence of `t` can start inside
      `suffix`, and no occurrence of `from` ends inside a tagged `t`. */
  lemma {:induction false} ReplaceKeepsTagged(s: String, from: String, suffix: String, t: String, tag: String, c: char)
    requires |from| > 0 && from[|from| - 1] == c && EndsOnlyIn(t, c) && NoTailStarts(suffix, t)
    requires Tagged(s, t, tag) && NoneEndsInsideAny(s, from, t + tag)
    ensures Tagged(ReplaceAll(s, from, from + suffix), t, tag)
    decreases |s|
  {
    var found, k := ReplaceCases(s, from, from + suffix);
    if found {
      var e := k + |from|;
      TaggedInTail(s, from, t, tag, e);
      var rest := ReplaceAll(s[e..], from, from + suffix);
      ReplaceKeepsTagged(s[e..], from, suffix, t, tag, c);
      KeptTaggedAtFirst(s, from, suffix, t, tag, c, k, rest);
    }
  }

  /** The conditions of `ReplaceKeepsTagged` carry over to the text from `e` on. */
  lemma TaggedInTail(s: String, from: String, t: String, tag: String, e: nat)
    requires e <= |s| && Tagged(s, t, tag) && NoneEndsInsideAny(s, from, t + tag)
    ensures Tagged(s[e..], t, tag) && NoneEndsInsideAny(s[e..], from, t + tag)
  {
    forall j: nat | OccursAt(s[e..], t, j) ensures OccursAt(s[e..], t + tag, j) {
      OccursInSuffix(s, t, e, j);
      OccursInSuffix(s, t + tag, e, j);
    }
    forall i: nat | OccursAt(s[e..], t + tag, i) ensures NoneEndsInside(s[e..], from, t + tag, i) {
      OccursInSuffix(s, t + tag, e, i);
      HypothesisInTail(s, from, t + tag, i + e, e);
    }
  }

  /** The step of `ReplaceKeepsTagged` at the first occurrence `k`. */
  lemma KeptTaggedAtFirst(s: String, from: String, suffix: String, t: String, tag: String, c: char, k: nat, rest: String)
    requires |from| > 0 && from[|from| - 1] == c && EndsOnlyIn(t, c) && NoTailStarts(suffix, t)
    requires Tagged(s, t, tag) && NoneEndsInsideAny(s, from, t + tag)
    requires OccursAt(s, from, k) && Tagged(rest, t, tag)
    ensures Tagged(s[..k] + (from + suffix) + rest, t, tag)
  {
    var r := s[..k] + (from + suffix) + rest;
    var e := k + |from|;
    InsertedLayout(s, from, suffix, k, rest);
    assert r[..e] == s[..e] by {
      assert r[..e] == r[..k + |from| + |suffix|][..e];
      assert s[..e] == s[..k] + from by {
        assert s[k..e] == from;
      }
    }
    forall j: nat | OccursAt(r, t, j) ensures OccursAt(r, t + tag, j) {
      if j + |t| <= e {
        SamePrefixOccurs(r, s, e, t, j);
        if j + |t + tag| <= e {
          SamePrefixOccurs(r, s, e, t + tag, j);
        } else {
          assert false;
        }
      } else if j < e {
        OccurrenceChar(r, from, k, |from| - 1);
        NotBeforeEnd(r, t, c, j, e - 1);
        assert false;
      } else if j < e + |suffix| {
        NotInside(r, suffix, e, t, j);
        assert false;
      } else {
        OccursInSuffix(r, t, e + |suffix|, j - (e + |suffix|));
        OccursInSuffix(r, t + tag, e + |suffix|, j - (e + |suffix|));
      }
    }
  }

  /** `s.replace("", to)` puts `to` before every character and at the end. */
  function InterleaveEmpty(s: String, to: String): (r: String)
    ensures |r| == |s| + (|s| + 1) * |to|
  {
    if |s| == 0 then to else to + [s[0]] + InterleaveEmpty(s[1..], to)
  }

  /** `s.replace_range(a..b, t)` */
  function ReplaceRange(s: String, a: nat, b: nat, t: String): (r: String)
    requires a <= b <= |s|
    ensures |r| == |s| - (b - a) + |t|
    ensures r[..a] == s[..a] && r[a..a + |t|] == t && r[a + |t|..] == s[b..]
  {
    s[..a] + t + s[b..]
  }

  // ---------------------------------------------------------------------------
  // white space

  /** The longest prefix of `s` without white space. */
  function Word(s: String): (w: String)
    ensures w <= s && NoWhitespace(w)
    ensures |w| < |s| ==> IsWhitespace(s[|w|])
  {
    if |s| == 0 || IsWhitespace(s[0]) then "" else [s[0]] + Word(s[1..])
  }

  /** `s.split_whitespace()`: the maximal runs of non-white-space characters, in order. */
  function SplitWhitespace(s: String): (words: seq<String>)
    ensures forall k :: 0 <= k < |words| ==> words[k] != "" && NoWhitespace(words[k])
    decreases |s|
  {
    if |s| == 0 then []
    else if IsWhitespace(s[0]) then SplitWhitespace(s[1..])
    else
      var w := Word(s);
      [w] + SplitWhitespace(s[|w|..])
  }

  /** Words separated by single spaces. */
  function JoinSpaces(words: seq<String>): String {
    Join(words, ' ')
  }

  lemma {:induction false} WordOfWordThenSpace(w: String, rest: String)
    requires NoWhitespace(w) && w != ""
    ensures Word(w + [' '] + rest) == w
  {
    if |w| == 1 {
      assert (w + [' '] + rest)[1..] == [' '] + rest;
    } else {
      WordOfWordThenSpace(w[1..], rest);
      assert (w + [' '] + rest)[1..] == w[1..] + [' '] + rest;
      assert w == [w[0]] + w[1..];
    }
  }

  lemma {:induction false} WordOfWord(w: String)
    requires NoWhitespace(w)
    ensures Word(w) == w
  {
    if |w| > 0 {
      WordOfWord(w[1..]);
      assert w == [w[0]] + w[1..];
    }
  }

  /** Splitting words joined by spaces on white space gives back the words. */
  lemma {:induction false} SplitWhitespaceJoinSpaces(words: seq<String>)
    requires forall k :: 0 <= k < |words| ==> words[k] != "" && NoWhitespace(words[k])
    ensures SplitWhitespace(JoinSpaces(words)) == words
  {
    if |words| == 0 {
    } else if |words| == 1 {
      var w := words[0];
      WordOfWord(w);
      assert JoinSpaces(words) == w;
      assert w[|w|..] == "";
    } else {
      var w := words[0];
      var rest := JoinSpaces(words[1..]);
      var s := w + [' '] + rest;
      assert JoinSpaces(words) == s;
      WordOfWordThenSpace(w, rest);
      assert s[|w|..] == [' '] + rest;
      assert SplitWhitespace(s[|w|..]) == SplitWhitespace(rest) by {
        assert ([' '] + rest)[1..] == rest;
      }
      SplitWhitespaceJoinSpaces(words[1..]);
      assert words == [w] + words[1..];
    }
  }

  /** `s.trim()`: leading and trailing white space removed. */
  function Trim(s: String): (r: String)
    ensures |r| == 0 || (!IsWhitespace(r[0]) && !IsWhitespace(r[|r| - 1]))
  {
    TrimEnd(TrimStart(s))
  }

  /** The suffix of `s` after its leading white space. */
  function TrimStart(s: String): (r: String)
    ensures |r| <= |s| && r == s[|s| - |r|..]
    ensures |r| == 0 || !IsWhitespace(r[0])
    ensures forall i :: 0 <= i < |s| - |r| ==> IsWhitespace(s[i])
  {
    if |s| > 0 && IsWhitespace(s[0]) then TrimStart(s[1..]) else s
  }

  /** The prefix of `s` before its trailing white space. */
  function TrimEnd(s: String): (r: String)
    ensures |r| <= |s| && r == s[..|r|]
    ensures |r| == 0 || !IsWhitespace(r[|r| - 1])
    ensures forall i :: |r| <= i < |s| ==> IsWhitespace(s[i])
  {
    if |s| > 0 && IsWhitespace(s[|s| - 1]) then TrimEnd(s[..|s| - 1]) else s
  }

  // ---------------------------------------------------------------------------
  // decimal numbers

  predicate IsDigit(c: char) { '0' <= c <= '9' }

  function DigitChar(d: nat): char
    requires d < 10
  {
    ['0', '1', '2', '3', '4', '5', '6', '7', '8', '9'][d]
  }

  /** `n.to_string()` */
  function NatToString(n: nat): (s: String)
    ensures |s| >= 1 && forall i :: 0 <= i < |s| ==> IsDigit(s[i])
    ensures |s| > 1 ==> s[0] != '0'
  {
    if n < 10 then [DigitChar(n)] else NatToString(n / 10) + [DigitChar(n % 10)]
  }

  /** The value of a string of decimal digits. */
  function DigitsValue(s: String): nat
    requires forall i :: 0 <= i < |s| ==> IsDigit(s[i])
  {
    if |s| == 0 then 0
    else
      assert IsDigit(s[|s| - 1]);
      DigitsValue(s[..|s| - 1]) * 10 + (s[|s| - 1] as int - '0' as int)
  }

  /** `s.parse::<u16>()`: an optional `+`, then at least one digit, of value below 2^16. */
  function ParseU16(s: String): (r: Option<nat>)
    ensures r.Some? ==> r.value < 0x1_0000
  {
    var digits := if |s| > 0 && s[0] == '+' then s[1..] else s;
    if |digits| == 0 || !(forall i :: 0 <= i < |digits| ==> IsDigit(digits[i])) then None
    else if DigitsValue(digits) < 0x1_0000 then Some(DigitsValue(digits))
    else None
  }

  lemma {:induction false} DigitsValueOfNatToString(n: nat)
    ensures DigitsValue(NatToString(n)) == n
  {
    if n >= 10 {
      DigitsValueOfNatToString(n / 10);
      var s := NatToString(n);
      assert s[..|s| - 1] == NatToString(n / 10);
    }
  }

  /** Formatting a 16-bit port and parsing it back gives the same port. */
  lemma ParseU16OfNatToString(n: nat)
    requires n < 0x1_0000
    ensures ParseU16(NatToString(n)) == Some(n)
  {
    DigitsValueOfNatToString(n);
  }

  // ---------------------------------------------------------------------------
  // the order in which a hash set or the keys of a hash map are visited

  /** `names` lists every member of `s` exactly once. */
  predicate Enumerates(names: seq<String>, s: set<String>) {
    && (forall i :: 0 <= i < |names| ==> names[i] in s)
    && (forall x :: x in s ==> x in names)
    && (forall i, j :: 0 <= i < j < |names| ==> names[i] != names[j])
  }

  /** Every finite set of names can be listed. */
  lemma {:induction false} EnumerationExists(s: set<String>) returns (names: seq<String>)
    ensures Enumerates(names, s)
  {
    if s == {} {
      names := [];
    } else {
      var x :| x in s;
      var rest := EnumerationExists(s - {x});
      names := [x] + rest;
      assert forall i :: 1 <= i < |names| ==> names[i] == rest[i - 1];
    }
  }

  /** The order in which a hash set (or the keys of a hash map) is visited: every member once,
      in an unspecified order. */
  method IterationOrder(s: set<String>) returns (names: seq<String>)
    ensures Enumerates(names, s)
  {
    ghost var listed := EnumerationExists(s);
    names :| Enumerates(names, s);
  }
}

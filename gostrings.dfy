/** The parts of Go's `strings` package (and `unicode.IsSpace`) that the
    generator relies on, as functions over `seq<char>`.  Every function states
    the Go contract it stands for; the lemmas at the end are the facts the
    other modules use about them. */
module GoStrings {

  /** `unicode.IsSpace`: the Unicode White_Space characters. */
  predicate IsSpace(c: char) {
    c == ' ' || c == '\t' || c == '\n' || c == '\U{0B}' || c == '\U{0C}' || c == '\r'
    || c == '\U{85}' || c == '\U{A0}' || c == '\U{1680}'
    || ('\U{2000}' <= c <= '\U{200A}')
    || c == '\U{2028}' || c == '\U{2029}' || c == '\U{202F}' || c == '\U{205F}' || c == '\U{3000}'
  }

  predicate AllSpace(s: string) {
    forall i :: 0 <= i < |s| ==> IsSpace(s[i])
  }

  predicate NoSpace(s: string) {
    forall i :: 0 <= i < |s| ==> !IsSpace(s[i])
  }

  /** `strings.HasPrefix`. */
  predicate HasPrefix(s: string, prefix: string) {
    |prefix| <= |s| && s[..|prefix|] == prefix
  }

  /** `sep` occurs in `s` at position `i`. */
  predicate OccursAt(s: string, sep: string, i: int) {
    0 <= i && i + |sep| <= |s| && s[i..i + |sep|] == sep
  }

  /** `strings.Contains`. */
  predicate Contains(s: string, sub: string) {
    exists i | 0 <= i <= |s| - |sub| :: OccursAt(s, sub, i)
  }

  /** The end of the run of white space that starts at `i`. */
  function LeftSpaceEnd(s: string, i: nat): (k: nat)
    requires i <= |s|
    ensures i <= k <= |s| && (k == |s| || !IsSpace(s[k]))
    decreases |s| - i
  {
    if i < |s| && IsSpace(s[i]) then LeftSpaceEnd(s, i + 1) else i
  }

  /** Everything `LeftSpaceEnd` skips is white space. */
  lemma {:induction false} LeftSpaceRun(s: string, i: nat)
    requires i <= |s|
    ensures forall x :: i <= x < LeftSpaceEnd(s, i) ==> IsSpace(s[x])
    decreases |s| - i
  {
    if i < |s| && IsSpace(s[i]) {
      LeftSpaceRun(s, i + 1);
    }
  }

  /** The start of the run of white space that ends at `j`, not before
      `lo`. */
  function RightSpaceStart(s: string, lo: nat, j: nat): (k: nat)
    requires lo <= j <= |s|
    ensures lo <= k <= j && (k == lo || !IsSpace(s[k - 1]))
    ensures forall x :: k <= x < j ==> IsSpace(s[x])
    decreases j
  {
    if j > lo && IsSpace(s[j - 1]) then RightSpaceStart(s, lo, j - 1) else j
  }

  /** `strings.TrimSpace`: the slice of `s` between its leading and its
      trailing white space. */
  function TrimSpace(s: string): (r: string)
    ensures exists i, j :: 0 <= i <= j <= |s| && r == s[i..j] && AllSpace(s[..i]) && AllSpace(s[j..])
    ensures r == [] || (!IsSpace(r[0]) && !IsSpace(r[|r| - 1]))
  {
    var i := LeftSpaceEnd(s, 0);
    var j := RightSpaceStart(s, i, |s|);
    LeftSpaceRun(s, 0);
    assert AllSpace(s[..i]) && AllSpace(s[j..]);
    s[i..j]
  }

  /** `strings.TrimRight(s, " ")`: only the space character is trimmed. */
  function TrimRightSpaces(s: string): (r: string)
    ensures |r| <= |s| && r == s[..|r|]
    ensures forall i :: |r| <= i < |s| ==> s[i] == ' '
    ensures r == [] || r[|r| - 1] != ' '
    decreases |s|
  {
    if s != [] && s[|s| - 1] == ' ' then TrimRightSpaces(s[..|s| - 1]) else s
  }

  /** `strings.Index` for a non-empty separator: the first position at which
      `sep` occurs at or after `from`, or -1. */
  function IndexFrom(s: string, sep: string, from: nat): (r: int)
    requires |sep| > 0
    ensures r == -1 || (from <= r && OccursAt(s, sep, r))
    ensures forall i :: from <= i && (r == -1 || i < r) ==> !OccursAt(s, sep, i)
    decreases |s| - from
  {
    if from + |sep| > |s| then -1
    else if s[from..from + |sep|] == sep then from
    else IndexFrom(s, sep, from + 1)
  }

  function Index(s: string, sep: string): (r: int)
    requires |sep| > 0
    ensures r == -1 <==> forall i :: !OccursAt(s, sep, i)
    ensures r != -1 ==> OccursAt(s, sep, r) && forall i :: 0 <= i < r ==> !OccursAt(s, sep, i)
  {
    IndexFrom(s, sep, 0)
  }

  /** `strings.Split` for a non-empty separator: the pieces between the
      non-overlapping occurrences of `sep`, scanning from the left. */
  function Split(s: string, sep: string): (r: seq<string>)
    requires |sep| > 0
    ensures |r| >= 1
  {
    SplitFrom(s, sep, 0)
  }

  /** The pieces of `s[from..]`. */
  function SplitFrom(s: string, sep: string, from: nat): (r: seq<string>)
    requires |sep| > 0 && from <= |s|
    ensures |r| >= 1
    decreases |s| - from
  {
    var i := IndexFrom(s, sep, from);
    if i < 0 then [s[from..]] else [s[from..i]] + SplitFrom(s, sep, i + |sep|)
  }

  /** `strings.Join`. */
  function Join(xs: seq<string>, sep: string): string
    decreases |xs|
  {
    if |xs| == 0 then ""
    else if |xs| == 1 then xs[0]
    else Join(xs[..|xs| - 1], sep) + sep + xs[|xs| - 1]
  }

  /** The end of the run of non-space characters that starts at `i`. */
  function WordEnd(s: string, i: nat): (k: nat)
    requires i <= |s|
    ensures i <= k <= |s| && (k == |s| || IsSpace(s[k]))
    decreases |s| - i
  {
    if i < |s| && !IsSpace(s[i]) then WordEnd(s, i + 1) else i
  }

  /** Everything `WordEnd` passes over is a non-space character. */
  lemma {:induction false} WordRun(s: string, i: nat)
    requires i <= |s|
    ensures forall x :: i <= x < WordEnd(s, i) ==> !IsSpace(s[x])
    decreases |s| - i
  {
    if i < |s| && !IsSpace(s[i]) {
      WordRun(s, i + 1);
    }
  }

  /** `strings.Fields`: the maximal runs of non-space characters. There
      are none exactly when `s` is all white space, and written one after
      the other they are `s` with its white space removed. */
  function Fields(s: string): (ws: seq<string>)
    ensures forall k :: 0 <= k < |ws| ==> ws[k] != [] && NoSpace(ws[k])
    ensures ws == [] <==> AllSpace(s)
    ensures ConcatFrom(ws, 0) == NonSpaceFrom(s, 0)
  {
    WordsFromAreWords(s, 0);
    WordsFromKeepNonSpace(s, 0);
    WordsFrom(s, 0)
  }

  /** The maximal runs of non-space characters of `s[i..]`. */
  function WordsFrom(s: string, i: nat): seq<string>
    requires i <= |s|
    decreases |s| - i
  {
    var a := LeftSpaceEnd(s, i);
    if a == |s| then []
    else
      var b := WordEnd(s, a);
      [s[a..b]] + WordsFrom(s, b)
  }

  /** Every run `WordsFrom` finds is a non-empty run of non-space
      characters. */
  lemma {:induction false} WordsFromAreWords(s: string, i: nat)
    requires i <= |s|
    ensures forall k :: 0 <= k < |WordsFrom(s, i)| ==> WordsFrom(s, i)[k] != [] && NoSpace(WordsFrom(s, i)[k])
    decreases |s| - i
  {
    var a := LeftSpaceEnd(s, i);
    if a < |s| {
      var b := WordEnd(s, a);
      WordRun(s, a);
      WordsFromAreWords(s, b);
      var tail := WordsFrom(s, b);
      var ws := WordsFrom(s, i);
      assert ws == [s[a..b]] + tail;
      forall k | 0 <= k < |ws| ensures ws[k] != [] && NoSpace(ws[k]) {
        if k > 0 {
          assert ws[k] == tail[k - 1];
        }
      }
    }
  }

  /** The non-space characters of `s[i..]`, in order. */
  function NonSpaceFrom(s: string, i: nat): string
    requires i <= |s|
    decreases |s| - i
  {
    if i == |s| then [] else (if IsSpace(s[i]) then [] else [s[i]]) + NonSpaceFrom(s, i + 1)
  }

  /** The words `ws[k..]` written one after the other. */
  function ConcatFrom(ws: seq<string>, k: nat): string
    requires k <= |ws|
    decreases |ws| - k
  {
    if k == |ws| then [] else ws[k] + ConcatFrom(ws, k + 1)
  }

  /** The words of `s[i..]`: none exactly when the rest is white space,
      and together the rest's non-space characters. */
  lemma {:induction false} WordsFromKeepNonSpace(s: string, i: nat)
    requires i <= |s|
    ensures WordsFrom(s, i) == [] <==> forall x :: i <= x < |s| ==> IsSpace(s[x])
    ensures ConcatFrom(WordsFrom(s, i), 0) == NonSpaceFrom(s, i)
    decreases |s| - i
  {
    var a := LeftSpaceEnd(s, i);
    LeftSpaceRun(s, i);
    NonSpaceOfSpaces(s, i, a);
    if a < |s| {
      var b := WordEnd(s, a);
      WordRun(s, a);
      NonSpaceOfWord(s, a, b);
      WordsFromKeepNonSpace(s, b);
      ConcatFromCons(s[a..b], WordsFrom(s, b), 0);
    }
  }

  /** A run of white space contributes no character. */
  lemma {:induction false} NonSpaceOfSpaces(s: string, i: nat, j: nat)
    requires i <= j <= |s|
    requires forall x :: i <= x < j ==> IsSpace(s[x])
    ensures NonSpaceFrom(s, i) == NonSpaceFrom(s, j)
    decreases j - i
  {
    if i < j {
      NonSpaceOfSpaces(s, i + 1, j);
    }
  }

  /** A run of non-space characters contributes itself. */
  lemma {:induction false} NonSpaceOfWord(s: string, i: nat, j: nat)
    requires i <= j <= |s|
    requires forall x :: i <= x < j ==> !IsSpace(s[x])
    ensures NonSpaceFrom(s, i) == s[i..j] + NonSpaceFrom(s, j)
    decreases j - i
  {
    if i < j {
      NonSpaceOfWord(s, i + 1, j);
      assert !IsSpace(s[i]);
      assert NonSpaceFrom(s, i) == [s[i]] + NonSpaceFrom(s, i + 1);
      calc {
        s[i..j] + NonSpaceFrom(s, j);
        { assert s[i..j] == [s[i]] + s[i + 1..j]; }
        [s[i]] + s[i + 1..j] + NonSpaceFrom(s, j);
        [s[i]] + (s[i + 1..j] + NonSpaceFrom(s, j));
      }
    }
  }

  /** Putting a word in front shifts the positions by one. */
  lemma {:induction false} ConcatFromCons(w: string, ws: seq<string>, k: nat)
    requires k <= |ws|
    ensures ConcatFrom([w] + ws, k + 1) == ConcatFrom(ws, k)
    decreases |ws| - k
  {
    if k < |ws| {
      assert ([w] + ws)[k + 1] == ws[k];
      ConcatFromCons(w, ws, k + 1);
    }
  }

  // ---------------------------------------------------------------------
  // Facts about the functions above.

  /** A join of more than one piece is its first piece, the separator and
      the join of the rest. */
  lemma {:induction false} JoinCons(x: string, xs: seq<string>, sep: string)
    requires |xs| > 0
    ensures Join([x] + xs, sep) == x + sep + Join(xs, sep)
    decreases |xs|
  {
    var ys := [x] + xs;
    if |xs| == 1 {
      assert ys[..1] == [x];
    } else {
      var n := |xs| - 1;
      assert ys[..|ys| - 1] == [x] + xs[..n];
      JoinCons(x, xs[..n], sep);
    }
  }

  /** A join of several pieces starts with the first and the separator. */
  lemma JoinFirst(xs: seq<string>, sep: string)
    requires |xs| >= 2
    ensures Join(xs, sep) == xs[0] + sep + Join(xs[1..], sep)
  {
    assert xs == [xs[0]] + xs[1..];
    JoinCons(xs[0], xs[1..], sep);
  }

  /** Appending one more piece to a join. */
  lemma JoinSnoc(xs: seq<string>, x: string, sep: string)
    requires |xs| > 0
    ensures Join(xs + [x], sep) == Join(xs, sep) + sep + x
  {
    assert (xs + [x])[..|xs|] == xs;
  }

  /** Splitting and re-joining gives the string back. */
  lemma JoinSplit(s: string, sep: string)
    requires |sep| > 0
    ensures Join(Split(s, sep), sep) == s
  {
    JoinSplitFrom(s, sep, 0);
  }

  lemma {:induction false} JoinSplitFrom(s: string, sep: string, from: nat)
    requires |sep| > 0 && from <= |s|
    ensures Join(SplitFrom(s, sep, from), sep) == s[from..]
    decreases |s| - from
  {
    var i := IndexFrom(s, sep, from);
    if i >= 0 {
      var next := i + |sep|;
      JoinSplitFrom(s, sep, next);
      var tail := SplitFrom(s, sep, next);
      assert SplitFrom(s, sep, from) == [s[from..i]] + tail;
      JoinCons(s[from..i], tail, sep);
      SliceThree(s, from, i, next);
    }
  }

  /** A suffix is the concatenation of its three consecutive slices. */
  lemma SliceThree(s: string, a: nat, b: nat, c: nat)
    requires a <= b <= c <= |s|
    ensures s[a..] == s[a..b] + s[b..c] + s[c..]
  {
  }

  /** Joining on a one-character separator that no piece contains and
      splitting again gives the pieces back. */
  lemma SplitJoin(xs: seq<string>, sep: string)
    requires |sep| == 1 && |xs| >= 1
    requires forall k :: 0 <= k < |xs| ==> sep[0] !in xs[k]
    ensures Split(Join(xs, sep), sep) == xs
  {
    SplitFromJoin(Join(xs, sep), sep, 0, xs);
  }

  lemma {:induction false} SplitFromJoin(s: string, sep: string, from: nat, xs: seq<string>)
    requires |sep| == 1 && |xs| >= 1 && from <= |s| && s[from..] == Join(xs, sep)
    requires forall k :: 0 <= k < |xs| ==> sep[0] !in xs[k]
    ensures SplitFrom(s, sep, from) == xs
    decreases |xs|
  {
    if |xs| == 1 {
      SplitFromLast(s, sep, from, xs[0]);
    } else {
      var w, rest := xs[0], xs[1..];
      assert xs == [w] + rest;
      forall k | 0 <= k < |rest| ensures sep[0] !in rest[k] {
        assert rest[k] == xs[k + 1];
      }
      SplitFromJoinStep(s, sep, from, w, rest);
      SplitFromJoin(s, sep, from + |w| + 1, rest);
    }
  }

  /** The first piece of a join of several pieces. */
  lemma SplitFromJoinStep(s: string, sep: string, from: nat, w: string, rest: seq<string>)
    requires |sep| == 1 && |rest| >= 1 && from <= |s| && s[from..] == Join([w] + rest, sep) && sep[0] !in w
    ensures from + |w| + 1 <= |s| && s[from + |w| + 1..] == Join(rest, sep)
    ensures SplitFrom(s, sep, from) == [w] + SplitFrom(s, sep, from + |w| + 1)
  {
    JoinCons(w, rest, sep);
    SplitFromFirst(s, sep, from, w, Join(rest, sep));
  }

  /** The last piece: no separator follows it. */
  lemma SplitFromLast(s: string, sep: string, from: nat, w: string)
    requires |sep| == 1 && from <= |s| && s[from..] == w && sep[0] !in w
    ensures SplitFrom(s, sep, from) == [w]
  {
    assert s[from..from + |w|] == w;
    NoSeparatorInPiece(s, sep, from, w);
    NoOccurrenceBefore(s, sep, from, |s|);
  }

  /** A piece followed by the separator. */
  lemma SplitFromFirst(s: string, sep: string, from: nat, w: string, u: string)
    requires |sep| == 1 && from <= |s| && s[from..] == w + sep + u && sep[0] !in w
    ensures from + |w| + 1 <= |s| && s[from + |w| + 1..] == u
    ensures SplitFrom(s, sep, from) == [w] + SplitFrom(s, sep, from + |w| + 1)
  {
    FirstPiece(s, sep, from, w, u);
    FirstOccurrence(s, sep, from, from + |w|);
    SplitFromAt(s, sep, from, from + |w|);
  }

  /** The pieces of `s[from..]` when `sep` first occurs at `p`. */
  lemma SplitFromAt(s: string, sep: string, from: nat, p: nat)
    requires |sep| > 0 && from <= |s| && IndexFrom(s, sep, from) == p
    ensures p + |sep| <= |s|
    ensures SplitFrom(s, sep, from) == [s[from..p]] + SplitFrom(s, sep, p + |sep|)
  {
  }

  /** Where the first piece and the separator after it lie. */
  lemma FirstPiece(s: string, sep: string, from: nat, w: string, u: string)
    requires |sep| == 1 && from <= |s| && s[from..] == w + sep + u && sep[0] !in w
    ensures from + |w| + 1 <= |s| && s[from + |w| + 1..] == u && s[from..from + |w|] == w
    ensures OccursAt(s, sep, from + |w|) && forall x :: from <= x < from + |w| ==> s[x] != sep[0]
  {
    var n := |w|;
    var t := s[from..];
    assert t[..n] == w;
    assert s[from..from + n] == t[..n];
    NoSeparatorInPiece(s, sep, from, w);
    assert t[n] == sep[0];
    assert s[from + n..from + n + 1] == sep;
    assert t[n + 1..] == u;
  }

  /** The first occurrence of a one-character separator. */
  lemma FirstOccurrence(s: string, sep: string, from: nat, p: nat)
    requires |sep| == 1 && from <= p && OccursAt(s, sep, p)
    requires forall x :: from <= x < p ==> s[x] != sep[0]
    ensures IndexFrom(s, sep, from) == p
  {
    NoOccurrenceBefore(s, sep, from, p);
  }

  /** A one-character separator occurs nowhere its character is absent. */
  lemma NoOccurrenceBefore(s: string, sep: string, from: nat, p: nat)
    requires |sep| == 1 && p <= |s|
    requires forall x :: from <= x < p ==> s[x] != sep[0]
    ensures forall x :: from <= x < p ==> !OccursAt(s, sep, x)
  {
    forall x | from <= x < p ensures !OccursAt(s, sep, x) {
      assert s[x] != sep[0];
      if x + 1 <= |s| {
        assert s[x..x + 1][0] == s[x];
      }
    }
  }

  /** The characters of a piece that lacks `sep[0]`. */
  lemma NoSeparatorInPiece(s: string, sep: string, from: nat, w: string)
    requires |sep| > 0 && from + |w| <= |s| && s[from..from + |w|] == w && sep[0] !in w
    ensures forall x :: from <= x < from + |w| ==> s[x] != sep[0]
  {
    forall x | from <= x < from + |w| ensures s[x] != sep[0] {
      assert s[x] == w[x - from];
    }
  }

  /** No piece of a split contains the separator. */
  lemma SplitPiecesLackSeparator(s: string, sep: string)
    requires |sep| > 0
    ensures forall k, j :: 0 <= k < |Split(s, sep)| ==> !OccursAt(Split(s, sep)[k], sep, j)
  {
    SplitFromPiecesLackSeparator(s, sep, 0);
  }

  lemma {:induction false} SplitFromPiecesLackSeparator(s: string, sep: string, from: nat)
    requires |sep| > 0 && from <= |s|
    ensures forall k, j :: 0 <= k < |SplitFrom(s, sep, from)| ==> !OccursAt(SplitFrom(s, sep, from)[k], sep, j)
    decreases |s| - from
  {
    var i := IndexFrom(s, sep, from);
    var end := if i < 0 then |s| else i;
    SliceLacksSeparator(s, sep, from, end);
    if i >= 0 {
      SplitFromAt(s, sep, from, i);
      SplitFromPiecesLackSeparator(s, sep, i + |sep|);
      PiecesConsLackSeparator(s[from..end], SplitFrom(s, sep, i + |sep|), sep);
    } else {
      SplitFromNone(s, sep, from);
    }
  }

  /** The pieces of `s[from..]` when `sep` does not occur there. */
  lemma SplitFromNone(s: string, sep: string, from: nat)
    requires |sep| > 0 && from <= |s| && IndexFrom(s, sep, from) < 0
    ensures SplitFrom(s, sep, from) == [s[from..|s|]]
  {
    assert s[from..] == s[from..|s|];
  }

  /** A slice of `s` over which `sep` never starts does not contain it. */
  lemma SliceLacksSeparator(s: string, sep: string, from: nat, end: nat)
    requires |sep| > 0 && from <= end <= |s|
    requires forall x :: from <= x < end ==> !OccursAt(s, sep, x)
    ensures forall j :: !OccursAt(s[from..end], sep, j)
  {
    forall j | 0 <= j && j + |sep| <= end - from
      ensures !OccursAt(s[from..end], sep, j)
    {
      SliceOfSlice(s, from, end, j, j + |sep|);
      assert !OccursAt(s, sep, from + j);
    }
  }

  /** A slice of a slice is a slice of the whole. */
  lemma SliceOfSlice(s: string, a: nat, b: nat, c: nat, d: nat)
    requires a <= b <= |s| && c <= d <= b - a
    ensures s[a..b][c..d] == s[a + c..a + d]
  {
    var t := s[a..b];
    forall m | 0 <= m < d - c ensures t[c..d][m] == s[a + c..a + d][m] {
      assert t[c + m] == s[a + c + m];
    }
  }

  /** Pieces without the separator stay so with one more in front. */
  lemma PiecesConsLackSeparator(piece: string, tail: seq<string>, sep: string)
    requires forall j :: !OccursAt(piece, sep, j)
    requires forall k, j :: 0 <= k < |tail| ==> !OccursAt(tail[k], sep, j)
    ensures forall k, j :: 0 <= k < |[piece] + tail| ==> !OccursAt(([piece] + tail)[k], sep, j)
  {
    var r := [piece] + tail;
    forall k, j | 0 <= k < |r| ensures !OccursAt(r[k], sep, j) {
      if k > 0 {
        assert r[k] == tail[k - 1];
      }
    }
  }

  /** A string already without leading and trailing white space is its own
      trim. */
  lemma TrimSpaceOfTrimmed(s: string)
    requires s == [] || (!IsSpace(s[0]) && !IsSpace(s[|s| - 1]))
    ensures TrimSpace(s) == s
  {
    if s != [] {
      assert LeftSpaceEnd(s, 0) == 0;
      assert RightSpaceStart(s, 0, |s|) == |s|;
    }
    assert s[0..|s|] == s;
  }

  /** Trimming is idempotent. */
  lemma TrimSpaceIdempotent(s: string)
    ensures TrimSpace(TrimSpace(s)) == TrimSpace(s)
  {
    TrimSpaceOfTrimmed(TrimSpace(s));
  }

  /** Joining a word list with single spaces preserves the words. */
  lemma FieldsOfJoin(ws: seq<string>)
    requires forall k :: 0 <= k < |ws| ==> ws[k] != [] && NoSpace(ws[k])
    ensures Fields(Join(ws, " ")) == ws
  {
    var s := Join(ws, " ");
    assert s[0..] == s;
    WordsOfJoin(s, 0, ws);
  }

  lemma {:induction false} WordsOfJoin(s: string, i: nat, ws: seq<string>)
    requires i <= |s| && s[i..] == Join(ws, " ")
    requires forall k :: 0 <= k < |ws| ==> ws[k] != [] && NoSpace(ws[k])
    ensures WordsFrom(s, i) == ws
    decreases |ws|
  {
    if |ws| < 2 {
      WordsOfShortJoin(s, i, ws);
    } else {
      WordsOfJoinStep(s, i, ws);
      WordsOfJoin(s, i + |ws[0]| + 1, ws[1..]);
    }
  }

  /** No word or one word. */
  lemma WordsOfShortJoin(s: string, i: nat, ws: seq<string>)
    requires |ws| < 2 && i <= |s| && s[i..] == Join(ws, " ")
    requires forall k :: 0 <= k < |ws| ==> ws[k] != [] && NoSpace(ws[k])
    ensures WordsFrom(s, i) == ws
  {
    if |ws| == 0 {
      WordsOfEmpty(s, i);
    } else {
      WordsOfLastWord(s, i, ws[0]);
      assert ws == [ws[0]];
    }
  }

  /** The step of the induction: the rest of the join, and how the words of
      the whole follow from the words of the rest. */
  lemma WordsOfJoinStep(s: string, i: nat, ws: seq<string>)
    requires |ws| >= 2 && i <= |s| && s[i..] == Join(ws, " ")
    requires forall k :: 0 <= k < |ws| ==> ws[k] != [] && NoSpace(ws[k])
    ensures i + |ws[0]| + 1 <= |s| && s[i + |ws[0]| + 1..] == Join(ws[1..], " ")
    ensures forall k :: 0 <= k < |ws[1..]| ==> ws[1..][k] != [] && NoSpace(ws[1..][k])
    ensures WordsFrom(s, i + |ws[0]| + 1) == ws[1..] ==> WordsFrom(s, i) == ws
  {
    TailWords(ws);
    WordsOfFirstWord(s, i, ws);
    WordsCons(s, i, ws);
  }

  lemma WordsCons(s: string, i: nat, ws: seq<string>)
    requires |ws| >= 1 && i + |ws[0]| + 1 <= |s|
    requires WordsFrom(s, i) == [ws[0]] + WordsFrom(s, i + |ws[0]| + 1)
    ensures WordsFrom(s, i + |ws[0]| + 1) == ws[1..] ==> WordsFrom(s, i) == ws
  {
    assert ws == [ws[0]] + ws[1..];
  }

  /** Nothing is left: no words. */
  lemma WordsOfEmpty(s: string, i: nat)
    requires i <= |s| && s[i..] == []
    ensures WordsFrom(s, i) == []
  {
    assert LeftSpaceEnd(s, i) == |s|;
  }

  /** The words after the first of a word list are words. */
  lemma TailWords(ws: seq<string>)
    requires |ws| >= 1 && forall k :: 0 <= k < |ws| ==> ws[k] != [] && NoSpace(ws[k])
    ensures forall k :: 0 <= k < |ws[1..]| ==> ws[1..][k] != [] && NoSpace(ws[1..][k])
  {
    forall k | 0 <= k < |ws[1..]| ensures ws[1..][k] != [] && NoSpace(ws[1..][k]) {
      assert ws[1..][k] == ws[k + 1];
    }
  }

  /** The first word of a join of several words. */
  lemma WordsOfFirstWord(s: string, i: nat, ws: seq<string>)
    requires |ws| >= 2 && i <= |s| && s[i..] == Join(ws, " ") && ws[0] != [] && NoSpace(ws[0])
    ensures i + |ws[0]| + 1 <= |s| && s[i + |ws[0]| + 1..] == Join(ws[1..], " ")
    ensures WordsFrom(s, i) == [ws[0]] + WordsFrom(s, i + |ws[0]| + 1)
  {
    JoinFirst(ws, " ");
    WordsOfWordThenSpace(s, i, ws[0], Join(ws[1..], " "));
  }

  /** The first word of `s[i..]`, when it is `w` followed by the end. */
  lemma WordsOfLastWord(s: string, i: nat, w: string)
    requires i <= |s| && s[i..] == w && w != [] && NoSpace(w)
    ensures WordsFrom(s, i) == [w]
  {
    assert s[i..i + |w|] == w;
    WordStart(s, i, w);
    assert WordsFrom(s, i + |w|) == [];
  }

  /** The first word of `s[i..]`, when it is `w` followed by a space. */
  lemma WordsOfWordThenSpace(s: string, i: nat, w: string, u: string)
    requires i <= |s| && s[i..] == w + " " + u && w != [] && NoSpace(w)
    ensures i + |w| + 1 <= |s| && s[i + |w| + 1..] == u
    ensures WordsFrom(s, i) == [w] + WordsFrom(s, i + |w| + 1)
  {
    WordThenSpaceAt(s, i, w, u);
    WordsAfterWord(s, i, w);
  }

  /** A word at `i` followed by a space is the first word from `i`. */
  lemma WordsAfterWord(s: string, i: nat, w: string)
    requires i + |w| < |s| && s[i..i + |w|] == w && s[i + |w|] == ' ' && w != [] && NoSpace(w)
    ensures WordsFrom(s, i) == [w] + WordsFrom(s, i + |w| + 1)
  {
    WordStart(s, i, w);
    WordsAfterRun(s, i, i + |w|);
  }

  /** A word from `i` to `b` followed by white space. */
  lemma WordsAfterRun(s: string, i: nat, b: nat)
    requires i < b < |s| && LeftSpaceEnd(s, i) == i && WordEnd(s, i) == b && IsSpace(s[b])
    ensures WordsFrom(s, i) == [s[i..b]] + WordsFrom(s, b + 1)
  {
    WordsSkipSpace(s, b);
    WordsFromAt(s, i, b);
  }

  /** Where the word and the space after it lie. */
  lemma WordThenSpaceAt(s: string, i: nat, w: string, u: string)
    requires i <= |s| && s[i..] == w + " " + u
    ensures i + |w| + 1 <= |s| && s[i + |w| + 1..] == u
    ensures s[i..i + |w|] == w && s[i + |w|] == ' '
  {
    var n := |w|;
    var t := s[i..];
    assert t[..n] == w;
    assert s[i..i + n] == t[..n];
    assert s[i + n] == t[n] == ' ';
    assert t[n + 1..] == u;
    assert s[i + n + 1..] == t[n + 1..];
  }

  /** The words from `i` when a word starts at `i` and ends at `b`. */
  lemma WordsFromAt(s: string, i: nat, b: nat)
    requires i < |s| && LeftSpaceEnd(s, i) == i && WordEnd(s, i) == b
    ensures WordsFrom(s, i) == [s[i..b]] + WordsFrom(s, b)
  {
  }

  /** A word `w` at `i`, followed by a space or the end, is the first
      word from `i`. */
  lemma WordStart(s: string, i: nat, w: string)
    requires i + |w| <= |s| && s[i..i + |w|] == w && w != [] && NoSpace(w)
    requires i + |w| == |s| || IsSpace(s[i + |w|])
    ensures LeftSpaceEnd(s, i) == i && WordEnd(s, i) == i + |w|
  {
    forall x | i <= x < i + |w| ensures !IsSpace(s[x]) {
      assert s[x] == w[x - i];
    }
    WordEndOfRun(s, i, |w|);
  }

  /** A run of `n` non-space characters followed by a space or the end is
      one word. */
  lemma {:induction false} WordEndOfRun(s: string, i: nat, n: nat)
    requires i + n <= |s| && (i + n == |s| || IsSpace(s[i + n]))
    requires forall x :: i <= x < i + n ==> !IsSpace(s[x])
    ensures WordEnd(s, i) == i + n
    decreases n
  {
    if n > 0 {
      WordEndOfRun(s, i + 1, n - 1);
    }
  }

  /** Leading white space does not change the words. */
  lemma WordsSkipSpace(s: string, j: nat)
    requires j < |s| && IsSpace(s[j])
    ensures WordsFrom(s, j) == WordsFrom(s, j + 1)
  {
    assert LeftSpaceEnd(s, j) == LeftSpaceEnd(s, j + 1);
  }

  /** The only white space in `s` is single spaces between other
      characters: no newline, no leading, trailing or doubled space. */
  predicate SingleSpaced(s: string) {
    forall i :: 0 <= i < |s| && IsSpace(s[i]) ==>
      s[i] == ' ' && 0 < i < |s| - 1 && s[i - 1] != ' ' && s[i + 1] != ' '
  }

  /** A word list joined with single spaces is single-spaced. */
  lemma {:induction false} JoinedWordsShape(ws: seq<string>)
    requires forall k :: 0 <= k < |ws| ==> ws[k] != [] && NoSpace(ws[k])
    ensures SingleSpaced(Join(ws, " "))
  {
    if |ws| > 1 {
      JoinedWordsShape(ws[1..]);
      var w := ws[0];
      var rest := Join(ws[1..], " ");
      assert SingleSpaced(rest);
      var s := w + " " + rest;
      assert ws == [w] + ws[1..];
      JoinCons(w, ws[1..], " ");
      assert Join(ws, " ") == s;
      assert rest != [] && !IsSpace(rest[0]) by { JoinedNonEmpty(ws[1..]); }
      forall i | 0 <= i < |s| && IsSpace(s[i])
        ensures s[i] == ' ' && 0 < i < |s| - 1 && s[i - 1] != ' ' && s[i + 1] != ' '
      {
        if i < |w| {
          assert false;
        } else if i == |w| {
          assert s[i - 1] == w[|w| - 1];
          assert s[i + 1] == rest[0];
        } else {
          var j := i - |w| - 1;
          assert s[i] == rest[j];
          assert 0 <= j < |rest| && IsSpace(rest[j]);
          assert rest[j] == ' ' && 0 < j < |rest| - 1 && rest[j - 1] != ' ' && rest[j + 1] != ' ';
          assert s[i - 1] == rest[j - 1];
          assert s[i + 1] == rest[j + 1];
        }
      }
    }
  }

  lemma {:induction false} JoinedNonEmpty(ws: seq<string>)
    requires |ws| > 0
    requires forall k :: 0 <= k < |ws| ==> ws[k] != [] && NoSpace(ws[k])
    ensures Join(ws, " ") != [] && !IsSpace(Join(ws, " ")[0])
    ensures !IsSpace(Join(ws, " ")[|Join(ws, " ")| - 1])
  {
    if |ws| > 1 {
      JoinedNonEmpty(ws[1..]);
      var rest := Join(ws[1..], " ");
      assert ws == [ws[0]] + ws[1..];
      JoinCons(ws[0], ws[1..], " ");
      assert Join(ws, " ") == ws[0] + " " + rest;
    }
  }
}

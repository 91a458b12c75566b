/** The Python string operations the pipeline relies on: `in`, `find`,
    `split`, `join`, slicing `[:n]`, `lower()` and `strip()`. */
module Text {
  import opened Results

  function Min(a: int, b: int): int { if a <= b then a else b }
  function Max(a: int, b: int): int { if a <= b then b else a }

  /** `p` occurs in `s` starting at index `i`. */
  predicate MatchesAt(s: string, p: string, i: nat) {
    i + |p| <= |s| && s[i..i + |p|] == p
  }

  /** Python's `p in s` on strings. */
  predicate Contains(s: string, p: string) {
    exists i: nat :: i <= |s| && MatchesAt(s, p, i)
  }

  /** `s.find(p, from)`, with None for Python's -1. */
  function FindFrom(s: string, p: string, from: nat): (r: Option<nat>)
    ensures r.Some? ==> from <= r.value && MatchesAt(s, p, r.value)
    ensures forall j: nat :: from <= j && (r.None? || j < r.value) ==> !MatchesAt(s, p, j)
    decreases |s| - from
  {
    if from + |p| > |s| then None
    else if s[from..from + |p|] == p then Some(from)
    else FindFrom(s, p, from + 1)
  }

  /** `s.find(p)`: the first index at which `p` occurs. */
  function Find(s: string, p: string): (r: Option<nat>)
    ensures r.Some? <==> Contains(s, p)
    ensures r.Some? ==> MatchesAt(s, p, r.value)
    ensures r.Some? ==> forall j: nat :: j < r.value ==> !MatchesAt(s, p, j)
  {
    var r := FindFrom(s, p, 0);
    if r.None? then
      assert !Contains(s, p) by {
        forall j: nat ensures !MatchesAt(s, p, j) { }
      }
      r
    else
      r
  }

  /** Python's `s.split(sep)` for a non-empty separator: the pieces between
      the non-overlapping occurrences of `sep`, scanned left to right. */
  function Split(s: string, sep: string): (r: seq<string>)
    requires sep != []
    ensures |r| >= 1
    ensures |r| >= 2 <==> Contains(s, sep)
    ensures |r| == 1 ==> r[0] == s
    ensures |r| >= 2 ==> Find(s, sep) == Some(|r[0]|) && r[0] == s[..|r[0]|]
    decreases |s|
  {
    match Find(s, sep)
    case None => [s]
    case Some(k) => [s[..k]] + Split(s[k + |sep|..], sep)
  }

  /** The second piece of a split is the first piece of what follows the
      first separator. */
  lemma SplitSecond(s: string, sep: string)
    requires sep != [] && Contains(s, sep)
    ensures Find(s, sep).Some?
    ensures Split(s, sep)[1] == Split(s[Find(s, sep).value + |sep|..], sep)[0]
  {
  }

  /** A pattern at the very start is found at index 0. */
  lemma FindAtStart(s: string, p: string)
    requires MatchesAt(s, p, 0)
    ensures Find(s, p) == Some(0)
  {
  }

  /** The first piece of a split ends at the first occurrence. */
  lemma SplitHead(s: string, sep: string, k: nat)
    requires sep != [] && Find(s, sep) == Some(k)
    ensures |Split(s, sep)| >= 2 && Split(s, sep)[0] == s[..k]
  {
  }

  /** The text before the first occurrence of `p` does not contain `p`. */
  lemma PrefixBeforeFirstFree(s: string, p: string, k: nat)
    requires p != [] && Find(s, p) == Some(k)
    ensures !Contains(s[..k], p)
  {
    forall j: nat | j <= k
      ensures !MatchesAt(s[..k], p, j)
    {
      assert |s[..k]| == k;
      if j + |p| <= k {
        assert !MatchesAt(s, p, j);
        assert s[..k][j..j + |p|] == s[j..j + |p|];
      }
    }
  }

  /** A piece produced by `split` never contains the separator. */
  lemma {:induction false} SplitPiecesFree(s: string, sep: string, i: nat)
    requires sep != [] && i < |Split(s, sep)|
    ensures !Contains(Split(s, sep)[i], sep)
    decreases |s|
  {
    var f := Find(s, sep);
    if f.Some? {
      var k := f.value;
      var rest := s[k + |sep|..];
      assert Split(s, sep) == [s[..k]] + Split(rest, sep);
      if i == 0 {
        PrefixBeforeFirstFree(s, sep, k);
      } else {
        SplitPiecesFree(rest, sep, i - 1);
      }
    }
  }

  /** Python's `sep.join(items)`. */
  function Join(sep: string, items: seq<string>): (r: string)
    ensures |items| == 0 ==> r == []
    ensures |items| == 1 ==> r == items[0]
  {
    if |items| == 0 then []
    else if |items| == 1 then items[0]
    else items[0] + sep + Join(sep, items[1..])
  }

  /** Where `items[i]` starts inside `Join(sep, items)`. */
  function JoinOffset(sep: string, items: seq<string>, i: nat): nat
    requires i <= |items|
  {
    if i == 0 then 0 else |items[0]| + |sep| + JoinOffset(sep, items[1..], i - 1)
  }

  /** Each item occurs in the joined string at its offset. */
  lemma {:induction false} JoinAt(sep: string, items: seq<string>, i: nat)
    requires i < |items|
    ensures MatchesAt(Join(sep, items), items[i], JoinOffset(sep, items, i))
  {
    if i > 0 {
      JoinAt(sep, items[1..], i - 1);
      var rest := Join(sep, items[1..]);
      var o := JoinOffset(sep, items[1..], i - 1);
      var pre := items[0] + sep;
      assert Join(sep, items) == pre + rest;
      assert (pre + rest)[|pre| + o..|pre| + o + |items[i]|] == rest[o..o + |items[i]|];
    }
  }

  /** Consecutive items are laid out one after the other, separated by `sep`. */
  lemma {:induction false} JoinOffsetStep(sep: string, items: seq<string>, i: nat)
    requires i + 1 < |items|
    ensures JoinOffset(sep, items, i + 1) == JoinOffset(sep, items, i) + |items[i]| + |sep|
  {
    if i > 0 {
      JoinOffsetStep(sep, items[1..], i - 1);
    }
  }

  /** An item of a join is directly followed by the separator and the next item. */
  lemma JoinAdjacent(sep: string, items: seq<string>, i: nat)
    requires i + 1 < |items|
    ensures MatchesAt(Join(sep, items), items[i], JoinOffset(sep, items, i))
    ensures MatchesAt(Join(sep, items), items[i + 1], JoinOffset(sep, items, i) + |items[i]| + |sep|)
  {
    JoinAt(sep, items, i);
    JoinAt(sep, items, i + 1);
    JoinOffsetStep(sep, items, i);
  }

  /** The separator follows every item but the last. */
  lemma {:induction false} JoinSeparator(sep: string, items: seq<string>, i: nat)
    requires i + 1 < |items|
    ensures MatchesAt(Join(sep, items), sep, JoinOffset(sep, items, i) + |items[i]|)
  {
    var rest := Join(sep, items[1..]);
    var pre := items[0] + sep;
    assert Join(sep, items) == pre + rest;
    if i == 0 {
      assert (pre + rest)[|items[0]|..|items[0]| + |sep|] == sep;
    } else {
      JoinSeparator(sep, items[1..], i - 1);
      var o := JoinOffset(sep, items[1..], i - 1) + |items[i]|;
      assert (pre + rest)[|pre| + o..|pre| + o + |sep|] == rest[o..o + |sep|];
    }
  }

  /** Items appear in the joined string in their order, without overlapping,
      and the separator follows the first of them. */
  lemma {:induction false} JoinOrdered(sep: string, items: seq<string>, i: nat, j: nat)
    requires i < j < |items|
    ensures JoinOffset(sep, items, i) + |items[i]| + |sep| <= JoinOffset(sep, items, j)
    ensures MatchesAt(Join(sep, items), sep, JoinOffset(sep, items, i) + |items[i]|)
    decreases j - i
  {
    JoinOffsetStep(sep, items, j - 1);
    if i < j - 1 {
      JoinOrdered(sep, items, i, j - 1);
    }
    JoinSeparator(sep, items, i);
  }

  /** Joining the pieces of a split with the same separator gives back the
      original string. */
  lemma {:induction false} SplitJoin(s: string, sep: string)
    requires sep != []
    ensures Join(sep, Split(s, sep)) == s
    decreases |s|
  {
    var f := Find(s, sep);
    if f.Some? {
      var k := f.value;
      var rest := s[k + |sep|..];
      var tail := Split(rest, sep);
      var pieces := Split(s, sep);
      assert pieces == [s[..k]] + tail;
      assert pieces[0] == s[..k] && pieces[1..] == tail;
      SplitJoin(rest, sep);
      assert Join(sep, pieces) == s[..k] + sep + rest;
      SliceAround(s, k, |sep|);
    }
  }

  /** A string is the part before a window, the window and the part after. */
  lemma SliceAround(s: string, k: nat, n: nat)
    requires k + n <= |s|
    ensures s == s[..k] + s[k..k + n] + s[k + n..]
  {
  }

  /** An occurrence inside an occurrence is an occurrence. */
  lemma MatchesNested(s: string, mid: string, p: string, o: nat, q: nat)
    requires MatchesAt(s, mid, o) && MatchesAt(mid, p, q)
    ensures MatchesAt(s, p, o + q)
  {
    forall i | 0 <= i < |p|
      ensures s[o + q..o + q + |p|][i] == p[i]
    {
      assert mid[q + i] == p[i];
      assert s[o + q + i] == mid[q + i];
    }
  }

  /** An occurrence in a prefix is an occurrence in the whole string, and
      an index that is not an occurrence in the whole string is not one in a
      prefix either. */
  lemma MatchesPrefix(s: string, p: string, k: nat, j: nat)
    requires k <= |s|
    ensures MatchesAt(s[..k], p, j) ==> MatchesAt(s, p, j)
    ensures j + |p| <= k && MatchesAt(s, p, j) ==> MatchesAt(s[..k], p, j)
  {
    if j + |p| <= k {
      assert s[..k][j..j + |p|] == s[j..j + |p|];
    }
  }

  /** Python's slice `s[:n]`: the prefix of length min(n, |s|). */
  function Take<T>(s: seq<T>, n: nat): (r: seq<T>)
    ensures |r| == Min(n, |s|)
    ensures r == s[..|r|]
  {
    if |s| <= n then s else s[..n]
  }

  /** `str.lower()` on one character: ASCII and Latin-1 upper-case letters
      map to their lower-case forms, every other character is unchanged. */
  function LowerChar(c: char): char {
    if 'A' <= c <= 'Z' || ('\U{C0}' <= c <= '\U{DE}' && c != '\U{D7}') then
      (c as int + 32) as char
    else
      c
  }

  /** `str.lower()` as a length-preserving map over the characters. */
  function Lower(s: string): (r: string)
    ensures |r| == |s|
    ensures forall i :: 0 <= i < |s| ==> r[i] == LowerChar(s[i])
  {
    seq(|s|, i requires 0 <= i < |s| => LowerChar(s[i]))
  }

  /** The characters that Python's `str.strip()` removes. */
  predicate IsSpace(c: char) {
    ('\t' <= c <= '\r') || ('\U{1C}' <= c <= ' ') || c == '\U{85}' || c == '\U{A0}'
    || c == '\U{1680}' || ('\U{2000}' <= c <= '\U{200A}') || c == '\U{2028}' || c == '\U{2029}'
    || c == '\U{202F}' || c == '\U{205F}' || c == '\U{3000}'
  }

  /** The index of the first non-whitespace character at or after `from`,
      or `|s|`. */
  function SkipLeft(s: string, from: nat): (lo: nat)
    requires from <= |s|
    ensures from <= lo <= |s|
    ensures forall i :: from <= i < lo ==> IsSpace(s[i])
    ensures lo < |s| ==> !IsSpace(s[lo])
    decreases |s| - from
  {
    if from < |s| && IsSpace(s[from]) then SkipLeft(s, from + 1) else from
  }

  /** The end of the text before the whitespace run that ends at `stop`,
      never going below `lo`. */
  function SkipRight(s: string, lo: nat, stop: nat): (hi: nat)
    requires lo <= stop <= |s|
    ensures lo <= hi <= stop
    ensures forall i :: hi <= i < stop ==> IsSpace(s[i])
    ensures hi > lo ==> !IsSpace(s[hi - 1])
    decreases stop
  {
    if stop > lo && IsSpace(s[stop - 1]) then SkipRight(s, lo, stop - 1) else stop
  }

  /** Python's `s.strip()`: the middle of `s` with every leading and
      trailing whitespace character removed. */
  function Strip(s: string): (r: string)
    ensures exists lo: nat, hi: nat :: lo <= hi <= |s| && r == s[lo..hi]
              && (forall i :: 0 <= i < lo ==> IsSpace(s[i]))
              && (forall i :: hi <= i < |s| ==> IsSpace(s[i]))
    ensures |r| > 0 ==> !IsSpace(r[0]) && !IsSpace(r[|r| - 1])
  {
    var lo := SkipLeft(s, 0);
    var hi := SkipRight(s, lo, |s|);
    assert hi > lo ==> s[lo..hi][0] == s[lo] && s[lo..hi][hi - lo - 1] == s[hi - 1];
    s[lo..hi]
  }
}

/**
 * The parts of Python's `str` that the session catalogue relies on:
 * slicing with possibly negative bounds, `str.split` / `str.join` with a
 * one-character separator, and the code-point order used when a table of
 * paths is sorted.
 */
module PyStrings {

  /** How Python clips one bound `i` of a slice of a string of length `n`. */
  function SliceBound(i: int, n: nat): (b: nat)
    ensures b <= n
    ensures 0 <= i <= n ==> b == i
    ensures i < 0 && -i <= n ==> b == n + i
  {
    if i < 0 then (if i + n < 0 then 0 else i + n) else if i > n then n else i
  }

  /** `s[i:j]` in Python: both bounds are clipped, and an empty range gives "". */
  function Slice(s: string, i: int, j: int): (r: string)
    ensures |r| <= |s|
  {
    var a, b := SliceBound(i, |s|), SliceBound(j, |s|);
    if a < b then s[a..b] else ""
  }

  predicate StartsWith(s: string, p: string)
  {
    |p| <= |s| && s[..|p|] == p
  }

  predicate EndsWith(s: string, p: string)
  {
    |p| <= |s| && s[|s| - |p|..] == p
  }

  /** `s[:len(p)] == p` holds exactly when `p` is a prefix of `s`, also for a short `s`. */
  lemma SlicePrefix(s: string, p: string)
    ensures Slice(s, 0, |p|) == p <==> StartsWith(s, p)
  {
    if |s| < |p| {
      assert |Slice(s, 0, |p|)| <= |s|;
    }
  }

  /** `s[-len(p):] == p` holds exactly when `p` is a suffix of `s`. */
  lemma SliceSuffix(s: string, p: string)
    requires |p| > 0
    ensures Slice(s, -|p|, |s|) == p <==> EndsWith(s, p)
  {
    if |s| < |p| {
      assert |Slice(s, -|p|, |s|)| <= |s|;
    }
  }

  /** `s[-7:-4]` equals a three-character marker only when `s` has at least seven characters. */
  lemma SliceMarker(s: string, m: string)
    requires |m| == 3
    ensures Slice(s, -7, -4) == m <==> |s| >= 7 && s[|s| - 7..|s| - 4] == m
  {
  }

  /** The position of the first `c` in `s`, or -1 (Python's `str.find`). */
  function Find(s: string, c: char): (k: int)
    ensures -1 <= k < |s|
    ensures k == -1 <==> c !in s
    ensures k >= 0 ==> s[k] == c && c !in s[..k]
  {
    if |s| == 0 then -1
    else if s[0] == c then 0
    else
      var k := Find(s[1..], c);
      assert s[1..][..if k < 0 then 0 else k] == s[1..if k < 0 then 1 else k + 1];
      if k < 0 then -1 else k + 1
  }

  /** `s.split(c)`: the pieces between occurrences of `c`, empty ones included. */
  function Split(s: string, c: char): (parts: seq<string>)
    ensures |parts| >= 1
    ensures forall i :: 0 <= i < |parts| ==> c !in parts[i]
    decreases |s|
  {
    var k := Find(s, c);
    if k < 0 then [s] else [s[..k]] + Split(s[k + 1..], c)
  }

  /** `c.join(parts)`. */
  function Join(parts: seq<string>, c: char): string
  {
    if |parts| == 0 then ""
    else if |parts| == 1 then parts[0]
    else parts[0] + [c] + Join(parts[1..], c)
  }

  /** Joining the pieces of a split gives the string back. */
  lemma {:induction false} JoinSplit(s: string, c: char)
    ensures Join(Split(s, c), c) == s
    decreases |s|
  {
    var k := Find(s, c);
    if k >= 0 {
      var head, tail := s[..k], s[k + 1..];
      var rest := Split(tail, c);
      calc {
        Join(Split(s, c), c);
        Join([head] + rest, c);
        { JoinCons(head, rest, c); }
        head + [c] + Join(rest, c);
        { JoinSplit(tail, c); }
        head + [c] + tail;
        { Around(s, k); }
        s;
      }
    }
  }

  lemma Around(s: string, k: nat)
    requires k < |s|
    ensures s == s[..k] + [s[k]] + s[k + 1..]
  {
  }

  lemma JoinCons(head: string, rest: seq<string>, c: char)
    requires |rest| >= 1
    ensures Join([head] + rest, c) == head + [c] + Join(rest, c)
  {
    assert ([head] + rest)[1..] == rest;
  }

  /** Splitting a join gives the pieces back, provided no piece holds the separator. */
  lemma {:induction false} SplitJoin(parts: seq<string>, c: char)
    requires |parts| >= 1
    requires forall i :: 0 <= i < |parts| ==> c !in parts[i]
    ensures Split(Join(parts, c), c) == parts
  {
    if |parts| > 1 {
      var head, tail := parts[0], Join(parts[1..], c);
      assert c !in head;
      calc {
        Split(Join(parts, c), c);
        Split(head + [c] + tail, c);
        { SplitAtFirst(head, tail, c); }
        [head] + Split(tail, c);
        { SplitJoin(parts[1..], c); }
        [head] + parts[1..];
        parts;
      }
    }
  }

  /** The first separator of `head + [c] + tail` is the one after `head`. */
  lemma SplitAtFirst(head: string, tail: string, c: char)
    requires c !in head
    ensures Split(head + [c] + tail, c) == [head] + Split(tail, c)
  {
    var s := head + [c] + tail;
    var k := Find(s, c);
    assert s[|head|] == c;
    assert k == |head|;
    assert s[..k] == head;
    assert s[k + 1..] == tail;
  }

  /** A join ends with its last piece. */
  lemma {:induction false} JoinSuffix(parts: seq<string>, c: char)
    requires |parts| >= 1
    ensures EndsWith(Join(parts, c), parts[|parts| - 1])
  {
    if |parts| > 1 {
      JoinSuffix(parts[1..], c);
      var tail := Join(parts[1..], c);
      var s := parts[0] + [c] + tail;
      assert Join(parts, c) == s;
      assert s[|s| - |tail|..] == tail;
    }
  }

  /** Python's `a <= b` on strings: code-point order, a proper prefix first. */
  predicate LexLe(a: string, b: string)
  {
    if |a| == 0 then true
    else if |b| == 0 then false
    else if a[0] != b[0] then a[0] < b[0]
    else LexLe(a[1..], b[1..])
  }

  /** Python's `a < b` on strings. */
  predicate LexLt(a: string, b: string)
  {
    LexLe(a, b) && a != b
  }

  lemma {:induction false} LexLeReflexive(a: string)
    ensures LexLe(a, a)
  {
    if |a| > 0 {
      LexLeReflexive(a[1..]);
    }
  }

  lemma {:induction false} LexLeTotal(a: string, b: string)
    ensures LexLe(a, b) || LexLe(b, a)
  {
    if |a| > 0 && |b| > 0 && a[0] == b[0] {
      LexLeTotal(a[1..], b[1..]);
    }
  }

  lemma {:induction false} LexLeTransitive(a: string, b: string, c: string)
    requires LexLe(a, b) && LexLe(b, c)
    ensures LexLe(a, c)
  {
    if |a| > 0 && |b| > 0 && |c| > 0 && a[0] == b[0] == c[0] {
      LexLeTransitive(a[1..], b[1..], c[1..]);
    }
  }

  lemma {:induction false} LexLeAntisymmetric(a: string, b: string)
    requires LexLe(a, b) && LexLe(b, a)
    ensures a == b
  {
    if |a| > 0 && |b| > 0 {
      LexLeAntisymmetric(a[1..], b[1..]);
      assert a == [a[0]] + a[1..];
      assert b == [b[0]] + b[1..];
    }
  }

  /** Two strings that agree on their first `k` characters and differ at `k` are ordered by that character. */
  lemma {:induction false} LexLtAt(a: string, b: string, k: nat)
    requires k < |a| && k < |b|
    requires a[..k] == b[..k] && a[k] < b[k]
    ensures LexLt(a, b)
  {
    if k > 0 {
      assert a[1..][..k - 1] == a[..k][1..];
      assert b[1..][..k - 1] == b[..k][1..];
      assert a[0] == a[..k][0];
      assert b[0] == b[..k][0];
      LexLtAt(a[1..], b[1..], k - 1);
    }
  }

  /** A proper prefix sorts strictly before the string it begins. */
  lemma {:induction false} LexLtProperPrefix(a: string, b: string)
    requires |a| < |b| && b[..|a|] == a
    ensures LexLt(a, b)
  {
    if |a| > 0 {
      assert b[1..][..|a| - 1] == a[1..];
      assert a[0] == b[0];
      LexLtProperPrefix(a[1..], b[1..]);
    }
  }
}

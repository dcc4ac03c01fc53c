/**
 * Generic sequence helpers shared by the model: list-comprehension filtering,
 * Python slicing `s[:n]`, `max`, and the relation "a occurs before b".
 */
module Sequences {

  /** `[x for x in s if p(x)]`: keeps the elements satisfying `p`, in order. */
  function Filter<T>(s: seq<T>, p: T -> bool): (r: seq<T>)
    ensures |r| <= |s|
    ensures forall i :: 0 <= i < |r| ==> r[i] in s && p(r[i])
    ensures forall i :: 0 <= i < |s| && p(s[i]) ==> s[i] in r
  {
    if s == [] then []
    else if p(s[0]) then [s[0]] + Filter(s[1..], p)
    else Filter(s[1..], p)
  }

  /** Python's `s[:n]` for a non-negative `n`: a prefix, the whole list when `n` is too big. */
  function Take<T>(s: seq<T>, n: nat): (r: seq<T>)
    ensures |r| == if n <= |s| then n else |s|
    ensures forall i :: 0 <= i < |r| ==> r[i] == s[i]
  {
    if n <= |s| then s[..n] else s
  }

  /** Python's `max` over a non-empty list of numbers. */
  function Max(s: seq<real>): (m: real)
    requires |s| > 0
    ensures m in s
    ensures forall i :: 0 <= i < |s| ==> s[i] <= m
  {
    if |s| == 1 then s[0]
    else
      var rest := Max(s[1..]);
      if s[0] >= rest then s[0] else rest
  }

  /** `a` occurs at some position strictly before an occurrence of `b` in `s`. */
  ghost predicate Before<T>(s: seq<T>, a: T, b: T) {
    exists p, q :: 0 <= p < q < |s| && s[p] == a && s[q] == b
  }

  /** The elements of `s` are pairwise distinct. */
  ghost predicate Distinct<T>(s: seq<T>) {
    forall i, j :: 0 <= i < j < |s| ==> s[i] != s[j]
  }

  lemma BeforeExtend<T>(x: seq<T>, s: seq<T>, a: T, b: T)
    requires Before(s, a, b)
    ensures Before(x + s, a, b)
  {
    var p, q :| 0 <= p < q < |s| && s[p] == a && s[q] == b;
    assert (x + s)[|x| + p] == a && (x + s)[|x| + q] == b;
  }

  lemma BeforeHead<T>(s: seq<T>, b: T)
    requires |s| > 0 && b in s[1..]
    ensures Before(s, s[0], b)
  {
    var q :| 0 <= q < |s[1..]| && s[1..][q] == b;
    assert s[q + 1] == b;
  }

  /** An order seen in a filtered list was already there in the original list. */
  lemma {:induction false} FilterBeforeSound<T>(s: seq<T>, p: T -> bool, a: T, b: T)
    requires Before(Filter(s, p), a, b)
    ensures Before(s, a, b)
  {
    var f := Filter(s, p);
    var i, j :| 0 <= i < j < |f| && f[i] == a && f[j] == b;
    if p(s[0]) {
      assert f == [s[0]] + Filter(s[1..], p);
      if i == 0 {
        assert b in Filter(s[1..], p) by { assert Filter(s[1..], p)[j - 1] == b; }
        BeforeHead(s, b);
      } else {
        assert Filter(s[1..], p)[i - 1] == a && Filter(s[1..], p)[j - 1] == b;
        FilterBeforeSound(s[1..], p, a, b);
        BeforeExtend([s[0]], s[1..], a, b);
        assert [s[0]] + s[1..] == s;
      }
    } else {
      FilterBeforeSound(s[1..], p, a, b);
      BeforeExtend([s[0]], s[1..], a, b);
      assert [s[0]] + s[1..] == s;
    }
  }

  /** Filtering keeps the relative order of the elements it keeps. */
  lemma {:induction false} FilterBeforeKept<T>(s: seq<T>, p: T -> bool, a: T, b: T)
    requires Before(s, a, b) && p(a) && p(b)
    ensures Before(Filter(s, p), a, b)
  {
    var i, j :| 0 <= i < j < |s| && s[i] == a && s[j] == b;
    var tail := Filter(s[1..], p);
    if i == 0 {
      assert s[1..][j - 1] == b;
      assert b in tail;
      BeforeHead(Filter(s, p), b);
    } else {
      assert s[1..][i - 1] == a && s[1..][j - 1] == b;
      FilterBeforeKept(s[1..], p, a, b);
      if p(s[0]) {
        BeforeExtend([s[0]], tail, a, b);
      }
    }
  }

  lemma TakeBefore<T>(s: seq<T>, n: nat, a: T, b: T)
    requires Before(Take(s, n), a, b)
    ensures Before(s, a, b)
  {
    var t := Take(s, n);
    var i, j :| 0 <= i < j < |t| && t[i] == a && t[j] == b;
    assert s[i] == a && s[j] == b;
  }

  lemma {:induction false} FilterDistinct<T, U>(s: seq<T>, p: T -> bool, f: T -> U)
    requires forall i, j :: 0 <= i < j < |s| ==> f(s[i]) != f(s[j])
    ensures forall i, j :: 0 <= i < j < |Filter(s, p)| ==> f(Filter(s, p)[i]) != f(Filter(s, p)[j])
  {
    if s != [] {
      FilterDistinct(s[1..], p, f);
      var tail := Filter(s[1..], p);
      if p(s[0]) {
        var r := [s[0]] + tail;
        assert r == Filter(s, p);
        forall i, j | 0 <= i < j < |r| ensures f(r[i]) != f(r[j]) {
          if i == 0 {
            assert r[j] == tail[j - 1] && tail[j - 1] in s[1..];
            var k :| 0 <= k < |s[1..]| && s[1..][k] == r[j];
            assert s[k + 1] == r[j];
            assert r[0] == s[0];
            assert f(s[0]) != f(s[k + 1]);
          } else {
            assert r[i] == tail[i - 1] && r[j] == tail[j - 1];
            assert f(tail[i - 1]) != f(tail[j - 1]);
          }
        }
      }
    }
  }

  /** A chain of lists each extending the previous one by one element keeps every earlier list as a prefix. */
  lemma {:induction false} GrowingPrefix<T>(f: seq<seq<T>>, i: nat, n: nat)
    requires i <= n < |f|
    requires forall m :: 0 <= m < |f| ==> |f[m]| == m
    requires forall m :: 0 < m < |f| ==> f[m][..m - 1] == f[m - 1]
    ensures f[n][..i] == f[i]
    decreases n
  {
    if i < n {
      GrowingPrefix(f, i, n - 1);
      assert f[n][..i] == f[n][..n - 1][..i];
    }
  }

  /** Position `i` holds the last occurrence of its element. */
  ghost predicate LastOccurrence<T>(s: seq<T>, i: int) {
    0 <= i < |s| && forall j :: i < j < |s| ==> s[j] != s[i]
  }

  /**
   * A dictionary built by assigning `vals[i]` to `keys[i]` in order, starting empty:
   * its keys are exactly those of `keys`, and the last assignment to a key wins.
   */
  lemma {:induction false} AssignedInOrder<K, V>(keys: seq<K>, vals: seq<V>, maps: seq<map<K, V>>, n: nat)
    requires |vals| == |keys| && |maps| == |keys| + 1 && n <= |keys|
    requires maps[0] == map[]
    requires forall m :: 0 < m < |maps| ==> maps[m] == maps[m - 1][keys[m - 1] := vals[m - 1]]
    ensures forall a :: a in maps[n] <==> a in keys[..n]
    ensures forall i :: LastOccurrence(keys[..n], i) ==> keys[i] in maps[n] && maps[n][keys[i]] == vals[i]
    decreases n
  {
    if n > 0 {
      AssignedInOrder(keys, vals, maps, n - 1);
      assert keys[..n] == keys[..n - 1] + [keys[n - 1]];
      forall i | LastOccurrence(keys[..n], i)
        ensures keys[i] in maps[n] && maps[n][keys[i]] == vals[i]
      {
        if i < n - 1 {
          assert LastOccurrence(keys[..n - 1], i);
          assert keys[..n][n - 1] != keys[..n][i];
        }
      }
    }
  }
}

/**
 * The ranking step shared by `collect_usage` in collect.py and monitor.py:
 * `sorted(usage.items(), key=mem, reverse=True)`, then the comprehension that
 * keeps the entries with `mem >= min_mb`, then the slice `[:limit]`.
 */
module Ranking {
  import opened Sequences

  /** One aggregated process group: the 3-tuple `(name, mem, cpu)`. There is no PID. */
  datatype Entry<K> = Entry(name: K, mem: real, cpu: real)

  function MemIs<K>(v: real): Entry<K> -> bool { (e: Entry<K>) => e.mem == v }
  function MemAtLeast<K>(floor: real): Entry<K> -> bool { (e: Entry<K>) => e.mem >= floor }

  ghost predicate SortedDesc<K>(s: seq<Entry<K>>) {
    forall i, j :: 0 <= i < j < |s| ==> s[i].mem >= s[j].mem
  }

  ghost predicate NamesDistinct<K>(s: seq<Entry<K>>) {
    forall i, j :: 0 <= i < j < |s| ==> s[i].name != s[j].name
  }

  /**
   * Places `x` in front of the first entry whose memory is not larger than its own,
   * so that `x` stays ahead of later entries of equal memory.
   */
  function Insert<K>(x: Entry<K>, s: seq<Entry<K>>): (r: seq<Entry<K>>)
    ensures |r| == |s| + 1
    ensures multiset(r) == multiset(s) + multiset{x}
  {
    if s == [] then [x]
    else if x.mem >= s[0].mem then [x] + s
    else
      assert s == [s[0]] + s[1..];
      [s[0]] + Insert(x, s[1..])
  }

  /** Python's stable `sorted(..., key=mem, reverse=True)`, as an insertion sort. */
  function SortByMem<K>(s: seq<Entry<K>>): (r: seq<Entry<K>>)
    ensures |r| == |s|
    ensures multiset(r) == multiset(s)
  {
    if s == [] then []
    else
      assert s == [s[0]] + s[1..];
      Insert(s[0], SortByMem(s[1..]))
  }

  /** The list `collect_usage` returns for the dictionary items `items` (in insertion order). */
  function Rank<K>(items: seq<Entry<K>>, minMb: real, limit: nat): (r: seq<Entry<K>>)
    ensures |r| <= limit && forall i :: 0 <= i < |r| ==> r[i].mem >= minMb
  {
    Take(Filter(SortByMem(items), MemAtLeast(minMb)), limit)
  }

  lemma InsertMembers<K>(x: Entry<K>, s: seq<Entry<K>>, e: Entry<K>)
    ensures e in Insert(x, s) <==> e == x || e in s
  {
    assert e in Insert(x, s) <==> e in multiset(Insert(x, s));
  }

  lemma SortMembers<K>(s: seq<Entry<K>>, e: Entry<K>)
    ensures e in SortByMem(s) <==> e in s
  {
    assert e in SortByMem(s) <==> e in multiset(SortByMem(s));
  }

  lemma {:induction false} InsertSorted<K>(x: Entry<K>, s: seq<Entry<K>>)
    requires SortedDesc(s)
    ensures SortedDesc(Insert(x, s))
  {
    if s != [] && x.mem < s[0].mem {
      var rest := Insert(x, s[1..]);
      InsertSorted(x, s[1..]);
      forall k | 0 <= k < |rest| ensures s[0].mem >= rest[k].mem {
        InsertMembers(x, s[1..], rest[k]);
      }
    }
  }

  /** The ranking order is non-increasing in memory. */
  lemma {:induction false} SortSorted<K>(s: seq<Entry<K>>)
    ensures SortedDesc(SortByMem(s))
  {
    if s != [] {
      SortSorted(s[1..]);
      InsertSorted(s[0], SortByMem(s[1..]));
    }
  }

  lemma {:induction false} InsertKeepsTies<K>(x: Entry<K>, s: seq<Entry<K>>, v: real)
    ensures Filter(Insert(x, s), MemIs(v)) == (if x.mem == v then [x] else []) + Filter(s, MemIs(v))
  {
    if s != [] && x.mem < s[0].mem {
      InsertKeepsTies(x, s[1..], v);
    }
  }

  /**
   * Stability: for every memory value, the entries with that value appear in the
   * sorted list exactly as they appear in the input.
   */
  lemma {:induction false} SortKeepsTies<K>(s: seq<Entry<K>>, v: real)
    ensures Filter(SortByMem(s), MemIs(v)) == Filter(s, MemIs(v))
  {
    if s != [] {
      SortKeepsTies(s[1..], v);
      InsertKeepsTies(s[0], SortByMem(s[1..]), v);
    }
  }

  lemma {:induction false} InsertCount<K>(x: Entry<K>, s: seq<Entry<K>>, p: Entry<K> -> bool)
    ensures |Filter(Insert(x, s), p)| == |Filter(s, p)| + (if p(x) then 1 else 0)
  {
    if s != [] && x.mem < s[0].mem {
      InsertCount(x, s[1..], p);
    }
  }

  lemma {:induction false} SortCount<K>(s: seq<Entry<K>>, p: Entry<K> -> bool)
    ensures |Filter(SortByMem(s), p)| == |Filter(s, p)|
  {
    if s != [] {
      SortCount(s[1..], p);
      InsertCount(s[0], SortByMem(s[1..]), p);
    }
  }

  lemma {:induction false} InsertNamesDistinct<K>(x: Entry<K>, s: seq<Entry<K>>)
    requires NamesDistinct(s)
    requires forall i :: 0 <= i < |s| ==> s[i].name != x.name
    ensures NamesDistinct(Insert(x, s))
  {
    if s != [] && x.mem < s[0].mem {
      var rest := Insert(x, s[1..]);
      InsertNamesDistinct(x, s[1..]);
      forall k | 0 <= k < |rest| ensures s[0].name != rest[k].name {
        InsertMembers(x, s[1..], rest[k]);
      }
    }
  }

  lemma {:induction false} SortNamesDistinct<K>(s: seq<Entry<K>>)
    requires NamesDistinct(s)
    ensures NamesDistinct(SortByMem(s))
  {
    if s != [] {
      var rest := SortByMem(s[1..]);
      SortNamesDistinct(s[1..]);
      forall k | 0 <= k < |rest| ensures rest[k].name != s[0].name {
        SortMembers(s[1..], rest[k]);
      }
      InsertNamesDistinct(s[0], rest);
    }
  }

  lemma {:induction false} FilterSorted<K>(s: seq<Entry<K>>, p: Entry<K> -> bool)
    requires SortedDesc(s)
    ensures SortedDesc(Filter(s, p))
  {
    if s != [] {
      FilterSorted(s[1..], p);
    }
  }

  /**
   * The ranked list is bounded by `limit`, clears the memory floor, is ordered by
   * memory, draws only on the input and has exactly `min(limit, survivors)` entries.
   */
  lemma RankBounded<K>(items: seq<Entry<K>>, minMb: real, limit: nat)
    ensures var r := Rank(items, minMb, limit);
      && |r| <= limit
      && |r| == (var n := |Filter(items, MemAtLeast(minMb))|; if n < limit then n else limit)
      && (forall i :: 0 <= i < |r| ==> r[i].mem >= minMb && r[i] in items)
      && SortedDesc(r)
  {
    var sorted := SortByMem(items);
    var kept := Filter(sorted, MemAtLeast(minMb));
    SortSorted(items);
    FilterSorted(sorted, MemAtLeast(minMb));
    SortCount(items, MemAtLeast(minMb));
    var r := Rank(items, minMb, limit);
    forall i | 0 <= i < |r| ensures r[i] in items {
      SortMembers(items, r[i]);
    }
  }

  /** Group names stay pairwise distinct through the ranking. */
  lemma RankNamesDistinct<K>(items: seq<Entry<K>>, minMb: real, limit: nat)
    requires NamesDistinct(items)
    ensures NamesDistinct(Rank(items, minMb, limit))
  {
    SortNamesDistinct(items);
    FilterDistinct(SortByMem(items), MemAtLeast(minMb), (e: Entry<K>) => e.name);
  }

  /**
   * Filtering happens before truncation: a qualifying entry is left out only when
   * the list is full and every entry in it has at least as much memory.
   */
  lemma RankComplete<K>(items: seq<Entry<K>>, minMb: real, limit: nat, e: Entry<K>)
    requires e in items && e.mem >= minMb
    ensures var r := Rank(items, minMb, limit);
      e in r || (|r| == limit && forall i :: 0 <= i < |r| ==> r[i].mem >= e.mem)
  {
    var sorted := SortByMem(items);
    var kept := Filter(sorted, MemAtLeast(minMb));
    SortMembers(items, e);
    SortSorted(items);
    FilterSorted(sorted, MemAtLeast(minMb));
    assert e in kept;
    var k :| 0 <= k < |kept| && kept[k] == e;
    var r := Rank(items, minMb, limit);
    if e !in r {
      assert limit <= k;
    }
  }

  /** Entries of equal memory keep the order they had in the input. */
  lemma RankStable<K>(items: seq<Entry<K>>, minMb: real, limit: nat, i: nat, j: nat)
    requires var r := Rank(items, minMb, limit); i < j < |r| && r[i].mem == r[j].mem
    ensures var r := Rank(items, minMb, limit); Before(items, r[i], r[j])
  {
    var sorted := SortByMem(items);
    var kept := Filter(sorted, MemAtLeast(minMb));
    var r := Rank(items, minMb, limit);
    var v := r[i].mem;
    assert Before(r, r[i], r[j]);
    TakeBefore(kept, limit, r[i], r[j]);
    FilterBeforeSound(sorted, MemAtLeast(minMb), r[i], r[j]);
    FilterBeforeKept(sorted, MemIs(v), r[i], r[j]);
    SortKeepsTies(items, v);
    FilterBeforeSound(items, MemIs(v), r[i], r[j]);
  }
}

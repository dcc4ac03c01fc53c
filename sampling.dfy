/**
 * The aggregation loop of `collect_usage` (collect.py and monitor.py): every
 * process record is added into the dictionary bucket of its key, and the
 * dictionary's items, in insertion order, are then ranked.
 */
module Sampling {
  import opened Wrappers
  import opened Sequences
  import opened Ranking

  /**
   * A process as the enumeration reports it: its PID, `info['name']` (which can be
   * `None`), its resident set size in bytes and its `cpu_percent` sample.
   */
  datatype Proc = Proc(pid: int, name: Option<string>, rss: nat, cpu: real)

  /** A record of the stream; `None` is one whose query raised NoSuchProcess or AccessDenied. */
  type Sample = Option<Proc>

  /** `rss / (1024 * 1024)`. */
  function Mb(rss: nat): real { rss as real / 1048576.0 }

  /** The figure is never negative, and multiplied back by 1024 * 1024 it gives the byte count. */
  lemma MbInverse(rss: nat)
    ensures 0.0 <= Mb(rss) && Mb(rss) * 1048576.0 == rss as real
  {
  }

  /** The `{"mem": ..., "cpu": ...}` record of one dictionary bucket. */
  datatype Totals = Totals(mem: real, cpu: real) {
    function Plus(other: Totals): Totals { Totals(mem + other.mem, cpu + other.cpu) }
  }

  const Zero := Totals(0.0, 0.0)

  /** What sample `s` adds to the bucket `k`: its memory and cpu when its key is `k`, else nothing. */
  function Contribution<K(==)>(s: Sample, keyOf: Option<string> -> K, k: K): Totals {
    if s.Some? && keyOf(s.value.name) == k then Totals(Mb(s.value.rss), s.value.cpu) else Zero
  }

  /** collect.py keys its dictionary by `info['name']` itself, so a `None` name is a bucket of its own. */
  function NameKey(name: Option<string>): Option<string> { name }

  /** The sums over the non-raising samples whose key is `k`. */
  function GroupTotals<K(==)>(ss: seq<Sample>, keyOf: Option<string> -> K, k: K): Totals
  {
    if ss == [] then Zero
    else GroupTotals(ss[..|ss| - 1], keyOf, k).Plus(Contribution(ss[|ss| - 1], keyOf, k))
  }

  /** Memory sums are never negative. */
  lemma {:induction false} GroupMemNonnegative<K>(ss: seq<Sample>, keyOf: Option<string> -> K, k: K)
    ensures 0.0 <= GroupTotals(ss, keyOf, k).mem
  {
    if ss != [] {
      GroupMemNonnegative(ss[..|ss| - 1], keyOf, k);
      if ss[|ss| - 1].Some? {
        MbInverse(ss[|ss| - 1].value.rss);
      }
    }
  }

  /** Some non-raising sample has key `k`. */
  ghost predicate Appears<K>(ss: seq<Sample>, keyOf: Option<string> -> K, k: K) {
    exists i :: 0 <= i < |ss| && ss[i].Some? && keyOf(ss[i].value.name) == k
  }

  /** The keys of the non-raising samples, each once, in order of first appearance. */
  function FirstSeen<K(==)>(ss: seq<Sample>, keyOf: Option<string> -> K): (order: seq<K>)
    ensures Distinct(order)
    ensures forall i :: 0 <= i < |order| ==> Appears(ss, keyOf, order[i])
    ensures forall i :: 0 <= i < |ss| && ss[i].Some? ==> keyOf(ss[i].value.name) in order
  {
    if ss == [] then []
    else
      var prev := FirstSeen(ss[..|ss| - 1], keyOf);
      var last := ss[|ss| - 1];
      assert forall i :: 0 <= i < |ss| - 1 ==> ss[..|ss| - 1][i] == ss[i];
      if last.Some? && keyOf(last.value.name) !in prev then prev + [keyOf(last.value.name)]
      else prev
  }

  /** The dictionary's `items()` as entries, in insertion order. */
  function Grouped<K(==)>(ss: seq<Sample>, keyOf: Option<string> -> K): (items: seq<Entry<K>>)
    ensures NamesDistinct(items)
    ensures |items| == |FirstSeen(ss, keyOf)|
    ensures forall i :: 0 <= i < |items| ==>
      items[i].name == FirstSeen(ss, keyOf)[i]
      && items[i].mem == GroupTotals(ss, keyOf, items[i].name).mem
      && items[i].cpu == GroupTotals(ss, keyOf, items[i].name).cpu
  {
    var order := FirstSeen(ss, keyOf);
    seq(|order|, i requires 0 <= i < |order| =>
      Entry(order[i], GroupTotals(ss, keyOf, order[i]).mem, GroupTotals(ss, keyOf, order[i]).cpu))
  }

  /** A key that no non-raising sample has has an empty bucket. */
  lemma {:induction false} AbsentKeyHasZeroTotals<K>(ss: seq<Sample>, keyOf: Option<string> -> K, k: K)
    requires k !in FirstSeen(ss, keyOf)
    ensures GroupTotals(ss, keyOf, k) == Zero
  {
    if ss != [] {
      var init := ss[..|ss| - 1];
      assert forall i :: 0 <= i < |init| ==> init[i] == ss[i];
      assert k !in FirstSeen(init, keyOf);
      AbsentKeyHasZeroTotals(init, keyOf, k);
    }
  }

  /** One more record adds its contribution to every bucket: its own, or nothing. */
  lemma GroupStep<K>(ss: seq<Sample>, keyOf: Option<string> -> K, i: nat)
    requires i < |ss|
    ensures forall k :: GroupTotals(ss[..i + 1], keyOf, k) == GroupTotals(ss[..i], keyOf, k).Plus(Contribution(ss[i], keyOf, k))
    ensures FirstSeen(ss[..i + 1], keyOf) == if ss[i].Some? && keyOf(ss[i].value.name) !in FirstSeen(ss[..i], keyOf)
      then FirstSeen(ss[..i], keyOf) + [keyOf(ss[i].value.name)] else FirstSeen(ss[..i], keyOf)
    ensures ss[i].None? ==> forall k :: GroupTotals(ss[..i + 1], keyOf, k) == GroupTotals(ss[..i], keyOf, k)
  {
    assert ss[..i + 1][..i] == ss[..i];
  }

  /** `order` and `usage` are the dictionary built from the records `ss`. */
  ghost predicate Tallied<K>(ss: seq<Sample>, keyOf: Option<string> -> K, order: seq<K>, usage: map<K, Totals>) {
    && order == FirstSeen(ss, keyOf)
    && (forall j :: 0 <= j < |order| ==> order[j] in usage)
    && (forall k :: k in usage ==> k in order && usage[k] == GroupTotals(ss, keyOf, k))
  }

  /** Adding record `i`, a process of key `name` and totals `t`, to the dictionary of the records before it: the new insertion order. */
  lemma AddRecordOrder<K>(ss: seq<Sample>, keyOf: Option<string> -> K, i: nat,
                          order: seq<K>, usage: map<K, Totals>, name: K, t: Totals)
    requires i < |ss| && ss[i].Some? && name == keyOf(ss[i].value.name)
    requires Tallied(ss[..i], keyOf, order, usage)
    ensures var order' := if name in usage then order else order + [name];
      && order' == FirstSeen(ss[..i + 1], keyOf)
      && forall j :: 0 <= j < |order'| ==> order'[j] in usage[name := t]
  {
    GroupStep(ss, keyOf, i);
  }

  /** The same step: the new buckets hold the sums over the records up to `i`. */
  lemma AddRecordTotals<K>(ss: seq<Sample>, keyOf: Option<string> -> K, i: nat,
                           order: seq<K>, usage: map<K, Totals>, name: K, base: Totals)
    requires i < |ss| && ss[i].Some? && name == keyOf(ss[i].value.name)
    requires Tallied(ss[..i], keyOf, order, usage)
    requires base == if name in usage then usage[name] else Zero
    ensures var order' := if name in usage then order else order + [name];
      var usage' := usage[name := base.Plus(Totals(Mb(ss[i].value.rss), ss[i].value.cpu))];
      forall k :: k in usage' ==> k in order' && usage'[k] == GroupTotals(ss[..i + 1], keyOf, k)
  {
    GroupStep(ss, keyOf, i);
    if name !in usage {
      AbsentKeyHasZeroTotals(ss[..i], keyOf, name);
    }
    forall k | k in usage && k != name ensures Contribution(ss[i], keyOf, k) == Zero {
    }
  }

  /**
   * The loop over the records: `usage` is the dictionary, `order` its insertion
   * order. Each bucket ends up holding the sums over the non-raising records of its key.
   */
  method Aggregate<K(==)>(samples: seq<Sample>, keyOf: Option<string> -> K)
    returns (order: seq<K>, usage: map<K, Totals>)
    ensures order == FirstSeen(samples, keyOf)
    ensures forall i :: 0 <= i < |order| ==> order[i] in usage
    ensures forall k :: k in usage ==> k in order && usage[k] == GroupTotals(samples, keyOf, k)
  {
    order, usage := [], map[];
    for i := 0 to |samples|
      invariant Tallied(samples[..i], keyOf, order, usage)
    {
      if samples[i].Some? {
        ghost var order0, usage0, base := order, usage, if keyOf(samples[i].value.name) in usage then usage[keyOf(samples[i].value.name)] else Zero;
        var proc := samples[i].value;
        var name := keyOf(proc.name);
        var mem := Mb(proc.rss);
        var cpu := proc.cpu;
        if name !in usage {
          order := order + [name];
          usage := usage[name := Zero];
        }
        usage := usage[name := usage[name].Plus(Totals(mem, cpu))];
        AddRecordOrder(samples, keyOf, i, order0, usage0, name, usage[name]);
        AddRecordTotals(samples, keyOf, i, order0, usage0, name, base);
      } else {
        GroupStep(samples, keyOf, i);
      }
    }
    assert samples[..|samples|] == samples;
  }

  /** Builds the dictionary items from the loop's result. */
  method Items<K(==)>(order: seq<K>, usage: map<K, Totals>) returns (items: seq<Entry<K>>)
    requires forall i :: 0 <= i < |order| ==> order[i] in usage
    ensures |items| == |order|
    ensures forall i :: 0 <= i < |order| ==>
      items[i] == Entry(order[i], usage[order[i]].mem, usage[order[i]].cpu)
  {
    items := seq(|order|, i requires 0 <= i < |order| =>
      Entry(order[i], usage[order[i]].mem, usage[order[i]].cpu));
  }

  /**
   * The body shared by both `collect_usage`: aggregate the records by `keyOf`, then
   * sort the items by memory, keep those reaching `minMb` and cut the list at `limit`.
   */
  method CollectBy<K(==)>(samples: seq<Sample>, keyOf: Option<string> -> K, limit: nat, minMb: real)
    returns (top: seq<Entry<K>>)
    ensures top == Rank(Grouped(samples, keyOf), minMb, limit)
    ensures IsTopUsage(samples, keyOf, minMb, limit, top)
  {
    var order, usage := Aggregate(samples, keyOf);
    var items := Items(order, usage);
    assert items == Grouped(samples, keyOf);
    top := Rank(items, minMb, limit);
    RankedGroupsAreTop(samples, keyOf, minMb, limit);
  }

  /**
   * What both `collect_usage` promise of their result `top`, for the samples
   * grouped by `keyOf`.
   */
  ghost predicate IsTopUsage<K>(samples: seq<Sample>, keyOf: Option<string> -> K,
                                   minMb: real, limit: nat, top: seq<Entry<K>>)
  {
    var order := FirstSeen(samples, keyOf);
    // at most `limit` entries, each clearing the floor, ordered by memory, names distinct
    && |top| <= limit
    && (forall i :: 0 <= i < |top| ==> top[i].mem >= minMb)
    && SortedDesc(top)
    && NamesDistinct(top)
    // each entry is a group of the samples with that group's sums
    && (forall i :: 0 <= i < |top| ==>
          top[i].name in order
          && top[i].mem == GroupTotals(samples, keyOf, top[i].name).mem
          && top[i].cpu == GroupTotals(samples, keyOf, top[i].name).cpu)
    // no qualifying group is displaced by a filtered-out one
    && (forall j :: 0 <= j < |order| && GroupTotals(samples, keyOf, order[j]).mem >= minMb ==>
          (exists i :: 0 <= i < |top| && top[i].name == order[j])
          || (|top| == limit && forall i :: 0 <= i < |top| ==> top[i].mem >= GroupTotals(samples, keyOf, order[j]).mem))
    // ties keep first-seen order
    && (forall i, j :: 0 <= i < j < |top| && top[i].mem == top[j].mem ==>
          Before(order, top[i].name, top[j].name))
  }

  lemma BeforeNames<K>(items: seq<Entry<K>>, order: seq<K>, a: Entry<K>, b: Entry<K>)
    requires |items| == |order| && forall i :: 0 <= i < |items| ==> items[i].name == order[i]
    requires Before(items, a, b)
    ensures Before(order, a.name, b.name)
  {
    var p, q :| 0 <= p < q < |items| && items[p] == a && items[q] == b;
    assert order[p] == a.name && order[q] == b.name;
  }

  /** Each ranked entry is a group of the samples, carrying that group's sums. */
  lemma RankedAreGroups<K>(samples: seq<Sample>, keyOf: Option<string> -> K, minMb: real, limit: nat)
    ensures var top := Rank(Grouped(samples, keyOf), minMb, limit);
      forall i :: 0 <= i < |top| ==>
        top[i].name in FirstSeen(samples, keyOf)
        && top[i].mem == GroupTotals(samples, keyOf, top[i].name).mem
        && top[i].cpu == GroupTotals(samples, keyOf, top[i].name).cpu
  {
    var items := Grouped(samples, keyOf);
    var top := Rank(items, minMb, limit);
    RankBounded(items, minMb, limit);
    forall i | 0 <= i < |top|
      ensures top[i].name in FirstSeen(samples, keyOf)
      ensures top[i].mem == GroupTotals(samples, keyOf, top[i].name).mem
      ensures top[i].cpu == GroupTotals(samples, keyOf, top[i].name).cpu
    {
      var k :| 0 <= k < |items| && items[k] == top[i];
    }
  }

  /** A group clearing the floor is missing from the ranking only when the list is full of larger ones. */
  lemma RankedGroupsComplete<K>(samples: seq<Sample>, keyOf: Option<string> -> K, minMb: real, limit: nat, j: nat)
    requires j < |FirstSeen(samples, keyOf)|
    requires GroupTotals(samples, keyOf, FirstSeen(samples, keyOf)[j]).mem >= minMb
    ensures var top := Rank(Grouped(samples, keyOf), minMb, limit);
      var m := GroupTotals(samples, keyOf, FirstSeen(samples, keyOf)[j]).mem;
      (exists i :: 0 <= i < |top| && top[i].name == FirstSeen(samples, keyOf)[j])
      || (|top| == limit && forall i :: 0 <= i < |top| ==> top[i].mem >= m)
  {
    var items := Grouped(samples, keyOf);
    var top := Rank(items, minMb, limit);
    RankComplete(items, minMb, limit, items[j]);
    if items[j] in top {
      var i :| 0 <= i < |top| && top[i] == items[j];
      assert top[i].name == FirstSeen(samples, keyOf)[j];
    }
  }

  /** Ranked groups of equal memory appear in first-seen order. */
  lemma RankedGroupsStable<K>(samples: seq<Sample>, keyOf: Option<string> -> K, minMb: real, limit: nat)
    ensures var top := Rank(Grouped(samples, keyOf), minMb, limit);
      forall i, j :: 0 <= i < j < |top| && top[i].mem == top[j].mem ==>
        Before(FirstSeen(samples, keyOf), top[i].name, top[j].name)
  {
    var items := Grouped(samples, keyOf);
    var top := Rank(items, minMb, limit);
    forall i, j | 0 <= i < j < |top| && top[i].mem == top[j].mem
      ensures Before(FirstSeen(samples, keyOf), top[i].name, top[j].name)
    {
      RankStable(items, minMb, limit, i, j);
      BeforeNames(items, FirstSeen(samples, keyOf), top[i], top[j]);
    }
  }

  /** Ranking the grouped samples gives the top usage list. */
  lemma RankedGroupsAreTop<K>(samples: seq<Sample>, keyOf: Option<string> -> K, minMb: real, limit: nat)
    ensures IsTopUsage(samples, keyOf, minMb, limit, Rank(Grouped(samples, keyOf), minMb, limit))
  {
    var order := FirstSeen(samples, keyOf);
    var items := Grouped(samples, keyOf);
    var top := Rank(items, minMb, limit);
    RankBounded(items, minMb, limit);
    RankNamesDistinct(items, minMb, limit);
    RankedAreGroups(samples, keyOf, minMb, limit);
    RankedGroupsStable(samples, keyOf, minMb, limit);
    forall j | 0 <= j < |order| && GroupTotals(samples, keyOf, order[j]).mem >= minMb
      ensures (exists i :: 0 <= i < |top| && top[i].name == order[j])
        || (|top| == limit && forall i :: 0 <= i < |top| ==> top[i].mem >= GroupTotals(samples, keyOf, order[j]).mem)
    {
      RankedGroupsComplete(samples, keyOf, minMb, limit, j);
    }
  }

  lemma {:induction false} TotalsAppend<K>(a: seq<Sample>, b: seq<Sample>, keyOf: Option<string> -> K, k: K)
    ensures GroupTotals(a + b, keyOf, k) == GroupTotals(a, keyOf, k).Plus(GroupTotals(b, keyOf, k))
    decreases |b|
  {
    if b == [] {
      assert a + b == a;
    } else {
      var b' := b[..|b| - 1];
      var c := Contribution(b[|b| - 1], keyOf, k);
      assert (a + b)[..|a + b| - 1] == a + b';
      assert (a + b)[|a + b| - 1] == b[|b| - 1];
      TotalsAppend(a, b', keyOf, k);
      var x, y, z := GroupTotals(a, keyOf, k), GroupTotals(b', keyOf, k), GroupTotals(a + b, keyOf, k);
      assert z.mem == x.mem + y.mem + c.mem;
      assert z.cpu == x.cpu + y.cpu + c.cpu;
    }
  }

  lemma {:induction false} FirstSeenAppendSkipped<K>(a: seq<Sample>, b: seq<Sample>, keyOf: Option<string> -> K)
    ensures FirstSeen(a + [None] + b, keyOf) == FirstSeen(a + b, keyOf)
    decreases |b|
  {
    if b == [] {
      assert (a + [None] + b)[..|a + [None] + b| - 1] == a;
      assert a + b == a;
    } else {
      var b' := b[..|b| - 1];
      assert (a + [None] + b)[..|a + [None] + b| - 1] == a + [None] + b';
      assert (a + b)[..|a + b| - 1] == a + b';
      FirstSeenAppendSkipped(a, b', keyOf);
    }
  }

  /**
   * A record whose query raised (NoSuchProcess or AccessDenied) contributes nothing:
   * removing it leaves every bucket and the insertion order as they were.
   */
  lemma SkippedRecordContributesNothing<K>(a: seq<Sample>, b: seq<Sample>, keyOf: Option<string> -> K)
    ensures Grouped(a + [None] + b, keyOf) == Grouped(a + b, keyOf)
  {
    FirstSeenAppendSkipped(a, b, keyOf);
    var g, h := Grouped(a + [None] + b, keyOf), Grouped(a + b, keyOf);
    forall i | 0 <= i < |g| ensures g[i] == h[i] {
      GroupSkipped(a, b, keyOf, g[i].name);
    }
  }

  lemma GroupSkipped<K>(a: seq<Sample>, b: seq<Sample>, keyOf: Option<string> -> K, k: K)
    ensures GroupTotals(a + [None] + b, keyOf, k) == GroupTotals(a + b, keyOf, k)
  {
    var skipped: seq<Sample> := [None];
    SkippedAlone(keyOf, k);
    TotalsAppend(a + skipped, b, keyOf, k);
    TotalsAppend(a, skipped, keyOf, k);
    TotalsAppend(a, b, keyOf, k);
    var x, y := GroupTotals(a, keyOf, k), GroupTotals(b, keyOf, k);
    var z := GroupTotals(a + skipped + b, keyOf, k);
    assert z.mem == x.mem + y.mem && z.cpu == x.cpu + y.cpu;
  }

  lemma SkippedAlone<K>(keyOf: Option<string> -> K, k: K)
    ensures GroupTotals([None], keyOf, k) == Zero
  {
    var skipped: seq<Sample> := [None];
    assert skipped[..0] == [];
  }
}

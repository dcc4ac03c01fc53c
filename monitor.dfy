/**
 * monitor.py's `collect_usage`: the records are grouped by name with a missing or
 * empty name replaced by "unknown", then ranked. Also the per-name representative
 * PID that the dashboard and the notifier expect in their `(name, pid, mem, cpu)`
 * rows, which this aggregator does not produce.
 */
module Monitor {
  import opened Wrappers
  import opened Sequences
  import opened Ranking
  import opened Sampling

  /** `info['name'] or "unknown"`: `None` and the empty name both become "unknown". */
  function UsageKey(name: Option<string>): (k: string)
    ensures k != ""
    ensures k == "unknown" <==> name.None? || name.value == "" || name.value == "unknown"
  {
    if name.None? || name.value == "" then "unknown" else name.value
  }

  /** monitor.py's `collect_usage`: the `(name, mem, cpu)` triples of the top groups. */
  method CollectUsage(samples: seq<Sample>, limit: nat, minMb: real) returns (top: seq<Entry<string>>)
    ensures top == Rank(Grouped(samples, UsageKey), minMb, limit)
    ensures IsTopUsage(samples, UsageKey, minMb, limit, top)
  {
    top := CollectBy(samples, UsageKey, limit, minMb);
  }

  /**
   * The "unknown" bucket merges three buckets of the raw-name grouping: nameless
   * processes, processes with an empty name and processes really called "unknown".
   */
  lemma {:induction false} UnknownMergesNameless(ss: seq<Sample>)
    ensures GroupTotals(ss, UsageKey, "unknown").mem ==
      GroupTotals(ss, NameKey, None).mem + GroupTotals(ss, NameKey, Some("")).mem + GroupTotals(ss, NameKey, Some("unknown")).mem
    ensures GroupTotals(ss, UsageKey, "unknown").cpu ==
      GroupTotals(ss, NameKey, None).cpu + GroupTotals(ss, NameKey, Some("")).cpu + GroupTotals(ss, NameKey, Some("unknown")).cpu
  {
    if ss != [] {
      var init, last := ss[..|ss| - 1], ss[|ss| - 1];
      UnknownMergesNameless(init);
      UnknownContribution(last);
      assert GroupTotals(ss, UsageKey, "unknown") == GroupTotals(init, UsageKey, "unknown").Plus(Contribution(last, UsageKey, "unknown"));
      assert GroupTotals(ss, NameKey, None) == GroupTotals(init, NameKey, None).Plus(Contribution(last, NameKey, None));
      assert GroupTotals(ss, NameKey, Some("")) == GroupTotals(init, NameKey, Some("")).Plus(Contribution(last, NameKey, Some("")));
      assert GroupTotals(ss, NameKey, Some("unknown")) == GroupTotals(init, NameKey, Some("unknown")).Plus(Contribution(last, NameKey, Some("unknown")));
    }
  }

  /** One record adds to "unknown" what it adds to the three raw buckets together. */
  lemma UnknownContribution(s: Sample)
    ensures Contribution(s, UsageKey, "unknown").mem ==
      Contribution(s, NameKey, None).mem + Contribution(s, NameKey, Some("")).mem + Contribution(s, NameKey, Some("unknown")).mem
    ensures Contribution(s, UsageKey, "unknown").cpu ==
      Contribution(s, NameKey, None).cpu + Contribution(s, NameKey, Some("")).cpu + Contribution(s, NameKey, Some("unknown")).cpu
  {
    if s.Some? {
      var name := s.value.name;
      var c := Totals(Mb(s.value.rss), s.value.cpu);
      if name.None? {
        assert Contribution(s, NameKey, None) == c;
        assert Contribution(s, NameKey, Some("")) == Zero;
        assert Contribution(s, NameKey, Some("unknown")) == Zero;
      } else if name.value == "" {
        assert Contribution(s, NameKey, None) == Zero;
        assert Contribution(s, NameKey, Some("")) == c;
        assert Contribution(s, NameKey, Some("unknown")) == Zero;
      } else if name.value == "unknown" {
        assert Contribution(s, NameKey, None) == Zero;
        assert Contribution(s, NameKey, Some("")) == Zero;
        assert Contribution(s, NameKey, Some("unknown")) == c;
      } else {
        assert UsageKey(name) != "unknown";
        assert Contribution(s, NameKey, None) == Zero;
        assert Contribution(s, NameKey, Some("")) == Zero;
        assert Contribution(s, NameKey, Some("unknown")) == Zero;
      }
    }
  }

  /** Every other name keeps exactly its raw-name bucket. */
  lemma {:induction false} NamedBucketsUnchanged(ss: seq<Sample>, k: string)
    requires k != "unknown" && k != ""
    ensures GroupTotals(ss, UsageKey, k) == GroupTotals(ss, NameKey, Some(k))
  {
    if ss != [] {
      var last := ss[|ss| - 1];
      NamedBucketsUnchanged(ss[..|ss| - 1], k);
      if last.Some? {
        UsageKeyMatches(last.value.name, k);
      }
      assert Contribution(last, UsageKey, k) == Contribution(last, NameKey, Some(k));
      var a, b := GroupTotals(ss, UsageKey, k), GroupTotals(ss, NameKey, Some(k));
      assert a.mem == b.mem && a.cpu == b.cpu;
    }
  }

  /** Outside "unknown", a process has key `k` exactly when its name is `k`. */
  lemma UsageKeyMatches(name: Option<string>, k: string)
    requires k != "unknown" && k != ""
    ensures UsageKey(name) == k <==> name == Some(k)
  {
    if name.Some? && name.value != "" {
      assert UsageKey(name) == name.value;
    }
  }

  /** A row of the `(name, pid, mem, cpu)` form that main.py and notifier.py unpack. */
  datatype Row = Row(name: string, pid: int, mem: real, cpu: real)

  /** Sample `s` is a non-raising record of bucket `k`. */
  predicate InBucket<K(==)>(s: Sample, keyOf: Option<string> -> K, k: K) {
    s.Some? && keyOf(s.value.name) == k
  }

  /**
   * The representative process of bucket `k`: the record of largest `rss`, a later
   * record replacing the one kept so far only when strictly larger.
   */
  function Heaviest<K(==)>(ss: seq<Sample>, keyOf: Option<string> -> K, k: K): (h: Option<Proc>)
    ensures h.Some? <==> exists i :: 0 <= i < |ss| && InBucket(ss[i], keyOf, k)
    ensures h.Some? ==> forall i :: 0 <= i < |ss| && InBucket(ss[i], keyOf, k) ==> ss[i].value.rss <= h.value.rss
  {
    if ss == [] then None
    else
      var init := ss[..|ss| - 1];
      var last := ss[|ss| - 1];
      var prev := Heaviest(init, keyOf, k);
      assert forall i :: 0 <= i < |init| ==> init[i] == ss[i];
      if InBucket(last, keyOf, k) && (prev.None? || last.value.rss > prev.value.rss) then last else prev
  }

  /** The representative is the first record of its bucket with the largest `rss`. */
  lemma {:induction false} HeaviestIsFirstLargest<K>(ss: seq<Sample>, keyOf: Option<string> -> K, k: K)
    requires Heaviest(ss, keyOf, k).Some?
    ensures var h := Heaviest(ss, keyOf, k).value;
      exists i :: 0 <= i < |ss| && ss[i] == Some(h) && InBucket(ss[i], keyOf, k)
        && forall j :: 0 <= j < i && InBucket(ss[j], keyOf, k) ==> ss[j].value.rss < h.rss
  {
    var init := ss[..|ss| - 1];
    var last := ss[|ss| - 1];
    var h := Heaviest(ss, keyOf, k).value;
    assert forall i :: 0 <= i < |init| ==> init[i] == ss[i];
    var prev := Heaviest(init, keyOf, k);
    if InBucket(last, keyOf, k) && (prev.None? || last.value.rss > prev.value.rss) {
      assert ss[|ss| - 1] == Some(h);
    } else {
      HeaviestIsFirstLargest(init, keyOf, k);
      var i :| 0 <= i < |init| && init[i] == Some(h) && InBucket(init[i], keyOf, k)
        && forall j :: 0 <= j < i && InBucket(init[j], keyOf, k) ==> init[j].value.rss < h.rss;
      assert ss[i] == Some(h);
    }
  }

  /**
   * The rows the dashboard and the notifier expect: each ranked group with the PID of
   * its representative process.
   */
  function Rows(samples: seq<Sample>, limit: nat, minMb: real): (rows: seq<Row>)
    ensures var top := Rank(Grouped(samples, UsageKey), minMb, limit);
      && |rows| == |top|
      && forall i :: 0 <= i < |rows| ==>
           && Entry(rows[i].name, rows[i].mem, rows[i].cpu) == top[i]
           && Heaviest(samples, UsageKey, top[i].name).Some?
           && rows[i].pid == Heaviest(samples, UsageKey, top[i].name).value.pid
  {
    var top := Rank(Grouped(samples, UsageKey), minMb, limit);
    RankedGroupsAreTop(samples, UsageKey, minMb, limit);
    seq(|top|, i requires 0 <= i < |top| =>
      var h := Heaviest(samples, UsageKey, top[i].name);
      Row(top[i].name, if h.Some? then h.value.pid else 0, top[i].mem, top[i].cpu))
  }
}

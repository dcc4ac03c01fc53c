/**
 * collect.py: the bubble wallpaper. `collect_usage` keyed by the raw process name,
 * the area and colour of each bubble, and the placement of the bubbles with the
 * position store.
 */
module Collect {
  import opened Wrappers
  import opened Sequences
  import opened Scaling
  import opened Ranking
  import opened Sampling
  import opened Placement

  /** An app as collect.py names it: `info['name']`, possibly `None`. */
  type App = Option<string>

  /** The defaults `limit=6, min_mb=50` of `collect_usage`. */
  const DefaultLimit: nat := 6
  const DefaultMinMb: real := 50.0

  /** collect.py's `collect_usage`: the records grouped by their raw name, then ranked. */
  method CollectUsage(samples: seq<Sample>, limit: nat, minMb: real) returns (top: seq<Entry<App>>)
    ensures top == Rank(Grouped(samples, NameKey), minMb, limit)
    ensures IsTopUsage(samples, NameKey, minMb, limit, top)
  {
    top := CollectBy(samples, NameKey, limit, minMb);
  }

  /** `collect_usage()` as the script at the bottom of collect.py calls it, with its defaults. */
  method CollectDefault(samples: seq<Sample>) returns (top: seq<Entry<App>>)
    ensures top == Rank(Grouped(samples, NameKey), DefaultMinMb, DefaultLimit)
    ensures |top| <= 6 && forall i :: 0 <= i < |top| ==> top[i].mem >= 50.0
  {
    top := CollectUsage(samples, DefaultLimit, DefaultMinMb);
  }

  /** `apps = [d[0] for d in data]`. */
  function Names<K>(data: seq<Entry<K>>): (apps: seq<K>)
    ensures |apps| == |data| && forall i :: 0 <= i < |data| ==> apps[i] == data[i].name
  {
    seq(|data|, i requires 0 <= i < |data| => data[i].name)
  }

  /** `mems = [d[1] for d in data]`. */
  function Mems<K>(data: seq<Entry<K>>): (mems: seq<real>)
    ensures |mems| == |data| && forall i :: 0 <= i < |data| ==> mems[i] == data[i].mem
  {
    seq(|data|, i requires 0 <= i < |data| => data[i].mem)
  }

  /** `(m / max_mem) * 6000 + 800`: the area of a bubble. */
  function Size(m: real, maxMem: real): real
    requires maxMem > 0.0
  {
    Ratio(m, maxMem) * 6000.0 + 800.0
  }

  /** `sizes`, one area per entry, scaled by the largest memory figure. */
  function Sizes(mems: seq<real>): (sizes: seq<real>)
    requires |mems| > 0 && Max(mems) > 0.0
    ensures |sizes| == |mems|
    ensures forall i :: 0 <= i < |mems| ==> sizes[i] == Size(mems[i], Max(mems))
  {
    seq(|mems|, i requires 0 <= i < |mems| => Size(mems[i], Max(mems)))
  }

  /** The largest figure gets area 6800, every positive figure one in `(800, 6800]`. */
  lemma SizeBounds(m: real, maxMem: real)
    requires 0.0 < m <= maxMem
    ensures 800.0 < Size(m, maxMem) <= 6800.0
    ensures m == maxMem ==> Size(m, maxMem) == 6800.0
  {
    RatioBounds(m, maxMem);
  }

  /** More memory gives a strictly larger bubble. */
  lemma SizeMonotone(m: real, n: real, maxMem: real)
    requires maxMem > 0.0 && m < n
    ensures Size(m, maxMem) < Size(n, maxMem)
  {
    RatioMonotone(m, n, maxMem);
  }

  /**
   * Over a list of positive figures: the largest gets exactly 6800, every size lies
   * in `(800, 6800]`, and the sizes are ordered as the figures are.
   */
  lemma SizesInRange(mems: seq<real>)
    requires |mems| > 0 && forall i :: 0 <= i < |mems| ==> mems[i] > 0.0
    ensures Max(mems) > 0.0
    ensures forall i :: 0 <= i < |mems| ==> 800.0 < Sizes(mems)[i] <= 6800.0
    ensures forall i :: 0 <= i < |mems| && mems[i] == Max(mems) ==> Sizes(mems)[i] == 6800.0
    ensures forall i, j :: 0 <= i < |mems| && 0 <= j < |mems| && mems[i] < mems[j] ==> Sizes(mems)[i] < Sizes(mems)[j]
  {
    assert mems[0] > 0.0;
    forall i | 0 <= i < |mems| ensures 800.0 < Sizes(mems)[i] <= 6800.0 && (mems[i] == Max(mems) ==> Sizes(mems)[i] == 6800.0) {
      SizeBounds(mems[i], Max(mems));
    }
    forall i, j | 0 <= i < |mems| && 0 <= j < |mems| && mems[i] < mems[j] ensures Sizes(mems)[i] < Sizes(mems)[j] {
      SizeMonotone(mems[i], mems[j], Max(mems));
    }
  }

  /** The colour of a bubble. */
  datatype Tier = Red | Orange | Green

  /** The colour tier of a cpu figure: red above 50, orange above 20, green otherwise. */
  function CpuTier(cpu: real): (t: Tier)
    ensures t == Red <==> cpu > 50.0
    ensures t == Orange <==> 20.0 < cpu <= 50.0
    ensures t == Green <==> cpu <= 20.0
  {
    if cpu > 50.0 then Red else if cpu > 20.0 then Orange else Green
  }

  function Severity(t: Tier): nat {
    match t
    case Green => 0
    case Orange => 1
    case Red => 2
  }

  /** A busier app is never shown in a calmer colour. */
  lemma TierMonotone(cpu: real, busier: real)
    requires cpu <= busier
    ensures Severity(CpuTier(cpu)) <= Severity(CpuTier(busier))
  {
    if CpuTier(cpu) == Red {
      assert CpuTier(busier) == Red;
    } else if CpuTier(cpu) == Orange {
      assert CpuTier(busier) != Green;
    }
  }

  /** The colour loop: one tier per cpu figure, in order. */
  method CpuColors(cpus: seq<real>) returns (colors: seq<Tier>)
    ensures |colors| == |cpus|
    ensures forall i :: 0 <= i < |cpus| ==> colors[i] == CpuTier(cpus[i])
  {
    colors := [];
    for i := 0 to |cpus|
      invariant |colors| == i
      invariant forall j :: 0 <= j < i ==> colors[j] == CpuTier(cpus[j])
    {
      if cpus[i] > 50.0 {
        colors := colors + [Red];
      } else if cpus[i] > 20.0 {
        colors := colors + [Orange];
      } else {
        colors := colors + [Green];
      }
    }
  }

  /** `math.pi`. */
  const Pi: real := 3.141592653589793

  /** `r` is `math.sqrt(s / math.pi)`, the radius of a disc of area `s`. */
  ghost predicate IsRadius(r: real, s: real) {
    r > 0.0 && r * r == s / Pi
  }

  /** A larger area has a larger radius. */
  lemma RadiusMonotone(r: real, s: real, q: real, t: real)
    requires IsRadius(r, s) && IsRadius(q, t) && s < t
    ensures r < q
  {
    assert (q - r) * (q + r) == q * q - r * r;
    FactorSign(q - r, q + r);
  }

  /**
   * Every bubble is wider than the box its centre is drawn in: a radius of area at
   * least 800 exceeds 5, so `uniform(r, 10 - r)` and `uniform(r, 6 - r)` get their
   * ends reversed and the centre falls in `[10 - r, r] x [6 - r, r]`.
   */
  lemma RadiusExceedsBox(r: real, s: real)
    requires IsRadius(r, s) && s >= 800.0
    ensures BoxWidth - r < r && BoxHeight - r < r
  {
    assert s / Pi > 25.0;
    assert (r - 5.0) * (r + 5.0) == r * r - 25.0;
    FactorSign(r - 5.0, r + 5.0);
  }

  /**
   * With positive memory figures, every bubble whose position is searched for has
   * its centre in the reversed box `[10 - r, r] x [6 - r, r]`.
   */
  lemma SearchedBubbleInReversedBox(data: seq<Entry<App>>, radii: seq<real>, stored: map<App, Point>, draws: seq<Draw>, i: nat)
    requires |data| > 0 && forall j :: 0 <= j < |data| ==> data[j].mem > 0.0
    requires |radii| == |data| && forall j :: 0 <= j < |data| ==> IsRadius(radii[j], Sizes(Mems(data))[j])
    requires Attempts * |data| <= |draws|
    requires forall j :: 0 <= j < |draws| ==> Unit(draws[j].u) && Unit(draws[j].v)
    requires i < |data| && data[i].name !in stored
    ensures var c, r := Placed(SceneBatch(data, radii, stored, draws))[i], radii[i];
      BoxWidth - r <= c.x <= r && BoxHeight - r <= c.y <= r
  {
    var mems := Mems(data);
    SizesInRange(mems);
    RadiusExceedsBox(radii[i], Sizes(mems)[i]);
    SearchedPositionInBox(SceneBatch(data, radii, stored, draws), i);
  }

  /** The placement inputs of a wallpaper: apps in rank order, their radii, the store and the draws. */
  function SceneBatch(data: seq<Entry<App>>, radii: seq<real>, stored: map<App, Point>, draws: seq<Draw>): Batch<App> {
    Batch(Names(data), radii, stored, draws)
  }

  /** One bubble of the scatter plot. */
  datatype Bubble = Bubble(app: App, x: real, y: real, size: real, tier: Tier)

  /**
   * The modelled part of collect.py's `generate_wallpaper`: sizes and colours per
   * entry, then the placement loop. `radii` are the `math.sqrt(s / math.pi)` values,
   * `stored` is what `load_positions` returned, and `saved` is what `save_positions`
   * is given.
   */
  method GenerateWallpaper(data: seq<Entry<App>>, radii: seq<real>, stored: map<App, Point>, draws: seq<Draw>)
    returns (bubbles: seq<Bubble>, saved: map<App, Point>)
    requires |data| > 0 && Max(Mems(data)) > 0.0
    requires |radii| == |data| && forall i :: 0 <= i < |data| ==> IsRadius(radii[i], Sizes(Mems(data))[i])
    requires Attempts * |data| <= |draws|
    ensures saved == Layout(SceneBatch(data, radii, stored, draws), |data|).saved
    ensures |bubbles| == |data|
    ensures forall i :: 0 <= i < |data| ==>
      var c := Placed(SceneBatch(data, radii, stored, draws))[i];
      bubbles[i] == Bubble(data[i].name, c.x, c.y, Sizes(Mems(data))[i], CpuTier(data[i].cpu))
  {
    var apps := Names(data);
    var mems := Mems(data);
    var cpus := seq(|data|, i requires 0 <= i < |data| => data[i].cpu);
    var sizes := Sizes(mems);
    var colors := CpuColors(cpus);
    var placed;
    placed, saved := PlaceCircles(apps, radii, stored, draws);
    ghost var b := SceneBatch(data, radii, stored, draws);
    assert Enough(b);
    assert placed == Placed(b);
    bubbles := seq(|data|, i requires 0 <= i < |data| =>
      Bubble(apps[i], placed[i].x, placed[i].y, sizes[i], colors[i]));
  }
}

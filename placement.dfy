/**
 * Circle placement from `generate_wallpaper` in collect.py: the `overlaps` test,
 * the bounded random search for a free spot, and the loop that reuses stored
 * positions and rebuilds the position map for the current batch.
 *
 * `random.uniform(a, b)` is `a + (b - a) * random.random()`; the `random()` results
 * are the caller-supplied stream `draws`, two per attempt (one for x, one for y).
 */
module Placement {

  import opened Sequences
  import opened Scaling

  datatype Point = Point(x: real, y: real)

  /** An entry of `placed`: the tuple `(x, y, radius)`. */
  datatype Circle = Circle(x: real, y: real, r: real)

  /** The two `random.random()` results one attempt consumes. */
  datatype Draw = Draw(u: real, v: real)

  /** The box the candidates are drawn in (collect.py:87-88), not the image size. */
  const BoxWidth: real := 10.0
  const BoxHeight: real := 6.0
  /** `range(200)`: the attempt budget of one search. */
  const Attempts: nat := 200

  /** `math.hypot(dx, dy) < s`, decided over the reals without a square root. */
  predicate Closer(dx: real, dy: real, s: real) {
    0.0 < s && dx * dx + dy * dy < s * s
  }

  /** For `h` the length `math.hypot(dx, dy)`, the squared comparison decides `h < s`. */
  lemma CloserMatchesHypot(dx: real, dy: real, s: real, h: real)
    requires 0.0 <= h && h * h == dx * dx + dy * dy
    ensures Closer(dx, dy, s) <==> h < s
  {
    if 0.0 < s {
      assert (s - h) * (s + h) == s * s - h * h;
      FactorSign(s - h, s + h);
    }
  }

  /** Circles `a` and `b` do not overlap: their centres are at least `a.r + b.r` apart. */
  predicate Apart(a: Circle, b: Circle) {
    !Closer(a.x - b.x, a.y - b.y, a.r + b.r)
  }

  /** `overlaps(x, y, r, others)`: some circle of `others` is strictly closer than the two radii. */
  function Overlaps(x: real, y: real, r: real, others: seq<Circle>): (b: bool)
    ensures b <==> exists i :: 0 <= i < |others| && !Apart(Circle(x, y, r), others[i])
  {
    if others == [] then false
    else Closer(x - others[0].x, y - others[0].y, r + others[0].r) || Overlaps(x, y, r, others[1..])
  }

  /** Nothing overlaps an empty list, and circles that only touch do not overlap. */
  lemma OverlapsEdges(x: real, y: real, r: real, o: Circle)
    requires 0.0 <= r + o.r
    requires (x - o.x) * (x - o.x) + (y - o.y) * (y - o.y) == (r + o.r) * (r + o.r)
    ensures !Overlaps(x, y, r, [])
    ensures !Overlaps(x, y, r, [o])
  {
    assert !Closer(x - o.x, y - o.y, r + o.r);
  }

  /** `random.uniform(a, b)` for the `random()` result `u`. */
  function Uniform(a: real, b: real, u: real): real {
    a + (b - a) * u
  }

  /** The attempt `(x, y)` for radius `r` drawn from `d`. */
  function Candidate(r: real, d: Draw): Point {
    Point(Uniform(r, BoxWidth - r, d.u), Uniform(r, BoxHeight - r, d.v))
  }

  predicate Unit(u: real) { 0.0 <= u < 1.0 }

  lemma MulNonneg(x: real, y: real)
    requires 0.0 <= x && 0.0 <= y
    ensures 0.0 <= x * y
  {
  }

  /** A draw of `random()` results lands between the two ends given to `uniform`, whichever is smaller. */
  lemma UniformBetween(a: real, b: real, u: real)
    requires Unit(u)
    ensures a <= b ==> a <= Uniform(a, b, u) <= b
    ensures b <= a ==> b <= Uniform(a, b, u) <= a
  {
    if a <= b {
      MulNonneg(b - a, u);
      MulNonneg(b - a, 1.0 - u);
      assert b - Uniform(a, b, u) == (b - a) * (1.0 - u);
    } else {
      MulNonneg(a - b, u);
      MulNonneg(a - b, 1.0 - u);
      assert Uniform(a, b, u) - b == (a - b) * (1.0 - u);
      assert a - Uniform(a, b, u) == (a - b) * u;
    }
  }

  /** Attempt `d` for radius `r` overlaps a circle of `placed`. */
  predicate Blocked(r: real, d: Draw, placed: seq<Circle>) {
    var p := Candidate(r, d);
    Overlaps(p.x, p.y, r, placed)
  }

  /**
   * The index of the attempt the search keeps among the attempts `ds`: the first one
   * that does not overlap `placed`, or else the last one tried.
   */
  function Pick(r: real, ds: seq<Draw>, placed: seq<Circle>): (k: nat)
    requires |ds| > 0
    ensures k < |ds|
    ensures k < |ds| - 1 ==> !Blocked(r, ds[k], placed)
    ensures forall j :: 0 <= j < k ==> Blocked(r, ds[j], placed)
  {
    if |ds| == 1 || !Blocked(r, ds[0], placed) then 0
    else 1 + Pick(r, ds[1..], placed)
  }

  /** The contract of `Pick` determines it: no other attempt index satisfies it. */
  lemma PickUnique(r: real, ds: seq<Draw>, placed: seq<Circle>, k: nat)
    requires k < |ds|
    requires k < |ds| - 1 ==> !Blocked(r, ds[k], placed)
    requires forall j :: 0 <= j < k ==> Blocked(r, ds[j], placed)
    ensures Pick(r, ds, placed) == k
  {
  }

  /**
   * The `for _ in range(200)` loop: draws attempts from `draws[from..]` until one does
   * not overlap `placed`, and keeps the last attempt when none is free.
   * `used` is the number of attempts consumed.
   */
  method SearchPosition(r: real, draws: seq<Draw>, from: nat, placed: seq<Circle>) returns (p: Point, used: nat)
    requires from + Attempts <= |draws|
    ensures 1 <= used <= Attempts
    ensures used - 1 == Pick(r, draws[from..from + Attempts], placed)
    ensures p == Candidate(r, draws[from + used - 1])
    ensures used < Attempts ==> !Overlaps(p.x, p.y, r, placed)
  {
    ghost var window := draws[from..from + Attempts];
    used := 0;
    p := Candidate(r, draws[from]);
    while used < Attempts
      invariant used <= Attempts
      invariant forall j :: 0 <= j < used ==> Blocked(r, window[j], placed)
      invariant 0 < used ==> p == Candidate(r, draws[from + used - 1])
    {
      p := Candidate(r, draws[from + used]);
      used := used + 1;
      if !Overlaps(p.x, p.y, r, placed) {
        assert !Blocked(r, window[used - 1], placed);
        PickUnique(r, window, placed, used - 1);
        return;
      }
    }
    PickUnique(r, window, placed, used - 1);
  }

  /** The inputs of one placement run: the apps in rank order, their radii, the loaded position map and the `random()` stream. */
  datatype Batch<K> = Batch(apps: seq<K>, radii: seq<real>, stored: map<K, Point>, draws: seq<Draw>)

  /** The stream holds enough draws for every app to use its whole budget. */
  ghost predicate Enough<K>(b: Batch<K>) {
    |b.radii| == |b.apps| && Attempts * |b.apps| <= |b.draws|
  }

  /** The containers of the placement loop after some apps: `placed`, `new_positions`, and how many draws were consumed. */
  datatype LayoutState<K> = LayoutState(placed: seq<Circle>, saved: map<K, Point>, cursor: nat)

  /** The attempts app `i` may use: the next `Attempts` draws of the stream. */
  function Window<K>(b: Batch<K>, st: LayoutState<K>): seq<Draw>
    requires st.cursor + Attempts <= |b.draws|
  {
    b.draws[st.cursor..st.cursor + Attempts]
  }

  /** Where app `i` goes, given the state `st` left by the apps before it. */
  function Spot<K(==)>(b: Batch<K>, st: LayoutState<K>, i: nat): Point
    requires i < |b.apps| == |b.radii| && st.cursor + Attempts <= |b.draws|
  {
    if b.apps[i] in b.stored then b.stored[b.apps[i]]
    else Candidate(b.radii[i], Window(b, st)[Pick(b.radii[i], Window(b, st), st.placed)])
  }

  /** How many draws app `i` consumes: none for a stored app, else the attempts its search made. */
  function Used<K(==)>(b: Batch<K>, st: LayoutState<K>, i: nat): (n: nat)
    requires i < |b.apps| == |b.radii| && st.cursor + Attempts <= |b.draws|
    ensures n <= Attempts
  {
    if b.apps[i] in b.stored then 0 else Pick(b.radii[i], Window(b, st), st.placed) + 1
  }

  /**
   * The state after placing the first `n` apps: each app is appended to `placed` at
   * its `Spot`, tested against every circle placed before it, and recorded in the
   * rebuilt map.
   */
  function Layout<K(==)>(b: Batch<K>, n: nat): (st: LayoutState<K>)
    requires n <= |b.apps| == |b.radii| && Attempts * n <= |b.draws|
    ensures |st.placed| == n && st.cursor <= Attempts * n
  {
    if n == 0 then LayoutState([], map[], 0)
    else
      var prev := Layout(b, n - 1);
      var p := Spot(b, prev, n - 1);
      LayoutState(prev.placed + [Circle(p.x, p.y, b.radii[n - 1])],
                  prev.saved[b.apps[n - 1] := p],
                  prev.cursor + Used(b, prev, n - 1))
  }

  /** The circles of a whole run. */
  function Placed<K(==)>(b: Batch<K>): seq<Circle>
    requires Enough(b)
  {
    Layout(b, |b.apps|).placed
  }

  /** One iteration of the loop: append app `n`'s circle, record its spot, and advance the stream. */
  lemma LayoutStep<K>(b: Batch<K>, n: nat)
    requires n < |b.apps| == |b.radii| && Attempts * (n + 1) <= |b.draws|
    ensures var prev := Layout(b, n);
      var p := Spot(b, prev, n);
      && Layout(b, n + 1).placed == prev.placed + [Circle(p.x, p.y, b.radii[n])]
      && Layout(b, n + 1).saved == prev.saved[b.apps[n] := p]
      && Layout(b, n + 1).cursor == prev.cursor + Used(b, prev, n)
  {
  }

  /**
   * The placement loop. `placed` holds `(x, y, radius)` per app in rank order (its
   * coordinates are the `x_vals`/`y_vals` lists); `saved` is `new_positions`, the map
   * written back to the position file.
   */
  method PlaceCircles<K(==)>(apps: seq<K>, radii: seq<real>, stored: map<K, Point>, draws: seq<Draw>)
    returns (placed: seq<Circle>, saved: map<K, Point>)
    requires |radii| == |apps|
    requires Attempts * |apps| <= |draws|
    ensures placed == Layout(Batch(apps, radii, stored, draws), |apps|).placed
    ensures saved == Layout(Batch(apps, radii, stored, draws), |apps|).saved
  {
    ghost var b := Batch(apps, radii, stored, draws);
    placed, saved := [], map[];
    var cursor := 0;
    for i := 0 to |apps|
      invariant Layout(b, i).placed == placed
      invariant Layout(b, i).saved == saved
      invariant Layout(b, i).cursor == cursor
    {
      var app, radius := apps[i], radii[i];
      var x, y;
      if app in stored {
        x, y := stored[app].x, stored[app].y;
        StoredStep(b, i);
      } else {
        var p, used := SearchPosition(radius, draws, cursor, placed);
        SearchedStep(b, i, p, used);
        x, y := p.x, p.y;
        cursor := cursor + used;
      }
      placed := placed + [Circle(x, y, radius)];
      saved := saved[app := Point(x, y)];
    }
  }

  /** A stored app is placed at its stored position and consumes no draw. */
  lemma StoredStep<K>(b: Batch<K>, i: nat)
    requires i < |b.apps| == |b.radii| && Attempts * (i + 1) <= |b.draws|
    requires b.apps[i] in b.stored
    ensures var prev, q := Layout(b, i), b.stored[b.apps[i]];
      && Layout(b, i + 1).placed == prev.placed + [Circle(q.x, q.y, b.radii[i])]
      && Layout(b, i + 1).saved == prev.saved[b.apps[i] := Point(q.x, q.y)]
      && Layout(b, i + 1).cursor == prev.cursor
  {
    LayoutStep(b, i);
  }

  /** A searched app is placed where `SearchPosition` stops, and consumes the draws it tried. */
  lemma SearchedStep<K>(b: Batch<K>, i: nat, p: Point, used: nat)
    requires i < |b.apps| == |b.radii| && Attempts * (i + 1) <= |b.draws|
    requires b.apps[i] !in b.stored
    requires 1 <= used <= Attempts
    requires var prev := Layout(b, i);
      && used - 1 == Pick(b.radii[i], b.draws[prev.cursor..prev.cursor + Attempts], prev.placed)
      && p == Candidate(b.radii[i], b.draws[prev.cursor + used - 1])
    ensures var prev := Layout(b, i);
      && Layout(b, i + 1).placed == prev.placed + [Circle(p.x, p.y, b.radii[i])]
      && Layout(b, i + 1).saved == prev.saved[b.apps[i] := Point(p.x, p.y)]
      && Layout(b, i + 1).cursor == prev.cursor + used
  {
    LayoutStep(b, i);
    var st := Layout(b, i);
    SearchedSpot(b, st, i, p, used);
  }

  lemma SearchedSpot<K>(b: Batch<K>, st: LayoutState<K>, i: nat, p: Point, used: nat)
    requires i < |b.apps| == |b.radii| && st.cursor + Attempts <= |b.draws|
    requires b.apps[i] !in b.stored
    requires 1 <= used <= Attempts
    requires used - 1 == Pick(b.radii[i], b.draws[st.cursor..st.cursor + Attempts], st.placed)
    requires p == Candidate(b.radii[i], b.draws[st.cursor + used - 1])
    ensures Spot(b, st, i) == p
    ensures Used(b, st, i) == used
  {
    assert Window(b, st)[used - 1] == b.draws[st.cursor + used - 1];
  }

  /** Later apps never move earlier circles: the first `i` circles are those placed after `i` apps. */
  lemma LayoutPrefix<K>(b: Batch<K>, i: nat, n: nat)
    requires i <= n <= |b.apps| == |b.radii| && Attempts * n <= |b.draws|
    ensures Layout(b, n).placed[..i] == Layout(b, i).placed
  {
    var f := seq(n + 1, m requires 0 <= m <= n => Layout(b, m).placed);
    forall m | 0 < m <= n ensures f[m][..m - 1] == f[m - 1] {
      LayoutStep(b, m - 1);
    }
    GrowingPrefix(f, i, n);
  }

  /**
   * Circle `i` of the run is app `i`'s spot with app `i`'s radius, and the circles
   * before it are exactly those placed for the apps before it.
   */
  lemma CircleFixedWhenPlaced<K>(b: Batch<K>, i: nat)
    requires Enough(b) && i < |b.apps|
    ensures Placed(b)[..i] == Layout(b, i).placed
    ensures Placed(b)[i] == Circle(Spot(b, Layout(b, i), i).x, Spot(b, Layout(b, i), i).y, b.radii[i])
  {
    LayoutPrefix(b, i + 1, |b.apps|);
    LayoutPrefix(b, i, |b.apps|);
    assert Placed(b)[..i + 1][i] == Placed(b)[i];
  }

  /** There is one circle per app, in rank order, with that app's radius. */
  lemma OneCirclePerApp<K>(b: Batch<K>, i: nat)
    requires Enough(b) && i < |b.apps|
    ensures |Placed(b)| == |b.apps| && Placed(b)[i].r == b.radii[i]
  {
    CircleFixedWhenPlaced(b, i);
  }

  /** An app found in the store is drawn exactly at its stored coordinate, and consumes no draw. */
  lemma StoredPositionReused<K>(b: Batch<K>, i: nat)
    requires Enough(b) && i < |b.apps|
    requires b.apps[i] in b.stored
    ensures Placed(b)[i] == Circle(b.stored[b.apps[i]].x, b.stored[b.apps[i]].y, b.radii[i])
    ensures Layout(b, i + 1).cursor == Layout(b, i).cursor
  {
    CircleFixedWhenPlaced(b, i);
  }

  /**
   * An app not in the store is placed at one of its next `Attempts` draws: the first
   * attempt clear of every earlier circle (stored ones included), or else the last.
   */
  lemma SearchedPositionIsFirstFree<K>(b: Batch<K>, i: nat)
    requires Enough(b) && i < |b.apps|
    requires b.apps[i] !in b.stored
    ensures var st := Layout(b, i);
      && st.cursor + Attempts <= |b.draws|
      && var k := Pick(b.radii[i], Window(b, st), Placed(b)[..i]);
      && Point(Placed(b)[i].x, Placed(b)[i].y) == Candidate(b.radii[i], Window(b, st)[k])
      && Layout(b, i + 1).cursor == st.cursor + k + 1
      && (forall j :: 0 <= j < k ==> Blocked(b.radii[i], Window(b, st)[j], Placed(b)[..i]))
      && (k < Attempts - 1 ==> forall j :: 0 <= j < i ==> Apart(Placed(b)[i], Placed(b)[j]))
  {
    CircleFixedWhenPlaced(b, i);
    var st := Layout(b, i);
    var k := Pick(b.radii[i], Window(b, st), st.placed);
    if k < Attempts - 1 {
      forall j | 0 <= j < i ensures Apart(Placed(b)[i], Placed(b)[j]) {
        assert Placed(b)[..i][j] == Placed(b)[j];
      }
    }
  }

  /** A searched app's centre is the candidate of one of the draws. */
  lemma SearchedCentreIsCandidate<K>(b: Batch<K>, i: nat) returns (d: Draw)
    requires Enough(b) && i < |b.apps|
    requires b.apps[i] !in b.stored
    ensures d in b.draws
    ensures Point(Placed(b)[i].x, Placed(b)[i].y) == Candidate(b.radii[i], d)
  {
    CircleFixedWhenPlaced(b, i);
    var st := Layout(b, i);
    var k := Pick(b.radii[i], Window(b, st), st.placed);
    d := Window(b, st)[k];
    assert d == b.draws[st.cursor + k];
  }

  /**
   * A searched app's centre lies in `[r, 10 - r] x [r, 6 - r]` whenever that box is
   * not empty, and between its two ends in any case.
   */
  lemma SearchedPositionInBox<K>(b: Batch<K>, i: nat)
    requires Enough(b) && i < |b.apps|
    requires b.apps[i] !in b.stored
    requires forall j :: 0 <= j < |b.draws| ==> Unit(b.draws[j].u) && Unit(b.draws[j].v)
    ensures var c, r := Placed(b)[i], b.radii[i];
      && (r <= BoxWidth - r ==> r <= c.x <= BoxWidth - r)
      && (BoxWidth - r <= r ==> BoxWidth - r <= c.x <= r)
      && (r <= BoxHeight - r ==> r <= c.y <= BoxHeight - r)
      && (BoxHeight - r <= r ==> BoxHeight - r <= c.y <= r)
  {
    var d := SearchedCentreIsCandidate(b, i);
    UniformBetween(b.radii[i], BoxWidth - b.radii[i], d.u);
    UniformBetween(b.radii[i], BoxHeight - b.radii[i], d.v);
  }

  /** App `i` was searched for, and the spot kept overlaps none of the circles placed before it. */
  ghost predicate SearchSucceeded<K>(b: Batch<K>, i: nat)
    requires Enough(b) && i < |b.apps|
  {
    b.apps[i] !in b.stored && !Overlaps(Placed(b)[i].x, Placed(b)[i].y, b.radii[i], Layout(b, i).placed)
  }

  /** A search that stops before its last attempt has succeeded. */
  lemma EarlyStopSucceeds<K>(b: Batch<K>, i: nat)
    requires Enough(b) && i < |b.apps|
    requires b.apps[i] !in b.stored && Used(b, Layout(b, i), i) < Attempts
    ensures SearchSucceeded(b, i)
  {
    SearchedPositionIsFirstFree(b, i);
    CircleFixedWhenPlaced(b, i);
    var c := Placed(b)[i];
    assert c == Circle(c.x, c.y, b.radii[i]);
    forall j | 0 <= j < i ensures Apart(Circle(c.x, c.y, b.radii[i]), Layout(b, i).placed[j]) {
      assert Layout(b, i).placed[j] == Placed(b)[j];
    }
  }

  lemma ApartSymmetric(a: Circle, c: Circle)
    ensures Apart(a, c) <==> Apart(c, a)
  {
    assert (a.x - c.x) * (a.x - c.x) == (c.x - a.x) * (c.x - a.x);
    assert (a.y - c.y) * (a.y - c.y) == (c.y - a.y) * (c.y - a.y);
  }

  /** A circle whose search succeeded overlaps none placed before it. */
  lemma FoundClearOfEarlier<K>(b: Batch<K>, i: nat, j: nat)
    requires Enough(b) && j < i < |b.apps|
    requires SearchSucceeded(b, i)
    ensures Apart(Placed(b)[i], Placed(b)[j]) && Apart(Placed(b)[j], Placed(b)[i])
  {
    CircleFixedWhenPlaced(b, i);
    var c := Placed(b)[i];
    assert Layout(b, i).placed[j] == Placed(b)[j];
    assert c == Circle(c.x, c.y, b.radii[i]);
    ApartSymmetric(c, Placed(b)[j]);
  }

  /** When every app is searched for and every search succeeds, no two circles overlap. */
  lemma CleanSearchesDoNotOverlap<K>(b: Batch<K>)
    requires Enough(b)
    requires forall i :: 0 <= i < |b.apps| ==> SearchSucceeded(b, i)
    ensures forall i, j :: 0 <= i < |b.apps| && 0 <= j < |b.apps| && i != j ==> Apart(Placed(b)[i], Placed(b)[j])
  {
    forall i, j | 0 <= i < |b.apps| && 0 <= j < |b.apps| && i != j ensures Apart(Placed(b)[i], Placed(b)[j]) {
      if j < i {
        FoundClearOfEarlier(b, i, j);
      } else {
        FoundClearOfEarlier(b, j, i);
      }
    }
  }

  /** App `i`'s entry in the map is the centre of its circle. */
  lemma SavedStep<K>(b: Batch<K>, i: nat)
    requires Enough(b) && i < |b.apps|
    ensures Layout(b, i + 1).saved == Layout(b, i).saved[b.apps[i] := Point(Placed(b)[i].x, Placed(b)[i].y)]
  {
    LayoutStep(b, i);
    CircleFixedWhenPlaced(b, i);
  }

  /**
   * The saved map is rebuilt from scratch: its keys are exactly the apps of the
   * batch (stored identities not in the batch are dropped), each mapped to the
   * position drawn for its last occurrence.
   */
  lemma SavedMapIsBatch<K>(b: Batch<K>)
    requires Enough(b)
    ensures var saved := Layout(b, |b.apps|).saved;
      && (forall a :: a in saved <==> a in b.apps)
      && (forall i :: LastOccurrence(b.apps, i) ==> saved[b.apps[i]] == Point(Placed(b)[i].x, Placed(b)[i].y))
  {
    var n := |b.apps|;
    var maps := seq(n + 1, m requires 0 <= m <= n => Layout(b, m).saved);
    var vals := seq(n, i requires 0 <= i < n => Point(Placed(b)[i].x, Placed(b)[i].y));
    forall m | 0 < m <= n ensures maps[m] == maps[m - 1][b.apps[m - 1] := vals[m - 1]] {
      SavedStep(b, m - 1);
    }
    AssignedInOrder(b.apps, vals, maps, n);
    assert b.apps[..n] == b.apps;
  }
}

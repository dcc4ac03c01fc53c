/**
 * main.py: the process-monitor dashboard. The label shortening loop, the bar
 * lengths, rows and colours of the panel, and the script at the bottom of the file,
 * both as written (over the `(name, mem, cpu)` triples monitor.py returns) and with
 * the `(name, pid, mem, cpu)` rows the file expects.
 */
module Dashboard {
  import opened Wrappers
  import opened Sequences
  import opened Scaling
  import opened Ranking
  import opened Sampling
  import opened Monitor
  import opened Notifier

  // ---------------- truncate_to_fit ----------------

  /** `text[:-2] + "…"` on a text of at least two characters. */
  function Shorten(text: string): (r: string)
    requires |text| >= 2
    ensures |r| == |text| - 1 && r[|r| - 1] == '…'
  {
    text[..|text| - 2] + "…"
  }

  /**
   * What `truncate_to_fit` returns, `fits` standing for the renderer's test
   * `bbox.x1 <= max_px`: shorten until the text fits or is one character long.
   */
  function Truncated(text: string, fits: string -> bool): string
    decreases |text|
  {
    if fits(text) || |text| <= 1 then text else Truncated(Shorten(text), fits)
  }

  /** The `while True` loop of `truncate_to_fit`. */
  method TruncateToFit(text: string, fits: string -> bool) returns (r: string)
    ensures r == Truncated(text, fits)
  {
    r := text;
    while true
      invariant Truncated(r, fits) == Truncated(text, fits)
      decreases |r|
    {
      if fits(r) || |r| <= 1 {
        break;
      }
      r := r[..|r| - 2] + "…";
    }
  }

  /**
   * A text that fits is kept; otherwise the result fits or is one character long,
   * and is a prefix of the text with its last kept character replaced by "…".
   */
  lemma {:induction false} TruncatedShape(text: string, fits: string -> bool)
    ensures var r := Truncated(text, fits);
      && (fits(text) ==> r == text)
      && (fits(r) || |r| <= 1)
      && (r == text || (1 <= |r| < |text| && r == text[..|r| - 1] + "…"))
    decreases |text|
  {
    if !fits(text) && |text| > 1 {
      var t := Shorten(text);
      TruncatedShape(t, fits);
      var r := Truncated(t, fits);
      if r != t {
        assert t[..|r| - 1] == text[..|r| - 1];
      }
    }
  }

  /**
   * The result is the longest candidate that fits: neither the text nor any
   * shortening longer than the result fits.
   */
  lemma {:induction false} TruncatedLongest(text: string, fits: string -> bool, m: nat)
    requires Truncated(text, fits) != text
    requires |Truncated(text, fits)| < m < |text|
    ensures !fits(text) && !fits(text[..m - 1] + "…")
    decreases |text|
  {
    var t := Shorten(text);
    var r := Truncated(t, fits);
    TruncatedShape(t, fits);
    if m < |text| - 1 {
      TruncatedLongest(t, fits, m);
      assert t[..m - 1] == text[..m - 1];
    }
  }

  // ---------------- bars ----------------

  /** `BAR_MAX_UNITS`, the length of the longest bar. */
  const BarMaxUnits: real := 100.0

  /** `[d[2] for d in data]` over rows. */
  function RowMems(rows: seq<Row>): (mems: seq<real>)
    ensures |mems| == |rows| && forall i :: 0 <= i < |rows| ==> mems[i] == rows[i].mem
  {
    seq(|rows|, i requires 0 <= i < |rows| => rows[i].mem)
  }

  /** `mem_norm`: each memory figure as a share of `BAR_MAX_UNITS`. */
  function MemNorm(mems: seq<real>): (norm: seq<real>)
    requires |mems| > 0 && Max(mems) > 0.0
    ensures |norm| == |mems|
    ensures forall i :: 0 <= i < |mems| ==> norm[i] == Ratio(mems[i], Max(mems)) * BarMaxUnits
  {
    seq(|mems|, i requires 0 <= i < |mems| => Ratio(mems[i], Max(mems)) * BarMaxUnits)
  }

  /** For positive figures the longest bar is exactly 100, every bar lies in `(0, 100]`, and bars are ordered as memory. */
  lemma MemNormBounds(mems: seq<real>)
    requires |mems| > 0 && forall i :: 0 <= i < |mems| ==> mems[i] > 0.0
    ensures Max(mems) > 0.0
    ensures forall i :: 0 <= i < |mems| ==> 0.0 < MemNorm(mems)[i] <= BarMaxUnits
    ensures forall i :: 0 <= i < |mems| && mems[i] == Max(mems) ==> MemNorm(mems)[i] == BarMaxUnits
    ensures forall i, j :: 0 <= i < |mems| && 0 <= j < |mems| && mems[i] < mems[j] ==> MemNorm(mems)[i] < MemNorm(mems)[j]
  {
    assert mems[0] > 0.0;
    forall i | 0 <= i < |mems|
      ensures 0.0 < MemNorm(mems)[i] <= BarMaxUnits && (mems[i] == Max(mems) ==> MemNorm(mems)[i] == BarMaxUnits)
    {
      RatioBounds(mems[i], Max(mems));
    }
    forall i, j | 0 <= i < |mems| && 0 <= j < |mems| && mems[i] < mems[j] ensures MemNorm(mems)[i] < MemNorm(mems)[j] {
      RatioMonotone(mems[i], mems[j], Max(mems));
    }
  }

  /** `list(range(n))`. */
  function Range(n: nat): seq<int> {
    seq(n, i requires 0 <= i < n => i)
  }

  /** `s[::-1]`. */
  function Reversed<T>(s: seq<T>): seq<T> {
    seq(|s|, i requires 0 <= i < |s| => s[|s| - 1 - i])
  }

  /** `y_positions`: rank 0 on the top row `n - 1`, each later rank one row lower, down to 0. */
  function YPositions(n: nat): (ys: seq<int>)
    ensures |ys| == n
    ensures forall i :: 0 <= i < n ==> ys[i] == n - 1 - i
  {
    Reversed(Range(n))
  }

  /** Rows run downwards in rank order and stay on or above row 0. */
  lemma YPositionsDescending(n: nat, i: nat, j: nat)
    requires i < j < n
    ensures YPositions(n)[i] > YPositions(n)[j] >= 0
  {
  }

  /** `min(cpu / 100, 1.0)`. */
  function Intensity(cpu: real): real {
    if cpu / 100.0 <= 1.0 then cpu / 100.0 else 1.0
  }

  /** The green channel of a bar, `0.75 + intensity * 0.25`. */
  function GreenChannel(cpu: real): real {
    0.75 + Intensity(cpu) * 0.25
  }

  /** For a non-negative cpu figure the channel lies in `[0.75, 1]`, reaching 1 from 100 on, and never decreases. */
  lemma GreenChannelRange(cpu: real, busier: real)
    requires 0.0 <= cpu <= busier
    ensures 0.75 <= GreenChannel(cpu) <= 1.0
    ensures cpu >= 100.0 ==> GreenChannel(cpu) == 1.0
    ensures cpu < 100.0 ==> GreenChannel(cpu) < 1.0
    ensures GreenChannel(cpu) <= GreenChannel(busier)
  {
  }

  datatype Rgb = Rgb(r: real, g: real, b: real)

  /** `(0.1, 0.75 + intensity * 0.25, 0.9)`. */
  function BarColor(cpu: real): Rgb {
    Rgb(0.1, GreenChannel(cpu), 0.9)
  }

  /** The colour loop: one colour per cpu figure, in order. */
  method BarColors(cpus: seq<real>) returns (colors: seq<Rgb>)
    ensures |colors| == |cpus|
    ensures forall i :: 0 <= i < |cpus| ==> colors[i] == BarColor(cpus[i])
  {
    colors := [];
    for i := 0 to |cpus|
      invariant |colors| == i
      invariant forall j :: 0 <= j < i ==> colors[j] == BarColor(cpus[j])
    {
      var intensity := if cpus[i] / 100.0 <= 1.0 then cpus[i] / 100.0 else 1.0;
      colors := colors + [Rgb(0.1, 0.75 + intensity * 0.25, 0.9)];
    }
  }

  // ---------------- the panel ----------------

  /** `f"[{pids[i]}] {app}"`. */
  function Label(r: Row): string {
    "[" + IntText(r.pid) + "] " + r.name
  }

  /** `f"{int(mems[i])} MB | {int(cpus[i])}%"`. */
  function StatsText(r: Row): string {
    IntText(TruncToInt(r.mem)) + " MB | " + IntText(TruncToInt(r.cpu)) + "%"
  }

  /** One row of the panel: its `y`, bar length and colour, the shortened label and the stats text. */
  datatype Bar = Bar(y: int, length: real, color: Rgb, caption: string, stats: string)

  /** The colour of each row's bar. */
  function Colors(rows: seq<Row>): (colors: seq<Rgb>)
    ensures |colors| == |rows| && forall i :: 0 <= i < |rows| ==> colors[i] == BarColor(rows[i].cpu)
  {
    seq(|rows|, i requires 0 <= i < |rows| => BarColor(rows[i].cpu))
  }

  /** The shortened label of each row. */
  function Captions(rows: seq<Row>, fits: string -> bool): (captions: seq<string>)
    ensures |captions| == |rows| && forall i :: 0 <= i < |rows| ==> captions[i] == Truncated(Label(rows[i]), fits)
  {
    seq(|rows|, i requires 0 <= i < |rows| => Truncated(Label(rows[i]), fits))
  }

  /** The stats text of each row. */
  function Stats(rows: seq<Row>): (stats: seq<string>)
    ensures |stats| == |rows| && forall i :: 0 <= i < |rows| ==> stats[i] == StatsText(rows[i])
  {
    seq(|rows|, i requires 0 <= i < |rows| => StatsText(rows[i]))
  }

  /** The first `n` bars of the five columns. */
  function Bars(ys: seq<int>, norm: seq<real>, colors: seq<Rgb>, captions: seq<string>, stats: seq<string>, n: nat): (bars: seq<Bar>)
    requires n <= |ys| && n <= |norm| && n <= |colors| && n <= |captions| && n <= |stats|
    ensures |bars| == n
    ensures forall i :: 0 <= i < n ==> bars[i] == Bar(ys[i], norm[i], colors[i], captions[i], stats[i])
  {
    if n == 0 then []
    else Bars(ys, norm, colors, captions, stats, n - 1) + [Bar(ys[n - 1], norm[n - 1], colors[n - 1], captions[n - 1], stats[n - 1])]
  }

  /** The panel drawn for `rows`. */
  function Panel(rows: seq<Row>, fits: string -> bool): (bars: seq<Bar>)
    requires |rows| > 0 && Max(RowMems(rows)) > 0.0
    ensures |bars| == |rows|
    ensures forall i :: 0 <= i < |rows| ==>
      bars[i] == Bar(YPositions(|rows|)[i], MemNorm(RowMems(rows))[i], BarColor(rows[i].cpu), Truncated(Label(rows[i]), fits), StatsText(rows[i]))
  {
    Bars(YPositions(|rows|), MemNorm(RowMems(rows)), Colors(rows), Captions(rows, fits), Stats(rows), |rows|)
  }

  /** The drawing part of `generate_wallpaper`: the bar data, then one label per app. */
  method GeneratePanel(rows: seq<Row>, fits: string -> bool) returns (bars: seq<Bar>)
    requires |rows| > 0 && Max(RowMems(rows)) > 0.0
    ensures bars == Panel(rows, fits)
  {
    var mems := RowMems(rows);
    var cpus := seq(|rows|, i requires 0 <= i < |rows| => rows[i].cpu);
    var norm := MemNorm(mems);
    var ys := YPositions(|rows|);
    var colors := BarColors(cpus);
    assert colors == Colors(rows);
    bars := DrawLabels(rows, fits, ys, norm, colors);
  }

  /** The label loop of `generate_wallpaper`: the shortened label and the stats text of each bar, in rank order. */
  method DrawLabels(rows: seq<Row>, fits: string -> bool, ys: seq<int>, norm: seq<real>, colors: seq<Rgb>) returns (bars: seq<Bar>)
    requires |ys| == |norm| == |colors| == |rows|
    ensures bars == Bars(ys, norm, colors, Captions(rows, fits), Stats(rows), |rows|)
  {
    ghost var captions, stats := Captions(rows, fits), Stats(rows);
    bars := [];
    for i := 0 to |rows|
      invariant bars == Bars(ys, norm, colors, captions, stats, i)
    {
      var caption := TruncateToFit(Label(rows[i]), fits);
      var text := StatsText(rows[i]);
      assert caption == captions[i] && text == stats[i];
      bars := bars + [Bar(ys[i], norm[i], colors[i], caption, text)];
    }
  }

  // ---------------- the script, with (name, pid, mem, cpu) rows ----------------

  /** `LIMIT` and `MIN_MEM_MB`. */
  const Limit: nat := 6
  const MinMemMb: real := 50.0

  /** The external effects of the script, in order. */
  datatype Action = Render(bars: seq<Bar>) | SetWallpaper | Raise(alert: Alert)

  function Raised(alerts: seq<Alert>): (actions: seq<Action>)
    ensures |actions| == |alerts| && forall i :: 0 <= i < |alerts| ==> actions[i] == Raise(alerts[i])
  {
    seq(|alerts|, i requires 0 <= i < |alerts| => Raise(alerts[i]))
  }

  /** Every row of the sampler clears the 50 MB floor, so the panel's division is defined. */
  lemma RowsClearFloor(samples: seq<Sample>)
    ensures var rows := Rows(samples, Limit, MinMemMb);
      forall i :: 0 <= i < |rows| ==> rows[i].mem >= MinMemMb
  {
    RankBounded(Grouped(samples, UsageKey), MinMemMb, Limit);
  }

  /** The drawing half of the script: render and set the wallpaper when there are rows. */
  function Drawn(rows: seq<Row>, fits: string -> bool): (actions: seq<Action>)
    requires forall i :: 0 <= i < |rows| ==> rows[i].mem >= MinMemMb
    ensures rows == [] ==> actions == []
    ensures rows != [] ==> |actions| == 2 && actions[0].Render? && actions[1] == SetWallpaper
  {
    if rows != [] then (assert rows[0].mem > 0.0; [Render(Panel(rows, fits)), SetWallpaper]) else []
  }

  /** The action that sends the notification. */
  predicate Notifies(a: Action) {
    a.Raise? && a.alert.SendNotification?
  }

  /** What the script does with the rows of one snapshot. */
  function Act(rows: seq<Row>, fits: string -> bool): seq<Action>
    requires forall i :: 0 <= i < |rows| ==> rows[i].mem >= MinMemMb
  {
    Drawn(rows, fits) + Raised(CheckHighMemory(rows))
  }

  /** What the script does for one snapshot of the processes. */
  function Script(samples: seq<Sample>, fits: string -> bool): seq<Action> {
    RowsClearFloor(samples);
    Act(Rows(samples, Limit, MinMemMb), fits)
  }

  /** The `__main__` block: draw and set the wallpaper when there is data, then always check memory. */
  method Run(samples: seq<Sample>, fits: string -> bool) returns (actions: seq<Action>)
    ensures actions == Script(samples, fits)
  {
    var data := Rows(samples, Limit, MinMemMb);
    RowsClearFloor(samples);
    actions := Draw(data, fits);
    actions := actions + Raised(CheckHighMemory(data));
  }

  /** The `if data:` block: generate the wallpaper and set it. */
  method Draw(rows: seq<Row>, fits: string -> bool) returns (actions: seq<Action>)
    requires forall i :: 0 <= i < |rows| ==> rows[i].mem >= MinMemMb
    ensures actions == Drawn(rows, fits)
  {
    actions := [];
    if rows != [] {
      assert rows[0].mem > 0.0;
      var bars := GeneratePanel(rows, fits);
      actions := [Render(bars), SetWallpaper];
    }
  }

  /** Drawing actions, if any, come first and render before setting; the raised alerts follow them unchanged. */
  lemma DrawnThenRaised(drawn: seq<Action>, alerts: seq<Alert>)
    requires drawn == [] || (|drawn| == 2 && drawn[0].Render? && drawn[1] == SetWallpaper)
    ensures var actions := drawn + Raised(alerts);
      && ((exists i :: 0 <= i < |actions| && actions[i].Render?) <==> drawn != [])
      && (drawn != [] ==> actions[0].Render? && actions[1] == SetWallpaper)
      && |actions| == |drawn| + |alerts|
      && actions[|drawn|..] == Raised(alerts)
  {
    var actions := drawn + Raised(alerts);
    assert actions[|drawn|..] == Raised(alerts);
    if drawn != [] {
      assert actions[0] == drawn[0];
    } else {
      assert actions == Raised(alerts);
    }
  }

  /** After actions that raise nothing, the notification is raised iff there are alerts, always followed by the alert time. */
  lemma NotifiesInTail(drawn: seq<Action>, alerts: seq<Alert>)
    requires forall i :: 0 <= i < |drawn| ==> !drawn[i].Raise?
    requires alerts == [] || (|alerts| == 2 && alerts[0].SendNotification? && alerts[1] == RecordAlertTime)
    ensures var actions := drawn + Raised(alerts);
      && ((exists i :: 0 <= i < |actions| && Notifies(actions[i])) <==> alerts != [])
      && (forall i :: 0 <= i < |actions| && Notifies(actions[i]) ==>
            i + 1 < |actions| && actions[i + 1] == Raise(RecordAlertTime))
  {
    var actions := drawn + Raised(alerts);
    assert forall i :: 0 <= i < |drawn| ==> actions[i] == drawn[i];
    if alerts != [] {
      assert Notifies(actions[|drawn|]);
      assert actions[|drawn| + 1] == Raise(RecordAlertTime);
    }
  }

  /**
   * The wallpaper is drawn and set exactly when there are rows, drawing before
   * setting; the memory check follows in every case.
   */
  lemma ActDrawsOnlyWithData(rows: seq<Row>, fits: string -> bool)
    requires forall i :: 0 <= i < |rows| ==> rows[i].mem >= MinMemMb
    ensures var actions := Act(rows, fits);
      && ((exists i :: 0 <= i < |actions| && actions[i].Render?) <==> rows != [])
      && (rows != [] ==> actions[0].Render? && actions[1] == SetWallpaper)
      && actions[|actions| - |CheckHighMemory(rows)|..] == Raised(CheckHighMemory(rows))
  {
    var drawn, alerts := Drawn(rows, fits), CheckHighMemory(rows);
    assert Act(rows, fits) == drawn + Raised(alerts);
    assert drawn != [] <==> rows != [];
    DrawnThenRaised(drawn, alerts);
  }

  /**
   * The notification is raised exactly when some row reaches 7000 MB, and the
   * alert time is written right after it.
   */
  lemma ActNotifiesOffenders(rows: seq<Row>, fits: string -> bool)
    requires forall i :: 0 <= i < |rows| ==> rows[i].mem >= MinMemMb
    ensures var actions := Act(rows, fits);
      && ((exists i :: 0 <= i < |actions| && Notifies(actions[i]))
          <==> exists i :: 0 <= i < |rows| && rows[i].mem >= MemoryThresholdMb)
      && (forall i :: 0 <= i < |actions| && Notifies(actions[i]) ==>
            i + 1 < |actions| && actions[i + 1] == Raise(RecordAlertTime))
  {
    var drawn, alerts := Drawn(rows, fits), CheckHighMemory(rows);
    assert Act(rows, fits) == drawn + Raised(alerts);
    NotifiesInTail(drawn, alerts);
    CheckHighMemoryEffects(rows);
  }

  /**
   * Over a snapshot: the wallpaper is drawn and set exactly when some group reaches
   * 50 MB, drawing before setting; the memory check follows in every case.
   */
  lemma ScriptDrawsOnlyWithData(samples: seq<Sample>, fits: string -> bool)
    ensures var rows, actions := Rows(samples, Limit, MinMemMb), Script(samples, fits);
      && ((exists i :: 0 <= i < |actions| && actions[i].Render?) <==> rows != [])
      && (rows != [] ==> actions[0].Render? && actions[1] == SetWallpaper)
      && actions[|actions| - |CheckHighMemory(rows)|..] == Raised(CheckHighMemory(rows))
  {
    RowsClearFloor(samples);
    var rows := Rows(samples, Limit, MinMemMb);
    assert Script(samples, fits) == Act(rows, fits);
    ActDrawsOnlyWithData(rows, fits);
  }

  /**
   * Over a snapshot: the notification is raised exactly when some group reaches
   * 7000 MB, and the alert time is written right after it.
   */
  lemma ScriptNotifiesOffenders(samples: seq<Sample>, fits: string -> bool)
    ensures var rows, actions := Rows(samples, Limit, MinMemMb), Script(samples, fits);
      && ((exists i :: 0 <= i < |actions| && Notifies(actions[i]))
          <==> exists i :: 0 <= i < |rows| && rows[i].mem >= MemoryThresholdMb)
      && (forall i :: 0 <= i < |actions| && Notifies(actions[i]) ==>
            i + 1 < |actions| && actions[i + 1] == Raise(RecordAlertTime))
  {
    RowsClearFloor(samples);
    var rows := Rows(samples, Limit, MinMemMb);
    assert Script(samples, fits) == Act(rows, fits);
    ActNotifiesOffenders(rows, fits);
  }

  // ---------------- the script as written ----------------

  /** A field of a Python tuple. */
  datatype Value = Text(s: string) | Number(x: real)

  /** The tuple `(name, data["mem"], data["cpu"])` monitor.py returns. */
  function Triple(e: Entry<string>): seq<Value> {
    [Text(e.name), Number(e.mem), Number(e.cpu)]
  }

  function Triples(top: seq<Entry<string>>): (data: seq<seq<Value>>)
    ensures |data| == |top| && forall i :: 0 <= i < |top| ==> data[i] == Triple(top[i])
  {
    seq(|top|, i requires 0 <= i < |top| => Triple(top[i]))
  }

  /** `[d[k] for d in data]`: `None` when some tuple is too short, which raises IndexError. */
  function Column(data: seq<seq<Value>>, k: nat): (c: Option<seq<Value>>)
    ensures c.None? <==> exists i :: 0 <= i < |data| && |data[i]| <= k
    ensures c.Some? ==> |c.value| == |data| && forall i :: 0 <= i < |data| ==> c.value[i] == data[i][k]
  {
    if data == [] then Some([])
    else if |data[0]| <= k then None
    else
      var rest := Column(data[1..], k);
      assert forall i :: 1 <= i < |data| ==> data[1..][i - 1] == data[i];
      if rest.None? then None else Some([data[0][k]] + rest.value)
  }

  /** How the script as written ends, as far as it is followed. */
  datatype Outcome =
    | Finished(actions: seq<Action>)
    | Crashed(error: string)
    | ReachesDrawing

  /** `for name, pid, mem, cpu in data` in `check_high_memory`: ValueError unless every tuple has four fields. */
  predicate UnpacksAsRows(data: seq<seq<Value>>) {
    forall i :: 0 <= i < |data| ==> |data[i]| == 4
  }

  /**
   * The `__main__` block as written: `generate_wallpaper` projects the columns
   * `d[0]` to `d[3]`, raising IndexError at the first missing one; an empty `data`
   * skips the drawing, and `check_high_memory([])` finds no offender.
   */
  function ScriptAsWritten(data: seq<seq<Value>>): Outcome {
    if data == [] then Finished([])
    else if Column(data, 0).None? || Column(data, 1).None? || Column(data, 2).None? || Column(data, 3).None? then
      Crashed("IndexError")
    else ReachesDrawing
  }

  /**
   * Over monitor.py's triples the script raises IndexError whenever there is data
   * and does nothing otherwise; no run of it sends the notification. Its memory check
   * would also fail, with ValueError, on any triple.
   */
  lemma ScriptAsWrittenNeverNotifies(top: seq<Entry<string>>)
    ensures top != [] ==> ScriptAsWritten(Triples(top)) == Crashed("IndexError")
    ensures top == [] ==> ScriptAsWritten(Triples(top)) == Finished([])
    ensures top != [] ==> !UnpacksAsRows(Triples(top))
  {
    if top != [] {
      assert |Triples(top)[0]| == 3;
    }
  }

  /** A snapshot of one process, "a", holding exactly 100 MB. */
  const OneApp: seq<Sample> := [Some(Proc(1, Some("a"), 104857600, 0.0))]

  /** That snapshot groups into the single bucket "a" of 100 MB. */
  lemma OneAppGroups()
    ensures Grouped(OneApp, UsageKey) == [Entry("a", 100.0, 0.0)]
  {
    OneAppSeen();
    OneAppTotals();
    var items := Grouped(OneApp, UsageKey);
    assert |items| == 1;
    assert items[0] == Entry("a", 100.0, 0.0);
    assert items == [items[0]];
  }

  lemma OneAppSeen()
    ensures FirstSeen(OneApp, UsageKey) == ["a"]
  {
    assert OneApp[..0] == [];
  }

  lemma OneAppTotals()
    ensures GroupTotals(OneApp, UsageKey, "a") == Totals(100.0, 0.0)
  {
    assert OneApp[..0] == [];
    assert Contribution(OneApp[0], UsageKey, "a") == Totals(100.0, 0.0);
  }

  /** A single group above the floor is ranked on its own. */
  lemma SingleGroupRanked(e: Entry<string>)
    requires e.mem >= MinMemMb
    ensures Rank([e], MinMemMb, Limit) == [e]
  {
    assert [e][1..] == [];
    assert SortByMem([e]) == [e];
    assert Filter([e], MemAtLeast(MinMemMb)) == [e];
  }

  /** One 100 MB process is enough for the script as written to crash. */
  lemma CrashExample()
    ensures ScriptAsWritten(Triples(Rank(Grouped(OneApp, UsageKey), MinMemMb, Limit))) == Crashed("IndexError")
  {
    OneAppGroups();
    SingleGroupRanked(Entry("a", 100.0, 0.0));
    ScriptAsWrittenNeverNotifies([Entry("a", 100.0, 0.0)]);
  }
}

/**
 * notifier.py: which rows count as offenders, the line written for each one, the
 * bulleted message, and the two effects of `check_high_memory`.
 */
module Notifier {
  import opened Sequences
  import opened Monitor

  /** `MEMORY_THRESHOLD_MB`. */
  const MemoryThresholdMb: real := 7000.0

  /** The offender test, inclusive at the threshold. */
  function Exceeds(): Row -> bool {
    (r: Row) => r.mem >= MemoryThresholdMb
  }

  /** The rows of `data` the comprehension keeps. */
  function Offenders(data: seq<Row>): seq<Row> {
    Filter(data, Exceeds())
  }

  /**
   * The offenders are exactly the rows at or above the threshold, in input order,
   * and there are no more of them than rows.
   */
  lemma OffendersExact(data: seq<Row>)
    ensures |Offenders(data)| <= |data|
    ensures forall i :: 0 <= i < |Offenders(data)| ==> Offenders(data)[i] in data && Offenders(data)[i].mem >= MemoryThresholdMb
    ensures forall i :: 0 <= i < |data| && data[i].mem >= MemoryThresholdMb ==> data[i] in Offenders(data)
    ensures Offenders(data) == [] <==> forall i :: 0 <= i < |data| ==> data[i].mem < MemoryThresholdMb
  {
    forall i | 0 <= i < |data| && Exceeds()(data[i]) ensures data[i] in Offenders(data) {
    }
    if Offenders(data) != [] {
      assert Offenders(data)[0] in data && Exceeds()(Offenders(data)[0]);
    }
  }

  /** Offenders keep the order they have in `data`. */
  lemma OffendersInOrder(data: seq<Row>, a: Row, b: Row)
    requires a.mem >= MemoryThresholdMb && b.mem >= MemoryThresholdMb
    ensures Before(Offenders(data), a, b) <==> Before(data, a, b)
  {
    if Before(Offenders(data), a, b) {
      FilterBeforeSound(data, Exceeds(), a, b);
    }
    if Before(data, a, b) {
      FilterBeforeKept(data, Exceeds(), a, b);
    }
  }

  /** Python's `int(x)`: truncation toward zero. */
  function TruncToInt(x: real): (n: int)
    ensures 0.0 <= x ==> 0 <= n && n as real <= x < n as real + 1.0
    ensures x < 0.0 ==> n <= 0 && n as real - 1.0 < x <= n as real
  {
    if x >= 0.0 then x.Floor else -((-x).Floor)
  }

  function DigitChar(d: nat): char
    requires d < 10
  {
    "0123456789"[d]
  }

  predicate IsDigit(c: char) { '0' <= c <= '9' }

  predicate AllDigits(s: string) {
    forall i :: 0 <= i < |s| ==> IsDigit(s[i])
  }

  /** An optional minus sign followed by digits. */
  predicate Numeral(s: string) {
    |s| > 0 && (s[0] == '-' || IsDigit(s[0])) && AllDigits(s[1..])
  }

  function DigitValue(c: char): nat
    requires IsDigit(c)
  {
    (c as int - '0' as int) as nat
  }

  /** The decimal digits of `n`, without leading zeros. */
  function Digits(n: nat): (s: string)
    ensures |s| > 0 && AllDigits(s)
    ensures s[0] == '0' ==> n == 0
  {
    if n < 10 then [DigitChar(n)] else Digits(n / 10) + [DigitChar(n % 10)]
  }

  /** The number a string of decimal digits spells. */
  function DigitsValue(s: string): nat
    requires AllDigits(s)
  {
    if s == [] then 0 else DigitsValue(s[..|s| - 1]) * 10 + DigitValue(s[|s| - 1])
  }

  lemma {:induction false} DigitsRoundTrip(n: nat)
    ensures DigitsValue(Digits(n)) == n
  {
    if n >= 10 {
      DigitsRoundTrip(n / 10);
      var s := Digits(n);
      assert s[..|s| - 1] == Digits(n / 10);
    }
  }

  /** Python's `str` of an integer. */
  function IntText(n: int): (s: string)
    ensures Numeral(s)
  {
    if n < 0 then "-" + Digits(-n) else Digits(n)
  }

  /** Reads back what `IntText` writes. */
  function IntValue(s: string): int
    requires Numeral(s)
  {
    if s[0] == '-' then -(DigitsValue(s[1..]) as int) else DigitsValue(s)
  }

  /** Every integer's text reads back as that integer. */
  lemma IntTextRoundTrip(n: int)
    ensures IntValue(IntText(n)) == n
  {
    if n < 0 {
      NegativeTextRoundTrip(n);
    } else {
      DigitsRoundTrip(n);
    }
  }

  lemma NegativeTextRoundTrip(n: int)
    requires n < 0
    ensures IntValue(IntText(n)) == n
  {
    var m: nat := -n;
    var d := Digits(m);
    var s := IntText(n);
    assert s == "-" + d;
    MinusRead(d);
    DigitsRoundTrip(m);
    assert IntValue(s) == -(m as int);
  }

  /** A minus sign before digits reads back as the negated digits. */
  lemma MinusRead(d: string)
    requires AllDigits(d)
    ensures Numeral("-" + d) && IntValue("-" + d) == -(DigitsValue(d) as int)
  {
    assert ("-" + d)[1..] == d;
  }

  /** `f"{name} (PID {pid}) – {int(mem)} MB"`. */
  function OffenderLine(r: Row): string {
    r.name + " (PID " + IntText(r.pid) + ") – " + IntText(TruncToInt(r.mem)) + " MB"
  }

  /**
   * An offender line starts with the name, ends with " MB", and the figure just
   * before " MB" reads back as the memory truncated toward zero.
   */
  lemma OffenderLineReadsBack(r: Row)
    ensures var line, m := OffenderLine(r), IntText(TruncToInt(r.mem));
      && |line| == |r.name| + 6 + |IntText(r.pid)| + 4 + |m| + 3
      && line[..|r.name|] == r.name
      && line[|line| - 3..] == " MB"
      && var figure := line[|line| - 3 - |m|..|line| - 3];
      && figure == m
      && Numeral(figure)
      && IntValue(figure) == TruncToInt(r.mem)
  {
    var m := IntText(TruncToInt(r.mem));
    var head := r.name + " (PID " + IntText(r.pid) + ") – ";
    assert OffenderLine(r) == head + m + " MB";
    IntTextRoundTrip(TruncToInt(r.mem));
  }

  /** `"\n\n".join(items)`. */
  function Join(items: seq<string>, sep: string): string {
    if items == [] then ""
    else if |items| == 1 then items[0]
    else Join(items[..|items| - 1], sep) + sep + items[|items| - 1]
  }

  function TotalLength(items: seq<string>): nat {
    if items == [] then 0 else TotalLength(items[..|items| - 1]) + |items[|items| - 1]|
  }

  /** A join holds the items and one separator between each neighbouring pair, and nothing else. */
  lemma {:induction false} JoinLength(items: seq<string>, sep: string)
    requires |items| > 0
    ensures |Join(items, sep)| == TotalLength(items) + |sep| * (|items| - 1)
  {
    if |items| > 1 {
      JoinLength(items[..|items| - 1], sep);
    } else {
      assert items[..0] == [];
    }
  }

  /** A join starts with the first item and ends with the last: no leading or trailing separator. */
  lemma {:induction false} JoinEnds(items: seq<string>, sep: string)
    requires |items| > 0
    ensures var j, first, last := Join(items, sep), items[0], items[|items| - 1];
      |first| <= |j| && |last| <= |j| && j[..|first|] == first && j[|j| - |last|..] == last
  {
    if |items| > 1 {
      var init := items[..|items| - 1];
      JoinEnds(init, sep);
      var j := Join(items, sep);
      assert j == Join(init, sep) + sep + items[|items| - 1];
      assert init[0] == items[0];
      assert j[..|items[0]|] == Join(init, sep)[..|items[0]|];
    }
  }

  /** Where item `i` starts in the join: after the items before it and one separator each. */
  function JoinOffset(items: seq<string>, sep: string, i: nat): nat
    requires i <= |items|
  {
    TotalLength(items[..i]) + |sep| * i
  }

  /** Each item follows the one before it after exactly one separator. */
  lemma JoinOffsetStep(items: seq<string>, sep: string, i: nat)
    requires i < |items|
    ensures JoinOffset(items, sep, i + 1) == JoinOffset(items, sep, i) + |items[i]| + |sep|
  {
    assert items[..i + 1][..i] == items[..i];
  }

  /** The join of all items but the last, then a separator, then the last item. */
  lemma JoinSplit(items: seq<string>, sep: string)
    requires |items| > 1
    ensures var init := items[..|items| - 1];
      && Join(items, sep) == Join(init, sep) + sep + items[|items| - 1]
      && |Join(init, sep)| + |sep| == JoinOffset(items, sep, |items| - 1)
  {
    var init := items[..|items| - 1];
    JoinLength(init, sep);
    assert items[..|items| - 1] == init;
  }

  /** Item `i` sits in the join at its offset. */
  lemma {:induction false} JoinAt(items: seq<string>, sep: string, i: nat)
    requires i < |items|
    ensures var j, o := Join(items, sep), JoinOffset(items, sep, i);
      o + |items[i]| <= |j| && j[o..o + |items[i]|] == items[i]
  {
    var n := |items|;
    if n == 1 {
      assert items[..0] == [];
    } else {
      var init := items[..n - 1];
      JoinSplit(items, sep);
      var left := Join(init, sep);
      var j := Join(items, sep);
      if i < n - 1 {
        JoinAt(init, sep, i);
        assert items[..i] == init[..i];
        var o := JoinOffset(items, sep, i);
        assert o == JoinOffset(init, sep, i);
        assert j[o..o + |items[i]|] == left[o..o + |init[i]|];
      }
    }
  }

  /** A separator follows every item but the last, and the next item starts right after it. */
  lemma {:induction false} JoinSeparatorAt(items: seq<string>, sep: string, i: nat)
    requires i < |items| - 1
    ensures var j, o := Join(items, sep), JoinOffset(items, sep, i) + |items[i]|;
      && o + |sep| <= |j|
      && j[o..o + |sep|] == sep
      && JoinOffset(items, sep, i + 1) == o + |sep|
  {
    var n := |items|;
    var init := items[..n - 1];
    JoinSplit(items, sep);
    JoinOffsetStep(items, sep, i);
    var left := Join(init, sep);
    var j := Join(items, sep);
    if i < n - 2 {
      JoinSeparatorAt(init, sep, i);
      assert items[..i] == init[..i];
      var o := JoinOffset(items, sep, i) + |items[i]|;
      assert o == JoinOffset(init, sep, i) + |init[i]|;
      assert j[o..o + |sep|] == left[o..o + |sep|];
    }
  }

  /** `t` occurs in `s` as a contiguous piece. */
  ghost predicate Occurs(s: string, t: string) {
    exists p :: OccursAt(s, t, p)
  }

  ghost predicate OccursAt(s: string, t: string, p: int) {
    0 <= p <= |s| - |t| && s[p..p + |t|] == t
  }

  /** Every item occurs in the join. */
  lemma {:induction false} JoinContains(items: seq<string>, sep: string, i: nat)
    requires i < |items|
    ensures Occurs(Join(items, sep), items[i])
  {
    var j := Join(items, sep);
    if |items| == 1 {
      assert OccursAt(j, items[0], 0);
    } else {
      var init := items[..|items| - 1];
      var left := Join(init, sep) + sep;
      assert j == left + items[|items| - 1];
      if i == |items| - 1 {
        assert OccursAt(j, items[i], |left|);
      } else {
        JoinContains(init, sep, i);
        var p :| OccursAt(Join(init, sep), init[i], p);
        assert j[p..p + |items[i]|] == Join(init, sep)[p..p + |init[i]|];
        assert OccursAt(j, items[i], p);
      }
    }
  }

  /** `f"• {line}"` for each line. */
  function Bulleted(lines: seq<string>): (items: seq<string>)
    ensures |items| == |lines| && forall i :: 0 <= i < |lines| ==> items[i] == "• " + lines[i]
  {
    seq(|lines|, i requires 0 <= i < |lines| => "• " + lines[i])
  }

  /** The blank line between two bullets. */
  const Separator: string := "\n\n"

  /** The message of `send_notification`. */
  function Message(lines: seq<string>): string {
    Join(Bulleted(lines), Separator)
  }

  /**
   * The message is empty only for no lines; otherwise it starts with a bullet, every
   * line appears in it behind its bullet, and it ends with the last line.
   */
  lemma MessageListsEveryLine(lines: seq<string>)
    ensures Message(lines) == "" <==> lines == []
    ensures forall i :: 0 <= i < |lines| ==> Occurs(Message(lines), "• " + lines[i])
    ensures |lines| > 0 ==> var m, last := Message(lines), lines[|lines| - 1];
      |last| <= |m| && m[..2] == "• " && m[|m| - |last|..] == last
  {
    var items := Bulleted(lines);
    forall i | 0 <= i < |lines| ensures Occurs(Message(lines), "• " + lines[i]) {
      JoinContains(items, Separator, i);
    }
    if |lines| > 0 {
      JoinEnds(items, Separator);
      JoinLength(items, Separator);
      var m, first, last := Message(lines), items[0], items[|items| - 1];
      assert m[..2] == m[..|first|][..2];
      assert m[|m| - |lines[|lines| - 1]|..] == m[|m| - |last|..][2..];
    }
  }

  /**
   * Bullet `i` starts at offset `JoinOffset(Bulleted(lines), Separator, i)`, and
   * unless it is the last, a blank line follows it and bullet `i + 1` starts right
   * after: the lines appear in order with nothing else between them.
   */
  lemma MessageLineAt(lines: seq<string>, i: nat)
    requires i < |lines|
    ensures var m, o, item := Message(lines), JoinOffset(Bulleted(lines), Separator, i), "• " + lines[i];
      && o + |item| <= |m|
      && m[o..o + |item|] == item
      && (i < |lines| - 1 ==>
            && o + |item| + 2 <= |m|
            && m[o + |item|..o + |item| + 2] == Separator
            && JoinOffset(Bulleted(lines), Separator, i + 1) == o + |item| + 2)
  {
    var items := Bulleted(lines);
    JoinAt(items, Separator, i);
    if i < |lines| - 1 {
      JoinSeparatorAt(items, Separator, i);
    }
  }

  /** The two effects `check_high_memory` can have. */
  datatype Alert =
    | SendNotification(icon: string, urgency: string, title: string, message: string)
    | RecordAlertTime

  /** The lines of the offenders, in order. */
  function OffenderLines(data: seq<Row>): (lines: seq<string>)
    ensures |lines| == |Offenders(data)| && forall i :: 0 <= i < |lines| ==> lines[i] == OffenderLine(Offenders(data)[i])
  {
    var offenders := Offenders(data);
    seq(|offenders|, i requires 0 <= i < |offenders| => OffenderLine(offenders[i]))
  }

  /** `check_high_memory`: no effect, or the notification followed by writing the alert time. */
  function CheckHighMemory(data: seq<Row>): (effects: seq<Alert>)
    ensures effects == [] || (|effects| == 2 && effects[0].SendNotification? && effects[1] == RecordAlertTime)
  {
    var offenders := OffenderLines(data);
    if offenders == [] then []
    else [SendNotification("utilities-system-monitor", "critical", "⚠ High Memory Usage", Message(offenders)), RecordAlertTime]
  }

  /**
   * Nothing at all happens when no row reaches the threshold; otherwise the
   * critical notification listing the offenders is sent, then the alert time is written.
   */
  lemma CheckHighMemoryEffects(data: seq<Row>)
    ensures CheckHighMemory(data) == [] <==> forall i :: 0 <= i < |data| ==> data[i].mem < MemoryThresholdMb
    ensures CheckHighMemory(data) != [] ==>
      CheckHighMemory(data) == [SendNotification("utilities-system-monitor", "critical", "⚠ High Memory Usage", Message(OffenderLines(data))), RecordAlertTime]
  {
    OffendersExact(data);
  }
}

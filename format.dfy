/**
 * The two display helpers: `formatTime` shows a remaining time as "mm:ss"
 * (rounding fractional seconds up), `formatDuration` shows a length as
 * "Nm Ss" or "Ss". Both are proved lossless by reading their output back.
 */
module Format {
  import opened Types
  import opened Text

  /** `Math.ceil` on a real. */
  function Ceil(x: real): (c: int)
    ensures c as real - 1.0 < x <= c as real
  {
    -((-x).Floor)
  }

  /** `Math.max(0, Math.ceil(seconds))`: the whole seconds `formatTime` shows. */
  function ClockValue(seconds: real): (n: nat)
    ensures seconds <= 0.0 ==> n == 0
    ensures seconds > 0.0 ==> n as real - 1.0 < seconds <= n as real
  {
    var c := Ceil(seconds);
    if c > 0 then c else 0
  }

  /** `formatTime(seconds)`: minutes and seconds, each padded to two digits, around a colon. */
  function FormatTime(seconds: real): (r: string)
    ensures seconds <= 0.0 ==> r == "00:00"
  {
    var remaining := ClockValue(seconds);
    PadStart2(NatToString(remaining / 60)) + ":" + PadStart2(NatToString(remaining % 60))
  }

  /** A number below 100 prints in at most two digits. */
  lemma ShortNumber(n: nat)
    requires n < 100
    ensures |NatToString(n)| <= 2
  {
    if n >= 10 {
      assert NatToString(n) == NatToString(n / 10) + [DigitChar(n % 10)];
    }
  }

  /**
   * Reading `formatTime` back: everything before the colon is the minutes
   * field, at least two digits and never cut short, whatever the number of
   * minutes, with a leading zero only when padded to two; after the colon
   * come exactly two digits for the seconds, below 60; and
   * minutes * 60 + seconds is the shown time, rounded up and never negative.
   */
  lemma {:induction false} FormatTimeReadsBack(seconds: real)
    ensures var r := FormatTime(seconds);
            var k := |r| - 3;
            && AllDigits(r[..k]) && |r[..k]| >= 2 && (|r[..k]| == 2 || r[0] != '0')
            && r[k] == ':'
            && AllDigits(r[k + 1..]) && |r[k + 1..]| == 2
            && DigitsValue(r[k + 1..]) < 60
            && DigitsValue(r[..k]) * 60 + DigitsValue(r[k + 1..]) == ClockValue(seconds)
  {
    var remaining := ClockValue(seconds);
    var m := PadStart2(NatToString(remaining / 60));
    var s := PadStart2(NatToString(remaining % 60));
    var r := FormatTime(seconds);
    ShortNumber(remaining % 60);
    assert |s| == 2;
    var k := |r| - 3;
    assert r[..k] == m;
    assert r[k] == ':';
    assert r[k + 1..] == s;
    if |m| > 2 {
      assert m == NatToString(remaining / 60);
    }
    PadStart2Value(NatToString(remaining / 60));
    PadStart2Value(NatToString(remaining % 60));
    NatToStringValue(remaining / 60);
    NatToStringValue(remaining % 60);
  }

  /** The minutes field grows beyond two digits rather than being cut: 100 minutes show as "100:00". */
  lemma HundredMinutes()
    ensures FormatTime(6000.0) == "100:00"
  {
    assert Ceil(6000.0) == 6000 by {
      assert (-6000.0).Floor == -6000;
    }
    assert NatToString(1) == "1";
    assert NatToString(10) == NatToString(1) + [DigitChar(0)] == "10";
    assert NatToString(100) == NatToString(10) + [DigitChar(0)] == "100";
    assert NatToString(0) == "0";
  }

  /** Division rounded toward zero, the quotient JavaScript's `%` is defined by. */
  function TruncatedQuotient(a: int, b: int): int
    requires b > 0
  {
    if a >= 0 then a / b else -((-a) / b)
  }

  /**
   * JavaScript's `%`: the remainder of division rounded toward zero, so it
   * takes the sign of the dividend (Dafny's own `%` never goes negative).
   */
  function JsRemainder(a: int, b: int): (r: int)
    requires b > 0
    ensures r == a - b * TruncatedQuotient(a, b)
    ensures a >= 0 ==> 0 <= r < b
    ensures a < 0 ==> -b < r <= 0
  {
    if a >= 0 then a % b else -((-a) % b)
  }

  /**
   * `formatDuration(seconds)` for whole seconds: "{m}m {s}s" from one full
   * minute on, otherwise "{s}s"; neither field is padded. `Math.floor(seconds / 60)`
   * is Dafny's `/` here, which rounds down for a positive divisor.
   */
  function FormatDuration(seconds: int): (r: string)
    ensures |r| >= 2 && r[|r| - 1] == 's'
    ensures seconds < 60 ==> 'm' !in r
  {
    var mins := seconds / 60;
    var secs := JsRemainder(seconds, 60);
    if mins > 0 then IntToString(mins) + "m " + IntToString(secs) + "s"
    else IntToString(secs) + "s"
  }

  /** The first position of `c` in `s`. */
  function IndexOf(s: string, c: char): (r: Option<nat>)
    ensures r.None? ==> c !in s
    ensures r.Some? ==> r.value < |s| && s[r.value] == c && c !in s[..r.value]
  {
    if s == [] then None
    else if s[0] == c then Some(0)
    else
      var rest := IndexOf(s[1..], c);
      if rest.None? then None
      else
        assert s[..rest.value + 1] == [s[0]] + s[1..][..rest.value];
        Some(rest.value + 1)
  }

  /**
   * Reads a duration display back into its minutes field (empty when it is
   * not shown) and its seconds field.
   */
  function SplitDuration(r: string): Option<(string, string)>
  {
    if |r| == 0 || r[|r| - 1] != 's' then None
    else
      var body := r[..|r| - 1];
      var m := IndexOf(body, 'm');
      if m.None? then Some(([], body))
      else if m.value + 1 < |body| && body[m.value + 1] == ' ' then
        Some((body[..m.value], body[m.value + 2..]))
      else None
  }

  /** A field the way `toString` prints a natural number: digits, no leading zero. */
  predicate Canonical(d: string)
  {
    d != [] && AllDigits(d) && (|d| == 1 || d[0] != '0')
  }

  lemma DigitsHaveNoM(d: string)
    requires AllDigits(d)
    ensures 'm' !in d
  {
    forall i | 0 <= i < |d|
      ensures d[i] != 'm'
    {
      assert IsDigit(d[i]);
    }
  }

  /**
   * Reading `formatDuration` back, for a non-negative number of seconds:
   * the minutes field is present exactly from 60 seconds on; both fields are
   * printed without padding; the seconds field is below 60; and
   * minutes * 60 + seconds gives back the input.
   */
  lemma {:induction false} FormatDurationReadsBack(n: nat)
    ensures var f := SplitDuration(FormatDuration(n));
            && f.Some?
            && Canonical(f.value.1) && DigitsValue(f.value.1) < 60
            && (f.value.0 == [] <==> n < 60)
            && (n >= 60 ==> Canonical(f.value.0))
            && AllDigits(f.value.0)
            && DigitsValue(f.value.0) * 60 + DigitsValue(f.value.1) == n
  {
    var r := FormatDuration(n);
    var secs := NatToString(n % 60);
    NatToStringValue(n % 60);
    if n >= 60 {
      var mins := NatToString(n / 60);
      NatToStringValue(n / 60);
      assert r == mins + "m " + secs + "s";
      var body := r[..|r| - 1];
      assert body == mins + "m " + secs;
      DigitsHaveNoM(mins);
      var m := IndexOf(body, 'm');
      assert body[|mins|] == 'm';
      assert m.Some?;
      assert m.value == |mins|;
      assert body[..m.value] == mins;
      assert body[m.value + 2..] == secs;
    } else {
      assert r == secs + "s";
      assert r[..|r| - 1] == secs;
      DigitsHaveNoM(secs);
    }
  }

  /**
   * Below zero no minutes are ever shown (`Math.floor` makes them negative)
   * and the seconds field is the truncated remainder, between -59 and 0.
   */
  lemma FormatDurationNegative(n: int)
    requires n < 0
    ensures FormatDuration(n) == IntToString(JsRemainder(n, 60)) + "s"
    ensures -60 < JsRemainder(n, 60) <= 0
    ensures n % 60 == 0 ==> FormatDuration(n) == "0s"
  {
  }
}

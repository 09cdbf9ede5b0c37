/** The countdown to the next daily challenge, shown on the today page and
    on the detail page of today's challenge: the milliseconds left until
    midnight as hours, minutes and seconds, each written with two digits. */
module Countdown {
  import Text

  const MsPerSecond := 1000
  const MsPerMinute := 60 * MsPerSecond
  const MsPerHour := 60 * MsPerMinute
  const MsPerDay := 24 * MsPerHour

  datatype TimeLeft = TimeLeft(hours: nat, minutes: nat, seconds: nat)

  /** The clock reading in whole seconds. */
  function Seconds(t: TimeLeft): nat {
    (t.hours * 60 + t.minutes) * 60 + t.seconds
  }

  /** `calculateTimeLeft` for `diff` milliseconds, with `floor` of a
      non-negative quotient as integer division: the fields are in range and
      together they are the whole seconds of `diff` within one day. */
  function CalculateTimeLeft(diff: nat): (t: TimeLeft)
    ensures t.hours < 24 && t.minutes < 60 && t.seconds < 60
    ensures Seconds(t) * MsPerSecond <= diff % MsPerDay < Seconds(t) * MsPerSecond + MsPerSecond
  {
    DayRemainder(diff);
    TimeLeft((diff / MsPerHour) % 24, (diff / MsPerMinute) % 60, (diff / MsPerSecond) % 60)
  }

  /** The arithmetic behind `CalculateTimeLeft`, with each quotient named. */
  lemma DayRemainder(diff: nat)
    ensures var h, m, s := (diff / MsPerHour) % 24, (diff / MsPerMinute) % 60, (diff / MsPerSecond) % 60;
      ((h * 60 + m) * 60 + s) * 1000 <= diff % MsPerDay < ((h * 60 + m) * 60 + s) * 1000 + 1000
  {
    var t, r := diff / 1000, diff % 1000;
    var u, s := t / 60, t % 60;
    var v, m := u / 60, u % 60;
    var w, h := v / 24, v % 24;
    assert diff == 1000 * t + r;
    assert t == 60 * u + s;
    assert u == 60 * v + m;
    assert v == 24 * w + h;
    var x := (h * 60 + m) * 60 + s;
    assert x < 86400;
    assert diff == 60000 * u + (1000 * s + r);
    assert diff / 60000 == u;
    assert diff == 3600000 * v + (60000 * m + 1000 * s + r);
    assert diff / 3600000 == v;
    assert diff == 86400000 * w + (1000 * x + r);
    assert diff % 86400000 == 1000 * x + r;
  }

  /** A reading made of in-range fields is read back unchanged. */
  lemma ClockRoundTrip(h: nat, m: nat, s: nat, ms: nat)
    requires h < 24 && m < 60 && s < 60 && ms < 1000
    ensures CalculateTimeLeft(((h * 60 + m) * 60 + s) * 1000 + ms) == TimeLeft(h, m, s)
  {
    var diff := ((h * 60 + m) * 60 + s) * 1000 + ms;
    HoursOf(h, m, s, ms);
    MinutesOf(h, m, s, ms);
    SecondsOf(h, m, s, ms);
  }

  lemma HoursOf(h: nat, m: nat, s: nat, ms: nat)
    requires h < 24 && m < 60 && s < 60 && ms < 1000
    ensures (((h * 60 + m) * 60 + s) * 1000 + ms) / MsPerHour % 24 == h
  {
    var diff := ((h * 60 + m) * 60 + s) * 1000 + ms;
    assert diff == 3600000 * h + (60000 * m + 1000 * s + ms);
  }

  lemma MinutesOf(h: nat, m: nat, s: nat, ms: nat)
    requires h < 24 && m < 60 && s < 60 && ms < 1000
    ensures (((h * 60 + m) * 60 + s) * 1000 + ms) / MsPerMinute % 60 == m
  {
    var diff := ((h * 60 + m) * 60 + s) * 1000 + ms;
    assert diff == 60000 * (h * 60 + m) + (1000 * s + ms);
    assert diff / 60000 == h * 60 + m;
  }

  lemma SecondsOf(h: nat, m: nat, s: nat, ms: nat)
    requires h < 24 && m < 60 && s < 60 && ms < 1000
    ensures (((h * 60 + m) * 60 + s) * 1000 + ms) / MsPerSecond % 60 == s
  {
    var diff := ((h * 60 + m) * 60 + s) * 1000 + ms;
    assert diff == 1000 * ((h * 60 + m) * 60 + s) + ms;
    assert diff / 1000 == (h * 60 + m) * 60 + s;
  }

  /** `String(n).padStart(2, "0")`. */
  function Field(n: nat): (r: string)
    ensures n < 100 ==> |r| == 2
    ensures forall i :: 0 <= i < |r| ==> Text.IsDigit(r[i])
    ensures Text.DigitsValue(r) == n
  {
    var digits := Text.NatToString(n);
    Text.NatToStringRoundTrip(n);
    var r := Text.PadStart(digits, 2, '0');
    if |digits| >= 2 then
      r
    else
      assert r == ['0'] + digits;
      LeadingZero(digits);
      r
  }

  /** A leading zero does not change the value of a digit string. */
  lemma {:induction false} LeadingZero(s: string)
    requires forall i :: 0 <= i < |s| ==> Text.IsDigit(s[i])
    ensures Text.DigitsValue(['0'] + s) == Text.DigitsValue(s)
    decreases |s|
  {
    if s == [] {
      assert Text.DigitsValue(['0']) == Text.DigitsValue([]) * 10 + 0;
    } else {
      var z := ['0'] + s;
      assert z[..|z| - 1] == ['0'] + s[..|s| - 1];
      LeadingZero(s[..|s| - 1]);
    }
  }

  /** The clock text: the three fields separated by colons. */
  function ClockText(t: TimeLeft): string {
    Field(t.hours) + ":" + Field(t.minutes) + ":" + Field(t.seconds)
  }

  /** For fields below 100, which every reading of `CalculateTimeLeft` has,
      the countdown is eight characters, `hh:mm:ss`, and each pair of digits
      reads back as its field. */
  lemma ClockTextShape(t: TimeLeft)
    requires t.hours < 100 && t.minutes < 100 && t.seconds < 100
    ensures var r := ClockText(t);
      && |r| == 8 && r[2] == ':' && r[5] == ':'
      && Text.DigitsValue(r[0..2]) == t.hours
      && Text.DigitsValue(r[3..5]) == t.minutes
      && Text.DigitsValue(r[6..8]) == t.seconds
  {
    var r := ClockText(t);
    var f, g, k := Field(t.hours), Field(t.minutes), Field(t.seconds);
    assert |f| == 2 && |g| == 2 && |k| == 2;
    assert r == f + ":" + g + ":" + k;
    assert r[0..2] == Field(t.hours);
    assert r[3..5] == Field(t.minutes);
    assert r[6..8] == Field(t.seconds);
  }
}

/**
 * The two display formatters of the trending view: a clock-style duration
 * and a view count in Korean units (만 = 10^4, 억 = 10^8).
 */
module TrendingView {
  import opened Text

  // ---------------------------------------------------------------------------
  // formatDuration
  // ---------------------------------------------------------------------------

  datatype Clock = Clock(hours: nat, minutes: nat, seconds: nat)

  /**
   * Hours, minutes and seconds of a whole, non-negative number of seconds:
   * `floor(t / 3600)`, `floor((t % 3600) / 60)` and `floor(t % 60)`, which on
   * whole numbers are integer division and remainder.
   */
  function ClockOf(t: nat): (c: Clock)
    ensures c.minutes < 60 && c.seconds < 60
    ensures c.hours * 3600 + c.minutes * 60 + c.seconds == t
  {
    Clock(t / 3600, (t % 3600) / 60, t % 60)
  }

  /** "h:MM:SS" when there is at least one hour, "MM:SS" otherwise, and "00:00" for a negative count. */
  function FormatDuration(totalSeconds: int): (text: string)
    ensures totalSeconds < 0 ==> text == "00:00"
    ensures 0 <= totalSeconds < 3600 ==> |text| == 5 && text[2] == ':'
    ensures totalSeconds >= 3600 ==> |text| >= 7 && text[|text| - 6] == ':' && text[|text| - 3] == ':'
  {
    if totalSeconds < 0 then "00:00"
    else
      var c := ClockOf(totalSeconds);
      var paddedMinutes := Pad2(c.minutes);
      var paddedSeconds := Pad2(c.seconds);
      if c.hours > 0 then NatToString(c.hours) + ":" + paddedMinutes + ":" + paddedSeconds
      else paddedMinutes + ":" + paddedSeconds
  }

  /** The value of the `len` digits at `from`, and 0 where they are not all digits. */
  function DigitsAt(s: string, from: nat, len: nat): nat {
    if from + len <= |s| && AllDigits(s[from..from + len]) then DigitsValue(s[from..from + len]) else 0
  }

  /**
   * The text reads back as the duration: under an hour it is five characters
   * "MM:SS" whose fields give 60 MM + SS = t; from an hour on it is the hour
   * count, a colon and "MM:SS", whose fields give 3600 h + 60 MM + SS = t.
   * Negative counts print "00:00".
   */
  lemma {:induction false} FormatDurationReadsBack(t: int)
    ensures t < 0 ==> FormatDuration(t) == "00:00"
    ensures 0 <= t < 3600 ==>
              var s := FormatDuration(t);
              |s| == 5 && s[2] == ':' && AllDigits(s[..2]) && AllDigits(s[3..])
              && DigitsAt(s, 0, 2) * 60 + DigitsAt(s, 3, 2) == t
    ensures t >= 3600 ==>
              var s := FormatDuration(t);
              var n := |s| - 6;
              |s| >= 7 && s[n] == ':' && s[n + 3] == ':'
              && AllDigits(s[..n]) && s[0] != '0'
              && AllDigits(s[n + 1..n + 3]) && AllDigits(s[n + 4..])
              && DigitsAt(s, 0, n) * 3600 + DigitsAt(s, n + 1, 2) * 60 + DigitsAt(s, n + 4, 2) == t
  {
    if t >= 0 {
      var c := ClockOf(t);
      var mm, ss := Pad2(c.minutes), Pad2(c.seconds);
      var s := FormatDuration(t);
      if c.hours > 0 {
        var hh := NatToString(c.hours);
        NatToStringValue(c.hours);
        NatToStringNoLeadingZero(c.hours);
        assert s == hh + ":" + mm + ":" + ss;
        var n := |hh|;
        assert s[..n] == hh;
        assert s[n + 1..n + 3] == mm;
        assert s[n + 4..] == ss;
        assert s[n + 4..n + 6] == ss;
      } else {
        assert s == mm + ":" + ss;
        assert s[..2] == mm && s[0..2] == mm;
        assert s[3..] == ss && s[3..5] == ss;
      }
    }
  }

  // ---------------------------------------------------------------------------
  // formatNumber
  // ---------------------------------------------------------------------------

  const Man: nat := 10000
  const Eok: nat := 100000000

  /**
   * Which branch a view count takes. The 억 branch carries the quotient that
   * `toFixed(1)` then prints; the plain branch is left to `Intl.NumberFormat`.
   */
  datatype NumberLabel = EokLabel(value: real) | ManLabel(count: nat) | Plain(n: int)

  /** `Math.round(n / 10000)` for n >= 10000: round half up. */
  function RoundToMan(n: nat): nat {
    (n + Man / 2) / Man
  }

  function FormatNumber(n: int): (tag: NumberLabel)
    ensures n >= Eok <==> tag.EokLabel?
    ensures tag.EokLabel? ==> tag.value * Eok as real == n as real
    ensures tag.ManLabel? <==> Man <= n < Eok
    ensures tag.ManLabel? ==> tag.count * Man <= n + Man / 2 < (tag.count + 1) * Man
    ensures tag.Plain? ==> tag.n == n && n < Man
  {
    if n >= Eok then EokLabel(n as real / Eok as real)
    else if n >= Man then ManLabel(RoundToMan(n))
    else Plain(n)
  }

  /** The 만 branch counts from 1 up to 10000: just below 10^8 it prints "10000만", not "1.0억". */
  lemma ManRange(n: int)
    requires Man <= n < Eok
    ensures 1 <= FormatNumber(n).count <= 10000
    ensures FormatNumber(Eok - 1) == ManLabel(10000)
  {
  }
}

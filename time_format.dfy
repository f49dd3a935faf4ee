/**
 * Rendering of the stopwatch as text: a number below 10 gets a leading "0",
 * minutes and seconds are joined by a separator (":" on the client's timer,
 * " : " in the server's completion record). Numbers are written in decimal as
 * JavaScript's string conversion writes a non-negative integer.
 */
module TimeFormat {

  predicate IsDigit(c: char) {
    '0' <= c <= '9'
  }

  predicate AllDigits(s: string) {
    forall i | 0 <= i < |s| :: IsDigit(s[i])
  }

  /** The digit character for 0 <= d < 10. */
  function DigitChar(d: nat): (c: char)
    requires d < 10
    ensures IsDigit(c)
  {
    "0123456789"[d]
  }

  function DigitValue(c: char): nat {
    if IsDigit(c) then (c as int - '0' as int) else 0
  }

  /** The decimal form of n, no leading zero (as String(n) in JavaScript). */
  function Decimal(n: nat): string
    decreases n
  {
    if n < 10 then [DigitChar(n)] else Decimal(n / 10) + [DigitChar(n % 10)]
  }

  /** Reads a run of decimal digits back into a number. */
  function ParseDecimal(s: string): nat {
    if |s| == 0 then 0 else 10 * ParseDecimal(s[..|s| - 1]) + DigitValue(s[|s| - 1])
  }

  lemma {:induction false} DecimalIsDigits(n: nat)
    ensures |Decimal(n)| >= 1 && AllDigits(Decimal(n))
    ensures n >= 10 ==> Decimal(n)[0] != '0'
    decreases n
  {
    if n >= 10 {
      DecimalIsDigits(n / 10);
    }
  }

  lemma {:induction false} DecimalRoundTrip(n: nat)
    ensures ParseDecimal(Decimal(n)) == n
    decreases n
  {
    if n >= 10 {
      DecimalRoundTrip(n / 10);
      var s := Decimal(n);
      assert s[..|s| - 1] == Decimal(n / 10);
    }
  }

  /** The zero padding of the timer: "0" in front of any value below 10. */
  function Pad(n: nat): (s: string)
    ensures ParseDecimal(s) == n && AllDigits(s)
    ensures n < 10 ==> |s| == 2 && s[0] == '0'
    ensures n >= 10 ==> |s| >= 1 && s[0] != '0'
  {
    DecimalRoundTrip(n);
    DecimalIsDigits(n);
    if n < 10 then ParseLeadingZero(Decimal(n)); "0" + Decimal(n) else Decimal(n)
  }

  lemma PadIsDigits(n: nat)
    ensures |Pad(n)| >= 2 && AllDigits(Pad(n))
    ensures n < 100 ==> |Pad(n)| == 2
  {
    DecimalIsDigits(n);
    if n >= 10 {
      DecimalIsDigits(n / 10);
    }
  }

  lemma {:induction false} ParseLeadingZero(s: string)
    ensures ParseDecimal("0" + s) == ParseDecimal(s)
    decreases |s|
  {
    if |s| > 0 {
      var t := "0" + s;
      assert t[..|t| - 1] == "0" + s[..|s| - 1];
      ParseLeadingZero(s[..|s| - 1]);
    }
  }

  /**
   * mins and secs, each padded, joined by sep. Only a value below 10 starts
   * with '0', and a separator with no digit at either end can be split off
   * again, giving back the two numbers.
   */
  function ClockText(mins: nat, secs: nat, sep: string): (t: string)
    ensures t == Pad(mins) + sep + Pad(secs)
    ensures |t| == |Pad(mins)| + |sep| + |Pad(secs)|
    ensures mins >= 10 ==> |t| > 0 && t[0] != '0'
    ensures secs >= 10 ==> t[|t| - |Pad(secs)|] != '0'
    ensures |sep| > 0 && !IsDigit(sep[0]) && !IsDigit(sep[|sep| - 1]) ==> ParseClock(t) == (mins, secs)
  {
    var m, s := Pad(mins), Pad(secs);
    DigitsSplitBack(m, sep, s);
    assert (m + sep + s)[0] == m[0];
    assert (m + sep + s)[|m| + |sep|] == s[0];
    m + sep + s
  }

  /** Number of digits at the front of s. */
  function LeadingDigits(s: string): (n: nat)
    ensures n <= |s|
  {
    if |s| == 0 || !IsDigit(s[0]) then 0 else 1 + LeadingDigits(s[1..])
  }

  /** Number of digits at the end of s. */
  function TrailingDigits(s: string): (n: nat)
    ensures n <= |s|
  {
    if |s| == 0 || !IsDigit(s[|s| - 1]) then 0 else 1 + TrailingDigits(s[..|s| - 1])
  }

  /** Reads a clock text back: the leading digits are minutes, the trailing digits seconds. */
  function ParseClock(t: string): (nat, nat) {
    (ParseDecimal(t[..LeadingDigits(t)]), ParseDecimal(t[|t| - TrailingDigits(t)..]))
  }

  lemma {:induction false} LeadingDigitsOf(a: string, b: string)
    requires AllDigits(a) && |b| > 0 && !IsDigit(b[0])
    ensures LeadingDigits(a + b) == |a|
    decreases |a|
  {
    if |a| > 0 {
      assert (a + b)[1..] == a[1..] + b;
      LeadingDigitsOf(a[1..], b);
    }
  }

  lemma {:induction false} TrailingDigitsOf(a: string, b: string)
    requires AllDigits(b) && |a| > 0 && !IsDigit(a[|a| - 1])
    ensures TrailingDigits(a + b) == |b|
    decreases |b|
  {
    if |b| > 0 {
      assert (a + b)[..|a + b| - 1] == a + b[..|b| - 1];
      TrailingDigitsOf(a, b[..|b| - 1]);
    }
  }

  /** Two runs of digits joined by a separator with no digit at either end read back as the two numbers. */
  lemma DigitsSplitBack(a: string, sep: string, b: string)
    ensures AllDigits(a) && AllDigits(b) && |sep| > 0 && !IsDigit(sep[0]) && !IsDigit(sep[|sep| - 1]) ==>
      ParseClock(a + sep + b) == (ParseDecimal(a), ParseDecimal(b))
  {
    if AllDigits(a) && AllDigits(b) && |sep| > 0 && !IsDigit(sep[0]) && !IsDigit(sep[|sep| - 1]) {
      var t := a + sep + b;
      assert t == a + (sep + b);
      assert t == (a + sep) + b;
      LeadingDigitsOf(a, sep + b);
      TrailingDigitsOf(a + sep, b);
      assert t[..|a|] == a;
      assert t[|t| - |b|..] == b;
    }
  }

  /** Two two-digit runs around a separator: digits at both ends, the separator between them. */
  lemma TwoDigitLayout(a: string, sep: string, b: string)
    ensures |a| == 2 && |b| == 2 && AllDigits(a) && AllDigits(b) ==>
      && |a + sep + b| == 4 + |sep|
      && (a + sep + b)[2..2 + |sep|] == sep
      && (|sep| > 0 ==> (a + sep + b)[2] == sep[0])
      && AllDigits((a + sep + b)[..2]) && AllDigits((a + sep + b)[|a + sep + b| - 2..])
  {
    if |a| == 2 && |b| == 2 && AllDigits(a) && AllDigits(b) {
      var t := a + sep + b;
      assert t[..2] == a;
      assert t[2..2 + |sep|] == sep;
      assert t[|t| - 2..] == b;
    }
  }

  /** The client's timer display, e.g. "03:07". */
  function TimerDisplay(mins: nat, secs: nat): (t: string)
    ensures ParseClock(t) == (mins, secs)
    ensures mins < 100 && secs < 100 ==> |t| == 5 && t[2] == ':'
    ensures mins >= 10 ==> |t| > 0 && t[0] != '0'
    ensures mins < 100 && secs < 100 ==> AllDigits(t[..2]) && AllDigits(t[|t| - 2..])
    ensures t == Pad(mins) + ":" + Pad(secs)
  {
    PadIsDigits(mins);
    PadIsDigits(secs);
    var sep := ":";
    assert |sep| == 1 && !IsDigit(sep[0]);
    TwoDigitLayout(Pad(mins), sep, Pad(secs));
    ClockText(mins, secs, sep)
  }

  /** The completion time the server records when a player reaches the goal, e.g. "03 : 07". */
  function CompletionTime(mins: nat, secs: nat): (t: string)
    ensures ParseClock(t) == (mins, secs)
    ensures mins < 100 && secs < 100 ==> |t| == 7 && t[2..5] == " : "
    ensures mins >= 10 ==> |t| > 0 && t[0] != '0'
    ensures mins < 100 && secs < 100 ==> AllDigits(t[..2]) && AllDigits(t[|t| - 2..])
  {
    PadIsDigits(mins);
    PadIsDigits(secs);
    var sep := " : ";
    assert |sep| == 3 && !IsDigit(sep[0]) && !IsDigit(sep[2]);
    TwoDigitLayout(Pad(mins), sep, Pad(secs));
    ClockText(mins, secs, sep)
  }

  /**
   * The completion text is exactly the padded minutes, " : " and the padded
   * seconds, at any values (also from 100 minutes on).
   */
  lemma CompletionTimeIsPaddedJoin(mins: nat, secs: nat)
    ensures CompletionTime(mins, secs) == Pad(mins) + " : " + Pad(secs)
  {
  }
}

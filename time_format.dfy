/**
 * The `HH:MM` stamp both the send handler and the chat client build from a
 * `Date`: `getHours()` and `getMinutes()`, each turned into decimal text and
 * left-padded with `'0'` to two characters, joined by a colon.
 */
module TimeFormat {
  import opened Optional

  /** What `Date.prototype.getHours()` can return. */
  type Hour = h: nat | h < 24

  /** What `Date.prototype.getMinutes()` can return. */
  type Minute = m: nat | m < 60

  /** The local wall-clock reading the handlers take from `new Date()`. */
  datatype LocalTime = LocalTime(hours: Hour, minutes: Minute)

  predicate IsDigit(c: char) {
    '0' <= c <= '9'
  }

  function DigitValue(c: char): nat
    requires IsDigit(c)
  {
    c as int - '0' as int
  }

  function DigitChar(d: nat): (c: char)
    requires d < 10
    ensures IsDigit(c) && DigitValue(c) == d
  {
    ('0' as int + d) as char
  }

  predicate AllDigits(s: string) {
    forall i :: 0 <= i < |s| ==> IsDigit(s[i])
  }

  /** The number a string of decimal digits denotes (leading zeros allowed). */
  function DigitsValue(s: string): nat
    requires AllDigits(s)
    decreases |s|
  {
    if s == [] then 0 else DigitsValue(s[..|s| - 1]) * 10 + DigitValue(s[|s| - 1])
  }

  /** `Number.prototype.toString()` on a non-negative integer. */
  function Decimal(n: nat): (s: string)
    ensures AllDigits(s)
    ensures 1 <= |s|
    ensures n < 10 <==> |s| == 1
    ensures n < 100 ==> |s| <= 2
    decreases n
  {
    if n < 10 then [DigitChar(n)] else Decimal(n / 10) + [DigitChar(n % 10)]
  }

  predicate AllZeros(s: string) {
    forall i :: 0 <= i < |s| ==> s[i] == '0'
  }

  /** `String.prototype.padStart(2, "0")`. */
  function PadStart2(s: string): (r: string)
    ensures |r| == if |s| < 2 then 2 else |s|
    ensures r[|r| - |s|..] == s
    ensures AllZeros(r[..|r| - |s|])
  {
    if |s| >= 2 then s else if |s| == 1 then "0" + s else "00"
  }

  function TwoDigits(n: nat): string {
    PadStart2(Decimal(n))
  }

  /** The `${hours}:${minutes}` stamp. */
  function FormatTime(t: LocalTime): string {
    TwoDigits(t.hours) + ":" + TwoDigits(t.minutes)
  }

  /** Two digits, a colon, two digits. */
  predicate IsClockString(s: string) {
    |s| == 5 && IsDigit(s[0]) && IsDigit(s[1]) && s[2] == ':' && IsDigit(s[3]) && IsDigit(s[4])
  }

  /** Reads an `HH:MM` stamp back into its hour and minute numbers. */
  function ParseClock(s: string): Option<(nat, nat)> {
    if IsClockString(s) then Some((DigitsValue(s[..2]), DigitsValue(s[3..]))) else None
  }

  /** The decimal text of a number reads back as that number. */
  lemma {:induction false} DecimalRoundTrip(n: nat)
    ensures DigitsValue(Decimal(n)) == n
    decreases n
  {
    var s := Decimal(n);
    if n >= 10 {
      DecimalRoundTrip(n / 10);
      assert s[..|s| - 1] == Decimal(n / 10);
    }
  }

  /** Below 100, the padded text is exactly two digits and reads back as the number. */
  lemma TwoDigitsRoundTrip(n: nat)
    requires n < 100
    ensures |TwoDigits(n)| == 2 && AllDigits(TwoDigits(n))
    ensures DigitsValue(TwoDigits(n)) == n
  {
    var d := Decimal(n);
    DecimalRoundTrip(n);
    if |d| == 1 {
      var r := TwoDigits(n);
      assert r == ['0', d[0]];
      assert r[..1] == ['0'];
      assert [d[0]][..0] == [];
    }
  }

  /** Every stamp is well formed and reads back as the clock reading it came from. */
  lemma FormatTimeRoundTrip(t: LocalTime)
    ensures IsClockString(FormatTime(t))
    ensures ParseClock(FormatTime(t)) == Some((t.hours as nat, t.minutes as nat))
  {
    var h, m := TwoDigits(t.hours), TwoDigits(t.minutes);
    TwoDigitsRoundTrip(t.hours);
    TwoDigitsRoundTrip(t.minutes);
    var s := h + ":" + m;
    assert s == FormatTime(t);
    assert s[0] == h[0] && s[1] == h[1] && s[2] == ':' && s[3] == m[0] && s[4] == m[1];
    assert IsClockString(s);
    assert s[..2] == h;
    assert s[3..] == m;
  }

  /** Distinct clock readings give distinct stamps. */
  lemma FormatTimeInjective(t1: LocalTime, t2: LocalTime)
    requires FormatTime(t1) == FormatTime(t2)
    ensures t1 == t2
  {
    FormatTimeRoundTrip(t1);
    FormatTimeRoundTrip(t2);
  }
}

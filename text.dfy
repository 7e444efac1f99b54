/** Fixed-width decimal renderings of dates and times, as Python's
    `isoformat()` and `strftime` produce them, with decoders that read them
    back. */
module Text {
  import opened Common
  import opened Calendar

  predicate IsDigit(c: char) {
    '0' <= c <= '9'
  }

  predicate AllDigits(s: string) {
    forall i :: 0 <= i < |s| ==> IsDigit(s[i])
  }

  function DigitChar(n: int): (c: char)
    requires 0 <= n < 10
    ensures IsDigit(c) && c as int - '0' as int == n
  {
    ('0' as int + n) as char
  }

  function Pow10(w: nat): (p: nat)
    ensures p >= 1
  {
    if w == 0 then 1 else 10 * Pow10(w - 1)
  }

  /** The value of a string of decimal digits. */
  function DigitsValue(s: string): nat
    requires AllDigits(s)
  {
    if s == "" then 0
    else 10 * DigitsValue(s[..|s| - 1]) + (s[|s| - 1] as int - '0' as int)
  }

  /** `%0wd`: n written in exactly w decimal digits, zero-padded on the left. */
  function Padded(n: nat, w: nat): (s: string)
    ensures |s| == w && AllDigits(s)
  {
    if w == 0 then "" else Padded(n / 10, w - 1) + [DigitChar(n % 10)]
  }

  /** Reading a padded rendering back gives the number, when it fits. */
  lemma {:induction false} PaddedRoundTrip(n: nat, w: nat)
    requires n < Pow10(w)
    ensures DigitsValue(Padded(n, w)) == n
  {
    if w > 0 {
      var s := Padded(n, w);
      assert s[..|s| - 1] == Padded(n / 10, w - 1);
      PaddedRoundTrip(n / 10, w - 1);
    }
  }

  /** `strftime("%Y-%m-%d")`, also the date part of `isoformat()`. */
  function DateText(d: Date): (s: string)
    requires ValidDate(d)
    ensures |s| == 10
  {
    Padded(d.year, 4) + "-" + Padded(d.month, 2) + "-" + Padded(d.day, 2)
  }

  /** `strftime("%H:%M")`. */
  function ClockText(hour: nat, minute: nat): (s: string)
    requires hour < 24 && minute < 60
    ensures |s| == 5
  {
    Padded(hour, 2) + ":" + Padded(minute, 2)
  }

  /** `datetime.isoformat()` of a naive datetime: `YYYY-MM-DDTHH:MM:SS`,
      followed by `.ffffff` only when the microseconds are not zero. */
  function IsoFormat(t: DateTime): (s: string)
    requires ValidDateTime(t)
    ensures |s| == if t.microsecond == 0 then 19 else 26
  {
    DateText(t.date) + "T" + ClockText(t.hour, t.minute) + ":" + Padded(t.second, 2)
      + (if t.microsecond == 0 then "" else "." + Padded(t.microsecond, 6))
  }

  /** `strftime("%Y-%m-%d %H:%M")`, the rendering the Todoist summary prints. */
  function MinuteText(t: DateTime): (s: string)
    requires ValidDateTime(t)
    ensures |s| == 16
  {
    DateText(t.date) + " " + ClockText(t.hour, t.minute)
  }

  /** The number held by the w characters of s from position i, if all are digits. */
  function FieldAt(s: string, i: nat, w: nat): Option<nat> {
    if i + w <= |s| && AllDigits(s[i..i + w]) then Some(DigitsValue(s[i..i + w])) else None
  }

  /** Reads a `YYYY-MM-DD` date back; anything else, or an impossible date, is None. */
  function DecodeDate(s: string): (r: Option<Date>)
    ensures r.Some? ==> ValidDate(r.value)
  {
    if |s| != 10 || s[4] != '-' || s[7] != '-' then None
    else
      var y, m, d := FieldAt(s, 0, 4), FieldAt(s, 5, 2), FieldAt(s, 8, 2);
      if y.None? || m.None? || d.None? then None
      else if ValidDate(Date(y.value, m.value, d.value)) then Some(Date(y.value, m.value, d.value))
      else None
  }

  /** Reads `HH:MM` back. */
  function DecodeClock(s: string): (r: Option<(nat, nat)>)
    ensures r.Some? ==> r.value.0 < 24 && r.value.1 < 60
  {
    if |s| != 5 || s[2] != ':' then None
    else
      var h, m := FieldAt(s, 0, 2), FieldAt(s, 3, 2);
      if h.None? || m.None? || h.value >= 24 || m.value >= 60 then None
      else Some((h.value, m.value))
  }

  lemma FieldOfPadded(s: string, i: nat, n: nat, w: nat)
    requires i + w <= |s| && s[i..i + w] == Padded(n, w) && n < Pow10(w)
    ensures FieldAt(s, i, w) == Some(n)
  {
    PaddedRoundTrip(n, w);
  }

  lemma DateTextRoundTrip(d: Date)
    requires ValidDate(d)
    ensures DecodeDate(DateText(d)) == Some(d)
  {
    var s := DateText(d);
    assert s[0..4] == Padded(d.year, 4);
    assert s[5..7] == Padded(d.month, 2);
    assert s[8..10] == Padded(d.day, 2);
    FieldOfPadded(s, 0, d.year, 4);
    FieldOfPadded(s, 5, d.month, 2);
    FieldOfPadded(s, 8, d.day, 2);
  }

  lemma ClockTextRoundTrip(hour: nat, minute: nat)
    requires hour < 24 && minute < 60
    ensures DecodeClock(ClockText(hour, minute)) == Some((hour, minute))
  {
    var s := ClockText(hour, minute);
    assert s[0..2] == Padded(hour, 2);
    assert s[3..5] == Padded(minute, 2);
    FieldOfPadded(s, 0, hour, 2);
    FieldOfPadded(s, 3, minute, 2);
  }

  /** Reads an `isoformat()` rendering back; anything else is None. A
      fraction of `.000000` is refused, since `isoformat()` omits it. */
  function DecodeIsoFormat(s: string): (r: Option<DateTime>)
    ensures r.Some? ==> ValidDateTime(r.value)
  {
    if (|s| != 19 && |s| != 26) || s[10] != 'T' || s[16] != ':' then None
    else
      var d, c, sec := DecodeDate(s[..10]), DecodeClock(s[11..16]), FieldAt(s, 17, 2);
      var micro := if |s| == 19 then Some(0) else if s[19] == '.' then FieldAt(s, 20, 6) else None;
      if d.None? || c.None? || sec.None? || micro.None? then None
      else if sec.value >= 60 || micro.value >= 1000000 || (|s| == 26 && micro.value == 0) then None
      else Some(DateTime(d.value, c.value.0, c.value.1, sec.value, micro.value))
  }

  lemma IsoFormatRoundTrip(t: DateTime)
    requires ValidDateTime(t)
    ensures DecodeIsoFormat(IsoFormat(t)) == Some(t)
  {
    var s := IsoFormat(t);
    assert s[..10] == DateText(t.date);
    assert s[11..16] == ClockText(t.hour, t.minute);
    assert s[17..19] == Padded(t.second, 2);
    DateTextRoundTrip(t.date);
    ClockTextRoundTrip(t.hour, t.minute);
    FieldOfPadded(s, 17, t.second, 2);
    if t.microsecond != 0 {
      assert s[19] == '.';
      assert s[20..26] == Padded(t.microsecond, 6);
      assert Pow10(6) == 1000000;
      FieldOfPadded(s, 20, t.microsecond, 6);
    }
  }

  /** `str(n)` for a natural number: its decimal digits, no padding and so
      no leading zero except for n = 0 itself. */
  function Decimal(n: nat): (s: string)
    ensures |s| >= 1 && AllDigits(s) && DigitsValue(s) == n
    ensures s[0] == '0' <==> n == 0
    ensures |s| == 1 || s[0] != '0'
  {
    if n < 10 then [DigitChar(n)]
    else
      var s := Decimal(n / 10) + [DigitChar(n % 10)];
      assert s[..|s| - 1] == Decimal(n / 10);
      s
  }
}

/**
 * The status bar's clock strings (`time_strings` in Face+Chat/shared/utils.py),
 * as `strftime` produces them in the C locale.
 */
module Clock {
  import opened Text

  /** A `datetime` reading: the fields `strftime` formats. */
  datatype DateTime = DateTime(year: nat, month: nat, day: nat, hour: nat, minute: nat, second: nat)

  /** The ranges `datetime` enforces, with years of four digits. */
  predicate ValidDateTime(dt: DateTime)
  {
    1000 <= dt.year <= 9999 && 1 <= dt.month <= 12 && 1 <= dt.day <= 31
    && dt.hour < 24 && dt.minute < 60 && dt.second < 60
  }

  /** The hour on a 12-hour clock, as `%I` counts it. */
  function Hour12(h: nat): (r: nat)
    requires h < 24
    ensures 1 <= r <= 12
    ensures r % 12 == h % 12
  {
    if h % 12 == 0 then 12 else h % 12
  }

  /** `dt.strftime("%I").lstrip("0") or "0"`. */
  function HourText(h: nat): string
    requires h < 24
  {
    var stripped := LStripChar(Pad2(Hour12(h)), '0');
    if stripped == "" then "0" else stripped
  }

  /** `%p` in the C locale. */
  function Meridiem(h: nat): (r: string)
    ensures |r| == 2
  {
    if h < 12 then "AM" else "PM"
  }

  /** The time half of `time_strings`: `f"{hour}:{minute} {ampm}"`. */
  function TimeText(dt: DateTime): string
    requires ValidDateTime(dt)
  {
    HourText(dt.hour) + ":" + Pad2(dt.minute) + " " + Meridiem(dt.hour)
  }

  /** The date half of `time_strings`: `%m/%d/%Y`. */
  function DateText(dt: DateTime): string
    requires ValidDateTime(dt)
  {
    Pad2(dt.month) + "/" + Pad2(dt.day) + "/" + Pad4(dt.year)
  }

  /** `time_strings(dt)`: the time as `H:MM AM|PM` and the date as `MM/DD/YYYY`. */
  function TimeStrings(dt: DateTime): (string, string)
    requires ValidDateTime(dt)
  {
    (TimeText(dt), DateText(dt))
  }

  /** For a 12-hour clock value, stripping the zero of its two-digit field gives its decimal digits. */
  lemma StrippedPad(n: nat)
    requires 1 <= n <= 12
    ensures LStripChar(Pad2(n), '0') == NatToString(n)
    ensures |NatToString(n)| <= 2
  {
    var p := Pad2(n);
    DigitValue(0);
    DigitValue(1);
    DigitValue(n % 10);
    if n < 10 {
      assert p == [Digit(0)] + [Digit(n)];
      assert Digit(n) != '0';
      assert LStripChar(p, '0') == LStripChar(p[1..], '0');
      assert p[1..] == [Digit(n)];
      assert NatToString(n) == [Digit(n)];
    } else {
      assert n / 10 == 1;
      assert p == [Digit(1)] + [Digit(n % 10)];
      assert Digit(1) != '0';
      assert NatToString(1) == [Digit(1)];
      assert NatToString(n) == NatToString(1) + [Digit(n % 10)];
    }
  }

  /**
   * Stripping the zero of `%I` gives exactly the decimal 12-hour hour: one or two
   * digits, no leading zero, never empty, so the `or "0"` fallback never fires.
   */
  lemma HourTextIsHour12(h: nat)
    requires h < 24
    ensures HourText(h) == NatToString(Hour12(h))
    ensures 1 <= |HourText(h)| <= 2 && HourText(h)[0] != '0'
    ensures DigitsValue(HourText(h)) == Hour12(h)
  {
    StrippedPad(Hour12(h));
  }

  /** The pieces of a five-part concatenation can be cut back out of it. */
  lemma Concat5(a: string, b: string, c: string, d: string, e: string)
    ensures var t := a + b + c + d + e;
            var i, j, k, l := |a|, |a| + |b|, |a| + |b| + |c|, |a| + |b| + |c| + |d|;
            && |t| == l + |e|
            && t[..i] == a && t[i..j] == b && t[j..k] == c && t[k..l] == d && t[l..] == e
  {
  }

  /** Cutting `h:mm p` back into its hour, minute and suffix. */
  lemma TimePieces(h: string, m: string, p: string)
    requires |m| == 2
    ensures var t := h + ":" + m + " " + p;
            var k := |h|;
            && |t| == k + 4 + |p|
            && t[..k] == h && t[k] == ':'
            && t[k + 1..k + 3] == m && t[k + 3] == ' '
            && t[k + 4..] == p
  {
    Concat5(h, ":", m, " ", p);
    var t := h + ":" + m + " " + p;
    var k := |h|;
    assert t[k] == t[k..k + 1][0];
    assert t[k + 3] == t[k + 3..k + 4][0];
  }

  /** The meridiem is AM exactly before noon, and with the 12-hour hour it gives back the 24-hour hour. */
  lemma MeridiemHour(h: nat)
    requires h < 24
    ensures Meridiem(h) == "AM" <==> h < 12
    ensures h == Hour12(h) % 12 + (if Meridiem(h) == "PM" then 12 else 0)
  {
    assert "AM" != "PM" by {
      assert "AM"[0] != "PM"[0];
    }
  }

  /**
   * The time string is `H:MM AM|PM` and reads back to the clock it came from:
   * the one or two digits before the colon give the 12-hour hour, the two after
   * it the minute, and the suffix is AM exactly before noon, so together they
   * give back the 24-hour hour.
   */
  lemma TimeStringRoundTrip(dt: DateTime)
    requires ValidDateTime(dt)
    ensures var t := TimeText(dt);
            var k := |HourText(dt.hour)|;
            && (k == 1 || k == 2) && |t| == k + 6 && t[k] == ':' && t[k + 3] == ' '
            && DigitsValue(t[..k]) == Hour12(dt.hour)
            && DigitsValue(t[k + 1..k + 3]) == dt.minute
            && (t[k + 4..] == "AM" <==> dt.hour < 12)
            && dt.hour == DigitsValue(t[..k]) % 12 + (if t[k + 4..] == "PM" then 12 else 0)
  {
    var h, m, p := HourText(dt.hour), Pad2(dt.minute), Meridiem(dt.hour);
    HourTextIsHour12(dt.hour);
    MeridiemHour(dt.hour);
    assert |p| == 2;
    TimePieces(h, m, p);
    assert h + ":" + m + " " + p == TimeText(dt);
  }

  /** The date string is `MM/DD/YYYY`, zero-padded, and reads back to the date. */
  lemma DateStringRoundTrip(dt: DateTime)
    requires ValidDateTime(dt)
    ensures var d := DateText(dt);
            && |d| == 10 && d[2] == '/' && d[5] == '/'
            && DigitsValue(d[0..2]) == dt.month
            && DigitsValue(d[3..5]) == dt.day
            && DigitsValue(d[6..10]) == dt.year
  {
    var mo, da, yr := Pad2(dt.month), Pad2(dt.day), Pad4(dt.year);
    Concat5(mo, "/", da, "/", yr);
    var d := mo + "/" + da + "/" + yr;
    assert d == DateText(dt);
    assert d[2] == d[2..3][0] == '/';
    assert d[5] == d[5..6][0] == '/';
    assert d[0..2] == d[..2];
    assert d[6..10] == d[6..];
  }

  /** Two `h:mm p` strings with two-character minutes and suffixes are equal only piece by piece. */
  lemma SamePieces(ha: string, ma: string, pa: string, hb: string, mb: string, pb: string)
    requires |ma| == 2 && |mb| == 2 && |pa| == 2 && |pb| == 2
    requires ha + ":" + ma + " " + pa == hb + ":" + mb + " " + pb
    ensures ha == hb && ma == mb && pa == pb
  {
    TimePieces(ha, ma, pa);
    TimePieces(hb, mb, pb);
  }

  /** The 12-hour hour and the meridiem together determine the 24-hour hour. */
  lemma Hour12Meridiem(h1: nat, h2: nat)
    requires h1 < 24 && h2 < 24
    requires Hour12(h1) == Hour12(h2) && Meridiem(h1) == Meridiem(h2)
    ensures h1 == h2
  {
    MeridiemHour(h1);
    MeridiemHour(h2);
  }

  /** Equal time strings have equal hour texts, minute fields and meridiems. */
  lemma TimeTextPieces(a: DateTime, b: DateTime)
    requires ValidDateTime(a) && ValidDateTime(b)
    requires TimeText(a) == TimeText(b)
    ensures HourText(a.hour) == HourText(b.hour)
    ensures Pad2(a.minute) == Pad2(b.minute)
    ensures Meridiem(a.hour) == Meridiem(b.hour)
  {
    SamePieces(HourText(a.hour), Pad2(a.minute), Meridiem(a.hour), HourText(b.hour), Pad2(b.minute), Meridiem(b.hour));
  }

  /** Two readings with the same time string agree on the hour and the minute. */
  lemma TimeStringDeterminesClock(a: DateTime, b: DateTime)
    requires ValidDateTime(a) && ValidDateTime(b)
    requires TimeStrings(a).0 == TimeStrings(b).0
    ensures a.hour == b.hour && a.minute == b.minute
  {
    TimeTextPieces(a, b);
    HourTextIsHour12(a.hour);
    HourTextIsHour12(b.hour);
    Hour12Meridiem(a.hour, b.hour);
  }
}

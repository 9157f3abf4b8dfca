/**
 * Times of day as the subtitle writer renders them: `%H:%M:%S.%f` cut to
 * milliseconds, i.e. "HH:MM:SS.mmm". A time is a count of milliseconds
 * since midnight; datetime arithmetic on a bare time wraps at 24 hours.
 */
module Clock {
  import opened Wrappers
  import opened Text

  const DayMs: nat := 86_400_000

  /** Milliseconds since midnight. */
  type TimeOfDay = t: nat | t < DayMs

  function Pow10(n: nat): (p: nat)
    ensures p >= 1
  {
    if n == 0 then 1 else 10 * Pow10(n - 1)
  }

  /** `n` in exactly `width` decimal digits, zero-padded (`%02d`, `%03d`). */
  function Pad(n: nat, width: nat): (r: string)
    ensures |r| == width && AllDigits(r)
  {
    if width == 0 then [] else Pad(n / 10, width - 1) + [DigitChar(n % 10)]
  }

  /** Padding loses nothing when the number fits the width. */
  lemma {:induction false} PadValue(n: nat, width: nat)
    requires n < Pow10(width)
    ensures DigitsValue(Pad(n, width)) == n
  {
    if width > 0 {
      assert n / 10 < Pow10(width - 1);
      PadValue(n / 10, width - 1);
      var s := Pad(n, width);
      assert s[..|s| - 1] == Pad(n / 10, width - 1);
    }
  }

  /** A string of `n` digits denotes less than 10^n. */
  lemma {:induction false} DigitsBound(s: string)
    requires AllDigits(s)
    ensures DigitsValue(s) < Pow10(|s|)
  {
    if s != [] {
      DigitsBound(s[..|s| - 1]);
    }
  }

  /** `time.strftime("%H:%M:%S.%f")[:-3]`. */
  function FormatClock(t: TimeOfDay): (r: string)
    ensures |r| == 12 && r[2] == ':' && r[5] == ':' && r[8] == '.'
    ensures forall i :: 0 <= i < |r| ==> IsDigit(r[i]) || r[i] == ':' || r[i] == '.'
  {
    var seconds := t / 1000;
    var minutes := seconds / 60;
    Pad(minutes / 60, 2) + ":" + Pad(minutes % 60, 2) + ":" + Pad(seconds % 60, 2) + "." + Pad(t % 1000, 3)
  }

  /** Reads "HH:MM:SS.mmm" back into milliseconds; None when the text is not
      of that exact form. */
  function ParseClock(s: string): (r: Option<TimeOfDay>)
    ensures r.Some? ==> |s| == 12
  {
    if |s| == 12 && s[2] == ':' && s[5] == ':' && s[8] == '.'
       && AllDigits(s[0..2]) && AllDigits(s[3..5]) && AllDigits(s[6..8]) && AllDigits(s[9..12])
    then
      var h, m, sec, ms := DigitsValue(s[0..2]), DigitsValue(s[3..5]), DigitsValue(s[6..8]), DigitsValue(s[9..12]);
      DigitsBound(s[9..12]);
      if h < 24 && m < 60 && sec < 60 then Some(h * 3_600_000 + m * 60_000 + sec * 1000 + ms) else None
    else None
  }

  /** The hours, minutes, seconds and milliseconds `FormatClock` renders are
      in range and add back up to the time. */
  lemma ClockFields(t: TimeOfDay)
    ensures var seconds := t / 1000; var minutes := seconds / 60;
      minutes / 60 < 24 && minutes % 60 < 60 && seconds % 60 < 60 && t % 1000 < 1000
      && (minutes / 60) * 3_600_000 + (minutes % 60) * 60_000 + (seconds % 60) * 1000 + t % 1000 == t
  {
    var seconds := t / 1000;
    var minutes := seconds / 60;
    assert t == 1000 * seconds + t % 1000;
    assert seconds == 60 * minutes + seconds % 60;
    assert minutes == 60 * (minutes / 60) + minutes % 60;
  }

  /** Where each field sits in the rendering. */
  lemma FormatClockSlices(t: TimeOfDay)
    ensures var seconds := t / 1000; var minutes := seconds / 60; var s := FormatClock(t);
      s[0..2] == Pad(minutes / 60, 2) && s[3..5] == Pad(minutes % 60, 2)
      && s[6..8] == Pad(seconds % 60, 2) && s[9..12] == Pad(t % 1000, 3)
  {
    var seconds := t / 1000;
    var minutes := seconds / 60;
    var a, b, c, d := Pad(minutes / 60, 2), Pad(minutes % 60, 2), Pad(seconds % 60, 2), Pad(t % 1000, 3);
    assert FormatClock(t) == a + ":" + b + ":" + c + "." + d;
    assert FormatClock(t) == a + ([':'] + b) + ([':'] + c) + (['.'] + d);
  }

  /** A zero-padded field reads back as its number. */
  lemma PadField(s: string, n: nat, width: nat)
    requires s == Pad(n, width) && n < Pow10(width)
    ensures AllDigits(s) && DigitsValue(s) == n
  {
    PadValue(n, width);
  }

  /** A text laid out as "HH:MM:SS.mmm" with in-range fields reads as their
      sum. */
  lemma ParseFields(s: string, h: nat, m: nat, sec: nat, ms: nat)
    requires |s| == 12 && s[2] == ':' && s[5] == ':' && s[8] == '.'
    requires AllDigits(s[0..2]) && AllDigits(s[3..5]) && AllDigits(s[6..8]) && AllDigits(s[9..12])
    requires DigitsValue(s[0..2]) == h && DigitsValue(s[3..5]) == m
    requires DigitsValue(s[6..8]) == sec && DigitsValue(s[9..12]) == ms
    requires h < 24 && m < 60 && sec < 60 && ms < 1000
    ensures ParseClock(s) == Some(h * 3_600_000 + m * 60_000 + sec * 1000 + ms)
  {
  }

  /** Every rendered time reads back as itself: rendering is injective and
      `strptime` of the writer's own start stamp cannot fail. */
  lemma ParseFormatClock(t: TimeOfDay)
    ensures ParseClock(FormatClock(t)) == Some(t)
  {
    var seconds := t / 1000;
    var minutes := seconds / 60;
    var s := FormatClock(t);
    ClockFields(t);
    FormatClockSlices(t);
    PadField(s[0..2], minutes / 60, 2);
    PadField(s[3..5], minutes % 60, 2);
    PadField(s[6..8], seconds % 60, 2);
    PadField(s[9..12], t % 1000, 3);
    ParseFields(s, minutes / 60, minutes % 60, seconds % 60, t % 1000);
  }

  /** Zero-padding a digit string to its own width gives it back. */
  lemma {:induction false} DigitsPad(s: string)
    requires AllDigits(s)
    ensures Pad(DigitsValue(s), |s|) == s
  {
    if s != [] {
      var init := s[..|s| - 1];
      var d := (s[|s| - 1] as int) - ('0' as int);
      DigitsPad(init);
      assert DigitsValue(s) / 10 == DigitsValue(init) && DigitsValue(s) % 10 == d;
      assert DigitChar(d) == s[|s| - 1];
      assert s == init + [s[|s| - 1]];
    }
  }

  /** The fields of a sum of in-range hours, minutes, seconds and
      milliseconds are those hours, minutes, seconds and milliseconds. */
  lemma SumFields(h: nat, m: nat, sec: nat, ms: nat)
    requires h < 24 && m < 60 && sec < 60 && ms < 1000
    ensures var t := h * 3_600_000 + m * 60_000 + sec * 1000 + ms;
      var seconds := t / 1000; var minutes := seconds / 60;
      minutes / 60 == h && minutes % 60 == m && seconds % 60 == sec && t % 1000 == ms
  {
    var t := h * 3_600_000 + m * 60_000 + sec * 1000 + ms;
    assert t == 1000 * (h * 3600 + m * 60 + sec) + ms;
    assert t / 1000 == h * 3600 + m * 60 + sec;
    assert h * 3600 + m * 60 + sec == 60 * (h * 60 + m) + sec;
    assert (t / 1000) / 60 == h * 60 + m;
  }

  /** What a successful parse found: the layout, four digit fields in range,
      and the time they add up to. */
  lemma ParsedFields(s: string, t: TimeOfDay)
    requires ParseClock(s) == Some(t)
    ensures |s| == 12 && s[2] == ':' && s[5] == ':' && s[8] == '.'
    ensures AllDigits(s[0..2]) && AllDigits(s[3..5]) && AllDigits(s[6..8]) && AllDigits(s[9..12])
    ensures DigitsValue(s[0..2]) < 24 && DigitsValue(s[3..5]) < 60 && DigitsValue(s[6..8]) < 60 && DigitsValue(s[9..12]) < 1000
    ensures t == DigitsValue(s[0..2]) * 3_600_000 + DigitsValue(s[3..5]) * 60_000 + DigitsValue(s[6..8]) * 1000 + DigitsValue(s[9..12])
  {
    DigitsBound(s[9..12]);
  }

  /** Rendering a sum of in-range fields shows those fields. */
  lemma FormatFields(h: nat, m: nat, sec: nat, ms: nat)
    requires h < 24 && m < 60 && sec < 60 && ms < 1000
    ensures FormatClock(h * 3_600_000 + m * 60_000 + sec * 1000 + ms)
      == Pad(h, 2) + ":" + Pad(m, 2) + ":" + Pad(sec, 2) + "." + Pad(ms, 3)
  {
    SumFields(h, m, sec, ms);
  }

  /** A text of the "HH:MM:SS.mmm" layout is its four fields joined by the
      separators. */
  lemma Reassemble(s: string)
    requires |s| == 12 && s[2] == ':' && s[5] == ':' && s[8] == '.'
    ensures s == s[0..2] + ":" + s[3..5] + ":" + s[6..8] + "." + s[9..12]
  {
  }

  /** A text whose fields are the zero-padded renderings of in-range
      numbers is the rendering of their sum. */
  lemma RenderFields(s: string, h: nat, m: nat, sec: nat, ms: nat)
    requires |s| == 12 && s[2] == ':' && s[5] == ':' && s[8] == '.'
    requires h < 24 && m < 60 && sec < 60 && ms < 1000
    requires Pad(h, 2) == s[0..2] && Pad(m, 2) == s[3..5] && Pad(sec, 2) == s[6..8] && Pad(ms, 3) == s[9..12]
    ensures FormatClock(h * 3_600_000 + m * 60_000 + sec * 1000 + ms) == s
  {
    FormatFields(h, m, sec, ms);
    Reassemble(s);
  }

  /** Rendering the time a well-formed text denotes gives the text back. */
  lemma RenderParsed(s: string, h: nat, m: nat, sec: nat, ms: nat)
    requires |s| == 12 && s[2] == ':' && s[5] == ':' && s[8] == '.'
    requires AllDigits(s[0..2]) && AllDigits(s[3..5]) && AllDigits(s[6..8]) && AllDigits(s[9..12])
    requires DigitsValue(s[0..2]) == h && DigitsValue(s[3..5]) == m
    requires DigitsValue(s[6..8]) == sec && DigitsValue(s[9..12]) == ms
    requires h < 24 && m < 60 && sec < 60 && ms < 1000
    ensures FormatClock(h * 3_600_000 + m * 60_000 + sec * 1000 + ms) == s
  {
    DigitsPad(s[0..2]);
    DigitsPad(s[3..5]);
    DigitsPad(s[6..8]);
    DigitsPad(s[9..12]);
    RenderFields(s, h, m, sec, ms);
  }

  /** The only text that reads as a time is that time's own rendering: no
      other spelling (a missing leading zero, a field out of range) parses. */
  lemma ParseClockExact(s: string, t: TimeOfDay)
    requires ParseClock(s) == Some(t)
    ensures s == FormatClock(t)
  {
    ParsedFields(s, t);
    RenderParsed(s, DigitsValue(s[0..2]), DigitsValue(s[3..5]), DigitsValue(s[6..8]), DigitsValue(s[9..12]));
  }

  /** Parsing and rendering are inverse both ways. */
  lemma ParseClockIff(s: string, t: TimeOfDay)
    ensures ParseClock(s) == Some(t) <==> s == FormatClock(t)
  {
    if ParseClock(s) == Some(t) {
      ParseClockExact(s, t);
    }
    if s == FormatClock(t) {
      ParseFormatClock(t);
    }
  }

  /** Adding a duration to a time of day, as `datetime + timedelta` shows it
      through `%H:%M:%S`: modulo 24 hours. */
  function AddMs(t: TimeOfDay, d: nat): (r: TimeOfDay)
    ensures (t + d - r) % DayMs == 0
  {
    (t + d) % DayMs
  }
}

/**
 * The subtitle writer of talklocal/main/generate_subtitle.py: the reading-time
 * estimate behind every cue's end time, the search for the next SRT cue
 * number, the SRT and WebVTT writers appending to their files, and the
 * fixed-size caption buffer.
 *
 * The wall clock is a parameter (`now`, milliseconds since midnight) and the
 * file system is a map from path to file content.
 */
module Subtitle {
  import opened Wrappers
  import opened Text
  import opened Clock

  // ---------------------------------------------------------------------
  // Reading-time estimate (`calculate_end_time`)
  // ---------------------------------------------------------------------

  /** `\w` restricted to ASCII: letters, digits and the underscore. */
  predicate IsWordChar(c: char) {
    ('a' <= c <= 'z') || ('A' <= c <= 'Z') || ('0' <= c <= '9') || c == '_'
  }

  predicate AllWord(s: string) {
    forall i :: 0 <= i < |s| ==> IsWordChar(s[i])
  }

  /** Length of the longest prefix of word characters. */
  function RunLength(s: string): (k: nat)
    ensures k <= |s| && AllWord(s[..k])
    ensures k == |s| || !IsWordChar(s[k])
  {
    if s == [] || !IsWordChar(s[0]) then 0
    else
      var k := RunLength(s[1..]);
      assert s[..k + 1] == [s[0]] + s[1..][..k];
      k + 1
  }

  /** `re.findall(r'\w+', s)`: the maximal runs of word characters, left to
      right. */
  function FindWords(s: string): (ws: seq<string>)
    ensures forall i :: 0 <= i < |ws| ==> ws[i] != [] && AllWord(ws[i])
    decreases |s|
  {
    if s == [] then []
    else if !IsWordChar(s[0]) then FindWords(s[1..])
    else
      var k := RunLength(s);
      [s[..k]] + FindWords(s[k..])
  }

  /** Reference count of words: the positions holding a word character
      that does not follow one (`afterWord` says whether the character
      before `s` was one). */
  function WordStarts(s: string, afterWord: bool): nat
  {
    if s == [] then 0
    else (if IsWordChar(s[0]) && !afterWord then 1 else 0) + WordStarts(s[1..], IsWordChar(s[0]))
  }

  /** Inside a run of word characters no word starts. */
  lemma {:induction false} WordStartsInRun(s: string, k: nat)
    requires 0 < k <= |s| && AllWord(s[..k])
    ensures WordStarts(s, true) == WordStarts(s[k..], true)
    decreases k
  {
    if k > 1 {
      assert s[1..][..k - 1] == s[1..k];
      WordStartsInRun(s[1..], k - 1);
      assert s[1..][k - 1..] == s[k..];
    }
  }

  /** The scan finds one word per word start. */
  lemma {:induction false} FindWordsCount(s: string)
    ensures |FindWords(s)| == WordStarts(s, false)
    decreases |s|
  {
    if s != [] {
      if !IsWordChar(s[0]) {
        FindWordsCount(s[1..]);
      } else {
        var k := RunLength(s);
        FindWordsCount(s[k..]);
        if k < |s| {
          WordStartsInRun(s, k);
          assert WordStarts(s[k..], true) == WordStarts(s[k..], false);
        } else {
          WordStartsInRun(s, k);
        }
      }
    }
  }

  /** Characters of `[.,?!]`, each a pause. */
  predicate IsPunctuation(c: char) {
    c == '.' || c == ',' || c == '?' || c == '!'
  }

  /** Characters of `[.!?]`, each ending a sentence. */
  predicate IsTerminator(c: char) {
    c == '.' || c == '!' || c == '?'
  }

  function PunctuationCount(s: string): nat {
    if s == [] then 0 else (if IsPunctuation(s[0]) then 1 else 0) + PunctuationCount(s[1..])
  }

  function TerminatorCount(s: string): nat {
    if s == [] then 0 else (if IsTerminator(s[0]) then 1 else 0) + TerminatorCount(s[1..])
  }

  predicate NoTerminator(s: string) {
    forall i :: 0 <= i < |s| ==> !IsTerminator(s[i])
  }

  /** `re.split(r'[.!?]', s)`: the pieces between terminators, empty ones
      included. There is always at least one piece. */
  function SplitSentences(s: string): (parts: seq<string>)
    ensures |parts| >= 1
    ensures forall i :: 0 <= i < |parts| ==> NoTerminator(parts[i])
  {
    if s == [] then [[]]
    else
      var rest := SplitSentences(s[1..]);
      if IsTerminator(s[0]) then [[]] + rest
      else [[s[0]] + rest[0]] + rest[1..]
  }

  /** `len(re.split(r'[.!?]', s))` is one more than the number of
      terminators. */
  lemma {:induction false} SplitSentencesCount(s: string)
    ensures |SplitSentences(s)| == TerminatorCount(s) + 1
  {
    if s != [] {
      SplitSentencesCount(s[1..]);
    }
  }

  /** Joining the pieces gives back the text without its terminators. */
  function Concat(parts: seq<string>): string {
    if parts == [] then [] else parts[0] + Concat(parts[1..])
  }

  function DropTerminators(s: string): string {
    if s == [] then []
    else (if IsTerminator(s[0]) then [] else [s[0]]) + DropTerminators(s[1..])
  }

  lemma {:induction false} SplitSentencesJoin(s: string)
    ensures Concat(SplitSentences(s)) == DropTerminators(s)
  {
    if s != [] {
      SplitSentencesJoin(s[1..]);
      var rest := SplitSentences(s[1..]);
      if !IsTerminator(s[0]) {
        assert Concat(rest) == rest[0] + Concat(rest[1..]);
      }
    }
  }

  /** Reading time in milliseconds: one word per `60000 / wordsPerMinute`
      ms, 1.2 s per punctuation mark and 3 s per sentence piece. */
  function DurationMs(text: string, wordsPerMinute: nat): (d: nat)
    requires 0 < wordsPerMinute && 60_000 % wordsPerMinute == 0
    ensures d >= 3000
  {
    |FindWords(text)| * (60_000 / wordsPerMinute)
      + PunctuationCount(text) * 1200
      + |SplitSentences(text)| * 3000
  }

  /** At the default 150 words per minute, in terms of the counts. */
  lemma DurationAtDefaultRate(text: string)
    ensures DurationMs(text, 150) == 400 * WordStarts(text, false) + 1200 * PunctuationCount(text)
                                      + 3000 * (TerminatorCount(text) + 1)
  {
    FindWordsCount(text);
    SplitSentencesCount(text);
  }

  lemma WorldWords()
    ensures |FindWords(" world.")| == 1
  {
    assert " world."[1..] == "world.";
    assert RunLength("world.") == 5;
    assert "world."[5..] == ".";
    assert FindWords(".") == [];
  }

  lemma HelloWorldWords()
    ensures |FindWords("Hello world.")| == 2
  {
    WorldWords();
    assert RunLength("Hello world.") == 5;
    assert "Hello world."[5..] == " world.";
  }

  /** "Hello world." adds exactly 8 seconds: two words, one mark and two
      sentence pieces. */
  lemma HelloWorldDuration()
    ensures DurationMs("Hello world.", 150) == 8000
  {
    HelloWorldWords();
    HelloWorldPunctuation();
    HelloWorldTerminators();
    SplitSentencesCount("Hello world.");
  }

  lemma HelloWorldPunctuation()
    ensures PunctuationCount("Hello world.") == 1
  {
  }

  lemma HelloWorldTerminators()
    ensures TerminatorCount("Hello world.") == 1
  {
  }

  /**
   * `calculate_end_time(start_time, text, average_words_per_minute)`: no
   * start gives no end; a start that does not read as "HH:MM:SS.mmm" is the
   * ValueError of `strptime`; otherwise the start plus the reading time,
   * wrapped at midnight, rendered as "HH:MM:SS.mmm" and a literal "Z".
   */
  function CalculateEndTime(startTime: Option<string>, text: string, wordsPerMinute: nat := 150)
    : (r: Result<Option<string>, string>)
    requires 0 < wordsPerMinute && 60_000 % wordsPerMinute == 0
    ensures (r.Success? && r.value.None?) <==> startTime.None?
    ensures r.Failure? <==> (startTime.Some? && ParseClock(startTime.value).None?)
    ensures startTime.Some? && ParseClock(startTime.value).Some? ==>
      var t := ParseClock(startTime.value).value;
      r.Success? && r.value.Some? && |r.value.value| == 13 && r.value.value[12] == 'Z'
      && ParseClock(r.value.value[..12]) == Some((t + DurationMs(text, wordsPerMinute)) % DayMs)
  {
    match startTime
    case None => Success(None)
    case Some(s) =>
      match ParseClock(s)
      case None => Failure("time data does not match format '%H:%M:%S.%f'")
      case Some(t) =>
        ZuluEnd(t, DurationMs(text, wordsPerMinute));
        Success(Some(FormatClock(AddMs(t, DurationMs(text, wordsPerMinute))) + "Z"))
  }

  /** A rendered time with its "Z" is 13 characters and reads back. */
  lemma ZuluStamp(t: TimeOfDay)
    ensures |FormatClock(t) + "Z"| == 13 && (FormatClock(t) + "Z")[12] == 'Z'
    ensures ParseClock((FormatClock(t) + "Z")[..12]) == Some(t)
  {
    ParseFormatClock(t);
    assert (FormatClock(t) + "Z")[..12] == FormatClock(t);
  }

  /** The same for the time `d` milliseconds after `t`. */
  lemma ZuluEnd(t: TimeOfDay, d: nat)
    ensures |FormatClock(AddMs(t, d)) + "Z"| == 13 && (FormatClock(AddMs(t, d)) + "Z")[12] == 'Z'
    ensures ParseClock((FormatClock(AddMs(t, d)) + "Z")[..12]) == Some((t + d) % DayMs)
  {
    ZuluStamp(AddMs(t, d));
  }

  /** The end stamp both writers put on a cue starting at `start`. */
  function EndStamp(start: TimeOfDay, text: string): string {
    FormatClock(AddMs(start, DurationMs(text, 150))) + "Z"
  }

  /** The timing line of a cue, "start --> end". It is one line and does
      not read as a cue number. */
  function Timing(start: TimeOfDay, text: string): (line: string)
    ensures NoBreak(line) && CueValue(line).None?
  {
    var startStamp := FormatClock(start);
    var endStamp := EndStamp(start, text);
    StampNoBreak(startStamp);
    StampNoBreak(FormatClock(AddMs(start, DurationMs(text, 150))));
    NoBreakConcat(startStamp, " --> ");
    NoBreakConcat(startStamp + " --> ", endStamp);
    var line := startStamp + " --> " + endStamp;
    assert line[0] == startStamp[0] && line[2] == startStamp[2] && line[|line| - 1] == 'Z';
    ColonLineIsNoCue(line);
    line
  }

  lemma StampNoBreak(stamp: string)
    requires forall i :: 0 <= i < |stamp| ==> IsDigit(stamp[i]) || stamp[i] == ':' || stamp[i] == '.'
    ensures NoBreak(stamp) && NoBreak(stamp + "Z")
  {
    NoBreakConcat(stamp, "Z");
  }

  /** A line with a colon at index 2 and no surrounding blanks is no cue
      number. */
  lemma ColonLineIsNoCue(line: string)
    requires |line| > 2 && line[2] == ':' && !IsSpace(line[0]) && !IsSpace(line[|line| - 1])
    ensures CueValue(line).None?
  {
    StripUnpadded(line);
    assert !IsDigit(line[2]);
  }

  /** A writer hands `calculate_end_time` its own rendering of the start,
      so the call never fails and yields the end stamp. */
  lemma EndTimeOfRenderedStart(start: TimeOfDay, text: string)
    ensures CalculateEndTime(Some(FormatClock(start)), text) == Success(Some(EndStamp(start, text)))
  {
    ParseFormatClock(start);
  }

  /** The same start and text always give the same end stamp, and it is the
      start plus the reading time modulo a day. */
  lemma EndStampReadsBack(start: TimeOfDay, text: string)
    ensures ParseClock(EndStamp(start, text)[..12]) == Some((start + DurationMs(text, 150)) % DayMs)
  {
    var e := AddMs(start, DurationMs(text, 150));
    ParseFormatClock(e);
    assert EndStamp(start, text)[..12] == FormatClock(e);
  }

  // ---------------------------------------------------------------------
  // Next SRT cue number (`get_next_cue_number`)
  // ---------------------------------------------------------------------

  /** The cue number a line holds: it must strip to a non-empty run of
      digits, read as a decimal number. */
  function CueValue(line: string): (r: Option<nat>)
    ensures r.Some? <==> IsDigits(Strip(line))
  {
    var stripped := Strip(line);
    if stripped != [] && AllDigits(stripped) then Some(DigitsValue(stripped)) else None
  }

  /** A cue number line is its number zero-padded to the line's width. */
  lemma CueValueDigits(line: string)
    requires CueValue(line).Some?
    ensures Pad(CueValue(line).value, |Strip(line)|) == Strip(line)
  {
    DigitsPad(Strip(line));
  }

  /** The cue number of each line, in file order. */
  function CueValues(lines: seq<string>): (vs: seq<Option<nat>>)
    ensures |vs| == |lines|
    ensures forall i :: 0 <= i < |lines| ==> vs[i] == CueValue(lines[i])
  {
    seq(|lines|, i requires 0 <= i < |lines| => CueValue(lines[i]))
  }

  /** The bottom-most present value, if any. */
  function LastPresent(vs: seq<Option<nat>>): Option<nat>
  {
    if vs == [] then None
    else if vs[|vs| - 1].Some? then vs[|vs| - 1]
    else LastPresent(vs[..|vs| - 1])
  }

  /** The value of the bottom-most line holding a cue number, if any. */
  function LastCueNumber(lines: seq<string>): Option<nat>
  {
    LastPresent(CueValues(lines))
  }

  lemma {:induction false} LastPresentNone(vs: seq<Option<nat>>)
    ensures LastPresent(vs).None? <==> forall i :: 0 <= i < |vs| ==> vs[i].None?
  {
    if vs != [] {
      var init := vs[..|vs| - 1];
      LastPresentNone(init);
      assert forall i :: 0 <= i < |init| ==> init[i] == vs[i];
    }
  }

  lemma {:induction false} LastPresentAt(vs: seq<Option<nat>>, i: nat)
    requires i < |vs| && vs[i].Some?
    requires forall j :: i < j < |vs| ==> vs[j].None?
    ensures LastPresent(vs) == vs[i]
    decreases |vs|
  {
    if i < |vs| - 1 {
      var init := vs[..|vs| - 1];
      assert init[i] == vs[i];
      LastPresentAt(init, i);
    }
  }

  lemma {:induction false} LastPresentAppend(a: seq<Option<nat>>, b: seq<Option<nat>>)
    requires LastPresent(b).Some?
    ensures LastPresent(a + b) == LastPresent(b)
    decreases |b|
  {
    var ab := a + b;
    assert ab[|ab| - 1] == b[|b| - 1];
    if b[|b| - 1].None? {
      assert ab[..|ab| - 1] == a + b[..|b| - 1];
      LastPresentAppend(a, b[..|b| - 1]);
    }
  }

  /** There is no last cue number exactly when no line holds one. */
  lemma LastCueNumberNone(lines: seq<string>)
    ensures LastCueNumber(lines).None? <==> forall i :: 0 <= i < |lines| ==> CueValue(lines[i]).None?
  {
    LastPresentNone(CueValues(lines));
  }

  /** The last cue number is the one on the line below which no line holds
      one. */
  lemma LastCueNumberAt(lines: seq<string>, i: nat)
    requires i < |lines| && CueValue(lines[i]).Some?
    requires forall j :: i < j < |lines| ==> CueValue(lines[j]).None?
    ensures LastCueNumber(lines) == CueValue(lines[i])
  {
    LastPresentAt(CueValues(lines), i);
  }

  /** Lines added below a cue number do not change the last cue number. */
  lemma LastCueNumberAppend(a: seq<string>, b: seq<string>)
    requires LastCueNumber(b).Some?
    ensures LastCueNumber(a + b) == LastCueNumber(b)
  {
    assert CueValues(a + b) == CueValues(a) + CueValues(b);
    LastPresentAppend(CueValues(a), CueValues(b));
  }

  /** `get_next_cue_number(file_name)` on the file's content (None for a
      missing file): 1 for a missing file or one without lines, otherwise
      one more than the last cue number, and None when there is none. */
  function NextCueNumber(file: Option<string>): (r: Option<nat>)
    ensures r.Some? ==> r.value >= 1
  {
    if file.None? then Some(1)
    else
      var lines := Lines(file.value);
      if lines == [] then Some(1)
      else
        match LastCueNumber(lines)
        case None => None
        case Some(n) => Some(n + 1)
  }

  /** The reverse scan with early exit that `get_next_cue_number` runs. */
  method GetNextCueNumber(file: Option<string>) returns (r: Option<nat>)
    ensures r == NextCueNumber(file)
  {
    if file.None? {
      return Some(1);
    }
    var lines := Lines(file.value);
    if |lines| == 0 {
      return Some(1);
    }
    var lastCueNumber := FindLastCueNumber(lines);
    if lastCueNumber.Some? {
      r := Some(lastCueNumber.value + 1);
    } else {
      r := None;
    }
  }

  /** The loop of `get_next_cue_number`: lines from the bottom up, stopping
      at the first that strips to digits. */
  method FindLastCueNumber(lines: seq<string>) returns (lastCueNumber: Option<nat>)
    ensures lastCueNumber == LastCueNumber(lines)
  {
    lastCueNumber := None;
    var i := |lines|;
    ghost var values := CueValues(lines);
    assert values[..i] == values;
    while i > 0
      invariant 0 <= i <= |lines|
      invariant lastCueNumber.None? && LastCueNumber(lines) == LastPresent(values[..i])
      decreases i
    {
      var strippedLine := Strip(lines[i - 1]);
      assert values[..i][..i - 1] == values[..i - 1];
      assert values[i - 1] == CueValue(lines[i - 1]);
      if strippedLine != [] && AllDigits(strippedLine) {
        lastCueNumber := Some(DigitsValue(strippedLine));
        return;
      }
      i := i - 1;
    }
  }

  // ---------------------------------------------------------------------
  // The writers (`generate_vtt_subtitle`, `generate_srt_subtitle`)
  // ---------------------------------------------------------------------

  /** The files the writers append to, by path. */
  class FileSystem {
    var files: map<string, string>

    constructor(files: map<string, string>)
      ensures this.files == files
    {
      this.files := files;
    }
  }

  /** The state of one file: None when it does not exist. */
  function FileAt(files: map<string, string>, path: string): Option<string> {
    if path in files then Some(files[path]) else None
  }

  /** What a file holds; a missing one reads as nothing. */
  function Content(file: Option<string>): string {
    if file.None? then [] else file.value
  }

  const VttHeader := "WEBVTT\n\n"
  const DefaultSubtitlePath := "./subtitle/realtime_subtitle"

  /** The VTT writer keeps only the wall clock's whole seconds. */
  function VttStart(now: TimeOfDay): (t: TimeOfDay)
    ensures t <= now && now - t < 1000 && t % 1000 == 0
  {
    now / 1000 * 1000
  }

  /** The two lines of a VTT cue: timing and text. */
  function VttCue(start: TimeOfDay, text: string): string {
    Timing(start, text) + "\n" + text + "\n"
  }

  /** Appending a cue to a VTT file: the header first when the file was
      missing or empty. */
  function VttWrite(prior: string, cue: string): string {
    prior + (if prior == [] then VttHeader else []) + cue
  }

  /** The VTT file after one write of `text` at `now`. */
  function VttAppend(prior: Option<string>, text: string, now: TimeOfDay): (r: string)
    ensures |Content(prior)| < |r| && r[..|Content(prior)|] == Content(prior)
  {
    VttWrite(Content(prior), VttCue(VttStart(now), text))
  }

  /** A VTT file written to for the first time opens with the header. */
  lemma VttAppendHeader(prior: Option<string>, text: string, now: TimeOfDay)
    requires Content(prior) == []
    ensures |VttHeader| <= |VttAppend(prior, text, now)| && VttAppend(prior, text, now)[..|VttHeader|] == VttHeader
  {
    var cue := VttCue(VttStart(now), text);
    assert VttAppend(prior, text, now) == VttHeader + cue;
  }

  /** The four lines of an SRT cue: number, timing, text and a blank line. */
  function SrtCue(number: nat, timing: string, text: string): string {
    DecimalString(number) + "\n" + timing + "\n" + text + "\n\n"
  }

  /** The number the SRT writer gives its cue: 1 on a missing or empty file
      or when the lookup finds no number, the looked-up number otherwise.
      Opening the file for appending creates it, so the lookup sees it. */
  function SrtCueNumber(prior: string): (n: nat)
    ensures n >= 1
  {
    if prior == [] then 1
    else
      match NextCueNumber(Some(prior))
      case None => 1
      case Some(n) => n
  }

  /** What one SRT write puts down: the timing line and the text. */
  datatype Entry = Entry(timing: string, text: string)

  /** Appending an entry to an SRT file, under the number the file calls for. */
  function SrtWrite(prior: string, e: Entry): string {
    prior + SrtCue(SrtCueNumber(prior), e.timing, e.text)
  }

  /** The SRT file after one write of `text` at `now`. */
  function SrtAppend(prior: Option<string>, text: string, now: TimeOfDay): (r: string)
    ensures |Content(prior)| < |r| && r[..|Content(prior)|] == Content(prior)
  {
    SrtWrite(Content(prior), Entry(Timing(now, text), text))
  }

  /** The VTT start always renders with ".000" milliseconds. */
  lemma VttStartWholeSecond(now: TimeOfDay)
    ensures FormatClock(VttStart(now))[9..] == "000"
  {
    var t := VttStart(now);
    assert FormatClock(t)[9..] == Pad(0, 3);
  }

  /** Every write leaves what the file held in front untouched, and an SRT
      write always adds something. */
  lemma WritesOnlyAppend(prior: string, cue: string, e: Entry)
    ensures var v := VttWrite(prior, cue); |prior| <= |v| && v[..|prior|] == prior
    ensures var s := SrtWrite(prior, e); |prior| < |s| && s[..|prior|] == prior
  {
    ConcatAssoc(prior, if prior == [] then VttHeader else [], cue);
  }

  /** The file after writing each VTT cue in turn. */
  function VttWriteAll(prior: string, cues: seq<string>): string
    decreases |cues|
  {
    if cues == [] then prior else VttWriteAll(VttWrite(prior, cues[0]), cues[1..])
  }

  /** On a file that already has content, VTT writes only concatenate. */
  lemma {:induction false} VttWriteAllAppends(prior: string, cues: seq<string>)
    requires prior != []
    ensures VttWriteAll(prior, cues) == prior + Concat(cues)
    decreases |cues|
  {
    if cues != [] {
      var next := VttWrite(prior, cues[0]);
      assert next == prior + cues[0];
      VttWriteAllAppends(next, cues[1..]);
      ConcatAssoc(prior, cues[0], Concat(cues[1..]));
    } else {
      assert prior + [] == prior;
    }
  }

  /** The header is written once: from a missing or empty file, any run of
      VTT writes leaves the header followed by the cues in order. */
  lemma HeaderOnce(cues: seq<string>)
    requires cues != []
    ensures VttWriteAll([], cues) == VttHeader + Concat(cues)
  {
    var first := VttWrite([], cues[0]);
    assert first == VttHeader + cues[0];
    VttWriteAllAppends(first, cues[1..]);
    ConcatAssoc(VttHeader, cues[0], Concat(cues[1..]));
  }

  lemma ConcatAssoc(a: string, b: string, c: string)
    ensures a + b + c == a + (b + c)
  {
  }

  /** The four lines of a cue in SRT layout. */
  lemma SrtCueLayout(number: string, timing: string, text: string)
    requires NoBreak(number) && NoBreak(timing) && NoBreak(text)
    ensures Lines(number + "\n" + timing + "\n" + text + "\n\n") == [number, timing, text, ""]
  {
    TimingTextBlank(timing, text);
    LinesCons(number, timing + "\n" + (text + "\n\n"));
    SrtCueAssoc(number, timing, text);
    assert [number] + [timing, text, ""] == [number, timing, text, ""];
  }

  lemma TimingTextBlank(timing: string, text: string)
    requires NoBreak(timing) && NoBreak(text)
    ensures Lines(timing + "\n" + (text + "\n\n")) == [timing, text, ""]
  {
    LinesCons(text, "\n");
    LinesCons("", "");
    assert "" + "\n" + "" == "\n";
    assert text + "\n\n" == text + "\n" + "\n";
    LinesCons(timing, text + "\n\n");
    assert [timing] + [text, ""] == [timing, text, ""];
  }

  lemma SrtCueAssoc(number: string, timing: string, text: string)
    ensures number + "\n" + timing + "\n" + text + "\n\n" == number + "\n" + (timing + "\n" + (text + "\n\n"))
  {
  }

  /** The cue number of a line that is a number written out. */
  lemma DecimalLineValue(n: nat)
    ensures NoBreak(DecimalString(n)) && CueValue(DecimalString(n)) == Some(n)
  {
    var d := DecimalString(n);
    DecimalRoundTrip(n);
    StripUnpadded(d);
  }

  /** A timing line that is one line and no number. */
  predicate PlainTiming(timing: string) {
    NoBreak(timing) && CueValue(timing).None?
  }

  /** After an SRT cue, the last cue number in the file is the one of that
      cue's text line if the text is a number, the cue's own otherwise. */
  lemma LastCueNumberAfterCue(prior: string, n: nat, timing: string, text: string)
    requires prior == [] || IsBreak(prior[|prior| - 1])
    requires PlainTiming(timing) && NoBreak(text)
    ensures var lines := Lines(prior + SrtCue(n, timing, text));
      lines != [] && LastCueNumber(lines) == if CueValue(text).Some? then CueValue(text) else Some(n)
  {
    var cue := SrtCue(n, timing, text);
    DecimalLineValue(n);
    SrtCueLayout(DecimalString(n), timing, text);
    var cueLines := Lines(cue);
    LinesAppend(prior, cue);
    CueLinesLast(n, timing, text);
    LastCueNumberAppend(Lines(prior), cueLines);
  }

  /** Read from the bottom, the four lines of a cue yield the text's number
      if it has one, the cue's own number otherwise. */
  lemma CueLinesLast(n: nat, timing: string, text: string)
    requires PlainTiming(timing)
    ensures LastCueNumber([DecimalString(n), timing, text, ""])
         == if CueValue(text).Some? then CueValue(text) else Some(n)
  {
    CueLineValues(n, timing, text);
    LastOfFour(CueValues([DecimalString(n), timing, text, ""]));
  }

  lemma CueLineValues(n: nat, timing: string, text: string)
    requires PlainTiming(timing)
    ensures var vs := CueValues([DecimalString(n), timing, text, ""]);
      |vs| == 4 && vs[0] == Some(n) && vs[1] == None && vs[2] == CueValue(text) && vs[3] == None
  {
    DecimalLineValue(n);
    assert CueValue("") == None;
  }

  lemma LastOfFour(vs: seq<Option<nat>>)
    requires |vs| == 4 && vs[0].Some? && vs[1].None? && vs[3].None?
    ensures LastPresent(vs) == if vs[2].Some? then vs[2] else vs[0]
  {
    if vs[2].Some? {
      LastPresentAt(vs, 2);
    } else {
      LastPresentAt(vs, 0);
    }
  }

  /** An SRT file after one write ends at a line boundary. */
  lemma SrtWriteEndsLine(prior: string, e: Entry)
    ensures var s := SrtWrite(prior, e); s != [] && IsBreak(s[|s| - 1])
  {
  }

  /** The file after writing each SRT entry in turn. */
  function SrtWriteAll(prior: string, entries: seq<Entry>): string
    decreases |entries|
  {
    if entries == [] then prior else SrtWriteAll(SrtWrite(prior, entries[0]), entries[1..])
  }

  /** The cues of `entries` numbered `first`, `first + 1`, ... */
  function SrtNumbered(entries: seq<Entry>, first: nat): string
  {
    if entries == [] then []
    else SrtCue(first, entries[0].timing, entries[0].text) + SrtNumbered(entries[1..], first + 1)
  }

  /** A one-line cue text that is not a number. */
  predicate PlainText(text: string) {
    NoBreak(text) && CueValue(text).None?
  }

  /** Numbering continues: on a file whose next number is `k`, one-line
      non-numeric texts are numbered k, k + 1, k + 2, ... */
  lemma {:induction false} SrtNumberingContinues(prior: string, entries: seq<Entry>, k: nat)
    requires prior == [] || IsBreak(prior[|prior| - 1])
    requires SrtCueNumber(prior) == k
    requires forall i :: 0 <= i < |entries| ==> PlainTiming(entries[i].timing) && PlainText(entries[i].text)
    ensures SrtWriteAll(prior, entries) == prior + SrtNumbered(entries, k)
    decreases |entries|
  {
    if entries == [] {
      assert prior + [] == prior;
    } else {
      var e := entries[0];
      var next := SrtWrite(prior, e);
      assert next == prior + SrtCue(k, e.timing, e.text);
      LastCueNumberAfterCue(prior, k, e.timing, e.text);
      assert SrtCueNumber(next) == k + 1;
      SrtWriteEndsLine(prior, e);
      SrtNumberingContinues(next, entries[1..], k + 1);
      ConcatAssoc(prior, SrtCue(k, e.timing, e.text), SrtNumbered(entries[1..], k + 1));
    }
  }

  /** On a fresh file the cues are numbered 1, 2, 3, ... */
  lemma SrtNumbersFromOne(entries: seq<Entry>)
    requires forall i :: 0 <= i < |entries| ==> PlainTiming(entries[i].timing) && PlainText(entries[i].text)
    ensures SrtWriteAll([], entries) == SrtNumbered(entries, 1)
  {
    SrtNumberingContinues([], entries, 1);
  }

  /** An all-digit cue text shifts the numbering: the next cue is that
      number plus one. */
  lemma NumericTextShiftsNumbering(prior: string, e: Entry)
    requires prior == [] || IsBreak(prior[|prior| - 1])
    requires PlainTiming(e.timing) && NoBreak(e.text) && CueValue(e.text).Some?
    ensures NextCueNumber(Some(SrtWrite(prior, e))) == Some(CueValue(e.text).value + 1)
  {
    LastCueNumberAfterCue(prior, SrtCueNumber(prior), e.timing, e.text);
  }

  /**
   * `SubtitleGenerator`: writes cues under `subtitlePath` + ".vtt" or
   * ".srt" in the file system `fs`.
   */
  class SubtitleGenerator {
    const subtitlePath: string
    const captionSmoother: CaptionSmoothing
    const fs: FileSystem

    constructor(fs: FileSystem, subtitlePath: string := DefaultSubtitlePath)
      ensures this.fs == fs && this.subtitlePath == subtitlePath
      ensures fresh(captionSmoother) && captionSmoother.windowSize == 5 && captionSmoother.captionBuffer == []
      ensures captionSmoother.Valid() && captionSmoother.history == []
    {
      this.subtitlePath := subtitlePath;
      this.fs := fs;
      this.captionSmoother := new CaptionSmoothing(5);
    }

    function VttPath(): string {
      subtitlePath + ".vtt"
    }

    function SrtPath(): string {
      subtitlePath + ".srt"
    }

    /** `generate_vtt_subtitle`: appends one cue to the VTT file, after the
        header when the file was missing or empty; no other file changes,
        and `partialFlag` plays no part. */
    method GenerateVttSubtitle(translatedText: string, partialFlag: bool, now: TimeOfDay)
      modifies fs
      ensures fs.files == old(fs.files)[VttPath() := VttAppend(FileAt(old(fs.files), VttPath()), translatedText, now)]
    {
      var content := VttFileAfterWrite(FileAt(fs.files, VttPath()), translatedText, now);
      fs.files := fs.files[VttPath() := content];
    }

    /** `generate_srt_subtitle`: appends one numbered cue to the SRT file;
        no other file changes, and `partialFlag` plays no part. */
    method GenerateSrtSubtitle(translatedText: string, partialFlag: bool, now: TimeOfDay)
      modifies fs
      ensures fs.files == old(fs.files)[SrtPath() := SrtAppend(FileAt(old(fs.files), SrtPath()), translatedText, now)]
    {
      var content := SrtFileAfterWrite(FileAt(fs.files, SrtPath()), translatedText, now);
      fs.files := fs.files[SrtPath() := content];
    }
  }

  /** The body of `generate_vtt_subtitle` on the file's prior state: the
      content the file holds once the `with open(..., "a")` block closes. */
  method VttFileAfterWrite(prior: Option<string>, translatedText: string, now: TimeOfDay) returns (content: string)
    ensures content == VttAppend(prior, translatedText, now)
  {
    var start := VttStart(now);
    var startTime := FormatClock(start);
    var endTime := EndTimeFor(startTime, start, translatedText);
    var fileEmpty := prior.None? || prior.value == [];
    content := Content(prior);
    if fileEmpty {
      content := content + VttHeader;
    }
    content := content + (startTime + " --> " + endTime + "\n");
    content := content + (translatedText + "\n");
    CueParts(if fileEmpty then Content(prior) + VttHeader else Content(prior), startTime + " --> " + endTime, translatedText, "\n");
    assert content == VttWrite(Content(prior), VttCue(start, translatedText));
  }

  /** The body of `generate_srt_subtitle` on the file's prior state. */
  method SrtFileAfterWrite(prior: Option<string>, translatedText: string, now: TimeOfDay) returns (content: string)
    ensures content == SrtAppend(prior, translatedText, now)
  {
    var startTime := FormatClock(now);
    var endTime := EndTimeFor(startTime, now, translatedText);
    var fileEmpty := prior.None? || prior.value == [];
    content := Content(prior);
    var cue := ChooseCueNumber(content, fileEmpty);
    content := content + (DecimalString(cue) + "\n");
    content := content + (startTime + " --> " + endTime + "\n");
    content := content + (translatedText + "\n\n");
    SrtCueParts(Content(prior), DecimalString(cue), startTime + " --> " + endTime, translatedText);
  }

  /** The SRT writer's cue number: the lookup on the file just opened for
      appending, replaced by 1 when the file was empty or the lookup found
      nothing. */
  method ChooseCueNumber(content: string, fileEmpty: bool) returns (cue: nat)
    requires fileEmpty <==> content == []
    ensures cue == SrtCueNumber(content)
  {
    var found := GetNextCueNumber(Some(content));
    if fileEmpty || found.None? {
      cue := 1;
    } else {
      cue := found.value;
    }
  }

  /** `calculate_end_time` as the writers call it, on the rendered start;
      it cannot fail there. */
  method EndTimeFor(startTime: string, start: TimeOfDay, text: string) returns (endTime: string)
    requires startTime == FormatClock(start)
    ensures startTime + " --> " + endTime == Timing(start, text)
  {
    EndTimeOfRenderedStart(start, text);
    var r := CalculateEndTime(Some(startTime), text);
    endTime := r.value.value;
  }

  lemma SrtCueParts(before: string, number: string, timing: string, text: string)
    ensures before + (number + "\n") + (timing + "\n") + (text + "\n\n")
         == before + (number + "\n" + timing + "\n" + text + "\n\n")
  {
  }

  lemma CueParts(before: string, timing: string, text: string, tail: string)
    ensures before + (timing + "\n") + (text + tail) == before + (timing + "\n" + text + tail)
  {
  }

  // ---------------------------------------------------------------------
  // Caption buffer (`CaptionSmoothing`)
  // ---------------------------------------------------------------------

  /** The last `n` elements of `s` (all of it when shorter). */
  function LastN<T>(s: seq<T>, n: nat): (r: seq<T>)
    ensures |r| <= n && |r| <= |s|
  {
    if |s| <= n then s else s[|s| - n..]
  }

  /** Trimming before appending loses nothing that trimming after keeps. */
  lemma LastNAppend<T>(s: seq<T>, x: T, n: nat)
    ensures LastN(LastN(s, n) + [x], n) == LastN(s + [x], n)
  {
    if |s| > n && n > 0 {
      assert (s + [x])[|s| + 1 - n..] == s[|s| - n..][1..] + [x];
    }
  }

  function Sum(s: seq<real>): real {
    if s == [] then 0.0 else Sum(s[..|s| - 1]) + s[|s| - 1]
  }

  /** A deque with `maxlen == windowSize`: appending to a full buffer drops
      the oldest caption. `history` is every caption ever added. */
  class CaptionSmoothing {
    const windowSize: nat
    var captionBuffer: seq<real>
    ghost var history: seq<real>

    ghost predicate Valid()
      reads this
    {
      captionBuffer == LastN(history, windowSize)
    }

    constructor(windowSize: nat)
      ensures Valid() && this.windowSize == windowSize && captionBuffer == [] && history == []
    {
      this.windowSize := windowSize;
      captionBuffer := [];
      history := [];
    }

    /** `add_caption`: the buffer is the last `windowSize` captions ever
        added, in insertion order. */
    method AddCaption(newCaption: real)
      requires Valid()
      modifies this
      ensures Valid() && history == old(history) + [newCaption]
      ensures captionBuffer == LastN(old(captionBuffer) + [newCaption], windowSize)
    {
      captionBuffer := captionBuffer + [newCaption];
      if |captionBuffer| > windowSize {
        captionBuffer := captionBuffer[1..];
      }
      history := history + [newCaption];
      LastNAppend(old(history), newCaption, windowSize);
    }

    /** `get_smoothed_caption`: None on an empty buffer, the mean of the
        buffered captions otherwise. */
    method GetSmoothedCaption() returns (r: Option<real>)
      ensures r.None? <==> captionBuffer == []
      ensures r.Some? ==> r.value * (|captionBuffer| as real) == Sum(captionBuffer)
    {
      if captionBuffer == [] {
        return None;
      }
      r := Some(Sum(captionBuffer) / (|captionBuffer| as real));
    }
  }
}

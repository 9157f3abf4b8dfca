/**
 * Transcript-event handling of talklocal/main/process_request.py: the
 * append-only `TranscriptDataHandler` and `TranscriptHandler`, which routes
 * every alternative of every result of an event through translation, one
 * subtitle write and, for final results, the text outputs.
 *
 * The translator is a function parameter; the subtitle writer and the two
 * output files are sinks recorded, in the order they are written, in one
 * log of writes.
 */
module Pipeline {
  import opened Wrappers
  import opened Text
  import opened Errors
  import opened Config

  // ---------------------------------------------------------------------
  // The store (`TranscriptDataHandler`)
  // ---------------------------------------------------------------------

  /** Two lists of `(text, is_partial)` pairs that only grow. */
  class TranscriptDataHandler {
    var transcriptData: seq<(string, bool)>
    var translatedData: seq<(string, bool)>

    constructor()
      ensures transcriptData == [] && translatedData == []
    {
      transcriptData := [];
      translatedData := [];
    }

    /** `store_transcript_data`: one pair at the end of the transcript list,
        the translated list untouched. */
    method StoreTranscriptData(transcriptText: string, isPartial: bool)
      modifies this
      ensures transcriptData == old(transcriptData) + [(transcriptText, isPartial)]
      ensures translatedData == old(translatedData)
    {
      transcriptData := transcriptData + [(transcriptText, isPartial)];
    }

    /** `get_transcript_data`: a copy of the list; the store is unchanged. */
    method GetTranscriptData() returns (r: seq<(string, bool)>)
      ensures r == transcriptData
    {
      r := transcriptData;
    }

    /** `store_translated_data`: one pair at the end of the translated list,
        the transcript list untouched. */
    method StoreTranslatedData(translatedText: string, isPartial: bool)
      modifies this
      ensures translatedData == old(translatedData) + [(translatedText, isPartial)]
      ensures transcriptData == old(transcriptData)
    {
      translatedData := translatedData + [(translatedText, isPartial)];
    }

    /** `get_translated_data`: a copy of the list; the store is unchanged. */
    method GetTranslatedData() returns (r: seq<(string, bool)>)
      ensures r == translatedData
    {
      r := translatedData;
    }
  }

  // ---------------------------------------------------------------------
  // Events, sinks and the translator
  // ---------------------------------------------------------------------

  datatype Alternative = Alternative(transcript: string)
  datatype RecognitionResult = RecognitionResult(alternatives: seq<Alternative>, isPartial: bool)
  datatype TranscriptEvent = TranscriptEvent(results: seq<RecognitionResult>)

  /** One write to a sink: a subtitle cue, a line of `transcript_full.txt`
      or a line of `translated_output_full.txt`. */
  datatype Write =
    | SubtitleWrite(format: SubtitleFormat, text: string, isPartial: bool)
    | TranscriptLine(text: string)
    | TranslatedLine(text: string)

  /** `translate_text(text, source, target)`: the translation or the
      service's error text. */
  type Translator = (string, string, string) -> Result<string, string>

  /** One call of the translator, with its arguments. */
  datatype Call = Call(text: string, source: string, target: string)

  /** The handler's settings, fixed at construction. */
  datatype Settings = Settings(sourceLanguage: string, targetLanguage: string, subtitleFormat: string,
                               region: string, outputFormat: string)

  /** No translation is needed when the codes agree up to case, or for the
      one pair Transcribe and Translate spell differently. */
  predicate SameLanguages(s: Settings)
    ensures s.sourceLanguage == s.targetLanguage ==> SameLanguages(s)
    ensures SameLanguages(s) ==> |s.sourceLanguage| == |s.targetLanguage| || (s.sourceLanguage, s.targetLanguage) == ("en-US", "en")
  {
    Lower(s.sourceLanguage) == Lower(s.targetLanguage)
    || (s.sourceLanguage == "en-US" && s.targetLanguage == "en")
  }

  predicate StoresTranscript(s: Settings) {
    s.outputFormat == TranscriptText.Value() || s.outputFormat == BothText.Value()
  }

  predicate StoresTranslation(s: Settings) {
    s.outputFormat == TranslatedText.Value() || s.outputFormat == BothText.Value()
  }

  /** VTT exactly when the format lower-cases to "vtt"; SRT otherwise. */
  function SubtitleKind(s: Settings): SubtitleFormat {
    if Lower(s.subtitleFormat) == "vtt" then Vtt else Srt
  }

  /** What `handle_transcript_event` works out from the settings before
      its loops: whether to translate, the subtitle kind, which text files
      to write, and the language pair handed to the translator. */
  datatype Policy = Policy(sameLanguages: bool, kind: SubtitleFormat, storeTranscript: bool,
                           storeTranslation: bool, source: string, target: string)

  function PolicyOf(s: Settings): (p: Policy)
    ensures p.sameLanguages == SameLanguages(s) && p.kind == SubtitleKind(s)
    ensures p.storeTranscript == StoresTranscript(s) && p.storeTranslation == StoresTranslation(s)
    ensures p.source == s.sourceLanguage && p.target == s.targetLanguage
  {
    Policy(SameLanguages(s), SubtitleKind(s), StoresTranscript(s), StoresTranslation(s),
           s.sourceLanguage, s.targetLanguage)
  }

  /** An alternative's transcript with its result's `is_partial`. */
  datatype Item = Item(text: string, isPartial: bool)

  function ResultItems(r: RecognitionResult): (items: seq<Item>)
    ensures |items| == |r.alternatives|
    ensures forall j :: 0 <= j < |items| ==> items[j] == Item(r.alternatives[j].transcript, r.isPartial)
  {
    seq(|r.alternatives|, j requires 0 <= j < |r.alternatives| => Item(r.alternatives[j].transcript, r.isPartial))
  }

  /** The alternatives of all results in result-then-alternative order. */
  function Flatten(results: seq<RecognitionResult>): seq<Item>
  {
    if results == [] then []
    else Flatten(results[..|results| - 1]) + ResultItems(results[|results| - 1])
  }

  // ---------------------------------------------------------------------
  // What handling an event does (`handle_transcript_event`)
  // ---------------------------------------------------------------------

  /** The translation of one transcript: itself when the languages agree,
      the translator's answer otherwise. */
  function Translated(p: Policy, translate: Translator, text: string): Result<string, string> {
    if p.sameLanguages then Success(text) else translate(text, p.source, p.target)
  }

  /** The translator calls one transcript costs. */
  function CallsFor(p: Policy, text: string): seq<Call> {
    if p.sameLanguages then [] else [Call(text, p.source, p.target)]
  }

  /** The writes of one alternative once translated: its subtitle, then for
      a final result the transcript line and the translation line the output
      format asks for, in that order. */
  function ItemWrites(p: Policy, item: Item, translated: string): seq<Write> {
    [SubtitleWrite(p.kind, translated, item.isPartial)]
    + (if !item.isPartial && p.storeTranscript then [TranscriptLine(item.text)] else [])
    + (if !item.isPartial && p.storeTranslation then [TranslatedLine(translated)] else [])
  }

  /** The error the handler raises when the translator fails with `m`: the
      TranslationError's rendering inside a TranscriptionError. */
  function EventError(m: string): AppError {
    NewError(Transcription, "transcript event error: " + Str(NewError(Translation, "Translation error: " + m)))
  }

  /** What handling produced so far: writes, translator calls, and the
      translator error that ended it (raised as `EventError`). */
  datatype Trace = Trace(writes: seq<Write>, calls: seq<Call>, failure: Option<string>)

  /** Handling one alternative after `t`. */
  function Step(p: Policy, translate: Translator, t: Trace, item: Item): (r: Trace)
    ensures t.writes <= r.writes && t.calls <= r.calls
    ensures |r.calls| == |t.calls| + (if p.sameLanguages then 0 else 1)
    ensures r.failure.Some? ==> r.writes == t.writes && !p.sameLanguages
    ensures r.failure.None? ==> |r.writes| > |t.writes|
  {
    var calls := t.calls + CallsFor(p, item.text);
    match Translated(p, translate, item.text)
    case Failure(m) => Trace(t.writes, calls, Some(m))
    case Success(translated) => Trace(t.writes + ItemWrites(p, item, translated), calls, None)
  }

  /** A successful step writes the alternative's cue first: the configured
      kind, its translation and its partial flag. */
  lemma StepCue(p: Policy, translate: Translator, t: Trace, item: Item)
    requires Step(p, translate, t, item).failure.None?
    ensures var r := Step(p, translate, t, item);
      |t.writes| < |r.writes|
      && r.writes[|t.writes|] == SubtitleWrite(p.kind, TextOf(Translated(p, translate, item.text)), item.isPartial)
  {
  }

  /** Handling the alternatives in order, stopping at the first error. */
  function Run(p: Policy, translate: Translator, items: seq<Item>): (r: Trace)
    ensures r.failure.None? ==> |r.writes| >= |items|
  {
    if items == [] then Trace([], [], None)
    else
      var before := Run(p, translate, items[..|items| - 1]);
      if before.failure.Some? then before else Step(p, translate, before, items[|items| - 1])
  }

  /**
   * `TranscriptHandler`: settings, the data handler it is given, and the
   * sinks. `writes` is everything written to the subtitle and output files,
   * in order; `translateCalls` every call of the translator.
   */
  class TranscriptHandler {
    const settings: Settings
    const sequenceNumber: int
    const dataHandler: TranscriptDataHandler
    var writes: seq<Write>
    var translateCalls: seq<Call>

    constructor(sourceLanguage: string, targetLanguage: string, subtitleFormat: string, region: string,
                outputFormat: string, dataHandler: TranscriptDataHandler)
      ensures settings == Settings(sourceLanguage, targetLanguage, subtitleFormat, region, outputFormat)
      ensures sequenceNumber == 0 && this.dataHandler == dataHandler
      ensures writes == [] && translateCalls == []
    {
      settings := Settings(sourceLanguage, targetLanguage, subtitleFormat, region, outputFormat);
      sequenceNumber := 0;
      this.dataHandler := dataHandler;
      writes := [];
      translateCalls := [];
    }

    /** `handle_transcript_event`: what `Run` says, added to the sinks; the
        data handler is never written. */
    method HandleTranscriptEvent(event: TranscriptEvent, translate: Translator) returns (err: Option<AppError>)
      modifies this
      ensures var t := Run(PolicyOf(settings), translate, Flatten(event.results));
        writes == old(writes) + t.writes && translateCalls == old(translateCalls) + t.calls 
        && err == (if t.failure.Some? then Some(EventError(t.failure.value)) else None)
      ensures unchanged(dataHandler)
    {
      var results := event.results;
      var policy := PolicyOf(settings);
      ghost var writes0 := writes;
      ghost var calls0 := translateCalls;
      var i := 0;
      while i < |results|
        invariant 0 <= i <= |results|
        invariant var t := Run(policy, translate, Flatten(results[..i]));
          t.failure.None? && writes == writes0 + t.writes && translateCalls == calls0 + t.calls
      {
        FlattenSnoc(results, i);
        ghost var before := Run(policy, translate, Flatten(results[..i]));
        var written, called, failure := HandleResult(policy, translate, results[i], Flatten(results[..i]));
        AppendAssoc(writes0, before.writes, written);
        AppendAssoc(calls0, before.calls, called);
        writes := writes + written;
        translateCalls := translateCalls + called;
        if failure.Some? {
          err := Some(EventError(failure.value));
          FlattenPrefix(results, i + 1);
          RunStops(policy, translate, Flatten(results[..i + 1]), Flatten(results));
          return;
        }
        i := i + 1;
      }
      assert results[..i] == results;
      err := None;
    }
  }

  /** The inner loop of `handle_transcript_event`: the alternatives of one
      result, handled after the alternatives `done` of the results before
      it; what they write and call, and the translator error that stops
      them. */
  method HandleResult(p: Policy, translate: Translator, result: RecognitionResult, ghost done: seq<Item>)
    returns (written: seq<Write>, called: seq<Call>, failure: Option<string>)
    requires Run(p, translate, done).failure.None?
    ensures var before := Run(p, translate, done);
      var after := Run(p, translate, done + ResultItems(result));
      after.writes == before.writes + written && after.calls == before.calls + called
      && after.failure == failure
  {
    ghost var items := ResultItems(result);
    ghost var start := Run(p, translate, done);
    ghost var prefix := done;
    assert done + items[..0] == done;
    written, called, failure := [], [], None;
    var j := 0;
    while j < |result.alternatives|
      invariant 0 <= j <= |result.alternatives| && prefix == done + items[..j]
      invariant var t := Run(p, translate, prefix);
        t.failure.None? && t.writes == start.writes + written && t.calls == start.calls + called
    {
      var item := Item(result.alternatives[j].transcript, result.isPartial);
      var itemWrites, itemCalls, answer :=
        HandleAlternative(p, translate, item);
      AdvanceRun(p, translate, done, items, j, start, written, called, itemWrites, itemCalls, answer);
      called := called + itemCalls;
      written := written + itemWrites;
      prefix := done + items[..j + 1];
      if answer.Some? {
        failure := answer;
        RunStops(p, translate, prefix, done + items);
        return;
      }
      j := j + 1;
    }
    assert items[..j] == items;
  }

  /** One alternative of the loop body: its translation (when the languages
      differ), its subtitle and its text-output lines, or the translator's
      error and no writes. */
  method HandleAlternative(p: Policy, translate: Translator, item: Item)
    returns (written: seq<Write>, called: seq<Call>, failure: Option<string>)
    ensures called == CallsFor(p, item.text)
    ensures var answer := Translated(p, translate, item.text);
      if answer.Failure? then failure == Some(answer.error) && written == []
      else failure.None? && written == ItemWrites(p, item, answer.value)
  {
    written, called, failure := [], [], None;
    var translatedText;
    if p.sameLanguages {
      translatedText := item.text;
    } else {
      called := [Call(item.text, p.source, p.target)];
      var answer := translate(item.text, p.source, p.target);
      if answer.Failure? {
        failure := Some(answer.error);
        return;
      }
      translatedText := answer.value;
    }
    if p.kind == Vtt {
      written := written + [SubtitleWrite(Vtt, translatedText, item.isPartial)];
    } else {
      written := written + [SubtitleWrite(Srt, translatedText, item.isPartial)];
    }
    if !item.isPartial {
      if p.storeTranscript {
        written := written + [TranscriptLine(item.text)];
      }
      if p.storeTranslation {
        written := written + [TranslatedLine(translatedText)];
      }
    }
  }

  /** The alternatives of the first `i + 1` results are those of the first
      `i` followed by the alternatives of result `i`. */
  lemma FlattenSnoc(results: seq<RecognitionResult>, i: nat)
    requires i < |results|
    ensures Flatten(results[..i + 1]) == Flatten(results[..i]) + ResultItems(results[i])
  {
    assert results[..i + 1][..i] == results[..i];
  }

  /** The alternatives of a prefix of the results are a prefix of all the
      alternatives. */
  lemma {:induction false} FlattenPrefix(results: seq<RecognitionResult>, i: nat)
    requires i <= |results|
    ensures |Flatten(results[..i])| <= |Flatten(results)|
    ensures Flatten(results)[..|Flatten(results[..i])|] == Flatten(results[..i])
    decreases |results| - i
  {
    if i < |results| {
      FlattenSnoc(results, i);
      FlattenPrefix(results, i + 1);
    } else {
      assert results[..i] == results;
    }
  }

  /** What one alternative's handling adds to the run: its writes and
      calls after those accumulated since `start`, and the translator error
      that ends the run. */
  lemma AdvanceRun(p: Policy, translate: Translator, done: seq<Item>, items: seq<Item>, j: nat, start: Trace,
                   written: seq<Write>, called: seq<Call>,
                   itemWrites: seq<Write>, itemCalls: seq<Call>, failure: Option<string>)
    requires j < |items|
    requires var t := Run(p, translate, done + items[..j]);
      t.failure.None? && t.writes == start.writes + written && t.calls == start.calls + called
    requires itemCalls == CallsFor(p, items[j].text)
    requires var answer := Translated(p, translate, items[j].text);
      if answer.Failure? then failure == Some(answer.error) && itemWrites == []
      else failure.None? && itemWrites == ItemWrites(p, items[j], answer.value)
    ensures var t := Run(p, translate, done + items[..j + 1]);
      t.writes == start.writes + (written + itemWrites) && t.calls == start.calls + (called + itemCalls)
      && t.failure == failure
  {
    RunNext(p, translate, done, items, j);
    assert start.calls + called + itemCalls == start.calls + (called + itemCalls);
    assert start.writes + written + itemWrites == start.writes + (written + itemWrites);
  }

  /** Advancing the inner loop by one alternative is one more `Run` step. */
  lemma RunNext(p: Policy, translate: Translator, done: seq<Item>, items: seq<Item>, j: nat)
    requires j < |items|
    ensures var before := Run(p, translate, done + items[..j]);
      Run(p, translate, done + items[..j + 1])
        == if before.failure.Some? then before else Step(p, translate, before, items[j])
  {
    assert done + items[..j + 1] == (done + items[..j]) + [items[j]];
    RunSnoc(p, translate, done + items[..j], items[j]);
  }

  lemma AppendAssoc<T>(a: seq<T>, b: seq<T>, c: seq<T>)
    ensures a + b + c == a + (b + c)
  {
  }

  /** Running one more alternative is one more `Step`, unless an error
      already ended the run. */
  lemma RunSnoc(p: Policy, translate: Translator, items: seq<Item>, item: Item)
    ensures var before := Run(p, translate, items);
      Run(p, translate, items + [item]) == if before.failure.Some? then before else Step(p, translate, before, item)
  {
    assert (items + [item])[..|items|] == items;
  }

  /** Once an error ends the run, later alternatives change nothing. */
  lemma {:induction false} RunStops(p: Policy, translate: Translator, prefix: seq<Item>, items: seq<Item>)
    requires Run(p, translate, prefix).failure.Some?
    requires |prefix| <= |items| && items[..|prefix|] == prefix
    ensures Run(p, translate, items) == Run(p, translate, prefix)
    decreases |items|
  {
    if |items| > |prefix| {
      assert items[..|items| - 1][..|prefix|] == prefix;
      RunStops(p, translate, prefix, items[..|items| - 1]);
    } else {
      assert items == prefix;
    }
  }

  // ---------------------------------------------------------------------
  // What a run does, per sink
  // ---------------------------------------------------------------------

  /** Where a write goes. */
  datatype Sink = SubtitleFile | TranscriptFile | TranslatedFile

  function SinkOf(w: Write): Sink {
    match w
    case SubtitleWrite(_, _, _) => SubtitleFile
    case TranscriptLine(_) => TranscriptFile
    case TranslatedLine(_) => TranslatedFile
  }

  /** The writes that went to sink `k`, in order. */
  function OnSink(ws: seq<Write>, k: Sink): seq<Write>
  {
    if ws == [] then []
    else OnSink(ws[..|ws| - 1], k) + (if SinkOf(ws[|ws| - 1]) == k then [ws[|ws| - 1]] else [])
  }

  lemma {:induction false} OnSinkAppend(a: seq<Write>, b: seq<Write>, k: Sink)
    ensures OnSink(a + b, k) == OnSink(a, k) + OnSink(b, k)
    decreases |b|
  {
    if b == [] {
      assert a + b == a;
    } else {
      var b' := b[..|b| - 1];
      assert (a + b)[..|a + b| - 1] == a + b';
      OnSinkAppend(a, b', k);
      AppendAssoc(OnSink(a, k), OnSink(b', k), if SinkOf(b[|b| - 1]) == k then [b[|b| - 1]] else []);
    }
  }

  /** The text a translation produced; empty for a failed one. */
  function TextOf(r: Result<string, string>): string {
    if r.Success? then r.value else []
  }

  /** One cue per alternative, in order: the configured kind, the
      alternative's translation and its partial flag. */
  function Cues(p: Policy, translate: Translator, items: seq<Item>): (r: seq<Write>)
    ensures |r| == |items|
  {
    seq(|items|, j requires 0 <= j < |items| =>
      SubtitleWrite(p.kind, TextOf(Translated(p, translate, items[j].text)), items[j].isPartial))
  }

  /** The alternatives of final (not partial) results, in order. */
  function Finals(items: seq<Item>): seq<Item>
  {
    if items == [] then []
    else Finals(items[..|items| - 1]) + (if items[|items| - 1].isPartial then [] else [items[|items| - 1]])
  }

  /** One transcript-file line per final alternative. */
  function TranscriptLines(finals: seq<Item>): (r: seq<Write>)
    ensures |r| == |finals|
  {
    seq(|finals|, j requires 0 <= j < |finals| => TranscriptLine(finals[j].text))
  }

  /** One translated-file line per final alternative: its translation. */
  function TranslatedLines(p: Policy, translate: Translator, finals: seq<Item>): (r: seq<Write>)
    ensures |r| == |finals|
  {
    seq(|finals|, j requires 0 <= j < |finals| => TranslatedLine(TextOf(Translated(p, translate, finals[j].text))))
  }

  /** One translator call per alternative when the languages differ. */
  function Calls(p: Policy, items: seq<Item>): (r: seq<Call>)
    ensures |r| == if p.sameLanguages then 0 else |items|
  {
    if p.sameLanguages then []
    else seq(|items|, j requires 0 <= j < |items| => Call(items[j].text, p.source, p.target))
  }

  /** A run that ended without error handled its last alternative
      successfully after a run without error. */
  lemma RunLast(p: Policy, translate: Translator, items: seq<Item>)
    requires items != [] && Run(p, translate, items).failure.None?
    ensures var before := Run(p, translate, items[..|items| - 1]);
      var last := items[|items| - 1];
      var answer := Translated(p, translate, last.text);
      before.failure.None? && answer.Success?
      && Run(p, translate, items).writes == before.writes + ItemWrites(p, last, answer.value)
      && Run(p, translate, items).calls == before.calls + CallsFor(p, last.text)
  {
  }

  /** One alternative sends its cue to the subtitle writer, */
  lemma ItemSubtitle(p: Policy, item: Item, translated: string)
    ensures OnSink(ItemWrites(p, item, translated), SubtitleFile)
      == [SubtitleWrite(p.kind, translated, item.isPartial)]
  {
    ItemWritesOn(p, item, translated, SubtitleFile);
    var a := [SubtitleWrite(p.kind, translated, item.isPartial)];
    assert a + [] + [] == a;
  }

  /** its transcript to the transcript file when final and asked for, */
  lemma ItemTranscript(p: Policy, item: Item, translated: string)
    ensures OnSink(ItemWrites(p, item, translated), TranscriptFile)
      == if !item.isPartial && p.storeTranscript then [TranscriptLine(item.text)] else []
  {
    ItemWritesOn(p, item, translated, TranscriptFile);
    var b: seq<Write> := if !item.isPartial && p.storeTranscript then [TranscriptLine(item.text)] else [];
    assert [] + b + [] == b;
  }

  /** and its translation to the translated file when final and asked for. */
  lemma ItemTranslated(p: Policy, item: Item, translated: string)
    ensures OnSink(ItemWrites(p, item, translated), TranslatedFile)
      == if !item.isPartial && p.storeTranslation then [TranslatedLine(translated)] else []
  {
    ItemWritesOn(p, item, translated, TranslatedFile);
    var c: seq<Write> := if !item.isPartial && p.storeTranslation then [TranslatedLine(translated)] else [];
    assert [] + [] + c == c;
  }

  /** A final alternative with both text files asked for writes its cue
      first, then its transcript, then its translation; a partial one
      writes its cue alone. */
  lemma WriteOrder(p: Policy, item: Item, translated: string)
    ensures !item.isPartial && p.storeTranscript && p.storeTranslation ==>
      ItemWrites(p, item, translated)
        == [SubtitleWrite(p.kind, translated, false), TranscriptLine(item.text), TranslatedLine(translated)]
    ensures item.isPartial ==> ItemWrites(p, item, translated) == [SubtitleWrite(p.kind, translated, true)]
  {
  }

  lemma ItemWritesOn(p: Policy, item: Item, translated: string, k: Sink)
    ensures var a := [SubtitleWrite(p.kind, translated, item.isPartial)];
      var b := if !item.isPartial && p.storeTranscript then [TranscriptLine(item.text)] else [];
      var c := if !item.isPartial && p.storeTranslation then [TranslatedLine(translated)] else [];
      OnSink(ItemWrites(p, item, translated), k) == OnSink(a, k) + OnSink(b, k) + OnSink(c, k)
      && OnSink(a, k) == (if k == SubtitleFile then a else [])
      && OnSink(b, k) == (if k == TranscriptFile then b else [])
      && OnSink(c, k) == (if k == TranslatedFile then c else [])
  {
    var a := [SubtitleWrite(p.kind, translated, item.isPartial)];
    var b := if !item.isPartial && p.storeTranscript then [TranscriptLine(item.text)] else [];
    var c := if !item.isPartial && p.storeTranslation then [TranslatedLine(translated)] else [];
    OnSinkAppend(a + b, c, k);
    OnSinkAppend(a, b, k);
    assert a[..0] == [];
    if b != [] { assert b[..0] == []; }
    if c != [] { assert c[..0] == []; }
  }

  /** The subtitle writer receives one cue per alternative, in order, each
      the translation of its alternative in the configured format. */
  lemma {:induction false} SubtitleFileContents(p: Policy, translate: Translator, items: seq<Item>)
    requires Run(p, translate, items).failure.None?
    ensures OnSink(Run(p, translate, items).writes, SubtitleFile) == Cues(p, translate, items)
    decreases |items|
  {
    if items != [] {
      var prefix := items[..|items| - 1];
      var last := items[|items| - 1];
      var translated := TextOf(Translated(p, translate, last.text));
      RunLast(p, translate, items);
      SubtitleFileContents(p, translate, prefix);
      OnSinkAppend(Run(p, translate, prefix).writes, ItemWrites(p, last, translated), SubtitleFile);
      ItemSubtitle(p, last, translated);
      CuesLast(p, translate, items);
    }
  }

  lemma CuesLast(p: Policy, translate: Translator, items: seq<Item>)
    requires items != []
    ensures var last := items[|items| - 1];
      Cues(p, translate, items) == Cues(p, translate, items[..|items| - 1])
        + [SubtitleWrite(p.kind, TextOf(Translated(p, translate, last.text)), last.isPartial)]
  {
  }

  lemma TranscriptLinesSnoc(finals: seq<Item>, item: Item)
    ensures TranscriptLines(finals + [item]) == TranscriptLines(finals) + [TranscriptLine(item.text)]
  {
    assert forall j :: 0 <= j < |finals| ==> (finals + [item])[j] == finals[j];
  }

  lemma TranslatedLinesSnoc(p: Policy, translate: Translator, finals: seq<Item>, item: Item)
    ensures TranslatedLines(p, translate, finals + [item])
      == TranslatedLines(p, translate, finals) + [TranslatedLine(TextOf(Translated(p, translate, item.text)))]
  {
    assert forall j :: 0 <= j < |finals| ==> (finals + [item])[j] == finals[j];
  }

  lemma FinalsLast(items: seq<Item>)
    requires items != []
    ensures var last := items[|items| - 1];
      Finals(items) == Finals(items[..|items| - 1]) + if last.isPartial then [] else [last]
  {
  }

  /** The transcript file receives the transcript of every final
      alternative, in order, when the output format asks for transcripts,
      and nothing otherwise; partial results are never stored. */
  lemma {:induction false} TranscriptFileContents(p: Policy, translate: Translator, items: seq<Item>)
    requires Run(p, translate, items).failure.None?
    ensures OnSink(Run(p, translate, items).writes, TranscriptFile)
      == if p.storeTranscript then TranscriptLines(Finals(items)) else []
    decreases |items|
  {
    if items != [] {
      var prefix := items[..|items| - 1];
      var last := items[|items| - 1];
      var translated := TextOf(Translated(p, translate, last.text));
      RunLast(p, translate, items);
      TranscriptFileContents(p, translate, prefix);
      OnSinkAppend(Run(p, translate, prefix).writes, ItemWrites(p, last, translated), TranscriptFile);
      ItemTranscript(p, last, translated);
      FinalsLast(items);
      if !last.isPartial {
        TranscriptLinesSnoc(Finals(prefix), last);
      } else {
        assert Finals(items) == Finals(prefix);
      }
    }
  }

  /** The translated file receives the translation of every final
      alternative, in order, when the output format asks for translations,
      and nothing otherwise. */
  lemma {:induction false} TranslatedFileContents(p: Policy, translate: Translator, items: seq<Item>)
    requires Run(p, translate, items).failure.None?
    ensures OnSink(Run(p, translate, items).writes, TranslatedFile)
      == if p.storeTranslation then TranslatedLines(p, translate, Finals(items)) else []
    decreases |items|
  {
    if items != [] {
      var prefix := items[..|items| - 1];
      var last := items[|items| - 1];
      var translated := TextOf(Translated(p, translate, last.text));
      RunLast(p, translate, items);
      TranslatedFileContents(p, translate, prefix);
      OnSinkAppend(Run(p, translate, prefix).writes, ItemWrites(p, last, translated), TranslatedFile);
      ItemTranslated(p, last, translated);
      FinalsLast(items);
      if !last.isPartial {
        TranslatedLinesSnoc(p, translate, Finals(prefix), last);
      } else {
        assert Finals(items) == Finals(prefix);
      }
    }
  }

  /** Output format "none" (like any value other than the three that store
      text) asks for neither text file. */
  lemma NoneFormatStoresNothing(s: Settings)
    requires s.outputFormat == NoOutput.Value()
    ensures !PolicyOf(s).storeTranscript && !PolicyOf(s).storeTranslation
  {
  }

  /** When neither text file is asked for, nothing reaches them, whether or
      not the event fails. */
  lemma {:induction false} NoTextOutput(p: Policy, translate: Translator, items: seq<Item>)
    requires !p.storeTranscript && !p.storeTranslation
    ensures OnSink(Run(p, translate, items).writes, TranscriptFile) == []
    ensures OnSink(Run(p, translate, items).writes, TranslatedFile) == []
    decreases |items|
  {
    if items != [] {
      var prefix := items[..|items| - 1];
      var last := items[|items| - 1];
      NoTextOutput(p, translate, prefix);
      var before := Run(p, translate, prefix);
      if before.failure.None? && Translated(p, translate, last.text).Success? {
        var translated := Translated(p, translate, last.text).value;
        OnSinkAppend(before.writes, ItemWrites(p, last, translated), TranscriptFile);
        OnSinkAppend(before.writes, ItemWrites(p, last, translated), TranslatedFile);
        ItemTranscript(p, last, translated);
        ItemTranslated(p, last, translated);
      }
    }
  }

  /** The translator is called once per alternative, in order, with the
      configured languages, exactly when the languages differ. */
  lemma {:induction false} TranslatorCalls(p: Policy, translate: Translator, items: seq<Item>)
    requires Run(p, translate, items).failure.None?
    ensures Run(p, translate, items).calls == Calls(p, items)
    decreases |items|
  {
    if items != [] {
      var prefix := items[..|items| - 1];
      RunLast(p, translate, items);
      TranslatorCalls(p, translate, prefix);
      if !p.sameLanguages {
        assert Calls(p, items) == Calls(p, prefix) + CallsFor(p, items[|items| - 1].text);
      }
    }
  }

  /** The run fails exactly when the languages differ and the translator
      fails on some alternative. */
  lemma {:induction false} RunFailsIff(p: Policy, translate: Translator, items: seq<Item>)
    ensures Run(p, translate, items).failure.Some?
      <==> !p.sameLanguages
           && exists j :: 0 <= j < |items| && translate(items[j].text, p.source, p.target).Failure?
    decreases |items|
  {
    if items != [] {
      var prefix := items[..|items| - 1];
      RunFailsIff(p, translate, prefix);
      assert forall j :: 0 <= j < |prefix| ==> prefix[j] == items[j];
      if !p.sameLanguages && exists j :: 0 <= j < |items| && translate(items[j].text, p.source, p.target).Failure? {
        var j :| 0 <= j < |items| && translate(items[j].text, p.source, p.target).Failure?;
        if j < |prefix| {
          assert translate(prefix[j].text, p.source, p.target).Failure?;
        }
      }
    }
  }

  /** The first failing alternative ends the run: everything written for
      the alternatives before it stays written, its own translator call is
      made, nothing after it happens, and the error carries its message. */
  lemma StopsAtFirstFailure(p: Policy, translate: Translator, items: seq<Item>, j: nat)
    requires j < |items| && Translated(p, translate, items[j].text).Failure?
    requires forall k :: 0 <= k < j ==> Translated(p, translate, items[k].text).Success?
    ensures var before := Run(p, translate, items[..j]);
      before.failure.None?
      && Run(p, translate, items)
        == Trace(before.writes, before.calls + CallsFor(p, items[j].text),
                 Some(Translated(p, translate, items[j].text).error))
  {
    var prefix := items[..j];
    RunFailsIff(p, translate, prefix);
    assert forall k :: 0 <= k < j ==> prefix[k] == items[k];
    RunNext(p, translate, [], items, j);
    assert [] + items[..j] == prefix && [] + items[..j + 1] == items[..j + 1];
    RunStops(p, translate, items[..j + 1], items);
  }

  /** The raised TranscriptionError does not carry the translator's
      message: the TranslationError renders without it, so every failure
      yields the same error. */
  lemma EventErrorDropsCause(m: string)
    ensures EventError(m).kind == Transcription && EventError(m).originalError == None
    ensures EventError(m).message == "transcript event error: TranslationError: None"
    ensures Str(EventError(m)) == "TranscriptionError: None"
  {
    MessageOnlyRendering(Translation, "Translation error: " + m);
    MessageOnlyRendering(Transcription, EventError(m).message);
  }

  /** When the languages agree the translator is never called, the run
      cannot fail, and every cue carries its alternative's own text. */
  lemma SameLanguagesPassThrough(p: Policy, translate: Translator, items: seq<Item>)
    requires p.sameLanguages
    ensures Run(p, translate, items).failure.None? && Run(p, translate, items).calls == []
    ensures OnSink(Run(p, translate, items).writes, SubtitleFile)
      == seq(|items|, j requires 0 <= j < |items| => SubtitleWrite(p.kind, items[j].text, items[j].isPartial))
  {
    RunFailsIff(p, translate, items);
    TranslatorCalls(p, translate, items);
    SubtitleFileContents(p, translate, items);
  }

  /** The same-language test is case-insensitive but its one special pair
      is not symmetric: "en-US" to "en" skips translation, "en" to "en-US"
      does not. */
  lemma SameLanguagesExamples(format: string, region: string, output: string)
    ensures SameLanguages(Settings("en-US", "en", format, region, output))
    ensures SameLanguages(Settings("FR", "fr", format, region, output))
    ensures !SameLanguages(Settings("en", "en-US", format, region, output))
  {
  }

  /** Handling results one after another handles their alternatives one
      after another. */
  lemma {:induction false} FlattenAppend(a: seq<RecognitionResult>, b: seq<RecognitionResult>)
    ensures Flatten(a + b) == Flatten(a) + Flatten(b)
    decreases |b|
  {
    if b == [] {
      assert a + b == a;
    } else {
      var b' := b[..|b| - 1];
      assert (a + b)[..|a + b| - 1] == a + b';
      FlattenAppend(a, b');
      AppendAssoc(Flatten(a), Flatten(b'), ResultItems(b[|b| - 1]));
    }
  }
}

# talklocal core in Dafny

talklocal turns live speech into translated subtitles. Amazon Transcribe
streams recognition results. For every alternative of every result,
`TranscriptHandler.handle_transcript_event` does three things:

- it translates the text with Amazon Translate, unless the two languages are
  the same;
- it appends one cue to a WebVTT or SRT subtitle file;
- for final results only, it appends the transcript and/or the translation to
  plain-text output files.

This project models the deterministic core of that pipeline and proves what
it does.

| Module | File | Models |
|---|---|---|
| `Wrappers` | wrappers.dfy | `Option` (Python's `None`) and `Result` (returned or raised) |
| `Text` | text.dfy | the ASCII string operations the core uses: `isdigit`, `int()`, `str(int)`, `strip`, `lower`, the `in` substring test, and splitting a file into lines |
| `Errors` | errors.dfy | `ErrorHandler` (talklocal/handle_error.py): the four error kinds, their `__str__` rendering and the `handle_error` dispatch |
| `Config` | config.dfy | talklocal/models.py: the language enums and their first-substring-match lookup, the subtitle and output format enums, `UserInput` and `from_input_data` |
| `Clock` | clock.dfy | times of day as milliseconds since midnight; their `HH:MM:SS.mmm` rendering and parsing; addition that wraps at 24 hours |
| `Subtitle` | subtitle.dfy | talklocal/main/generate_subtitle.py: `calculate_end_time` in integer milliseconds, `get_next_cue_number` as a reverse scan, the two writers over a file system held as a map from path to content, and `CaptionSmoothing` |
| `Pipeline` | pipeline.dfy | talklocal/main/process_request.py: `TranscriptDataHandler` and `TranscriptHandler.handle_transcript_event` |

### The two classes and the handler

`TranscriptDataHandler` is a class with two list fields that only grow.

`TranscriptHandler` holds its settings and two logs:

- `writes` records every write to a sink, in order. A sink is the subtitle
  writer, `transcript_full.txt` or `translated_output_full.txt`.
- `translateCalls` records every call of the translator.

The translator is a function parameter that returns a translation or the
service's error text.

### How the handler is specified

`handle_transcript_event` is a nested loop over results and alternatives. It
is written as a method with that loop. Its contract ties the new logs and
the raised error to `Run`, a function over the event's flattened
alternatives.

The lemmas beside `Run` then state what each sink receives. They also state
when the translator is called, and when and how the event fails.

## Model

| member | source | states |
|---|---|---|
| `Pipeline.TranscriptDataHandler.constructor` | talklocal/main/process_request.py:35-38 | A new store has both lists empty. |
| `Pipeline.TranscriptDataHandler.StoreTranscriptData` | talklocal/main/process_request.py:40-42 | Appends exactly one `(text, is_partial)` pair at the end of the transcript list. The translated list is unchanged. |
| `Pipeline.TranscriptDataHandler.GetTranscriptData` | talklocal/main/process_request.py:44-46 | Returns a list equal to the current transcript list. It modifies nothing. |
| `Pipeline.TranscriptDataHandler.StoreTranslatedData` | talklocal/main/process_request.py:48-50 | Appends exactly one pair at the end of the translated list. The transcript list is unchanged. |
| `Pipeline.TranscriptDataHandler.GetTranslatedData` | talklocal/main/process_request.py:52-54 | Returns a list equal to the current translated list. It modifies nothing. |
| `Pipeline.TranscriptHandler.constructor` | talklocal/main/process_request.py:79-98 | Keeps the five settings and the data handler as given. The sequence number is 0 and nothing has been written. |
| `Pipeline.PolicyOf` | talklocal/main/process_request.py:124-134 | The decisions taken before the loops (`Pipeline.SameLanguagesPassThrough` and `Pipeline.NoTextOutput` state what they mean for the event): translation is skipped iff `src.lower() == tgt.lower()` or exactly `src == "en-US"` and `tgt == "en"`. The transcript is stored iff the format is `transcript_text` or `both_text`. The translation is stored iff it is `translated_text` or `both_text`. The cue is VTT iff the format lower-cases to `vtt`. |
| `Pipeline.TranscriptHandler.HandleTranscriptEvent` | talklocal/main/process_request.py:100-164 | The sinks and the translator log grow by exactly what `Run` gives for the event's alternatives, in result-then-alternative order. A translator failure is raised as the corresponding `TranscriptionError`, and the writes already made stay. The data handler is never written. |
| `Pipeline.HandleResult` | talklocal/main/process_request.py:137-160 | The inner loop over one result's alternatives: it adds exactly `Run`'s next steps, and stops at the first translator failure. |
| `Pipeline.HandleAlternative` | talklocal/main/process_request.py:138-160 | One alternative: the translator is called only when the languages differ. On success it writes the cue, then the transcript and translation lines for a final alternative when they are asked for. On failure it writes nothing and reports the service's text. |
| `Pipeline.FlattenAppend` | talklocal/main/process_request.py:136-139 | Flattening two lists of results one after the other gives the alternatives of the first list followed by those of the second. |
| `Pipeline.SubtitleFileContents` | talklocal/main/process_request.py:136-152 | After a successful event, the subtitle writer has received exactly one cue per alternative, in order. Each cue carries that alternative's translation and `is_partial`, in the configured format. |
| `Pipeline.TranscriptFileContents` | talklocal/main/process_request.py:124-157 | After a successful event, the transcript file has received the transcript of every final alternative, in order, when the format asks for it, and nothing otherwise. Partial alternatives never reach it. |
| `Pipeline.TranslatedFileContents` | talklocal/main/process_request.py:126-160 | After a successful event, the translated file has received the translation of every final alternative, in order, when the format asks for it, and nothing otherwise. |
| `Pipeline.SameLanguages` | talklocal/main/process_request.py:131-134 | Identical codes never need translation. Codes that match need the same length, unless they are the `en-US`→`en` pair. |
| `Pipeline.Step` | talklocal/main/process_request.py:138-160 | One alternative only extends the write log and the call log. It calls the translator exactly once when the languages differ and never otherwise. A failure writes nothing and can only happen when the languages differ. A success adds at least one write. |
| `Pipeline.StepCue` | talklocal/main/process_request.py:148-152 | The first write a successful step adds is the alternative's cue: the configured kind, the translation (or the transcript when the languages agree) and the partial flag. |
| `Pipeline.Run` | talklocal/main/process_request.py:136-164 | An event handled without failure writes at least as many entries as it has alternatives. `Pipeline.SubtitleFileContents`, `Pipeline.TranscriptFileContents` and `Pipeline.TranslatedFileContents` say which entries they are. `Pipeline.RunFailsIff` and `Pipeline.StopsAtFirstFailure` state when and how it fails. |
| `Pipeline.WriteOrder` | talklocal/main/process_request.py:148-160 | For a final alternative with `both_text`, the writes are the cue, then the transcript, then the translation. A partial alternative writes its cue alone. |
| `Pipeline.ItemSubtitle` | talklocal/main/process_request.py:148-152 | One alternative sends exactly its cue to the subtitle writer. |
| `Pipeline.ItemTranscript` | talklocal/main/process_request.py:155-157 | One alternative sends its transcript to the transcript file iff it is final and the transcript is stored. |
| `Pipeline.ItemTranslated` | talklocal/main/process_request.py:155-160 | One alternative sends its translation to the translated file iff it is final and the translation is stored. |
| `Pipeline.NoneFormatStoresNothing` | talklocal/main/process_request.py:124-127 | With output format `none`, neither text file is written. |
| `Pipeline.NoTextOutput` | talklocal/main/process_request.py:154-160 | When neither text file is asked for, neither receives anything, even when the event fails. |
| `Pipeline.TranslatorCalls` | talklocal/main/process_request.py:141-146 | After a successful event, the translator has been called once per alternative, in order, with the configured languages, or not at all when the languages agree. |
| `Pipeline.SameLanguagesPassThrough` | talklocal/main/process_request.py:131-152 | When the languages agree, the event cannot fail and the translator is never called. Each cue carries its alternative's transcript unchanged. |
| `Pipeline.SameLanguagesExamples` | talklocal/main/process_request.py:131-134 | `en-US`→`en` and `FR`→`fr` need no translation. The alias is case- and direction-sensitive: `en`→`en-US` does. |
| `Pipeline.RunFailsIff` | talklocal/main/process_request.py:141-164 | An event fails iff the languages differ and the translator fails on one of its alternatives. |
| `Pipeline.StopsAtFirstFailure` | talklocal/main/process_request.py:120-164 | At the first failing alternative the event stops. Everything written for the alternatives before it stays, nothing after it is written, and the failure carries that alternative's error. |
| `Pipeline.EventErrorDropsCause` | talklocal/main/process_request.py:162-164 | The raised error is a `TranscriptionError` without an original error. Its message embeds only `"TranslationError: None"`, so the service's text is lost, and it renders as `"TranscriptionError: None"`. |
| `Pipeline.RunLast` | talklocal/main/process_request.py:136-160 | A successful event ends with the last alternative's writes and calls. |
| `Pipeline.RunStops` | talklocal/main/process_request.py:162-164 | Once an alternative has failed, no later alternative adds writes or calls. |
| `Errors.NewError` | talklocal/handle_error.py:7-16 | An error stores its kind and message. `original_error` defaults to `None`. |
| `Errors.HandleError` | talklocal/handle_error.py:85-109 | Every input raises. `transcription`, `translation`, `subtitling` and `output` raise their own kind with the message, and any other string raises `ValueError`. |
| `Errors.HandleErrorRoundTrip` | talklocal/handle_error.py:100-107 | Dispatching on a kind's own name raises exactly that kind. |
| `Errors.Str` | talklocal/handle_error.py:18-22 | The rendering starts with the kind's name followed by `": "`. |
| `Errors.StrIgnoresMessage` | talklocal/handle_error.py:18-22 | The rendering of an error does not depend on its message. |
| `Errors.MessageOnlyRendering` | talklocal/handle_error.py:7-19 | An error built from a message alone renders as `"<KindName>: None"`. |
| `Errors.StrDeterminesKind` | talklocal/handle_error.py:18-19 | The kind can be read back from the rendering. |
| `Config.TargetLanguage` | talklocal/models.py:28-103 | The 74 target languages in declaration order. |
| `Config.FirstMatchFrom` | talklocal/models.py:207-210 | The scan returns the first member from the start position whose value contains the code, or reports that none does. |
| `Config.GetLanguageEnum` | talklocal/models.py:195-210 | Returns a member iff some member's value contains the code. The member returned is the first such in declaration order. |
| `Config.GetSourceLanguageEnum` | talklocal/models.py:169-179 | With `SourceLanguage` (lines 22-24) holding only English, finds English (`en-US`) iff the code is a substring of `en-US`, and nothing otherwise. |
| `Config.GetTargetLanguageEnum` | talklocal/models.py:182-192 | Finds a target member whose value contains the code, or nothing when no member's value does. |
| `Config.FirstMatchInPrefix` | talklocal/models.py:207-209 | A match among the first members is the match of the whole enum. |
| `Config.FaResolvesToDari` | talklocal/models.py:45-48 | Through the first-match scan (lines 207-209), `"fa"` resolves to Dari (`fa-AF`, line 45), not to Farsi (`fa`, line 48). |
| `Config.CodesBeforeDari` | talklocal/models.py:30-44 | None of the 15 codes declared before Dari contains `"fa"`. |
| `Config.EnResolvesToEnglish` | talklocal/models.py:22-24 | Through the first-match scan (lines 207-209), the source code `"en"` resolves to `en-US`. |
| `Config.EmptyCodeFindsFirst` | talklocal/models.py:207-209 | The empty code resolves to the first member. |
| `Config.ParseSubtitleFormat` | talklocal/models.py:106-109 | `SubtitleFormat(value)` succeeds only on a member's exact value, and fails with that value otherwise. |
| `Config.ParseOutputFormat` | talklocal/models.py:111-116 | `OutputFormat(value)` succeeds only on a member's exact value, and fails with that value otherwise. |
| `Config.FormatsRoundTrip` | talklocal/models.py:106-116 | Every member's value parses back to that member. |
| `Config.NewUserInput` | talklocal/models.py:130-146 | The constructor stores its five arguments verbatim. |
| `Config.UserInputDefaults` | talklocal/models.py:130 | Omitted arguments take region `us-east-1` and output format `none`. |
| `Config.FromInputData` | talklocal/models.py:150-166 | On success, the languages are the values of the matched members, not the raw input. The subtitle format is `srt` or `vtt`, and region and output format are the given values or the defaults. |
| `Config.WithFormats` | talklocal/models.py:163-166 | Once both languages are found, the result succeeds iff `subtitle_format` is present and is `srt` or `vtt`, and any given `output_format` is one of the four values. On success it holds the two languages, the format as given, and the region and output format as given or defaulted. |
| `Config.FromInputDataSucceedsIff` | talklocal/models.py:161-165 | Succeeds iff all three required keys are present, both language codes find a member, and both formats are valid values. A missing key, an unknown code or an invalid format fails. |
| `Config.FromInputDataStoresMatchedValues` | talklocal/models.py:161-162 | On success, the stored languages are the values of the members the lookups found. |
| `Clock.Pad` | talklocal/main/generate_subtitle.py:142 | A number in exactly `width` digits. |
| `Clock.PadValue` | talklocal/main/generate_subtitle.py:142 | Padding a number that fits its width loses nothing. |
| `Clock.FormatClock` | talklocal/main/generate_subtitle.py:197 | A time renders as 12 characters in `HH:MM:SS.mmm` layout. |
| `Clock.ParseClock` | talklocal/main/generate_subtitle.py:128 | Only 12-character texts parse. |
| `Clock.ParseFormatClock` | talklocal/main/generate_subtitle.py:128-142 | Every rendered time parses back to itself, so `strptime` of a rendered time never fails. |
| `Clock.DigitsPad` | talklocal/main/generate_subtitle.py:142 | A digit string is the zero-padded rendering of its own value at its own width. |
| `Clock.ParseClockExact` | talklocal/main/generate_subtitle.py:128 | A text that parses to a time is that time's rendering, so no other spelling of a time parses. |
| `Clock.ParseClockIff` | talklocal/main/generate_subtitle.py:128-142 | A text parses to a time iff it is that time's rendering. |
| `Clock.AddMs` | talklocal/main/generate_subtitle.py:141 | Adding a duration agrees with exact addition modulo 24 hours. |
| `Subtitle.RunLength` | talklocal/main/generate_subtitle.py:129 | The longest prefix of word characters: all word characters, followed by a non-word character or the end. |
| `Subtitle.FindWords` | talklocal/main/generate_subtitle.py:129 | `re.findall(r'\w+')` returns non-empty runs of word characters. |
| `Subtitle.FindWordsCount` | talklocal/main/generate_subtitle.py:129 | The number of words found equals the number of word starts, an independent count. |
| `Subtitle.WordStartsInRun` | talklocal/main/generate_subtitle.py:129 | No word starts inside a run of word characters. |
| `Subtitle.SplitSentences` | talklocal/main/generate_subtitle.py:138 | `re.split(r'[.!?]')` returns at least one piece, and no piece holds a terminator. |
| `Subtitle.SplitSentencesCount` | talklocal/main/generate_subtitle.py:138 | The number of pieces is one more than the number of terminators. |
| `Subtitle.SplitSentencesJoin` | talklocal/main/generate_subtitle.py:138 | Joining the pieces gives the text without its terminators. |
| `Subtitle.DurationMs` | talklocal/main/generate_subtitle.py:129-139 | Every duration is at least 3 seconds, because the text always splits into at least one sentence piece. |
| `Subtitle.DurationAtDefaultRate` | talklocal/main/generate_subtitle.py:129-139 | At 150 words per minute the duration is 400 ms per word, plus 1200 ms per punctuation mark, plus 3000 ms per sentence piece. |
| `Subtitle.HelloWorldDuration` | talklocal/main/generate_subtitle.py:129-139 | `"Hello world."` lasts exactly 8000 ms. |
| `Subtitle.CalculateEndTime` | talklocal/main/generate_subtitle.py:111-142 | A missing start gives `None`. A start that does not parse fails. Otherwise the result is start plus duration, modulo 24 hours, rendered as `HH:MM:SS.mmm` followed by `Z`. |
| `Subtitle.Timing` | talklocal/main/generate_subtitle.py:208 | The `start --> end` line of either writer (also line 103) is a single line and never reads as a cue number. |
| `Subtitle.EndTimeOfRenderedStart` | talklocal/main/generate_subtitle.py:197-198 | The writers' own rendering of the start always parses, so the end time is always present. |
| `Subtitle.EndStampReadsBack` | talklocal/main/generate_subtitle.py:141-142 | The end stamp reads back as start plus duration modulo 24 hours. |
| `Subtitle.CueValue` | talklocal/main/generate_subtitle.py:169-171 | A line holds a cue number iff it strips to a non-empty run of digits (`isdigit`). |
| `Subtitle.CueValueDigits` | talklocal/main/generate_subtitle.py:169-171 | The number a line holds is the stripped line read as a decimal: zero-padded to the line's width, it gives the line back. |
| `Subtitle.CueValues` | talklocal/main/generate_subtitle.py:169-171 | One value per line. What the values mean is stated by `Subtitle.LastCueNumberAt` and `Subtitle.LastCueNumberNone`. |
| `Subtitle.NextCueNumber` | talklocal/main/generate_subtitle.py:144-174 | Every next cue number found is at least 1. `Subtitle.GetNextCueNumber` states its cases. |
| `Subtitle.LastCueNumberNone` | talklocal/main/generate_subtitle.py:167-174 | There is no last cue number iff no line holds one. |
| `Subtitle.LastCueNumberAt` | talklocal/main/generate_subtitle.py:168-172 | The last cue number is the one on the bottom-most line that holds one. |
| `Subtitle.LastCueNumberAppend` | talklocal/main/generate_subtitle.py:168-172 | Lines below a cue number decide the result when they hold one. |
| `Subtitle.GetNextCueNumber` | talklocal/main/generate_subtitle.py:144-174 | 1 for a missing file or one without lines. Otherwise one more than the bottom-most cue number, or `None` when there is none. |
| `Subtitle.FindLastCueNumber` | talklocal/main/generate_subtitle.py:167-172 | The reverse scan with early `break` finds exactly the bottom-most cue number. |
| `Subtitle.FileSystem.constructor` | talklocal/main/generate_subtitle.py:95-98 | The file system holds the given files. |
| `Subtitle.VttStart` | talklocal/main/generate_subtitle.py:91-92 | The VTT start is the clock truncated to the whole second. |
| `Subtitle.VttStartWholeSecond` | talklocal/main/generate_subtitle.py:91-92 | The VTT start always renders with `.000`. |
| `Subtitle.WritesOnlyAppend` | talklocal/main/generate_subtitle.py:202-209 | Both writers (the VTT one at lines 98-104) leave the prior content untouched at the front. An SRT write always adds something. |
| `Subtitle.VttWriteAllAppends` | talklocal/main/generate_subtitle.py:99-104 | On a non-empty file, VTT writes are pure concatenation, with no header and no blank line between cues. |
| `Subtitle.HeaderOnce` | talklocal/main/generate_subtitle.py:95-100 | From a missing or empty file, any number of VTT writes puts `WEBVTT` at the top exactly once. |
| `Subtitle.SrtCueLayout` | talklocal/main/generate_subtitle.py:207-209 | An SRT cue reads as four lines: number, timing, text and a blank line. |
| `Subtitle.DecimalLineValue` | talklocal/main/generate_subtitle.py:168-172 | A cue number written out by line 207 reads back as that number. |
| `Subtitle.LastCueNumberAfterCue` | talklocal/main/generate_subtitle.py:203-209 | After an SRT cue, the last cue number in the file is the cue's own number, or the text's value when the text is all digits. |
| `Subtitle.SrtWriteEndsLine` | talklocal/main/generate_subtitle.py:209 | An SRT file after a write ends at a line boundary. |
| `Subtitle.SrtNumberingContinues` | talklocal/main/generate_subtitle.py:203-209 | On a file whose next number is `k`, one-line, non-numeric cue texts are numbered `k`, `k+1`, … |
| `Subtitle.SrtNumbersFromOne` | talklocal/main/generate_subtitle.py:199-209 | On a fresh file, such cues are numbered 1, 2, 3, … |
| `Subtitle.NumericTextShiftsNumbering` | talklocal/main/generate_subtitle.py:168-172 | An all-digit cue text `n` makes the next cue number `n + 1`. |
| `Subtitle.SubtitleGenerator.constructor` | talklocal/main/generate_subtitle.py:60-68 | Keeps the subtitle path, by default `./subtitle/realtime_subtitle`, and creates a fresh caption smoother of window size 5 whose invariant holds, with an empty buffer and no caption yet added, so `AddCaption` can be called on it. |
| `Subtitle.SubtitleGenerator.GenerateVttSubtitle` | talklocal/main/generate_subtitle.py:71-108 | Only the `.vtt` file changes. It becomes its previous content with one VTT cue appended, after the header when the file was missing or empty. `partial_flag` plays no part. |
| `Subtitle.SubtitleGenerator.GenerateSrtSubtitle` | talklocal/main/generate_subtitle.py:176-213 | Only the `.srt` file changes. It becomes its previous content with one numbered SRT cue appended. `partial_flag` plays no part. |
| `Subtitle.VttAppend` | talklocal/main/generate_subtitle.py:91-104 | A VTT write keeps the previous content as a prefix and adds something after it. |
| `Subtitle.VttAppendHeader` | talklocal/main/generate_subtitle.py:95-100 | A VTT write to a missing or empty file starts with the `WEBVTT` header. |
| `Subtitle.SrtCueNumber` | talklocal/main/generate_subtitle.py:198-203 | The SRT writer's cue number is always at least 1. |
| `Subtitle.SrtAppend` | talklocal/main/generate_subtitle.py:197-209 | An SRT write keeps the previous content as a prefix and adds something after it. |
| `Subtitle.VttFileAfterWrite` | talklocal/main/generate_subtitle.py:91-104 | The VTT writer's body produces exactly the appended file. |
| `Subtitle.SrtFileAfterWrite` | talklocal/main/generate_subtitle.py:197-209 | The SRT writer's body produces exactly the appended file. |
| `Subtitle.ChooseCueNumber` | talklocal/main/generate_subtitle.py:203-205 | The cue number is forced to 1 when the file was missing or empty, or when the lookup gives `None`. |
| `Subtitle.EndTimeFor` | talklocal/main/generate_subtitle.py:197-198 | The timing line the writers build is the model's `Timing`. |
| `Subtitle.LastN` | talklocal/main/generate_subtitle.py:42 | Keeps at most `n` elements, and never more than the sequence has. |
| `Subtitle.LastNAppend` | talklocal/main/generate_subtitle.py:42-45 | Trimming to `n` before appending keeps what trimming after would. |
| `Subtitle.CaptionSmoothing.constructor` | talklocal/main/generate_subtitle.py:40-42 | An empty buffer with the given window size. |
| `Subtitle.CaptionSmoothing.AddCaption` | talklocal/main/generate_subtitle.py:44-45 | The buffer becomes the last `window_size` captions ever added, in insertion order. |
| `Subtitle.CaptionSmoothing.GetSmoothedCaption` | talklocal/main/generate_subtitle.py:47-56 | `None` iff the buffer is empty. Otherwise the mean of the buffer. |
| `Text.DecimalRoundTrip` | talklocal/main/generate_subtitle.py:170-171 | `str(n)` is all digits and `int(str(n)) == n`. |
| `Text.StripLeftSpec` | talklocal/main/generate_subtitle.py:169 | What the left strip removes is whitespace, and what it keeps starts with a non-space. |
| `Text.StripRightSpec` | talklocal/main/generate_subtitle.py:169 | What the right strip removes is whitespace, and what it keeps ends with a non-space. |
| `Text.StripUnpadded` | talklocal/main/generate_subtitle.py:169 | A string without surrounding whitespace is its own strip. |
| `Text.Lower` | talklocal/main/process_request.py:131-134 | Same length as the input, lower-casing character by character. |
| `Text.ContainsIff` | talklocal/models.py:208 | The `in` test holds iff the code occurs at some index of the value. |
| `Text.StartsWithIff` | talklocal/models.py:208 | The prefix test agrees with slicing. |
| `Text.Lines` | talklocal/main/generate_subtitle.py:161-162 | A file has no lines iff it is empty, and no line holds a terminator. |
| `Text.LinesCons` | talklocal/main/generate_subtitle.py:161-162 | A line followed by `\n` reads as that line and then the rest. |
| `Text.LinesAppend` | talklocal/main/generate_subtitle.py:161-162 | Text that ends at a line boundary reads as its own lines followed by the lines of what comes next. |

Some helper functions that model fragments of the source have no row of their own, because their meaning is stated by the lemmas above:
- `Pipeline.Translated`, `Pipeline.ItemWrites` and `Pipeline.EventError` are covered by `Pipeline.WriteOrder`, `Pipeline.ItemSubtitle`, `Pipeline.ItemTranscript`, `Pipeline.ItemTranslated` and `Pipeline.EventErrorDropsCause`.
- `Subtitle.VttCue`, `Subtitle.SrtCue` and `Subtitle.EndStamp` are covered by `Subtitle.VttFileAfterWrite`, `Subtitle.SrtCueLayout` and `Subtitle.EndStampReadsBack`.
- `Subtitle.LastCueNumber` is covered by `Subtitle.LastCueNumberAt`, `Subtitle.LastCueNumberNone` and `Subtitle.FindLastCueNumber`.

## Left out

- `talklocal/main/audio_handler.py` is not part of this model: microphone capture and a cross-thread queue are device I/O and concurrency.
- `write_chunks`, `basic_transcribe` and `process_request` (talklocal/main/process_request.py:166-282) are AWS streaming, `asyncio.gather` and network setup. `basic_transcribe` swallows any error and returns `None` (lines 252-255), so the `TranscriptionError` of a failed event never reaches `process_request`'s caller.
- `talklocal/main/translate_transcript.py` is the `Translator` function parameter. Its `region` argument is dropped because `translate_text` ignores it. `Translate()`, `SubtitleGenerator()` and `OutputGenerator()` are built outside the `try` (lines 117-119). A failure there is not modelled.
- `Subtitle.SubtitleGenerator.GenerateVttSubtitle`: the `except` that wraps a failure as `SubtitlingError` (talklocal/main/generate_subtitle.py:107-108) is not modelled, because opening a file cannot fail in the map file system.
- `Subtitle.SubtitleGenerator.GenerateSrtSubtitle`: the `except` that wraps a failure as `SubtitlingError` (talklocal/main/generate_subtitle.py:211-213) is not modelled. Opening a file cannot fail in the map file system, and `isdigit` is ASCII here, so `int()` of a stripped digit line is total. With Unicode `isdigit`, a line such as `²` would make `int()` raise.
- `talklocal/main/generate_output.py` is modelled as the two text sinks of the write log, one entry per line. A failing file write would raise `OutputGenerationError`; that is not modelled, because file I/O cannot fail in the model.
- `Pipeline.TranscriptHandler.HandleTranscriptEvent`: the subtitle writers are sinks in the log, not calls of `Subtitle.SubtitleGenerator`, so their `SubtitlingError` cannot arise. The only failure modelled is the translator's.
- `Pipeline.TranscriptHandler.HandleTranscriptEvent`: the subtitle format is always a string here. The command line leaves `--subtitle-format` optional (talklocal/core.py:22), so `subtitle_format` can be `None`. Then `self.subtitle_format.lower()` at talklocal/main/process_request.py:149 raises `AttributeError` on the first alternative, after that alternative's translator call. The error is re-raised as `TranscriptionError` (lines 162-164). The model instead treats every format that is not `vtt` as SRT. `Pipeline.SameLanguagesPassThrough` and `Pipeline.RunFailsIff` hold only when a subtitle format is given.
- `Pipeline.HandleResult`: the handler's inner loop and the body for one alternative are separate methods returning what they add, and the handler appends that to its logs once per result. Within an event, the order of writes is the source's.
- `TranscriptHandler.sequence_number` is stored but never used by the source, and it plays no part here either.
- `datetime.now()` is the `now` parameter, in milliseconds since midnight. The file system is a map from path to content, and a missing path is a missing file.
- `Subtitle.CalculateEndTime`: float seconds are integer milliseconds. This is exact at the default 150 words per minute. For any other rate it requires `60000 % wpm == 0`.
- `Subtitle.CalculateEndTime`: the start must be exactly `HH:MM:SS.mmm`. `strptime` accepts some looser forms (fewer digits of `%f`, for instance) that the model rejects. The writers only ever pass that exact form, as `Subtitle.EndTimeOfRenderedStart` shows.
- `\w`, `isdigit`, `strip` and `lower` are their ASCII restrictions. Unicode letters and digits are not modelled.
- `Text.Lines` splits at `\n` and at `\r`, as universal-newline reading does. A `\r\n` pair gives an extra empty line, which strips to nothing and is never a cue number.
- `Subtitle.CaptionSmoothing.GetSmoothedCaption` uses `real` for the float mean. The window is a `nat`, so a negative `window_size`, which `deque` rejects, is not modelled. The smoother is never fed by the source.
- `print` and `logging` calls are not modelled.
- `talklocal/core.py`, `setup.py` and `talklocal/__init__.py` (argument parsing, packaging and re-exports) are not part of this model.
- `Clock.AddMs` wraps at midnight, so a cue started just before midnight ends at an earlier time of day.
- `Pipeline.SameLanguages` compares case-insensitively and adds the one `en-US`→`en` alias.
- A translator failure is re-raised as `TranscriptionError` and its cause is dropped (`Pipeline.EventErrorDropsCause`).

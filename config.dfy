/**
 * Configuration model of talklocal/models.py: the language enums, the
 * subtitle and output format enums, the `UserInput` record and its
 * dictionary factory `from_input_data`.
 */
module Config {
  import opened Wrappers
  import opened Text

  /** A member of a `str` Enum: its Python name and its string value. */
  datatype LanguageMember = LanguageMember(name: string, value: string)

  /** `SourceLanguage`, in declaration order. */
  const SourceLanguage: seq<LanguageMember> := [LanguageMember("English", "en-US")]

  /** `TargetLanguage`, in declaration order. */
  function TargetLanguage(): (members: seq<LanguageMember>)
    ensures |members| == 74
  {
    seq(74, TargetMember)
  }

  /** The `i`-th member of `TargetLanguage` as declared (counting from 0). */
  function TargetMember(i: int): LanguageMember
  {
    match i
    case 0 => LanguageMember("Afrikaans", "af")
    case 1 => LanguageMember("Albanian", "sq")
    case 2 => LanguageMember("Amharic", "am")
    case 3 => LanguageMember("Arabic", "ar")
    case 4 => LanguageMember("Armenian", "hy")
    case 5 => LanguageMember("Azerbaijani", "az")
    case 6 => LanguageMember("Bengali", "bn")
    case 7 => LanguageMember("Bosnian", "bs")
    case 8 => LanguageMember("Bulgarian", "bg")
    case 9 => LanguageMember("Catalan", "ca")
    case 10 => LanguageMember("Chinese_Simplified", "zh")
    case 11 => LanguageMember("Chinese_Traditional", "zh-TW")
    case 12 => LanguageMember("Croatian", "hr")
    case 13 => LanguageMember("Czech", "cs")
    case 14 => LanguageMember("Danish", "da")
    case 15 => LanguageMember("Dari", "fa-AF")
    case 16 => LanguageMember("Dutch", "nl")
    case 17 => LanguageMember("Estonian", "et")
    case 18 => LanguageMember("Farsi_Persian", "fa")
    case 19 => LanguageMember("Filipino_Tagalog", "tl")
    case 20 => LanguageMember("Finnish", "fi")
    case 21 => LanguageMember("French", "fr")
    case 22 => LanguageMember("French_Canada", "fr-CA")
    case 23 => LanguageMember("Georgian", "ka")
    case 24 => LanguageMember("German", "de")
    case 25 => LanguageMember("Greek", "el")
    case 26 => LanguageMember("Gujarati", "gu")
    case 27 => LanguageMember("Haitian_Creole", "ht")
    case 28 => LanguageMember("Hausa", "ha")
    case 29 => LanguageMember("Hebrew", "he")
    case 30 => LanguageMember("Hindi", "hi")
    case 31 => LanguageMember("Hungarian", "hu")
    case 32 => LanguageMember("Icelandic", "is")
    case 33 => LanguageMember("Indonesian", "id")
    case 34 => LanguageMember("Irish", "ga")
    case 35 => LanguageMember("Italian", "it")
    case 36 => LanguageMember("Japanese", "ja")
    case 37 => LanguageMember("Kannada", "kn")
    case 38 => LanguageMember("Kazakh", "kk")
    case 39 => LanguageMember("Korean", "ko")
    case 40 => LanguageMember("Latvian", "lv")
    case 41 => LanguageMember("Lithuanian", "lt")
    case 42 => LanguageMember("Macedonian", "mk")
    case 43 => LanguageMember("Malay", "ms")
    case 44 => LanguageMember("Malayalam", "ml")
    case 45 => LanguageMember("Maltese", "mt")
    case 46 => LanguageMember("Marathi", "mr")
    case 47 => LanguageMember("Mongolian", "mn")
    case 48 => LanguageMember("Norwegian_Bokm√•l", "no")
    case 49 => LanguageMember("Pashto", "ps")
    case 50 => LanguageMember("Polish", "pl")
    case 51 => LanguageMember("Portuguese_Brazil", "pt")
    case 52 => LanguageMember("Portuguese_Portugal", "pt-PT")
    case 53 => LanguageMember("Punjabi", "pa")
    case 54 => LanguageMember("Romanian", "ro")
    case 55 => LanguageMember("Russian", "ru")
    case 56 => LanguageMember("Serbian", "sr")
    case 57 => LanguageMember("Sinhala", "si")
    case 58 => LanguageMember("Slovak", "sk")
    case 59 => LanguageMember("Slovenian", "sl")
    case 60 => LanguageMember("Somali", "so")
    case 61 => LanguageMember("Spanish", "es")
    case 62 => LanguageMember("Spanish_Mexico", "es-MX")
    case 63 => LanguageMember("Swahili", "sw")
    case 64 => LanguageMember("Swedish", "sv")
    case 65 => LanguageMember("Tamil", "ta")
    case 66 => LanguageMember("Telugu", "te")
    case 67 => LanguageMember("Thai", "th")
    case 68 => LanguageMember("Turkish", "tr")
    case 69 => LanguageMember("Ukrainian", "uk")
    case 70 => LanguageMember("Urdu", "ur")
    case 71 => LanguageMember("Uzbek", "uz")
    case 72 => LanguageMember("Vietnamese", "vi")
    case _ => LanguageMember("Welsh", "cy")
  }

  /**
   * The loop of `get_language_enum` from position `from` on: the index of
   * the first member whose value contains `code` as a substring.
   */
  function FirstMatchFrom(members: seq<LanguageMember>, code: string, from: nat): (r: Option<nat>)
    requires from <= |members|
    ensures r.Some? ==> from <= r.value < |members| && Contains(members[r.value].value, code)
    ensures r.Some? ==> forall j :: from <= j < r.value ==> !Contains(members[j].value, code)
    ensures r.None? ==> forall j :: from <= j < |members| ==> !Contains(members[j].value, code)
    decreases |members| - from
  {
    if from == |members| then None
    else if Contains(members[from].value, code) then Some(from)
    else FirstMatchFrom(members, code, from + 1)
  }

  /** A match found in a prefix of the members is the match in the whole. */
  lemma FirstMatchInPrefix(a: seq<LanguageMember>, b: seq<LanguageMember>, code: string)
    requires FirstMatchFrom(a, code, 0).Some?
    ensures FirstMatchFrom(a + b, code, 0) == FirstMatchFrom(a, code, 0)
  {
    var i := FirstMatchFrom(a, code, 0).value;
    assert (a + b)[i] == a[i];
    assert forall j :: 0 <= j < i ==> (a + b)[j] == a[j];
  }

  /** `UserInput.get_language_enum(enum_class, language_code)`: the first
      member in declaration order whose value contains the code, or None. */
  function GetLanguageEnum(members: seq<LanguageMember>, code: string): (r: Option<LanguageMember>)
    ensures r.Some? <==> exists i :: 0 <= i < |members| && Contains(members[i].value, code)
    ensures r.Some? ==> exists i :: (0 <= i < |members| && r.value == members[i]
      && Contains(members[i].value, code)
      && forall j :: 0 <= j < i ==> !Contains(members[j].value, code))
  {
    match FirstMatchFrom(members, code, 0)
    case None => None
    case Some(i) => Some(members[i])
  }

  /** `get_source_language_enum`: with a single source language, any
      substring of "en-US" finds English and nothing else finds anything. */
  function GetSourceLanguageEnum(code: string): (r: Option<LanguageMember>)
    ensures r.Some? <==> Contains("en-US", code)
    ensures r.Some? ==> r.value == LanguageMember("English", "en-US")
  {
    GetLanguageEnum(SourceLanguage, code)
  }

  /** `get_target_language_enum`. */
  function GetTargetLanguageEnum(code: string): (r: Option<LanguageMember>)
    ensures r.Some? ==> r.value in TargetLanguage() && Contains(r.value.value, code)
    ensures r.None? ==> forall m :: m in TargetLanguage() ==> !Contains(m.value, code)
  {
    GetLanguageEnum(TargetLanguage(), code)
  }

  /** Substring-first-match: "fa" finds Dari ("fa-AF", declared first)
      rather than Farsi ("fa"). */
  lemma FaResolvesToDari()
    ensures GetTargetLanguageEnum("fa") == Some(LanguageMember("Dari", "fa-AF"))
  {
    var t := TargetLanguage();
    assert t[15].value == "fa-AF" && Contains("fa-AF", "fa");
    assert t[0].value == "af";
    assert t[1].value == "sq";
    assert t[2].value == "am";
    assert t[3].value == "ar";
    assert t[4].value == "hy";
    assert t[5].value == "az";
    assert t[6].value == "bn";
    assert t[7].value == "bs";
    assert t[8].value == "bg";
    assert t[9].value == "ca";
    assert t[10].value == "zh";
    assert t[11].value == "zh-TW";
    assert t[12].value == "hr";
    assert t[13].value == "cs";
    assert t[14].value == "da";
    CodesBeforeDari();
    assert FirstMatchFrom(t, "fa", 0) == Some(15);
  }

  /** None of the codes declared before Dari's contains "fa". */
  lemma CodesBeforeDari()
    ensures !Contains("af", "fa") && !Contains("sq", "fa") && !Contains("am", "fa") && !Contains("ar", "fa") && !Contains("hy", "fa")
      && !Contains("az", "fa") && !Contains("bn", "fa") && !Contains("bs", "fa") && !Contains("bg", "fa") && !Contains("ca", "fa")
      && !Contains("zh", "fa") && !Contains("zh-TW", "fa") && !Contains("hr", "fa") && !Contains("cs", "fa") && !Contains("da", "fa")
  {
  }

  /** The source code "en" finds "en-US". */
  lemma EnResolvesToEnglish()
    ensures GetSourceLanguageEnum("en") == Some(LanguageMember("English", "en-US"))
  {
    assert "en-US"[..2] == "en";
  }

  /** The empty code is a substring of every value: it finds the first member. */
  lemma EmptyCodeFindsFirst(members: seq<LanguageMember>)
    requires |members| > 0
    ensures GetLanguageEnum(members, "") == Some(members[0])
  {
    assert members[0].value[..0] == "";
  }

  /** `SubtitleFormat`. */
  datatype SubtitleFormat = Srt | Vtt {
    function Value(): string {
      match this
      case Srt => "srt"
      case Vtt => "vtt"
    }
  }

  /** `OutputFormat`. */
  datatype OutputFormat = TranscriptText | TranslatedText | BothText | NoOutput {
    function Value(): string {
      match this
      case TranscriptText => "transcript_text"
      case TranslatedText => "translated_text"
      case BothText => "both_text"
      case NoOutput => "none"
    }
  }

  /** The exceptions `from_input_data` can raise: KeyError for a missing
      key, AttributeError from `None.value` on an unknown language, and
      ValueError from an enum that has no member with that value. */
  datatype ConfigError =
    | MissingKey(key: string)
    | UnknownLanguage(code: string)
    | InvalidSubtitleFormat(given: string)
    | InvalidOutputFormat(given: string)

  /** `SubtitleFormat(value)`: lookup by exact value. */
  function ParseSubtitleFormat(value: string): (r: Result<SubtitleFormat, ConfigError>)
    ensures r.Success? ==> r.value.Value() == value
    ensures r.Failure? ==> r.error == InvalidSubtitleFormat(value)
  {
    if value == "srt" then Success(Srt)
    else if value == "vtt" then Success(Vtt)
    else Failure(InvalidSubtitleFormat(value))
  }

  /** `OutputFormat(value)`: lookup by exact value. */
  function ParseOutputFormat(value: string): (r: Result<OutputFormat, ConfigError>)
    ensures r.Success? ==> r.value.Value() == value
    ensures r.Failure? ==> r.error == InvalidOutputFormat(value)
  {
    if value == "transcript_text" then Success(TranscriptText)
    else if value == "translated_text" then Success(TranslatedText)
    else if value == "both_text" then Success(BothText)
    else if value == "none" then Success(NoOutput)
    else Failure(InvalidOutputFormat(value))
  }

  /** Every member's value parses back to that member. */
  lemma FormatsRoundTrip(s: SubtitleFormat, o: OutputFormat)
    ensures ParseSubtitleFormat(s.Value()) == Success(s)
    ensures ParseOutputFormat(o.Value()) == Success(o)
  {
  }

  /** `UserInput`: an immutable record. The format fields hold strings:
      a `str` Enum member compares and lowers as its value. */
  datatype UserInput = UserInput(
    sourceLanguage: string,
    targetLanguage: string,
    subtitleFormat: string,
    region: string,
    outputFormat: string)

  const DefaultRegion: string := "us-east-1"

  /** `UserInput.__init__`, with its defaults for region and output format. */
  function NewUserInput(sourceLanguage: string, targetLanguage: string, subtitleFormat: string,
                        region: string := DefaultRegion, outputFormat: string := "none"): (u: UserInput)
    ensures u.sourceLanguage == sourceLanguage && u.targetLanguage == targetLanguage
    ensures u.subtitleFormat == subtitleFormat && u.region == region && u.outputFormat == outputFormat
  {
    UserInput(sourceLanguage, targetLanguage, subtitleFormat, region, outputFormat)
  }

  /** Omitted arguments take the defaults 'us-east-1' and 'none'. */
  lemma UserInputDefaults(s: string, t: string, f: string)
    ensures NewUserInput(s, t, f) == UserInput(s, t, f, "us-east-1", "none")
  {
  }

  /**
   * `UserInput.from_input_data(input_data)`, evaluated in the source's
   * order: source language, target language, subtitle format, region,
   * output format; the first failure is the one raised.
   */
  function FromInputData(d: map<string, string>): (r: Result<UserInput, ConfigError>)
    ensures r.Success? ==> ("source_language" in d && r.value.sourceLanguage == "en-US"
      && Contains(r.value.sourceLanguage, d["source_language"]))
    ensures r.Success? ==> ("target_language" in d
      && (exists m :: m in TargetLanguage() && m.value == r.value.targetLanguage)
      && Contains(r.value.targetLanguage, d["target_language"]))
    ensures r.Success? ==> ("subtitle_format" in d && r.value.subtitleFormat in {"srt", "vtt"}
      && r.value.subtitleFormat == d["subtitle_format"])
    ensures r.Success? ==> r.value.region == (if "region" in d then d["region"] else "us-east-1")
    ensures r.Success? ==> r.value.outputFormat == (if "output_format" in d then d["output_format"] else "none")
  {
    if "source_language" !in d then Failure(MissingKey("source_language"))
    else
      match GetSourceLanguageEnum(d["source_language"])
      case None => Failure(UnknownLanguage(d["source_language"]))
      case Some(source) =>
        if "target_language" !in d then Failure(MissingKey("target_language"))
        else
          match GetTargetLanguageEnum(d["target_language"])
          case None => Failure(UnknownLanguage(d["target_language"]))
          case Some(target) => WithFormats(source.value, target.value, d)
  }

  /** The rest of `from_input_data` once both languages are found: the
      subtitle format (required), the region and the output format (both
      defaulted). */
  function WithFormats(source: string, target: string, d: map<string, string>): (r: Result<UserInput, ConfigError>)
    ensures r.Success? ==> r.value.sourceLanguage == source && r.value.targetLanguage == target
    ensures r.Success? <==> ("subtitle_format" in d && d["subtitle_format"] in {"srt", "vtt"}
      && ("output_format" in d ==> d["output_format"] in {"transcript_text", "translated_text", "both_text", "none"}))
    ensures r.Success? ==> r.value.subtitleFormat == d["subtitle_format"]
    ensures r.Success? ==> r.value.region == (if "region" in d then d["region"] else "us-east-1")
    ensures r.Success? ==> r.value.outputFormat == (if "output_format" in d then d["output_format"] else "none")
  {
    if "subtitle_format" !in d then Failure(MissingKey("subtitle_format"))
    else
      match ParseSubtitleFormat(d["subtitle_format"])
      case Failure(e) => Failure(e)
      case Success(format) =>
        var region := if "region" in d then d["region"] else DefaultRegion;
        var output := if "output_format" in d then d["output_format"] else NoOutput.Value();
        match ParseOutputFormat(output)
        case Failure(e) => Failure(e)
        case Success(outputFormat) =>
          Success(NewUserInput(source, target, format.Value(), region, outputFormat.Value()))
  }

  /** `from_input_data` succeeds exactly when every required key is present,
      both language codes are found, and both formats are enum values. */
  lemma FromInputDataSucceedsIff(d: map<string, string>)
    ensures FromInputData(d).Success? <==>
      && "source_language" in d && Contains("en-US", d["source_language"])
      && "target_language" in d && GetTargetLanguageEnum(d["target_language"]).Some?
      && "subtitle_format" in d && d["subtitle_format"] in {"srt", "vtt"}
      && ("output_format" in d ==> d["output_format"] in {"transcript_text", "translated_text", "both_text", "none"})
  {
  }

  /** On success the stored languages are the values of the members the
      lookups found, not the raw codes: a request for "fa" stores "fa-AF"
      (see `FaResolvesToDari`). */
  lemma FromInputDataStoresMatchedValues(d: map<string, string>)
    requires FromInputData(d).Success?
    ensures GetSourceLanguageEnum(d["source_language"]).Some?
      && FromInputData(d).value.sourceLanguage == GetSourceLanguageEnum(d["source_language"]).value.value
    ensures GetTargetLanguageEnum(d["target_language"]).Some?
      && FromInputData(d).value.targetLanguage == GetTargetLanguageEnum(d["target_language"]).value.value
  {
  }
}

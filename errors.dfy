/**
 * The error taxonomy of `ErrorHandler` (talklocal/handle_error.py): four
 * error kinds, each an exception carrying a message and an optional
 * original error, and the string-keyed dispatch `handle_error`.
 */
module Errors {
  import opened Wrappers

  datatype ErrorKind = Transcription | Translation | Subtitling | OutputGeneration

  /** The Python class name of each kind, which prefixes its rendering. */
  function KindName(k: ErrorKind): string {
    match k
    case Transcription => "TranscriptionError"
    case Translation => "TranslationError"
    case Subtitling => "SubtitlingError"
    case OutputGeneration => "OutputGenerationError"
  }

  /** The `error_type` string that `handle_error` maps to each kind. */
  function ErrorTypeName(k: ErrorKind): string {
    match k
    case Transcription => "transcription"
    case Translation => "translation"
    case Subtitling => "subtitling"
    case OutputGeneration => "output"
  }

  /** An instance of one of the four exception classes. `originalError` is
      the `str()` of the wrapped exception, or None. */
  datatype AppError = AppError(kind: ErrorKind, message: string, originalError: Option<string>)

  /** `Kind(message, original_error=None)`: the constructor stores both. */
  function NewError(kind: ErrorKind, message: string, originalError: Option<string> := None): (e: AppError)
    ensures e.kind == kind && e.message == message && e.originalError == originalError
  {
    AppError(kind, message, originalError)
  }

  /** `str(original_error)`; Python prints a missing one as "None". */
  function ShowOriginal(o: Option<string>): string {
    match o
    case None => "None"
    case Some(s) => s
  }

  /** `__str__` (and the identical `__repr__`): the kind name and the
      original error; the message plays no part. */
  function Str(e: AppError): (r: string)
    ensures |KindName(e.kind)| + 2 <= |r| && r[..|KindName(e.kind)| + 2] == KindName(e.kind) + ": "
  {
    KindName(e.kind) + ": " + ShowOriginal(e.originalError)
  }

  /** What leaves `handle_error`: one of the four kinds, or ValueError. */
  datatype Raised = App(error: AppError) | ValueError(reason: string)

  /**
   * `ErrorHandler.handle_error(error_type, message)`. Its result type holds
   * only exceptions: every input raises, none returns normally. The four
   * known names select their kind; anything else is a ValueError.
   */
  function HandleError(errorType: string, message: string): (r: Raised)
    ensures r.App? <==> errorType in {"transcription", "translation", "subtitling", "output"}
    ensures r.App? ==> ErrorTypeName(r.error.kind) == errorType
    ensures r.App? ==> r.error.message == message && r.error.originalError == None
    ensures r.ValueError? ==> r.reason == "Invalid error type specified"
  {
    if errorType == "transcription" then App(NewError(Transcription, message))
    else if errorType == "translation" then App(NewError(Translation, message))
    else if errorType == "subtitling" then App(NewError(Subtitling, message))
    else if errorType == "output" then App(NewError(OutputGeneration, message))
    else ValueError("Invalid error type specified")
  }

  /** Dispatch on a kind's own name raises exactly that kind. */
  lemma HandleErrorRoundTrip(k: ErrorKind, message: string)
    ensures HandleError(ErrorTypeName(k), message) == App(AppError(k, message, None))
  {
  }

  /** The rendering does not depend on the message. */
  lemma StrIgnoresMessage(k: ErrorKind, m1: string, m2: string, o: Option<string>)
    ensures Str(AppError(k, m1, o)) == Str(AppError(k, m2, o))
  {
  }

  /** Errors built from a message alone, as every call site builds them,
      render as "<KindName>: None". */
  lemma MessageOnlyRendering(k: ErrorKind, message: string)
    ensures Str(NewError(k, message)) == KindName(k) + ": None"
  {
  }

  /** The text of `s` before its first ':' (all of `s` when there is none). */
  function BeforeColon(s: string): (r: string)
    ensures |r| <= |s| && r == s[..|r|]
  {
    if s == [] || s[0] == ':' then [] else [s[0]] + BeforeColon(s[1..])
  }

  /** Reads the kind back from a rendering: the inverse of `Str` on kinds. */
  function KindOfRendering(s: string): (r: Option<ErrorKind>)
    ensures r.Some? ==> KindName(r.value) == BeforeColon(s)
  {
    var name := BeforeColon(s);
    if name == "TranscriptionError" then Some(Transcription)
    else if name == "TranslationError" then Some(Translation)
    else if name == "SubtitlingError" then Some(Subtitling)
    else if name == "OutputGenerationError" then Some(OutputGeneration)
    else None
  }

  lemma {:induction false} BeforeColonOf(a: string, b: string)
    requires forall i :: 0 <= i < |a| ==> a[i] != ':'
    ensures BeforeColon(a + ":" + b) == a
    decreases |a|
  {
    if a != [] {
      assert (a + ":" + b)[1..] == a[1..] + ":" + b;
      BeforeColonOf(a[1..], b);
    }
  }

  /** The rendering of an error determines its kind. */
  lemma StrDeterminesKind(e: AppError)
    ensures KindOfRendering(Str(e)) == Some(e.kind)
  {
    var name := KindName(e.kind);
    assert forall i :: 0 <= i < |name| ==> name[i] != ':';
    assert Str(e) == name + ":" + (" " + ShowOriginal(e.originalError));
    BeforeColonOf(name, " " + ShowOriginal(e.originalError));
  }
}

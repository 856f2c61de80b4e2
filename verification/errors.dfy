/** The back end's error type (`src-tauri/src/error.rs`): the `Error` enum with the
    text each variant displays, and the `ErrorKind` shape it is serialised to before it
    crosses to the front end. */
module Errors {
  import opened Wrappers

  /** `Error`. The variants that wrap a foreign error (`Io`, `Symphonia`,
      `HoundWriteError`, `TauriError`, `Utf8`) carry that error's own display text. */
  datatype Error =
    | Io(detail: string)
    | Utf8(detail: string)
    | InvalidPath
    | UnknownEncoderFormat(detail: string)
    | Symphonia(detail: string)
    | HoundWriteError(detail: string)
    | TauriError(detail: string)
    | NoDefaultTrackFound
    | NoAudioData
    | PlaybackError
    | MP3EncoderError(detail: string)
    | UnevenNumberOfSamples
    | FlacEncodeError(detail: string)
    | FlacOutputError(detail: string)

  /** The `Display` text of an error (its `#[error(...)]` attribute); a transparent
      variant displays the wrapped error's text unchanged. */
  function Display(e: Error): string {
    match e
    case Io(d) => d
    case Utf8(d) => "failed to parse as string: " + d
    case InvalidPath => "Invalid path"
    case UnknownEncoderFormat(f) => "Unknown encoder format: " + f
    case Symphonia(d) => d
    case HoundWriteError(d) => d
    case TauriError(d) => d
    case NoDefaultTrackFound => "No default track found for"
    case NoAudioData => "No audio data"
    case PlaybackError => "No audio data"
    case MP3EncoderError(s) => "MP3 encoder build error: " + s
    case UnevenNumberOfSamples => "Uneven Number of Samples Provided"
    case FlacEncodeError(s) => "FLAC encode error: " + s
    case FlacOutputError(s) => "FLAC output error: " + s
  }

  /** The Rust name of each `Error` variant. */
  function VariantName(e: Error): string {
    match e
    case Io(_) => "Io"
    case Utf8(_) => "Utf8"
    case InvalidPath => "InvalidPath"
    case UnknownEncoderFormat(_) => "UnknownEncoderFormat"
    case Symphonia(_) => "Symphonia"
    case HoundWriteError(_) => "HoundWriteError"
    case TauriError(_) => "TauriError"
    case NoDefaultTrackFound => "NoDefaultTrackFound"
    case NoAudioData => "NoAudioData"
    case PlaybackError => "PlaybackError"
    case MP3EncoderError(_) => "MP3EncoderError"
    case UnevenNumberOfSamples => "UnevenNumberOfSamples"
    case FlacEncodeError(_) => "FlacEncodeError"
    case FlacOutputError(_) => "FlacOutputError"
  }

  /** `ErrorKind`: what is sent to the front end. Two variants carry no message. */
  datatype ErrorKind =
    | Io(message: string)
    | Utf8(message: string)
    | InvalidPath
    | UnknownEncoderFormat(message: string)
    | Symphonia(message: string)
    | HoundWriteError(message: string)
    | NoDefaultTrackFound(message: string)
    | NoAudioData(message: string)
    | PlaybackError(message: string)
    | TauriError(message: string)
    | MP3EncoderError(message: string)
    | UnevenNumberOfSamples
    | FlacEncodeError(message: string)
    | FlacOutputError(message: string)

  /** The Rust name of each `ErrorKind` variant. */
  function KindName(k: ErrorKind): string {
    match k
    case Io(_) => "Io"
    case Utf8(_) => "Utf8"
    case InvalidPath => "InvalidPath"
    case UnknownEncoderFormat(_) => "UnknownEncoderFormat"
    case Symphonia(_) => "Symphonia"
    case HoundWriteError(_) => "HoundWriteError"
    case NoDefaultTrackFound(_) => "NoDefaultTrackFound"
    case NoAudioData(_) => "NoAudioData"
    case PlaybackError(_) => "PlaybackError"
    case TauriError(_) => "TauriError"
    case MP3EncoderError(_) => "MP3EncoderError"
    case UnevenNumberOfSamples => "UnevenNumberOfSamples"
    case FlacEncodeError(_) => "FlacEncodeError"
    case FlacOutputError(_) => "FlacOutputError"
  }

  /** The `match` inside `impl Serialize for Error`: every variant goes to the kind of
      the same name, carrying the display text unless the kind has no payload. */
  function ToKind(e: Error): (k: ErrorKind)
  {
    KindWithText(e, Display(e))
  }

  /** The kind of the same name as `e`, carrying `text` where it has a message. */
  function KindWithText(e: Error, text: string): ErrorKind
  {
    match e
    case Io(_) => ErrorKind.Io(text)
    case Utf8(_) => ErrorKind.Utf8(text)
    case InvalidPath => ErrorKind.InvalidPath
    case UnknownEncoderFormat(_) => ErrorKind.UnknownEncoderFormat(text)
    case Symphonia(_) => ErrorKind.Symphonia(text)
    case HoundWriteError(_) => ErrorKind.HoundWriteError(text)
    case TauriError(_) => ErrorKind.TauriError(text)
    case NoDefaultTrackFound => ErrorKind.NoDefaultTrackFound(text)
    case NoAudioData => ErrorKind.NoAudioData(text)
    case PlaybackError => ErrorKind.PlaybackError(text)
    case MP3EncoderError(_) => ErrorKind.MP3EncoderError(text)
    case UnevenNumberOfSamples => ErrorKind.UnevenNumberOfSamples
    case FlacEncodeError(_) => ErrorKind.FlacEncodeError(text)
    case FlacOutputError(_) => ErrorKind.FlacOutputError(text)
  }

  /** Every error goes to the kind of the same name. */
  lemma ToKindKeepsName(e: Error)
    ensures KindName(ToKind(e)) == VariantName(e)
  {
    KindWithTextKeepsName(e, Display(e));
  }

  lemma KindWithTextKeepsName(e: Error, text: string)
    ensures KindName(KindWithText(e, text)) == VariantName(e)
  {
    match e
    case Io(_) =>
    case Utf8(_) =>
    case InvalidPath =>
    case UnknownEncoderFormat(_) =>
    case Symphonia(_) =>
    case HoundWriteError(_) =>
    case TauriError(_) =>
    case NoDefaultTrackFound =>
    case NoAudioData =>
    case PlaybackError =>
    case MP3EncoderError(_) =>
    case UnevenNumberOfSamples =>
    case FlacEncodeError(_) =>
    case FlacOutputError(_) =>
  }

  /** serde's `rename_all = "camelCase"` for a variant name: only the first character
      is lower-cased (so `MP3EncoderError` becomes `mP3EncoderError`). */
  function LowerFirst(name: string): (r: string)
    ensures |r| == |name|
    ensures |name| > 0 ==> r[1..] == name[1..]
  {
    if name == [] then []
    else [if 'A' <= name[0] <= 'Z' then (name[0] as int + 32) as char else name[0]] + name[1..]
  }

  /** The adjacently tagged JSON object `{"kind": ..., "message": ...}`; a variant
      without content has no `message` member. */
  datatype SerializedError = SerializedError(kind: string, message: Option<string>)

  /** `#[serde(tag = "kind", content = "message")]` applied to an `ErrorKind`. */
  function SerializeKind(k: ErrorKind): SerializedError {
    var tag := LowerFirst(KindName(k));
    match k
    case InvalidPath => SerializedError(tag, None)
    case UnevenNumberOfSamples => SerializedError(tag, None)
    case _ => SerializedError(tag, Some(k.message))
  }

  /** `impl Serialize for Error`. */
  function Serialize(e: Error): SerializedError {
    SerializeKind(ToKind(e))
  }

  /** The tag is the camelCase name of the error's own variant, for every error. */
  lemma SerializedTagIsVariantName(e: Error)
    ensures Serialize(e).kind == LowerFirst(VariantName(e))
  {
    ToKindKeepsName(e);
  }

  /** Exactly `InvalidPath` and `UnevenNumberOfSamples` serialise without a message;
      every other error carries its display text. */
  lemma SerializedMessage(e: Error)
    ensures Serialize(e).message.None? <==> (e.InvalidPath? || e.UnevenNumberOfSamples?)
    ensures Serialize(e).message.Some? ==> Serialize(e).message.value == Display(e)
  {
  }

  /** The tag identifies the variant: two errors with the same tag are the same variant. */
  lemma TagIdentifiesVariant(e1: Error, e2: Error)
    requires Serialize(e1).kind == Serialize(e2).kind
    ensures VariantName(e1) == VariantName(e2)
  {
    SerializedTagIsVariantName(e1);
    SerializedTagIsVariantName(e2);
    VariantNameCapitalised(e1);
    VariantNameCapitalised(e2);
    LowerFirstInjective(VariantName(e1), VariantName(e2));
  }

  /** On capitalised names, lower-casing the first character loses nothing. */
  lemma LowerFirstInjective(a: string, b: string)
    requires |a| > 0 && 'A' <= a[0] <= 'Z' && |b| > 0 && 'A' <= b[0] <= 'Z'
    requires LowerFirst(a) == LowerFirst(b)
    ensures a == b
  {
    assert a[1..] == LowerFirst(a)[1..] == LowerFirst(b)[1..] == b[1..];
    assert LowerFirst(a)[0] == LowerFirst(b)[0];
    assert a == [a[0]] + a[1..] && b == [b[0]] + b[1..];
  }

  lemma VariantNameCapitalised(e: Error)
    ensures |VariantName(e)| > 0 && 'A' <= VariantName(e)[0] <= 'Z'
  {
  }

  /** `NoAudioData` and `PlaybackError` display the same text; only the tag tells
      them apart. */
  lemma NoAudioDataAndPlaybackErrorShareText()
    ensures Display(Error.NoAudioData) == Display(Error.PlaybackError) == "No audio data"
    ensures Serialize(Error.NoAudioData).message == Serialize(Error.PlaybackError).message
    ensures Serialize(Error.NoAudioData).kind == "noAudioData"
    ensures Serialize(Error.PlaybackError).kind == "playbackError"
  {
    SerializedTagIsVariantName(Error.NoAudioData);
    SerializedTagIsVariantName(Error.PlaybackError);
    LowerFirstTags();
  }

  lemma LowerFirstTags()
    ensures LowerFirst("NoAudioData") == "noAudioData"
    ensures LowerFirst("PlaybackError") == "playbackError"
  {
    var a := "NoAudioData";
    var b := "PlaybackError";
    assert LowerFirst(a) == ['n'] + a[1..];
    assert LowerFirst(b) == ['p'] + b[1..];
  }

  /** The prefixed display texts give back the payload: the text after the fixed
      prefix is the variant's content. */
  lemma DisplayPayloadAfterPrefix(e: Error)
    requires e.UnknownEncoderFormat? || e.MP3EncoderError? || e.FlacEncodeError? || e.FlacOutputError? || e.Utf8?
    ensures var p := DisplayPrefix(e); |p| <= |Display(e)| && Display(e)[..|p|] == p && Display(e)[|p|..] == e.detail
  {
  }

  /** The fixed text in front of a variant's payload. */
  function DisplayPrefix(e: Error): string
    requires e.UnknownEncoderFormat? || e.MP3EncoderError? || e.FlacEncodeError? || e.FlacOutputError? || e.Utf8?
  {
    match e
    case UnknownEncoderFormat(_) => "Unknown encoder format: "
    case MP3EncoderError(_) => "MP3 encoder build error: "
    case FlacEncodeError(_) => "FLAC encode error: "
    case FlacOutputError(_) => "FLAC output error: "
    case Utf8(_) => "failed to parse as string: "
  }
}

/** Audio export (`src-tauri/src/encoder.rs`): the two encoders, the registry that
    finds them by name, and `export_audio`. Samples arrive as floating-point values
    nominally in `[-1, 1]`; they are modelled as exact reals, so the rounding of
    `f32` arithmetic is not part of the model. The bytes a codec produces are not
    modelled either: an encoding is the stream description plus the integer samples
    handed to the codec (`Media.Encoded`). */
module Encoder {
  import opened Wrappers
  import opened Errors
  import Media

  /** `AudioFormat`. */
  datatype AudioFormat = Wav | Mp3

  /** The two implementations of the `AudioEncoder` trait. */
  datatype AudioEncoder = WavEncoder | Mp3Encoder

  /** `AudioFormat::get_encoder`. */
  function GetEncoder(f: AudioFormat): AudioEncoder {
    match f
    case Wav => WavEncoder
    case Mp3 => Mp3Encoder
  }

  /** `file_extension()`. */
  function FileExtension(e: AudioEncoder): string {
    match e
    case WavEncoder => "wav"
    case Mp3Encoder => "mp3"
  }

  /** `mime_type()`. */
  function MimeType(e: AudioEncoder): string {
    match e
    case WavEncoder => "audio/wav"
    case Mp3Encoder => "audio/mpeg"
  }

  /** Each format's encoder carries the extension and MIME type of that format, and
      the two formats get different encoders. */
  lemma EncoderNames(f: AudioFormat)
    ensures FileExtension(GetEncoder(f)) == (if f == Wav then "wav" else "mp3")
    ensures MimeType(GetEncoder(f)) == (if f == Wav then "audio/wav" else "audio/mpeg")
    ensures GetEncoder(Wav) != GetEncoder(Mp3)
  {
  }

  // ---------------------------------------------------------------------------
  // The registry
  // ---------------------------------------------------------------------------

  /** `EncoderRegistry::new`: the encoders by name. */
  function Registry(): map<string, AudioEncoder> {
    map["wav" := WavEncoder, "mp3" := Mp3Encoder]
  }

  /** `EncoderRegistry::get`. */
  function RegistryGet(name: string): Option<AudioEncoder> {
    if name in Registry() then Some(Registry()[name]) else None
  }

  /** The registry knows exactly "wav" and "mp3", and finds every encoder by its own
      file extension. */
  lemma RegistryKnowsExactly(name: string, e: AudioEncoder)
    ensures RegistryGet(name).Some? <==> name == "wav" || name == "mp3"
    ensures RegistryGet(FileExtension(e)) == Some(e)
    ensures RegistryGet(name).Some? ==> FileExtension(RegistryGet(name).value) == name
  {
    if name == "wav" {
    } else if name == "mp3" {
    } else {
      assert name !in Registry();
    }
    assert "wav" != "mp3";
  }

  // ---------------------------------------------------------------------------
  // Sample conversions
  // ---------------------------------------------------------------------------

  /** `f32::clamp`. */
  function Clamp(x: real, lo: real, hi: real): real
    requires lo <= hi
  {
    if x < lo then lo else if x > hi then hi else x
  }

  /** A float-to-integer `as` cast of an in-range value: rounds toward zero. */
  function Trunc(x: real): int {
    if x >= 0.0 then x.Floor else -((-x).Floor)
  }

  /** `f32::round`: half away from zero, for a value that is not negative. */
  function RoundUp(x: real): int
    requires x >= 0.0
  {
    (x + 0.5).Floor
  }

  /** The WAV conversion: scale by `i16::MAX`, clamp into the `i16` range, cast. */
  function WavSample(x: real): int {
    Trunc(Clamp(x * 32767.0, -32768.0, 32767.0))
  }

  /** The MP3 conversion: clamp into `[-1, 1]`, map linearly onto `[0, u16::MAX]`,
      round. */
  function Mp3Level(x: real): int {
    RoundUp((Clamp(x, -1.0, 1.0) + 1.0) / 2.0 * 65535.0)
  }

  /** Every WAV sample is an `i16`, full scale maps to `±i16::MAX`, and anything
      beyond full scale is clamped. */
  lemma WavSampleRange(x: real)
    ensures -32768 <= WavSample(x) <= 32767
    ensures x >= 1.0 ==> WavSample(x) == 32767
    ensures x * 32767.0 <= -32768.0 ==> WavSample(x) == -32768
    ensures WavSample(1.0) == 32767 && WavSample(-1.0) == -32767 && WavSample(0.0) == 0
  {
    var c := Clamp(x * 32767.0, -32768.0, 32767.0);
    if c >= 0.0 {
      assert 0 <= c.Floor <= 32767;
    } else {
      assert 0 <= (-c).Floor <= 32768;
    }
  }

  /** Reading an `i16` back as `k / 32767` and converting it again gives `k`: the
      conversion loses nothing on values it can represent. */
  lemma WavSampleRoundTrip(k: int)
    requires -32767 <= k <= 32767
    ensures WavSample(k as real / 32767.0) == k
  {
    var x := k as real / 32767.0;
    assert x * 32767.0 == k as real;
    if k >= 0 {
      assert (k as real).Floor == k;
    } else {
      assert (-(k as real)).Floor == -k;
    }
  }

  /** A louder input never gives a smaller WAV sample. */
  lemma WavSampleMonotone(x: real, y: real)
    requires x <= y
    ensures WavSample(x) <= WavSample(y)
  {
    var cx := Clamp(x * 32767.0, -32768.0, 32767.0);
    var cy := Clamp(y * 32767.0, -32768.0, 32767.0);
    assert cx <= cy;
    if cx >= 0.0 {
      assert cx.Floor <= cy.Floor;
    } else if cy < 0.0 {
      assert (-cy).Floor <= (-cx).Floor;
    }
  }

  /** Every MP3 level lies in `[0, u16::MAX]`; `-1` maps to 0 and `1` to `u16::MAX`. */
  lemma Mp3LevelRange(x: real)
    ensures 0 <= Mp3Level(x) <= 65535
    ensures x <= -1.0 ==> Mp3Level(x) == 0
    ensures x >= 1.0 ==> Mp3Level(x) == 65535
  {
    var v := (Clamp(x, -1.0, 1.0) + 1.0) / 2.0 * 65535.0;
    assert 0.0 <= v <= 65535.0;
    assert 0 <= (v + 0.5).Floor <= 65535;
  }

  /** A louder input never gives a smaller MP3 level. */
  lemma Mp3LevelMonotone(x: real, y: real)
    requires x <= y
    ensures Mp3Level(x) <= Mp3Level(y)
  {
    var cx := Clamp(x, -1.0, 1.0);
    var cy := Clamp(y, -1.0, 1.0);
    assert cx <= cy;
    var vx := (cx + 1.0) / 2.0 * 65535.0;
    var vy := (cy + 1.0) / 2.0 * 65535.0;
    assert vx <= vy;
    assert (vx + 0.5).Floor <= (vy + 0.5).Floor;
  }

  // ---------------------------------------------------------------------------
  // Channels
  // ---------------------------------------------------------------------------

  /** The left channel of interleaved stereo: the samples at even positions. */
  function Evens<T>(s: seq<T>): (r: seq<T>)
    ensures |r| == |s| / 2
  {
    seq(|s| / 2, i requires 0 <= i < |s| / 2 => s[2 * i])
  }

  /** The right channel: the samples at odd positions. */
  function Odds<T>(s: seq<T>): (r: seq<T>)
    ensures |r| == |s| / 2
  {
    seq(|s| / 2, i requires 0 <= i < |s| / 2 => s[2 * i + 1])
  }

  /** Interleaves two channels of equal length, left first. */
  function Interleave<T>(l: seq<T>, r: seq<T>): (s: seq<T>)
    requires |l| == |r|
    ensures |s| == 2 * |l|
  {
    if l == [] then [] else [l[0], r[0]] + Interleave(l[1..], r[1..])
  }

  lemma {:induction false} InterleaveAt<T>(l: seq<T>, r: seq<T>, i: nat)
    requires |l| == |r| && i < |l|
    ensures Interleave(l, r)[2 * i] == l[i] && Interleave(l, r)[2 * i + 1] == r[i]
  {
    if i > 0 {
      InterleaveAt(l[1..], r[1..], i - 1);
    }
  }

  /** De-interleaving and interleaving are inverse: splitting an even-length stream
      into its two channels and weaving them back gives the stream, and splitting a
      woven stream gives back the channels. */
  lemma DeinterleaveRoundTrip<T>(s: seq<T>, l: seq<T>, r: seq<T>)
    requires |s| % 2 == 0 && |l| == |r|
    ensures Interleave(Evens(s), Odds(s)) == s
    ensures Evens(Interleave(l, r)) == l && Odds(Interleave(l, r)) == r
  {
    var w := Interleave(Evens(s), Odds(s));
    forall k | 0 <= k < |s| ensures w[k] == s[k] {
      InterleaveAt(Evens(s), Odds(s), k / 2);
    }
    var v := Interleave(l, r);
    forall i | 0 <= i < |l| ensures Evens(v)[i] == l[i] && Odds(v)[i] == r[i] {
      InterleaveAt(l, r, i);
    }
  }

  /** The converted samples of a channel. */
  function WavSamples(s: seq<real>): (r: seq<int>)
    ensures |r| == |s|
  {
    seq(|s|, i requires 0 <= i < |s| => WavSample(s[i]))
  }

  function Mp3Levels(s: seq<real>): (r: seq<int>)
    ensures |r| == |s|
  {
    seq(|s|, i requires 0 <= i < |s| => Mp3Level(s[i]))
  }

  // ---------------------------------------------------------------------------
  // Encoding
  // ---------------------------------------------------------------------------

  /** The stream description of the WAV encoder: mono, 16-bit integer PCM. */
  function WavHeader(sampleRate: nat): Media.WavSpec {
    Media.WavSpec(1, sampleRate, 16, Media.Int)
  }

  const Mp3BitrateKbps: nat := 192

  /** What `encode` yields. `lameFailure` is the error the MP3 library reports while
      it is configured or run, if any. */
  function Encoding(e: AudioEncoder, samples: seq<real>, sampleRate: nat, lameFailure: Option<string>)
    : Result<Media.Encoded, Error>
  {
    match e
    case WavEncoder => Success(Media.WavData(WavHeader(sampleRate), WavSamples(samples)))
    case Mp3Encoder =>
      if |samples| % 2 != 0 then Failure(Error.UnevenNumberOfSamples)
      else if lameFailure.Some? then Failure(Error.MP3EncoderError(lameFailure.value))
      else Success(Media.Mp3Data(sampleRate, Mp3BitrateKbps, Mp3Levels(Evens(samples)), Mp3Levels(Odds(samples))))
  }

  /** The WAV encoder never fails; it writes a mono 16-bit stream holding one `i16`
      per input sample, in input order. */
  lemma WavEncodingShape(samples: seq<real>, sampleRate: nat, lameFailure: Option<string>)
    ensures var r := Encoding(WavEncoder, samples, sampleRate, lameFailure);
      && r.Success? && r.value.WavData?
      && r.value.spec.channels == 1 && r.value.spec.bitsPerSample == 16 && r.value.spec.sampleFormat == Media.Int
      && |r.value.samples| == |samples|
      && forall i :: 0 <= i < |samples| ==>
        r.value.samples[i] == WavSample(samples[i]) && -32768 <= r.value.samples[i] <= 32767
  {
    forall i | 0 <= i < |samples| ensures -32768 <= WavSample(samples[i]) <= 32767 {
      WavSampleRange(samples[i]);
    }
  }

  /** The MP3 encoder rejects an odd number of samples, before the library is
      involved, and only then. */
  lemma Mp3RejectsOddIff(samples: seq<real>, sampleRate: nat, lameFailure: Option<string>)
    ensures Encoding(Mp3Encoder, samples, sampleRate, lameFailure) == Failure(Error.UnevenNumberOfSamples)
      <==> |samples| % 2 == 1
  {
  }

  /** On success the MP3 encoder hands the library two channels of `len / 2` levels
      each: the left one from the even positions, the right one from the odd ones,
      in order; woven back together they are the converted input. */
  lemma Mp3EncodingShape(samples: seq<real>, sampleRate: nat)
    requires |samples| % 2 == 0
    ensures var r := Encoding(Mp3Encoder, samples, sampleRate, None);
      && r.Success? && r.value.Mp3Data?
      && r.value.sampleRate == sampleRate && r.value.bitrateKbps == 192
      && |r.value.left| == |r.value.right| == |samples| / 2
      && (forall i :: 0 <= i < |samples| / 2 ==>
        r.value.left[i] == Mp3Level(samples[2 * i]) && r.value.right[i] == Mp3Level(samples[2 * i + 1])
        && 0 <= r.value.left[i] <= 65535 && 0 <= r.value.right[i] <= 65535)
      && Interleave(r.value.left, r.value.right) == Mp3Levels(samples)
  {
    Mp3ChannelLevels(samples);
    ChannelsCommute(samples);
    DeinterleaveRoundTrip(Mp3Levels(samples), [], []);
  }

  /** Each channel level is the level of its sample, and lies in `[0, 65535]`. */
  lemma Mp3ChannelLevels(samples: seq<real>)
    ensures forall i :: 0 <= i < |samples| / 2 ==>
      Mp3Levels(Evens(samples))[i] == Mp3Level(samples[2 * i])
      && Mp3Levels(Odds(samples))[i] == Mp3Level(samples[2 * i + 1])
      && 0 <= Mp3Level(samples[2 * i]) <= 65535 && 0 <= Mp3Level(samples[2 * i + 1]) <= 65535
  {
    forall i | 0 <= i < |samples| / 2
      ensures 0 <= Mp3Level(samples[2 * i]) <= 65535 && 0 <= Mp3Level(samples[2 * i + 1]) <= 65535
    {
      Mp3LevelRange(samples[2 * i]);
      Mp3LevelRange(samples[2 * i + 1]);
    }
  }

  /** Splitting into channels and converting levels commute. */
  lemma ChannelsCommute(samples: seq<real>)
    ensures Mp3Levels(Evens(samples)) == Evens(Mp3Levels(samples))
    ensures Mp3Levels(Odds(samples)) == Odds(Mp3Levels(samples))
  {
  }

  /** `WavEncoder::encode`: the sample loop. */
  method WavEncode(samples: seq<real>, sampleRate: nat) returns (data: Media.Encoded)
    ensures Success(data) == Encoding(WavEncoder, samples, sampleRate, None)
  {
    var out: seq<int> := [];
    for i := 0 to |samples|
      invariant |out| == i
      invariant forall j :: 0 <= j < i ==> out[j] == WavSample(samples[j])
    {
      var s := Trunc(Clamp(samples[i] * 32767.0, -32768.0, 32767.0));
      out := out + [s];
    }
    assert out == WavSamples(samples);
    data := Media.WavData(WavHeader(sampleRate), out);
  }

  /** `Mp3Encoder::encode`: the length check, the de-interleaving loop, then the
      library. */
  method Mp3Encode(samples: seq<real>, sampleRate: nat, lameFailure: Option<string>)
    returns (r: Result<Media.Encoded, Error>)
    ensures r == Encoding(Mp3Encoder, samples, sampleRate, lameFailure)
  {
    if |samples| % 2 != 0 {
      return Failure(Error.UnevenNumberOfSamples);
    }
    var left: seq<int> := [];
    var right: seq<int> := [];
    for c := 0 to |samples| / 2
      invariant |left| == c && |right| == c
      invariant forall j :: 0 <= j < c ==> left[j] == Mp3Level(samples[2 * j])
      invariant forall j :: 0 <= j < c ==> right[j] == Mp3Level(samples[2 * j + 1])
    {
      left := left + [Mp3Level(samples[2 * c])];
      right := right + [Mp3Level(samples[2 * c + 1])];
    }
    assert left == Mp3Levels(Evens(samples)) && right == Mp3Levels(Odds(samples));
    if lameFailure.Some? {
      return Failure(Error.MP3EncoderError(lameFailure.value));
    }
    r := Success(Media.Mp3Data(sampleRate, Mp3BitrateKbps, left, right));
  }

  /** `encode` through the trait. */
  method Encode(e: AudioEncoder, samples: seq<real>, sampleRate: nat, lameFailure: Option<string>)
    returns (r: Result<Media.Encoded, Error>)
    ensures r == Encoding(e, samples, sampleRate, lameFailure)
  {
    match e
    case WavEncoder =>
      var data := WavEncode(samples, sampleRate);
      r := Success(data);
    case Mp3Encoder =>
      r := Mp3Encode(samples, sampleRate, lameFailure);
  }

  /** `AudioEncoder::write`: encodes first and only then creates the file. Failing
      to create the file is an `Io` error and changes nothing on disk; failing to write
      or flush it afterwards is an `Io` error too, and leaves the created file
      unfinished. On success the file holds the encoding and the encoder's extension
      is returned. */
  method Write(e: AudioEncoder, samples: seq<real>, sampleRate: nat, path: string,
               lameFailure: Option<string>, io: Media.WriteOutcome, disk: Media.Disk)
    returns (r: Result<string, Error>)
    modifies disk
    ensures var enc := Encoding(e, samples, sampleRate, lameFailure);
      if enc.Failure? then r == Failure(enc.error) && disk.files == old(disk.files)
      else match io
        case CreateFailed(m) => r == Failure(Error.Io(m)) && disk.files == old(disk.files)
        case WriteFailed(m) => r == Failure(Error.Io(m)) && disk.files == old(disk.files)[path := Media.Unfinished]
        case Written => r == Success(FileExtension(e)) && disk.files == old(disk.files)[path := enc.value]
  {
    var data := Encode(e, samples, sampleRate, lameFailure);
    if data.Failure? {
      return Failure(data.error);
    }
    match io
    case CreateFailed(m) =>
      r := Failure(Error.Io(m));
    case WriteFailed(m) =>
      disk.Abandon(path);
      r := Failure(Error.Io(m));
    case Written =>
      disk.Store(path, data.value);
      r := Success(FileExtension(e));
  }

  /** `export_audio`: looks the format up by name, then writes. An unknown name is
      an error and nothing is written. */
  method ExportAudio(samples: seq<real>, sampleRate: nat, format: string, outputFile: string,
                     lameFailure: Option<string>, io: Media.WriteOutcome, disk: Media.Disk)
    returns (r: Result<string, Error>)
    modifies disk
    ensures RegistryGet(format).None? ==>
      r == Failure(Error.UnknownEncoderFormat(format)) && disk.files == old(disk.files)
    ensures RegistryGet(format).Some? ==>
      var enc := Encoding(RegistryGet(format).value, samples, sampleRate, lameFailure);
      if enc.Failure? then r == Failure(enc.error) && disk.files == old(disk.files)
      else match io
        case CreateFailed(m) => r == Failure(Error.Io(m)) && disk.files == old(disk.files)
        case WriteFailed(m) => r == Failure(Error.Io(m)) && disk.files == old(disk.files)[outputFile := Media.Unfinished]
        case Written => r == Success("Encoded Audio") && disk.files == old(disk.files)[outputFile := enc.value]
  {
    var encoder := RegistryGet(format);
    if encoder.None? {
      return Failure(Error.UnknownEncoderFormat(format));
    }
    var written := Write(encoder.value, samples, sampleRate, outputFile, lameFailure, io, disk);
    if written.Failure? {
      return Failure(written.error);
    }
    r := Success("Encoded Audio");
  }
}

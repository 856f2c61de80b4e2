/** What the back end writes to disk. The container and codec bytes (RIFF/WAVE
    written by hound, MPEG-1 Layer III written by LAME) are not modelled: an output
    file is represented by the stream description and the samples handed to the
    writer, which is everything the code under study decides. */
module Media {

  datatype SampleFormat = Int | Float

  /** hound's `WavSpec`. */
  datatype WavSpec = WavSpec(channels: nat, sampleRate: nat, bitsPerSample: nat, sampleFormat: SampleFormat)

  /** The content of an encoded file. */
  datatype Encoded =
    | WavData(spec: WavSpec, samples: seq<int>)
    | Mp3Data(sampleRate: nat, bitrateKbps: nat, left: seq<int>, right: seq<int>)
      /** A file that was created (or truncated) but never finished: a write, the
          final flush or the WAV finaliser failed. Its bytes are not modelled. */
    | Unfinished

  /** How the file system answers one attempt to write a file: it is written; it
      cannot be created or truncated, so nothing on disk changes; or it is created and
      a later write or flush fails, which leaves an unfinished file behind. The
      message is the operating system's error text. */
  datatype WriteOutcome = Written | CreateFailed(message: string) | WriteFailed(message: string)

  /** The display text of hound's `UnfinishedSample` error, which `finalize` returns
      when the number of samples written is not a multiple of the channel count. */
  const UnfinishedSampleMessage: string := "The number of samples written is not a multiple of the number of channels."

  /** hound accepts the samples of a WAV file only in whole frames, one sample per
      channel. */
  predicate WholeFrames(spec: WavSpec, samples: seq<int>)
  {
    spec.channels != 0 && |samples| % spec.channels == 0
  }

  /** The file system as far as the commands write to it: a file path to its content. */
  class Disk {
    var files: map<string, Encoded>

    constructor ()
      ensures files == map[]
    {
      files := map[];
    }

    /** Creates (or truncates) `path` and writes `data` to it. */
    method Store(path: string, data: Encoded)
      modifies this
      ensures files == old(files)[path := data]
    {
      files := files[path := data];
    }

    /** Creates (or truncates) `path` and leaves it unfinished. */
    method Abandon(path: string)
      modifies this
      ensures files == old(files)[path := Unfinished]
    {
      files := files[path := Unfinished];
    }
  }
}

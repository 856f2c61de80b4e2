/** The back end's shared state (`src-tauri/src/state.rs`): the decoded-file cache,
    the combined buffer, the flags the commands share, and `get_app_state`, the
    read-only projection of all of it that the front end can ask for. */
module AppModel {
  import opened Wrappers
  import opened OrderedMap
  import Text

  /** A file's stable identifier (a UUID). */
  type Uuid = nat

  /** One decoded `i16` PCM sample. */
  type Sample = x: int | -32768 <= x <= 32767

  /** An `f64` offset: a ratio, or the NaN that `0.0 / 0.0` produces. */
  datatype Offset = Ratio(value: real) | NotANumber

  /** `AudioFile`: one decoded file of the cache. */
  datatype AudioFile = AudioFile(id: Uuid, path: string, samples: seq<Sample>, startOffset: Offset)

  /** Every entry of the cache is stored under its own path. */
  predicate KeyedByPath(m: seq<Entry<AudioFile>>) {
    forall i :: 0 <= i < |m| ==> m[i].key == m[i].value.path
  }

  /** `AppState`, the state every command shares. The playback sink and the
      playback-cancel flag belong to playback, which this model leaves out. */
  class AppState {
    /** `audio_files: BTreeMap<String, AudioFile>`, the cache keyed by path. */
    var audioFiles: seq<Entry<AudioFile>>
    /** `combined_audio`: the last buffer stored by `update_inputs`. */
    var combinedAudio: Option<seq<Sample>>
    /** The flag `cancel_combine` sets and a combine job clears and polls. */
    var cancelFlag: bool
    /** The id sequence stored by `update_sorting`. */
    var customOrder: seq<Uuid>
    var svgPath: Option<string>
    var bufferingSamples: bool
    /** `cancel_token: AtomicU64`. */
    var cancelToken: nat
    /** `combine_process: Mutex<i32>`. */
    var combineProcess: int

    ghost predicate Valid()
      reads this
    {
      Ordered(audioFiles) && KeyedByPath(audioFiles) && cancelToken < 0x1_0000_0000_0000_0000
      && -0x8000_0000 <= combineProcess < 0x8000_0000
    }

    constructor ()
      ensures Valid()
      ensures audioFiles == [] && combinedAudio == None && !cancelFlag && customOrder == []
      ensures svgPath == None && !bufferingSamples && cancelToken == 0 && combineProcess == 0
    {
      audioFiles := [];
      combinedAudio := None;
      cancelFlag := false;
      customOrder := [];
      svgPath := None;
      bufferingSamples := false;
      cancelToken := 0;
      combineProcess := 0;
    }
  }

  /** `AudioFileDebug`: what the projection shows of one cached file. */
  datatype AudioFileDebug = AudioFileDebug(samples: nat, startOffset: Offset)

  /** `SerializableAppState`. */
  datatype SerializableAppState = SerializableAppState(
    audioFiles: seq<Entry<AudioFileDebug>>,
    combinedAudio: string,
    bufferingSamples: bool,
    svgPath: string,
    cancelToken: nat,
    combineProcess: int)

  function Debug(f: AudioFile): AudioFileDebug {
    AudioFileDebug(|f.samples|, f.startOffset)
  }

  /** The `iter().map(...).collect()` over the cache: same keys, in the same order,
      each file replaced by its sample count and offset. */
  function ProjectFiles(m: seq<Entry<AudioFile>>): (r: seq<Entry<AudioFileDebug>>)
    ensures |r| == |m|
    ensures forall i :: 0 <= i < |m| ==> r[i].key == m[i].key && r[i].value == Debug(m[i].value)
  {
    if m == [] then [] else [Entry(m[0].key, Debug(m[0].value))] + ProjectFiles(m[1..])
  }

  /** The projected map has the cache's keys and, under each, the projection of the
      cached file; it is as ordered as the cache. */
  lemma {:induction false} ProjectFilesLookup(m: seq<Entry<AudioFile>>, k: string)
    ensures Keys(ProjectFiles(m)) == Keys(m)
    ensures Ordered(m) ==> Ordered(ProjectFiles(m))
    ensures Get(ProjectFiles(m), k) == match Get(m, k) case None => None case Some(f) => Some(Debug(f))
  {
    var r := ProjectFiles(m);
    if m != [] {
      ProjectFilesLookup(m[1..], k);
      HeadTailKeys(m);
      HeadTailKeys(r);
      assert r[1..] == ProjectFiles(m[1..]);
    }
  }

  /** The `combined_audio` text: the stored buffer's length in decimal, or "empty". */
  function CombinedAudioText(c: Option<seq<Sample>>): string {
    match c
    case Some(data) => Text.NatToString(|data|)
    case None => "empty"
  }

  /** The `combined_audio` text can be read back: it is "empty" exactly when nothing
      is stored, and otherwise it parses to the stored buffer's length. */
  lemma CombinedAudioTextReadable(c: Option<seq<Sample>>)
    ensures CombinedAudioText(c) == "empty" <==> c.None?
    ensures c.Some? ==> Text.ParseDigits(CombinedAudioText(c)) == |c.value|
  {
    if c.Some? {
      Text.ParseNatToString(|c.value|);
      assert !Text.IsDigit('e');
      assert CombinedAudioText(c)[0] != 'e';
    }
  }

  /** The `svg_path` text: the stored string, or "no svg path". */
  function SvgText(s: Option<string>): string {
    match s
    case Some(data) => data
    case None => "no svg path"
  }

  /** `get_app_state`: reads the whole state, changes nothing. */
  function GetAppState(state: AppState): (s: SerializableAppState)
    reads state
    ensures |s.audioFiles| == |state.audioFiles|
    ensures forall i :: 0 <= i < |state.audioFiles| ==>
      s.audioFiles[i].key == state.audioFiles[i].key
      && s.audioFiles[i].value.samples == |state.audioFiles[i].value.samples|
      && s.audioFiles[i].value.startOffset == state.audioFiles[i].value.startOffset
    ensures s.combinedAudio == (if state.combinedAudio.None? then "empty" else Text.NatToString(|state.combinedAudio.value|))
    ensures s.svgPath == (if state.svgPath.None? then "no svg path" else state.svgPath.value)
    ensures s.bufferingSamples == state.bufferingSamples && s.cancelToken == state.cancelToken
    ensures s.combineProcess == state.combineProcess
  {
    SerializableAppState(
      ProjectFiles(state.audioFiles),
      CombinedAudioText(state.combinedAudio),
      state.bufferingSamples,
      SvgText(state.svgPath),
      state.cancelToken,
      state.combineProcess)
  }
}

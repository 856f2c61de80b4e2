# SoundSticher core, modelled in Dafny

SoundSticher is a desktop tool for stitching audio files onto one timeline. It has
a Rust back end (a Tauri application) and a Svelte front end. This project models
the parts of both that decide what happens to the data.

**Back end**
- **The decoded-sample cache and `update_inputs`.** The cache is a `BTreeMap` keyed
  by path. `update_inputs` synchronises it with the files the front end lists.
- **The background combine job and `cancel_combine`.** The job totals the cached
  samples, lays every cached file out on a 1000-pixel timeline and emits one
  waveform segment per file. `cancel_combine` stops it.
- **The one-shot commands.** `combine_audio_files` concatenates files;
  `export_combined_audio_as_wav` writes the combined buffer after its guards.
- **The waveform renderer.** `generate_waveform_path` draws one min/max bar per
  pixel column.
- **The reorder command `update_sorting`.** It stable-sorts `(id, index)` pairs,
  recomputes each file's start offset, rebuilds the cache and stores the custom
  order.
- **The encoder registry and the two encoders (WAV and MP3), and `export_audio`.**
- **The error type and how it is serialised for the front end.**
- **The `get_app_state` projection.**
- **Two `lib.rs` commands.** The folder-listing filter of
  `get_file_paths_in_folder`, and `clear_audio_files`.

**Front end**
- **The section list.** Add, delete, change path, list a folder and merge metadata.
- **The timing log of commands.**
- **The mapping of sections to the `update_inputs` payload.**
- **Palette selection and the CSS colour text.**
- **File-name extraction, the zero case of byte formatting, and point-in-rectangle
  hit testing.**

## How the code is represented

- **Modules.** Each module follows one source file:
  - `combine.dfy`, `sorting.dfy`, `encoder.dfy`, `errors.dfy`, `app_state.dfy`
    (`state.rs`) and `commands.dfy` (`lib.rs`) follow the back end;
  - `sections.dfy` (`state.svelte.ts`), `performance.dfy`, `colors.dfy`,
    `format.dfy` and `dragdrop.dfy` follow the front end;
  - `ordered_map.dfy`, `text.dfy`, `media.dfy` and `wrappers.dfy` hold shared
    vocabulary.
- **`BTreeMap<String, V>`** is a list of entries whose keys are strictly ascending,
  under Rust's lexicographic string order. Iterating the map is walking the list;
  `insert`, `get` and `retain` are functions on it.
- **State that the source mutates is a class:**
  - the back end's `AppState`;
  - the front end's section store;
  - the timing store;
  - the file system as far as the commands write to it (`Media.Disk`).

  Each command is a method with a `modifies` clause. Each method is proved
  against a function that specifies it, and the properties are lemmas about those
  functions. Loops in the source are `while` loops with invariants.
- **What the code reads from outside is a parameter.** Such values are not
  modelled, only passed in:
  - what the decoder yields for each path;
  - the enumeration order of a `HashSet`;
  - fresh UUIDs;
  - what `read_dir` lists;
  - how the file system answers a write: written, not created, or failed after
    the file was created;
  - each read of the cancel flag by a running job;
  - the clock.

  Events sent to the front end are returned as lists.
- **Numbers.**
  - Samples are `i16` values.
  - Offsets and progress fractions are exact reals, because the rational value is
    what the code computes before `f64` rounding.
  - The encoders' input samples are reals, and their `clamp`, `as` casts and
    `round` are written out.

The Rust snapshot is in the middle of a refactor, so the model follows what each
function does:
- `state.rs` gives `AudioFile` only `samples` and `start_offset`. `sorting.rs`
  reads an `id` and a `path` from it, and `combine.rs` inserts bare sample vectors.
  The model uses one `AudioFile` with an id, a path, the samples and a start offset.
  `update_inputs` creates it with offset 0 and a fresh id.
- `AppState` gets the `cancel_flag` and `custom_order` that `combine.rs` and
  `sorting.rs` use.

Where the documented behaviour and the code disagree, the model follows
the code:
- **Waveform slicing.** `generate_waveform_path` uses `len / max(width, 1)` samples
  per pixel, which is 0 when there are fewer samples than pixels. The waveform is
  then empty; the documented behaviour is at least one sample per pixel.
- **Cancellation.** It is a boolean flag that the job clears when it starts, not a
  generation counter.
- **The combine job always emits `total-length`.** This happens before its
  zero-total check.
- **The combine job stores nothing.** It builds the combined buffer but neither
  stores it nor touches the cache.
- **Progress in `update_inputs`.** It reports `i / n`, where `i` is the path's
  position in the desired set. It is not insertions so far over insertions to do.
- **`update_sorting` drops every cached file that no update names.** The documented behaviour
  appends them.
- **Offsets when the total is zero.** `update_sorting` divides by the total without
  a guard: the guard is commented out. So when every file it finds is empty, the
  offsets are `0.0 / 0.0`, which is NaN (`Offset.NotANumber`), not 0.
- **The MP3 encoder runs once over the whole buffer and reports no progress.**
  There is no FLAC encoder; only the error variants exist.

## Model

| member | source | states |
|---|---|---|
| Text.NatToString | src-tauri/src/state.rs:59 | a count renders as at least one decimal digit, digits only, with no leading zero |
| Text.ParseNatToString | src-tauri/src/state.rs:59 | reading the decimal rendering back gives the number |
| Text.NatToStringInjective | src-tauri/src/state.rs:59 | different counts render differently |
| Text.IntToString | src/lib/utils/colors.ts:44 | an interpolated integer starts with '-' exactly when it is negative |
| Text.ParseIntToString | src/lib/utils/colors.ts:44 | reading an interpolated integer back gives the integer |
| Text.IntToStringInjective | src/lib/utils/colors.ts:44 | different integers interpolate differently |
| Text.AsciiLower | src-tauri/src/lib.rs:76 | lower-casing keeps the length and lower-cases A-Z position by position |
| OrderedMap.LessTotal | src-tauri/src/state.rs:16 | the key order is total on distinct strings |
| OrderedMap.LessTransitive | src-tauri/src/state.rs:16 | the key order is transitive |
| OrderedMap.LessIrreflexive | src-tauri/src/state.rs:16 | no key is below itself |
| OrderedMap.LessAsymmetric | src-tauri/src/state.rs:16 | no two keys are each below the other |
| OrderedMap.GetSomeIffKey | src-tauri/src/state.rs:16 | `get` finds a value exactly for the keys of the map |
| OrderedMap.GetAt | src-tauri/src/state.rs:16 | in an ordered map every entry is found under its own key |
| OrderedMap.Get | src-tauri/src/state.rs:16 | defines `BTreeMap::get`; stated by OrderedMap.GetSomeIffKey and GetAt |
| OrderedMap.OrderedCardinality | src-tauri/src/state.rs:16 | an ordered map has one entry per key |
| OrderedMap.Insert | src-tauri/src/combine.rs:187 | after `insert` the map is still ordered, has gained the key, finds the new value under it and everything else as before |
| OrderedMap.Retain | src-tauri/src/combine.rs:170-178 | `retain` keeps exactly the entries whose key is wanted, unchanged and in order |
| OrderedMap.RetainSnoc | src-tauri/src/combine.rs:170-178 | `retain` visits entries in order: an entry added at the end is kept at the end exactly when wanted |
| OrderedMap.DroppedIsKeyCount | src-tauri/src/combine.rs:170-178 | `retain` drops as many entries as there are keys outside the wanted set |
| Errors.ToKindKeepsName | src-tauri/src/error.rs:74-89 | every error is serialised as the kind of the same name |
| Errors.LowerFirst | src-tauri/src/error.rs:50 | camelCasing a variant name changes only its first character |
| Errors.SerializedTagIsVariantName | src-tauri/src/error.rs:48-50 | the `kind` tag is the camelCase name of the error's own variant |
| Errors.Serialize | src-tauri/src/error.rs:48-89 | defines the `{kind, message}` serialisation; stated by Errors.SerializedTagIsVariantName, SerializedMessage and TagIdentifiesVariant |
| Errors.SerializedMessage | src-tauri/src/error.rs:48-89 | exactly `InvalidPath` and `UnevenNumberOfSamples` have no `message`; every other error carries its display text |
| Errors.TagIdentifiesVariant | src-tauri/src/error.rs:74-89 | two errors with the same tag are the same variant |
| Errors.LowerFirstInjective | src-tauri/src/error.rs:50 | camelCasing capitalised names loses nothing |
| Errors.VariantNameCapitalised | src-tauri/src/error.rs:4-46 | every variant name starts with a capital letter, so its camelCase tag differs only there |
| Errors.NoAudioDataAndPlaybackErrorShareText | src-tauri/src/error.rs:29-33 | `NoAudioData` and `PlaybackError` both display "No audio data"; only the tags `noAudioData` and `playbackError` differ |
| Errors.DisplayPayloadAfterPrefix | src-tauri/src/error.rs:8-45 | the prefixed display texts are their fixed prefix followed by the variant's content, which can be read back |
| Errors.Display | src-tauri/src/error.rs:8-45 | defines each variant's display text; stated by Errors.DisplayPayloadAfterPrefix and SerializedMessage |
| Media.Disk.constructor | src-tauri/src/encoder.rs:21-24 | the file system starts empty |
| Media.Disk.Store | src-tauri/src/encoder.rs:21-24 | writing a file replaces the content at that path and changes nothing else |
| Media.Disk.Abandon | src-tauri/src/encoder.rs:21-24 | a file created or truncated whose writing then failed is left at its path, unfinished, and nothing else changes |
| AppModel.AppState.constructor | src-tauri/src/lib.rs:289-298 | the shared state starts with an empty, ordered, path-keyed cache, no combined buffer and cleared flags |
| AppModel.ProjectFiles | src-tauri/src/state.rs:43-55 | the projection has the cache's keys in the same order, each with its file's sample count and start offset |
| AppModel.ProjectFilesLookup | src-tauri/src/state.rs:43-55 | the projected map has exactly the cache's keys, stays ordered, and under each key holds the projection of the cached file |
| AppModel.CombinedAudioTextReadable | src-tauri/src/state.rs:57-61 | the buffer text is "empty" exactly when no buffer is stored; otherwise it parses to the buffer's length |
| AppModel.CombinedAudioText | src-tauri/src/state.rs:57-61 | defines the buffer's debug text; stated by AppModel.CombinedAudioTextReadable |
| AppModel.GetAppState | src-tauri/src/state.rs:41-76 | the projection reads everything and changes nothing: per-file counts and offsets, the buffer's decimal length or "empty", the SVG path or "no svg path", and the flags, token and process number as stored |
| Commands.LastDot | src-tauri/src/lib.rs:75 | finds the last '.' of a name, or reports that there is none |
| Commands.LastDotSplit | src-tauri/src/lib.rs:75 | the extension is the text after the last '.', even when the stem holds dots |
| Commands.UpperCaseExtensionKept | src-tauri/src/lib.rs:75-80 | "take.WAV" is kept: extensions match in any letter case |
| Commands.HiddenNameNotKept | src-tauri/src/lib.rs:75 | ".wav" has no extension and is not kept |
| Commands.AppleDoubleNotKept | src-tauri/src/lib.rs:69-73 | an AppleDouble "._" companion file is skipped |
| Commands.NoDotNeverKept | src-tauri/src/lib.rs:75 | a name without an extension is never kept |
| Commands.ExtensionLower | src-tauri/src/lib.rs:75-76 | the extension of the lower-cased name is the lower-cased extension |
| Commands.Extension | src-tauri/src/lib.rs:75-76 | defines the extension test's input; stated by Commands.LastDot, LastDotSplit and ExtensionLower |
| Commands.AsciiLowerIdempotent | src-tauri/src/lib.rs:76 | lower-casing an already lower-cased extension changes nothing |
| Commands.KeptIgnoresCase | src-tauri/src/lib.rs:68-84 | whether an entry is kept does not depend on the letter case of its name |
| Commands.Kept | src-tauri/src/lib.rs:68-84 | defines which entries are listed; stated by Commands.KeptIgnoresCase and FolderFilesContent |
| Commands.FolderFilesContent | src-tauri/src/lib.rs:64-87 | listing a folder succeeds exactly when no entry errs and every kept name is valid Unicode; it then holds the joined path of every kept entry and of nothing else |
| Commands.FolderFiles | src-tauri/src/lib.rs:64-87 | defines one folder's listing; stated by Commands.FolderFilesContent and FolderFilesPrefix |
| Commands.ListedSucceeds | src-tauri/src/lib.rs:64-87 | for any entry filter, the listing succeeds exactly on a clean listing |
| Commands.ListedMembers | src-tauri/src/lib.rs:64-87 | for any entry filter, a clean listing holds exactly the joined paths of the accepted entries |
| Commands.FolderFilesPrefix | src-tauri/src/lib.rs:64-87 | kept paths keep listing order: a prefix of the entries gives a prefix of the paths |
| Commands.AllPathsContent | src-tauri/src/lib.rs:60-93 | the call fails exactly when some folder fails; on success the map has one entry per requested folder, holding the listing of that folder's last request |
| Commands.AllPaths | src-tauri/src/lib.rs:60-93 | defines the folder map or its first error; stated by the Commands.AllPaths lemmas |
| Commands.AllPathsSucceeds | src-tauri/src/lib.rs:60-93 | the folder loop succeeds exactly when every folder's listing succeeds |
| Commands.AllPathsFailureSticks | src-tauri/src/lib.rs:60-93 | once a folder fails, the remaining folders do not change the error returned |
| Commands.AllPathsFailsAt | src-tauri/src/lib.rs:60-93 | an error while listing any folder ends the whole call with that error |
| Commands.GetFilePathsInFolder | src-tauri/src/lib.rs:56-94 | the two nested loops compute the specified folder map or its first error |
| Commands.ClearAudioFiles | src-tauri/src/lib.rs:135-143 | the cache becomes empty and the combined buffer absent; the projection then shows no file and "empty" |
| Encoder.EncoderNames | src-tauri/src/encoder.rs:147-153 | `Wav` gets the encoder with "wav" and "audio/wav", `Mp3` the one with "mp3" and "audio/mpeg", and they differ |
| Encoder.GetEncoder | src-tauri/src/encoder.rs:147-153 | defines `get_encoder`; stated by Encoder.EncoderNames |
| Encoder.FileExtension | src-tauri/src/encoder.rs:16 | defines each encoder's extension ("wav" at lines 55-57, "mp3" at 138-140); stated by Encoder.EncoderNames |
| Encoder.MimeType | src-tauri/src/encoder.rs:17 | defines each encoder's MIME type ("audio/wav" at lines 58-60, "audio/mpeg" at 142-144); stated by Encoder.EncoderNames |
| Encoder.RegistryKnowsExactly | src-tauri/src/encoder.rs:160-170 | the registry finds an encoder exactly for "wav" and "mp3", and finds each encoder under its own extension |
| Encoder.WavSampleRange | src-tauri/src/encoder.rs:47 | every WAV sample is an `i16`; full scale gives ±32767 and louder input is clamped |
| Encoder.WavSampleRoundTrip | src-tauri/src/encoder.rs:47 | converting `k / 32767` gives `k` back for every representable `k` |
| Encoder.WavSampleMonotone | src-tauri/src/encoder.rs:47 | a louder input never gives a smaller WAV sample |
| Encoder.WavSample | src-tauri/src/encoder.rs:47 | defines the clamp-scale-truncate conversion; stated by Encoder.WavSampleRange, WavSampleRoundTrip and WavSampleMonotone |
| Encoder.Mp3LevelRange | src-tauri/src/encoder.rs:74 | every MP3 level lies in [0, 65535]; -1 and below give 0, 1 and above give 65535 |
| Encoder.Mp3LevelMonotone | src-tauri/src/encoder.rs:74 | a louder input never gives a smaller MP3 level |
| Encoder.Mp3Level | src-tauri/src/encoder.rs:74 | defines the MP3 level conversion; stated by Encoder.Mp3LevelRange and Mp3LevelMonotone |
| Encoder.Evens | src-tauri/src/encoder.rs:79-82 | the left channel has half the samples |
| Encoder.Odds | src-tauri/src/encoder.rs:79-82 | the right channel has half the samples |
| Encoder.DeinterleaveRoundTrip | src-tauri/src/encoder.rs:76-82 | splitting an even-length stream into channels and weaving them back gives the stream, and the reverse |
| Encoder.WavEncodingShape | src-tauri/src/encoder.rs:38-50 | WAV encoding never fails and writes a mono 16-bit integer stream with one converted sample per input sample, in order |
| Encoder.Mp3RejectsOddIff | src-tauri/src/encoder.rs:67-71 | the MP3 encoder fails with `UnevenNumberOfSamples` exactly when the length is odd |
| Encoder.Mp3EncodingShape | src-tauri/src/encoder.rs:76-82 | on an even length the library receives two channels of `len / 2` levels each, the even then the odd positions in order, all in range, which weave back into the converted input |
| Encoder.Mp3ChannelLevels | src-tauri/src/encoder.rs:79-82 | each channel level is the level of its own input sample |
| Encoder.WavEncode | src-tauri/src/encoder.rs:33-53 | the sample loop computes the specified WAV encoding |
| Encoder.Mp3Encode | src-tauri/src/encoder.rs:66-136 | the length check and the de-interleaving loop compute the specified MP3 encoding or its error |
| Encoder.Encoding | src-tauri/src/encoder.rs:33-136 | defines what each encoder produces or fails with; stated by Encoder.WavEncodingShape, Mp3RejectsOddIff, Mp3EncodingShape and Mp3ChannelLevels |
| Encoder.Encode | src-tauri/src/encoder.rs:15 | dispatching through the trait gives the chosen encoder's encoding |
| Encoder.Write | src-tauri/src/encoder.rs:18-27 | the file is touched only after encoding succeeded; a file that cannot be created is an `Io` error with the file system unchanged; a write or flush failure after creation is an `Io` error that leaves an unfinished file at the path; on success the file holds the encoding and the encoder's extension is returned |
| Encoder.ExportAudio | src-tauri/src/encoder.rs:174-186 | an unknown format is `UnknownEncoderFormat(format)` and touches no file; a known one encodes and writes as `write` does, with the same three write outcomes |
| Combine.MinMaxOfBounds | src-tauri/src/combine.rs:126-127 | the slice's min and max are elements of it, and every element lies between them |
| Combine.TimesIsProduct | src-tauri/src/combine.rs:118 | a column's start is `x * spp` |
| Combine.SlicesFit | src-tauri/src/combine.rs:112-121 | every slice the renderer takes is in bounds: `x * spp <= min((x + 1) * spp, len) <= len`; `spp` is 0 exactly when there are fewer samples than pixels |
| Combine.GenerateWaveformPath | src-tauri/src/combine.rs:111-139 | the column loop computes the specified waveform |
| Combine.WaveformEmptyWhenShort | src-tauri/src/combine.rs:112-124 | with fewer samples than pixels nothing is drawn |
| Combine.NoSamplesNoColumns | src-tauri/src/combine.rs:117-124 | with 0 samples per pixel every slice is empty |
| Combine.WaveformColumns | src-tauri/src/combine.rs:112-136 | with at least one sample per pixel there is exactly one column per pixel, in pixel order, and column `x` spans the least and the greatest of its `spp` samples |
| Combine.ColumnSpansSlice | src-tauri/src/combine.rs:121-127 | a column's min and max bound its slice and occur in it |
| Combine.FullColumns | src-tauri/src/combine.rs:117-136 | while slices are full, column `x` is the min and max of samples `x * spp .. (x + 1) * spp` |
| Combine.WaveformIgnoresTail | src-tauri/src/combine.rs:117-121 | samples past `width * spp` are never read |
| Combine.Waveform | src-tauri/src/combine.rs:111-139 | defines the waveform columns; stated by Combine.WaveformEmptyWhenShort, WaveformColumns and WaveformIgnoresTail |
| Combine.FirstFailure | src-tauri/src/combine.rs:183-185 | the insert loop stops at the first uncached path that fails to decode, or at the end |
| Combine.LoadedMap | src-tauri/src/combine.rs:183-195 | the cache stays ordered through the insert loop |
| Combine.InsertedPositions | src-tauri/src/combine.rs:183-191 | progress is reported only at positions of uncached paths that decoded |
| Combine.Fraction | src-tauri/src/combine.rs:190 | a buffering progress value lies in [0, 1) |
| Combine.ProgressOf | src-tauri/src/combine.rs:190-191 | one progress value per insertion, each in [0, 1) |
| Combine.InsertedCount | src-tauri/src/combine.rs:183-195 | one progress event per inserted path |
| Combine.LoadedMapKeys | src-tauri/src/combine.rs:183-195 | after the insert loop the cache holds its starting keys plus the inserted paths |
| Combine.LoadedMapLookup | src-tauri/src/combine.rs:184 | the loop finds a path missing from its cache exactly when the starting cache lacked it, so nothing cached is decoded again |
| Combine.LoadedMapGet | src-tauri/src/combine.rs:183-195 | the insert loop keeps every starting entry and stores each inserted path under the file made from its own id and samples |
| Combine.LoadedMapKeyed | src-tauri/src/combine.rs:187 | the cache stays keyed by path |
| Combine.SyncKeepsWantedDropsStale | src-tauri/src/combine.rs:164-195 | wanted entries that were cached stay untouched and unwanted ones are gone |
| Combine.KeptAgreesOnOrder | src-tauri/src/combine.rs:170-185 | the retain step removes no path the insert loop visits, so it looks up each path in the original cache |
| Combine.SyncCachesDecoded | src-tauri/src/combine.rs:183-195 | each path decoded before the loop stops is cached with its own id and samples |
| Combine.SyncSucceedsIff | src-tauri/src/combine.rs:164-205 | the call succeeds exactly when every wanted path that was not cached decodes; it then caches exactly the wanted paths and counts one insertion per newly wanted path |
| Combine.InsertedAreNew | src-tauri/src/combine.rs:183-195 | when no new path fails, the inserted paths are exactly the wanted paths not cached before |
| Combine.RetainWanted | src-tauri/src/combine.rs:170-178 | the retain step keeps the wanted entries in order and counts the old keys outside the wanted set |
| Combine.InsertMissing | src-tauri/src/combine.rs:181-195 | the insert loop computes the specified cache, new samples, progress positions and stopping point |
| Combine.UpdateInputs | src-tauri/src/combine.rs:152-205 | stale entries dropped and counted, missing ones decoded and inserted in set order; a decode error returns at once, keeping both and leaving the buffer; success stores only the new samples and reports both counts |
| Combine.Segments | src-tauri/src/combine.rs:259-285 | one segment event per entry, in key order |
| Combine.FirstTrue | src-tauri/src/combine.rs:226-260 | the first poll that sees the flag set, or none |
| Combine.CountSamples | src-tauri/src/combine.rs:226-239 | the first pass stops exactly when it sees the flag; otherwise it totals every cached sample |
| Combine.EmitSegments | src-tauri/src/combine.rs:256-285 | the second pass emits the specified segments with a running sample offset |
| Combine.CombineAllCachedSamples | src-tauri/src/combine.rs:207-292 | the job clears the flag and emits the specified events, and writes neither the cache nor the combined buffer |
| Combine.CancelCombine | src-tauri/src/combine.rs:294-299 | the flag is set |
| Combine.JobCancelledEarly | src-tauri/src/combine.rs:226-237 | a cancellation in the first pass emits the empty result alone |
| Combine.JobWithoutSamples | src-tauri/src/combine.rs:241-254 | with no samples the job emits a zero length and the empty result, never a segment |
| Combine.JobCompletesIff | src-tauri/src/combine.rs:256-288 | `combine-complete` is sent exactly when there are samples and no poll saw the flag; the job then emits the length, one segment per entry and the completion |
| Combine.JobEvents | src-tauri/src/combine.rs:208-293 | defines the events of the combine job; stated by Combine.JobCancelledEarly, JobWithoutSamples and JobCompletesIff |
| Combine.FirstOffsetZero | src-tauri/src/combine.rs:277-278 | the first segment starts at x = 0 |
| Combine.OffsetsNondecreasing | src-tauri/src/combine.rs:277-284 | later entries never start left of earlier ones |
| Combine.OffsetsTile | src-tauri/src/combine.rs:276-284 | each segment starts where the exact share of the previous one ends |
| Combine.SamplesBeforeMonotone | src-tauri/src/combine.rs:284 | the running sample offset never decreases |
| Combine.OffsetsInTimeline | src-tauri/src/combine.rs:256-285 | the running offset ends at the total, and every segment starts within [0, 1000] |
| Combine.ShareBounds | src-tauri/src/combine.rs:276 | a share of the total lies within [0, 1000] |
| Combine.FirstError | src-tauri/src/combine.rs:57-61 | decoding stops at the first input that fails |
| Combine.ProgressAfter | src-tauri/src/combine.rs:71-72 | one progress value `(i + 1) / n` per decoded input, each in (0, 1] |
| Combine.Step | src-tauri/src/combine.rs:71 | a progress value lies in (0, 1] |
| Combine.FractionInUnitRange | src-tauri/src/combine.rs:71 | a count over a larger total lies in [0, 1], and is positive when the count is |
| Combine.CombineAudioFiles | src-tauri/src/combine.rs:41-109 | inputs decoded in order with progress after each; the first decode error is returned before any file is created; a writer that cannot create the file is a `HoundWriteError` with the file system unchanged, and one that fails on a sample, or is finalised with an odd number of samples, is a `HoundWriteError` that leaves an unfinished file; otherwise the concatenation is written as stereo 44.1 kHz 16-bit WAV and its 1000-pixel waveform is returned |
| Combine.ConcatLayout | src-tauri/src/combine.rs:69 | the concatenation holds each input's samples back to back, in input order |
| Combine.Concat | src-tauri/src/combine.rs:69 | defines the concatenation of the decoded inputs; stated by Combine.ConcatLayout |
| Combine.ExportCombinedAudioAsWav | src-tauri/src/combine.rs:301-337 | a missing buffer and an empty buffer are refused with their messages before any file is created; otherwise the writer's error text is returned, with the file system unchanged when the file cannot be created and an unfinished file when a sample write or the finaliser (odd sample count) fails; a finished write stores the buffer as stereo 16-bit WAV |
| Combine.WriteWav | src-tauri/src/combine.rs:82-95 | hound's writer: a create failure changes nothing, a sample-write failure leaves an unfinished file, samples that do not fill whole stereo frames are refused by the finaliser with `UnfinishedSample` after the file was created, and only a finished file holds the samples |
| Sorting.InsertAfterEqualPermutes | src-tauri/src/sorting.rs:64 | one insertion step adds the element and keeps the rest |
| Sorting.InsertAfterEqualSorted | src-tauri/src/sorting.rs:64 | one insertion step keeps the updates ordered by index |
| Sorting.InsertAfterEqualWithIndex | src-tauri/src/sorting.rs:64 | one insertion step places the new update after every update with the same index |
| Sorting.SortByIndexSorted | src-tauri/src/sorting.rs:63-64 | the sorted updates are ordered by index |
| Sorting.SortByIndexPermutes | src-tauri/src/sorting.rs:63-64 | sorting loses and duplicates no update |
| Sorting.SortByIndexStable | src-tauri/src/sorting.rs:63-64 | updates sharing an index keep their input order |
| Sorting.SortByIndex | src-tauri/src/sorting.rs:63-64 | defines the stable sort by index; stated by Sorting.SortByIndexSorted, SortByIndexPermutes and SortByIndexStable |
| Sorting.FindById | src-tauri/src/sorting.rs:75 | finds the first file in key order with the id, or reports that none has it |
| Sorting.ReoffsetKeepsFiles | src-tauri/src/sorting.rs:90-95 | the offset loop changes start offsets and nothing else |
| Sorting.FindAfterReoffset | src-tauri/src/sorting.rs:73-95 | re-offsetting does not change which file an id finds |
| Sorting.Rebuilt | src-tauri/src/sorting.rs:98-122 | the rebuilt map is an ordered map |
| Sorting.Ids | src-tauri/src/sorting.rs:127 | the custom order is the sorted ids, found or not |
| Sorting.Pairs | src-tauri/src/sorting.rs:143 | the result is the sorted `(id, index)` pairs, as many as the updates |
| Sorting.UpdateSorting | src-tauri/src/sorting.rs:35-146 | sends `Started` first, then two progress events per found update; the cache becomes the rebuilt map of the re-offset files, the custom order the sorted ids, and the result the sorted pairs |
| Sorting.TotalSamples | src-tauri/src/sorting.rs:73-77 | the total counts the samples of the found files only |
| Sorting.ApplyOffsets | src-tauri/src/sorting.rs:83-95 | the offset loop computes the specified offsets |
| Sorting.RebuildMap | src-tauri/src/sorting.rs:98-122 | the rebuild loop computes the specified map and events |
| Sorting.RebuiltKeyedByPath | src-tauri/src/sorting.rs:102 | the rebuilt map is keyed by path, so it iterates by path rather than by the new index |
| Sorting.RebuiltHoldsFound | src-tauri/src/sorting.rs:98-124 | after the reorder a path is cached exactly when some update names its file, which is kept unchanged apart from its offset; other files are dropped |
| Sorting.OffsetOfFound | src-tauri/src/sorting.rs:90-95 | a found file's offset is the samples of the found files sorted before it over the total (NaN when the total is 0) |
| Sorting.FoundSamplesMonotone | src-tauri/src/sorting.rs:73-93 | the samples before any position never exceed the total |
| Sorting.OffsetInUnitRange | src-tauri/src/sorting.rs:92 | with a positive total every offset is a ratio in [0, 1] |
| Sorting.ProgressEventCount | src-tauri/src/sorting.rs:100-118 | exactly two progress events per found update |
| Sorting.ProgressInUnitRange | src-tauri/src/sorting.rs:105 | every progress value lies in (0, 1] |
| Sorting.ProgressEvents | src-tauri/src/sorting.rs:100-118 | defines the progress events of the rebuild; stated by Sorting.ProgressEventCount and ProgressInUnitRange |
| Sorting.ReorderExample | src-tauri/src/sorting.rs:63-95 | placing B (2 samples) before A (4 samples) gives B offset 0 and A offset 2/6 |
| Performance.WithMetricSpec | src/lib/state/performance.ts:67-78 | recording appends the entry and keeps the last 100, so the length is `min(old + 1, 100)`; at capacity exactly the oldest goes; a missing list counts as empty; other metrics are unchanged |
| Performance.WithMetric | src/lib/state/performance.ts:67-78 | defines one recording; stated by Performance.WithMetricSpec |
| Performance.ClearedSpec | src/lib/state/performance.ts:80-89 | reset keeps the keys and empties every list |
| Performance.Cleared | src/lib/state/performance.ts:80-89 | defines the reset; stated by Performance.ClearedSpec |
| Performance.BoundedPreserved | src/lib/state/performance.ts:71 | recording keeps every list at most 100 long |
| Performance.RecordedLength | src/lib/state/performance.ts:71 | `n` recordings into an empty list leave `min(n, 100)` entries |
| Performance.PerformanceStore.constructor | src/lib/state/performance.ts:45-65 | the store starts with every timed command and empty lists |
| Performance.PerformanceStore.SetPerfMetric | src/lib/state/performance.ts:67-78 | the store becomes the recorded one and stays bounded |
| Performance.PerformanceStore.ResetPerformance | src/lib/state/performance.ts:80-89 | the store becomes the cleared one |
| Performance.PerformanceStore.InvokeWithPerf | src/lib/state/performance.ts:98-116 | returns the command's outcome, success or error, and records exactly one timing either way |
| Performance.SectionSends | src/lib/state/performance.ts:118-122 | one send per section, with its folder and its files' paths in order |
| Performance.SendsCoverAllFiles | src/lib/state/performance.ts:118-122 | the back end is asked to keep exactly the paths of all the sections' files |
| Colors.FirstUnusedSpec | src/lib/utils/colors.ts:31-38 | the search returns the first palette entry with an unused name, or the first entry when all are used |
| Colors.NextAvailableColorSpec | src/lib/utils/colors.ts:28-39 | the colour is a palette entry: the first whose name no section uses, and Red when all are used or there are no sections |
| Colors.NextAvailableColor | src/lib/utils/colors.ts:28-39 | defines the colour chosen for a new section; stated by Colors.NextAvailableColorSpec and NextAvailableColorByName |
| Colors.NextAvailableColorByName | src/lib/utils/colors.ts:29 | colours count as used by name only |
| Colors.GetNextAvailableColor | src/lib/utils/colors.ts:28-39 | the set-building and search loops compute the specified colour |
| Colors.ToCssRgb | src/lib/utils/colors.ts:43-45 | the text is a CSS `rgba(...)` functional notation |
| Colors.ToCssRgbInjective | src/lib/utils/colors.ts:43-45 | different colours or opacities never render to the same text |
| Colors.Arguments | src/lib/utils/colors.ts:44 | defines the argument list of the `rgba(...)` text; stated by Colors.ArgumentsInjective |
| Colors.RedCss | src/lib/utils/colors.ts:43-45 | Red with the default alpha renders as "rgba(255, 64, 64, 1)" |
| Format.LastSeparator | src/lib/utils/format.ts:16 | finds the last '/' or '\\', or reports that there is none |
| Format.FormatFileNameSpec | src/lib/utils/format.ts:15-17 | the name is a separator-free suffix starting after a separator or at the start; the whole path without separators, "" after a trailing one |
| Format.FormatFileName | src/lib/utils/format.ts:15-17 | defines `formatFileName`; stated by Format.FormatFileNameSpec and FormatFileNameUnique |
| Format.LastSeparatorAppend | src/lib/utils/format.ts:16 | appending separator-free text does not move the last separator |
| Format.FormatFileNameUnique | src/lib/utils/format.ts:15-17 | the separator-free suffix after the last separator is the one returned |
| Format.FormatFileNameExample | src/lib/utils/format.ts:15-17 | "C:\\AUDIO\\kick.wav" gives "kick.wav"; "samples/loops/" gives "" |
| Format.FormatBytesZero | src/lib/utils/format.ts:2 | "0 Bytes" exactly for a size of 0 |
| DragDrop.EdgesInside | src/lib/utils/dragdrop.ts:1-8 | corners and edge points of a box are inside it |
| DragDrop.IsPointInRect | src/lib/utils/dragdrop.ts:1-8 | defines `isPointInRect` on the closed box; stated by the DragDrop lemmas below |
| DragDrop.InvertedRectEmpty | src/lib/utils/dragdrop.ts:1-8 | an inverted box contains no point |
| DragDrop.EnclosingRect | src/lib/utils/dragdrop.ts:1-8 | a point inside a box is inside every box enclosing it |
| DragDrop.SegmentInside | src/lib/utils/dragdrop.ts:1-8 | the box is convex |
| Sections.SplicedSpec | src/lib/state/state.svelte.ts:90-96 | `splice(i, 1)` at a valid index removes exactly that section and keeps the others in order; past the end nothing changes; negative indices count from the end |
| Sections.Spliced | src/lib/state/state.svelte.ts:90-96 | defines `splice(index, 1)`; stated by Sections.SplicedSpec and SplicedRemovesOne |
| Sections.SplicedRemovesOne | src/lib/state/state.svelte.ts:93 | a valid delete removes one copy of the deleted section |
| Sections.WithListing | src/lib/state/state.svelte.ts:149-153 | after a listing the section has one item per returned path, in order and in its colour |
| Sections.IoErrorsSpec | src/lib/state/state.svelte.ts:152 | the filter keeps exactly the "io" errors, in order |
| Sections.FailureMessage | src/lib/state/state.svelte.ts:200 | the recorded message is the error's message, or "Unknown error" when it is missing or empty |
| Sections.WithFailure | src/lib/state/state.svelte.ts:196-202 | a failure appends one "io" error and changes nothing else |
| Sections.Lookup | src/lib/state/state.svelte.ts:178 | the lookup finds the FIRST fetched entry with the path (no earlier successful entry has it), or there is none |
| Sections.MergeFile | src/lib/state/state.svelte.ts:176-187 | defines the corrected annotation of one file; stated by Sections.MergeFileSpec (corrected, see ## Findings) |
| Sections.MergeFileSpec | src/lib/state/state.svelte.ts:176-187 | a merged file keeps its path and colour and carries the fetched entry's fields, its bit depth taken from the entry's bit depth; a file without an entry is unchanged (corrected, see ## Findings) |
| Sections.MergeSection | src/lib/state/state.svelte.ts:177-187 | merging a section rewrites its files and nothing else (corrected, see ## Findings) |
| Sections.Merged | src/lib/state/state.svelte.ts:176-188 | the merge rewrites the files of every section, not just the fetched one (corrected, see ## Findings) |
| Sections.FetchedListed | src/lib/state/state.svelte.ts:137-192 | after a successful listing the fetched section holds, for each returned path in order, the item with that path in the section's colour merged with its fetched metadata; it keeps only "io" errors and records the metadata list; every other section only has its files merged (corrected, see ## Findings) |
| Sections.FetchedFailedOrSkipped | src/lib/state/state.svelte.ts:137-205 | a failed listing appends one "io" error; a missing section or empty folder changes nothing |
| Sections.Fetched | src/lib/state/state.svelte.ts:137-205 | defines the corrected `get_file_paths_in_folder`; stated by Sections.FetchedListed and FetchedFailedOrSkipped (corrected, see ## Findings) |
| Sections.GetAllFilesSpec | src/lib/state/state.svelte.ts:218-220 | the flattened list is as long as all the lists together and holds a file exactly when a section does |
| Sections.GetAllFiles | src/lib/state/state.svelte.ts:218-220 | defines `getAllFiles`; stated by Sections.GetAllFilesSpec and GetAllFilesCons |
| Sections.GetAllFilesCons | src/lib/state/state.svelte.ts:218-220 | the first section's files come first |
| Sections.AddSectionKeepsFiles | src/lib/state/state.svelte.ts:71-88 | adding a section leaves the flattened file list unchanged |
| Sections.SectionStore.constructor | src/lib/state/state.svelte.ts:64-66 | the store starts with no section |
| Sections.SectionStore.AddSection | src/lib/state/state.svelte.ts:71-88 | a new section for the default folder, empty and in the next free colour, goes in front of the unchanged others |
| Sections.SectionStore.DeleteSection | src/lib/state/state.svelte.ts:90-96 | the store becomes the spliced list |
| Sections.SectionStore.UpdatePath | src/lib/state/state.svelte.ts:98-104 | only the folder path of the given section changes; an index with no section changes nothing and reports failure |
| Sections.SectionStore.MergeMetadata | src/lib/state/state.svelte.ts:174-192 | every file of every section is merged in place (corrected, see ## Findings) |
| Sections.SectionStore.GetFilePathsInFolder | src/lib/state/state.svelte.ts:137-205 | the store becomes the specified fetched state (corrected, see ## Findings) |
| Sections.LookupAsWrittenSpec | src/lib/state/state.svelte.ts:178 | the lookup as written succeeds exactly when no fetch failed and some entry has the path, and then agrees with the corrected one |
| Sections.MergeFilesAsWrittenAgrees | src/lib/state/state.svelte.ts:179-186 | where the merge as written finishes, each file differs from the corrected merge only in its bit depth |
| Sections.MergeFilesAsWrittenFinishes | src/lib/state/state.svelte.ts:177-187 | the merge of a section as written finishes exactly when every file's lookup succeeds |
| Sections.MergeAsWrittenFinishes | src/lib/state/state.svelte.ts:176-188 | the whole merge as written finishes exactly when every file of every section has an entry and no fetch failed |
| Sections.MergeAsWrittenThrowsOnOtherSection | src/lib/state/state.svelte.ts:176-188 | a file in another section that the fetch did not return makes the merge as written throw; the corrected merge leaves that section alone |
| Sections.MergeFileAsWrittenBitDepth | src/lib/state/state.svelte.ts:185 | as written, a 2.5 s file of 16 bits (duration 2500 ms) shows a bit depth of 2500; corrected, 16 |
| Sections.FetchedAsWrittenSpec | src/lib/state/state.svelte.ts:137-205 | as written, a successful listing keeps the listed paths; when the merge finishes the metadata list is recorded, and when it throws the catch appends an "io" error with the thrown message and the section's metadata list stays as it was |
| Sections.FetchedAsWrittenRecordsThrow | src/lib/state/state.svelte.ts:137-205 | fetching one section while another lists a file the fetch did not return: as written the fetched section gets an "io" error and no metadata; corrected it gets the metadata, no error, and its file annotated |
| Sections.LookupAsWritten | src/lib/state/state.svelte.ts:178 | defines the lookup as written (a failed fetch throws); stated by Sections.LookupAsWrittenSpec |
| Sections.MergeFileAsWritten | src/lib/state/state.svelte.ts:179-186 | defines the annotation as written (bit depth from the duration); stated by Sections.MergeFileAsWrittenBitDepth and MergeFilesAsWrittenAgrees |
| Sections.MergeFilesAsWritten | src/lib/state/state.svelte.ts:177-187 | the files of a section annotated as written until a lookup throws keep their number, paths and colours; stated further by Sections.MergeFilesAsWrittenFinishes |
| Sections.MergeAsWritten | src/lib/state/state.svelte.ts:176-188 | the merge as written keeps the number of sections, every section's other fields, its number of files and their paths; stated further by Sections.MergeAsWrittenFinishes |
| Sections.FetchedAsWritten | src/lib/state/state.svelte.ts:137-205 | defines `get_file_paths_in_folder` as written, catch path included; stated by Sections.FetchedAsWrittenSpec |

## Left out

- **Decoding (`get_samples`) and file metadata (`metadata.rs`).** What the decoder
  yields for each path is a parameter, and so are the metadata entries.
- **Bytes of the output files.** RIFF/WAVE written by hound and MPEG-1 Layer III
  written by LAME are represented as `Media.Encoded`: the stream description and
  the integer samples handed to the writer. The LAME configuration failures come
  in as one optional error text. A file that was created and then could not be
  finished is `Media.Unfinished`; its partial bytes are not modelled. How the file
  system answers a write is a parameter (`Media.WriteOutcome`); the text of hound's
  `UnfinishedSample` error is the `Display` text of that library, which is not
  part of this model.
- **Playback.** This covers `timeline_playback.rs`, `sample_playback.rs`, the
  `play_*`/`pause_*` commands and the playback sink and flag of `AppState`. They
  need an audio device and threads.
- **Threads, locks and atomics.**
  - The spawned combine thread is run to completion.
  - A `cancel_combine` running beside it is visible only through the flag reads,
    given as a list of booleans.
  - Poisoned locks are not modelled.
- **Events, channels and the DOM.**
  - Tauri `emit` and `Channel.send` are returned as lists of events or values. The
    `buffering-progress` event of `clear_audio_files` is not modelled.
  - The `started`, `progress` and `finished` handlers that `updateInputs` attaches
    to its channel are not modelled: they are event wiring into the UI store (the
    `progress` one also reads the drawn waveform from the DOM). The payload
    `updateInputs` sends is modelled (`Performance.SectionSends`).
- **Floating-point presentation.**
  - The `{:.1}` coordinates and y-scaling of the SVG path: a column is `(x, min,
    max)`.
  - `f32`/`f64` rounding of progress, durations and offsets: the model uses exact
    reals.
  - The non-zero case of `formatBytes` (logarithms and `toFixed`): the model
    returns no result for it.
  - `formatMilliseconds`, `formatPercent` and `toSource`.
- **Non-finite numbers.** Samples and coordinates are exact reals, so NaN and
  ±infinity never reach `Encoder.WavSample`, `Encoder.Mp3Level` or
  `DragDrop.IsPointInRect`. In the source a NaN sample converts to 0 and a NaN
  coordinate lies in no box.
- **Text.IntToString:** every integer is rendered in plain decimal, while
  JavaScript writes integers of magnitude 10^21 and above in exponent notation.
  The colour channels it renders are far below that.
- **Colors.ToCssRgb:** the alpha is an integer. A fractional opacity would need
  JavaScript's number-to-string conversion.
- **Text.AsciiLower:** lower-cases only A-Z, where Rust's `to_lowercase`
  lower-cases every letter. For the nine all-ASCII audio extensions this decides
  the same names, because no non-ASCII character lower-cases into any of their
  letters.
- **Commands.DirEntry:** a name that is not valid Unicode is given with its
  undecodable bytes replaced, and the model assumes those bytes lie outside the
  extension.
- **The front end's call to `get_file_paths_in_folder`.**
  - It passes `folderPath` and expects a list, while the back-end command takes
    `folder_paths` and returns a map.
  - Each side is modelled on its own. The front end's outcome is given as the
    returned paths or the rejection message (`Sections.Listing`).
- **Asynchronous follow-up calls.** The fetch that `addSection` and `updatePath`
  start is a separate call in the model (`SectionStore.GetFilePathsInFolder`).
  The metadata fetches happen in parallel, and each one's outcome is a parameter.
- **Persistence.** The stores persist to local storage (`svelte-persisted-store`);
  this is not modelled.
- **Trivial or I/O-only commands.** `greet`, `get_songs`, `play_song` and the
  application builder are not modelled.

## Findings

| source | as written | input that shows it | evidently intended | confidence | as-written member | corrected member |
|---|---|---|---|---|---|---|
| src/lib/state/state.svelte.ts:137-205 | the metadata merge walks the files of every section. It reads `meta.bitRate` from the first fetched entry with the file's path, and it filters on `m.path` of every entry; the `catch` turns the throw into an "io" error | listing section A while section B holds a file the fetch did not return: `meta` is `undefined` for B's file and the update throws a `TypeError`, so A gets an "io" error and its metadata list is never recorded. A failed (`null`) fetch throws the same way | annotate the files that have fetched metadata, leave the rest unchanged and record the metadata list | high (not executed) | Sections.FetchedAsWrittenRecordsThrow | Sections.FetchedListed |
| src/lib/state/state.svelte.ts:185 | `bitDepth: meta.duration` | a 2.5 s file of 16 bits (duration 2500 ms) shows a bit depth of 2500 | `bitDepth: meta.bitDepth` | high (not executed) | Sections.MergeFileAsWrittenBitDepth | Sections.MergeFileSpec |

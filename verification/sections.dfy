/** The front end's section list: each section is a folder whose audio files are listed,
    coloured and annotated with metadata (src/lib/state/state.svelte.ts). */
module Sections {
  import opened Wrappers
  import Colors

  datatype ErrorTag = Io | Utf8

  /** `ErrorKind`: an error shown under a section. */
  datatype ErrorKind = ErrorKind(kind: ErrorTag, message: string)

  /** `AudioFileItem`: a listed file, with the metadata fields filled in once fetched.
      Numbers are JavaScript numbers; an absent field is None. */
  datatype AudioFileItem = AudioFileItem(path: string, color: Colors.AbletonColor,
                                         size: Option<real>, bitRate: Option<real>,
                                         channels: Option<real>, bitDepth: Option<real>,
                                         duration: Option<real>)

  /** `FileMetadata`, as the `get_metadata` command returns it; `duration` is a whole
      number of milliseconds. */
  datatype FileMetadata = FileMetadata(path: string, size: Option<real>, bitRate: Option<real>,
                                       channels: Option<real>, bitDepth: Option<real>,
                                       duration: real)

  /** `Section`. Its `metaData` is the list of fetched metadata, one entry per listed file,
      where None stands for a file whose fetch failed (`null`). */
  datatype Section = Section(folderPath: string, files: seq<AudioFileItem>, errors: seq<ErrorKind>,
                             metaData: seq<Option<FileMetadata>>, color: Colors.AbletonColor)

  /** `DEFAULT_FOLDER`, the folder a new section starts with. */
  const DefaultFolder: string := "C:\\Users\\Primary User\\Desktop\\AUDIO\\FREESOUNDS\\_time-leeuwarden"

  function SectionColors(ss: seq<Section>): (r: seq<Colors.AbletonColor>)
    ensures |r| == |ss| && forall i :: 0 <= i < |ss| ==> r[i] == ss[i].color
  {
    seq(|ss|, i requires 0 <= i < |ss| => ss[i].color)
  }

  /** The section `addSection` puts in front. */
  function NewSection(color: Colors.AbletonColor): Section {
    Section(DefaultFolder, [], [], [], color)
  }

  /** Where `splice(index, 1)` starts: a negative index counts back from the end and is
      clamped at 0, a large one is clamped at the length. */
  function SpliceStart(len: nat, index: int): nat {
    if index < 0 then (if len + index < 0 then 0 else len + index)
    else if index > len then len else index
  }

  /** The list after `splice(index, 1)`. */
  function Spliced<T>(s: seq<T>, index: int): seq<T> {
    var k := SpliceStart(|s|, index);
    if k < |s| then s[..k] + s[k + 1..] else s
  }

  /** Deleting at a valid index removes exactly that element and keeps the others in
      order; an index at or past the end removes nothing; a negative index `-n` removes
      the `n`-th element from the end, and the first one once `n` exceeds the length. */
  lemma SplicedSpec<T>(s: seq<T>, index: int)
    ensures 0 <= index < |s| ==>
      |Spliced(s, index)| == |s| - 1
      && (forall j :: 0 <= j < index ==> Spliced(s, index)[j] == s[j])
      && (forall j :: index <= j < |s| - 1 ==> Spliced(s, index)[j] == s[j + 1])
    ensures index >= |s| ==> Spliced(s, index) == s
    ensures -|s| <= index < 0 ==> Spliced(s, index) == Spliced(s, |s| + index)
    ensures index < -|s| && s != [] ==> Spliced(s, index) == s[1..]
  {
  }

  /** The multiset view: a delete at a valid index removes one copy of that element. */
  lemma SplicedRemovesOne<T>(s: seq<T>, index: int)
    requires 0 <= index < |s|
    ensures multiset(Spliced(s, index)) == multiset(s) - multiset{s[index]}
  {
    assert s == s[..index] + [s[index]] + s[index + 1..];
  }

  /** The section after a successful listing: one item per returned path in the
      section's colour, and only the `io` errors kept. */
  function WithListing(s: Section, paths: seq<string>): (r: Section)
    ensures r.folderPath == s.folderPath && r.color == s.color && r.metaData == s.metaData
    ensures |r.files| == |paths|
    ensures forall j :: 0 <= j < |paths| ==>
      r.files[j] == AudioFileItem(paths[j], s.color, None, None, None, None, None)
  {
    s.(files := seq(|paths|, j requires 0 <= j < |paths| => AudioFileItem(paths[j], s.color, None, None, None, None, None)),
       errors := IoErrors(s.errors))
  }

  /** `errors.filter(e => e.kind === "io")`. */
  function IoErrors(es: seq<ErrorKind>): seq<ErrorKind> {
    if es == [] then []
    else IoErrors(es[..|es| - 1]) + (if es[|es| - 1].kind == Io then [es[|es| - 1]] else [])
  }

  /** The filter keeps exactly the `io` errors, in order. */
  lemma IoErrorsSpec(es: seq<ErrorKind>)
    ensures forall e :: e in IoErrors(es) <==> e in es && e.kind == Io
    ensures |IoErrors(es)| <= |es|
    ensures (forall k :: 0 <= k < |es| ==> es[k].kind == Io) ==> IoErrors(es) == es
  {
    IoErrorsMembers(es);
    if forall k :: 0 <= k < |es| ==> es[k].kind == Io {
      IoErrorsKeepsAll(es);
    }
  }

  lemma {:induction false} IoErrorsMembers(es: seq<ErrorKind>)
    ensures forall e :: e in IoErrors(es) <==> e in es && e.kind == Io
    ensures |IoErrors(es)| <= |es|
  {
    if es != [] {
      var init := es[..|es| - 1];
      var x := es[|es| - 1];
      IoErrorsMembers(init);
      assert es == init + [x];
      assert IoErrors(es) == IoErrors(init) + (if x.kind == Io then [x] else []);
    }
  }

  lemma {:induction false} IoErrorsKeepsAll(es: seq<ErrorKind>)
    requires forall k :: 0 <= k < |es| ==> es[k].kind == Io
    ensures IoErrors(es) == es
  {
    if es != [] {
      var init := es[..|es| - 1];
      assert forall k :: 0 <= k < |init| ==> init[k] == es[k];
      IoErrorsKeepsAll(init);
      assert es == init + [es[|es| - 1]];
    }
  }

  /** The message a failed listing records: the error's message, or "Unknown error"
      when it has none or an empty one. */
  function FailureMessage(message: Option<string>): (m: string)
    ensures m != ""
    ensures message.Some? && message.value != "" ==> m == message.value
    ensures message.None? || message.value == "" ==> m == "Unknown error"
  {
    if message.Some? && message.value != "" then message.value else "Unknown error"
  }

  /** The section after a failed listing: one more `io` error at the end. */
  function WithFailure(s: Section, message: Option<string>): (r: Section)
    ensures r.folderPath == s.folderPath && r.files == s.files && r.metaData == s.metaData && r.color == s.color
    ensures |r.errors| == |s.errors| + 1 && r.errors[..|s.errors|] == s.errors
    ensures r.errors[|s.errors|] == ErrorKind(Io, FailureMessage(message))
  {
    s.(errors := s.errors + [ErrorKind(Io, FailureMessage(message))])
  }

  /** The first fetched metadata entry for `path`, skipping failed (None) entries. */
  function Lookup(list: seq<Option<FileMetadata>>, path: string): (r: Option<FileMetadata>)
    ensures r.Some? ==> r.value.path == path && Some(r.value) in list
    ensures r.Some? ==> exists k :: 0 <= k < |list| && list[k] == r && NoEntryBefore(list, k, path)
    ensures r.None? ==> forall k :: 0 <= k < |list| && list[k].Some? ==> list[k].value.path != path
  {
    if list == [] then None
    else if list[0].Some? && list[0].value.path == path then
      assert list[0] == list[0] && NoEntryBefore(list, 0, path);
      list[0]
    else
      var r := Lookup(list[1..], path);
      assert forall k :: 1 <= k < |list| ==> list[k] == list[1..][k - 1];
      if r.Some? then
        var k :| 0 <= k < |list[1..]| && list[1..][k] == r && NoEntryBefore(list[1..], k, path);
        assert list[k + 1] == r && NoEntryBefore(list, k + 1, path);
        r
      else r
  }

  /** No entry before position `k` was fetched for `path`. */
  predicate NoEntryBefore(list: seq<Option<FileMetadata>>, k: int, path: string)
    requires 0 <= k <= |list|
  {
    forall j :: 0 <= j < k ==> list[j].None? || list[j].value.path != path
  }

  /** A file annotated with the metadata fetched for its path; a file without any is
      left as it is. */
  function MergeFile(f: AudioFileItem, list: seq<Option<FileMetadata>>): AudioFileItem {
    match Lookup(list, f.path)
    case None => f
    case Some(m) =>
      f.(bitRate := m.bitRate, size := m.size, channels := m.channels,
         duration := Some(m.duration), bitDepth := m.bitDepth)
  }

  /** A merged file keeps its path and colour; it carries the four metadata fields and
      the bit depth of the entry fetched for its path, and is unchanged when there is
      none. */
  lemma MergeFileSpec(f: AudioFileItem, list: seq<Option<FileMetadata>>)
    ensures MergeFile(f, list).path == f.path && MergeFile(f, list).color == f.color
    ensures Lookup(list, f.path).None? ==> MergeFile(f, list) == f
    ensures Lookup(list, f.path).Some? ==>
      var m := Lookup(list, f.path).value;
      && m.path == f.path && Some(m) in list
      && MergeFile(f, list).bitRate == m.bitRate && MergeFile(f, list).size == m.size
      && MergeFile(f, list).channels == m.channels && MergeFile(f, list).bitDepth == m.bitDepth
      && MergeFile(f, list).duration == Some(m.duration)
  {
  }

  function MergeSection(s: Section, list: seq<Option<FileMetadata>>): (r: Section)
    ensures r.folderPath == s.folderPath && r.errors == s.errors && r.metaData == s.metaData
    ensures r.color == s.color && |r.files| == |s.files|
    ensures forall j :: 0 <= j < |s.files| ==> r.files[j] == MergeFile(s.files[j], list)
  {
    s.(files := seq(|s.files|, j requires 0 <= j < |s.files| => MergeFile(s.files[j], list)))
  }

  /** The metadata merge applied to every section, not just the one that was fetched. */
  function Merged(ss: seq<Section>, list: seq<Option<FileMetadata>>): (r: seq<Section>)
    ensures |r| == |ss| && forall i :: 0 <= i < |ss| ==> r[i] == MergeSection(ss[i], list)
  {
    seq(|ss|, i requires 0 <= i < |ss| => MergeSection(ss[i], list))
  }

  /** What `get_file_paths_in_folder(index)` leaves behind, given what the listing
      command and the metadata fetches returned. */
  function Fetched(ss: seq<Section>, index: int, listing: Listing, list: seq<Option<FileMetadata>>): seq<Section> {
    if !(0 <= index < |ss|) || ss[index].folderPath == "" then ss
    else match listing
      case Listed(paths) =>
        var merged := Merged(ss[index := WithListing(ss[index], paths)], list);
        merged[index := merged[index].(metaData := list)]
      case ListingFailed(message) =>
        ss[index := WithFailure(ss[index], message)]
  }

  /** The outcome of the `get_file_paths_in_folder` command: the paths it returned, or
      the message of the error it was rejected with, if any. */
  datatype Listing = Listed(paths: seq<string>) | ListingFailed(message: Option<string>)

  /** After a successful listing the fetched section holds one file per returned path,
      in order and in its colour, keeps only its `io` errors and records the fetched
      metadata; every section keeps its folder, colour and file paths, and the others
      keep their errors and metadata lists. */
  lemma FetchedListed(ss: seq<Section>, index: int, paths: seq<string>, list: seq<Option<FileMetadata>>)
    requires 0 <= index < |ss| && ss[index].folderPath != ""
    ensures var r := Fetched(ss, index, Listed(paths), list);
      && |r| == |ss|
      && |r[index].files| == |paths|
      && (forall j :: 0 <= j < |paths| ==>
            r[index].files[j].path == paths[j] && r[index].files[j].color == ss[index].color
            && r[index].files[j] == MergeFile(AudioFileItem(paths[j], ss[index].color, None, None, None, None, None), list))
      && r[index].errors == IoErrors(ss[index].errors) && r[index].metaData == list
      && (forall i :: 0 <= i < |ss| ==> r[i].folderPath == ss[i].folderPath && r[i].color == ss[i].color)
      && (forall i :: 0 <= i < |ss| && i != index ==>
            r[i].errors == ss[i].errors && r[i].metaData == ss[i].metaData && |r[i].files| == |ss[i].files|
            && forall j :: 0 <= j < |ss[i].files| ==> r[i].files[j] == MergeFile(ss[i].files[j], list))
  {
    var listed := ss[index := WithListing(ss[index], paths)];
    forall j | 0 <= j < |paths|
      ensures Merged(listed, list)[index].files[j].path == paths[j]
      ensures Merged(listed, list)[index].files[j].color == ss[index].color
    {
      MergeFileSpec(listed[index].files[j], list);
    }
  }

  /** A failed listing only appends one `io` error to the fetched section; a missing
      section or an empty folder path changes nothing. */
  lemma FetchedFailedOrSkipped(ss: seq<Section>, index: int, listing: Listing, list: seq<Option<FileMetadata>>)
    ensures !(0 <= index < |ss|) || (0 <= index < |ss| && ss[index].folderPath == "") ==>
      Fetched(ss, index, listing, list) == ss
    ensures 0 <= index < |ss| && ss[index].folderPath != "" && listing.ListingFailed? ==>
      var r := Fetched(ss, index, listing, list);
      && |r| == |ss| && (forall i :: 0 <= i < |ss| && i != index ==> r[i] == ss[i])
      && r[index].errors == ss[index].errors + [ErrorKind(Io, FailureMessage(listing.message))]
      && r[index].files == ss[index].files && r[index].folderPath == ss[index].folderPath
  {
  }

  /** `getAllFiles`: every section's files, section after section. */
  function GetAllFiles(ss: seq<Section>): seq<AudioFileItem> {
    if ss == [] then [] else GetAllFiles(ss[..|ss| - 1]) + ss[|ss| - 1].files
  }

  function TotalFiles(ss: seq<Section>): nat {
    if ss == [] then 0 else TotalFiles(ss[..|ss| - 1]) + |ss[|ss| - 1].files|
  }

  /** The flattened list is as long as all the sections' lists together, and holds a
      file exactly when some section does. */
  lemma GetAllFilesSpec(ss: seq<Section>)
    ensures |GetAllFiles(ss)| == TotalFiles(ss)
    ensures forall f :: f in GetAllFiles(ss) <==> exists i :: 0 <= i < |ss| && f in ss[i].files
  {
    GetAllFilesLength(ss);
    GetAllFilesMembers(ss);
  }

  lemma {:induction false} GetAllFilesLength(ss: seq<Section>)
    ensures |GetAllFiles(ss)| == TotalFiles(ss)
  {
    if ss != [] {
      GetAllFilesLength(ss[..|ss| - 1]);
    }
  }

  lemma {:induction false} GetAllFilesMembers(ss: seq<Section>)
    ensures forall f :: f in GetAllFiles(ss) <==> exists i :: 0 <= i < |ss| && f in ss[i].files
  {
    if ss != [] {
      var p := ss[..|ss| - 1];
      var last := ss[|ss| - 1];
      GetAllFilesMembers(p);
      assert GetAllFiles(ss) == GetAllFiles(p) + last.files;
      forall f | f in GetAllFiles(ss) ensures exists i :: 0 <= i < |ss| && f in ss[i].files {
        if f in GetAllFiles(p) {
          var i :| 0 <= i < |p| && f in p[i].files;
          assert ss[i] == p[i];
        } else {
          assert f in ss[|ss| - 1].files;
        }
      }
      forall f | exists i :: 0 <= i < |ss| && f in ss[i].files ensures f in GetAllFiles(ss) {
        var i :| 0 <= i < |ss| && f in ss[i].files;
        if i < |ss| - 1 {
          assert ss[i] == p[i];
        }
      }
    }
  }

  /** `getAllFiles` in front: the first section's files come first. */
  lemma {:induction false} GetAllFilesCons(s: Section, ss: seq<Section>)
    ensures GetAllFiles([s] + ss) == s.files + GetAllFiles(ss)
    decreases |ss|
  {
    if ss == [] {
      assert [s] + ss == [s];
      assert GetAllFiles([s]) == GetAllFiles([]) + s.files;
    } else {
      var n := [s] + ss;
      assert n[..|n| - 1] == [s] + ss[..|ss| - 1];
      GetAllFilesCons(s, ss[..|ss| - 1]);
    }
  }

  /** A new section has no files, so adding one leaves `getAllFiles` as it was. */
  lemma AddSectionKeepsFiles(c: Colors.AbletonColor, ss: seq<Section>)
    ensures GetAllFiles([NewSection(c)] + ss) == GetAllFiles(ss)
  {
    GetAllFilesCons(NewSection(c), ss);
  }

  /** The section store of the app state (`appState.sections`). The source updates it
      through `appState.update`, mutating the sections in place. */
  class SectionStore {
    var sections: seq<Section>

    constructor()
      ensures sections == []
    {
      sections := [];
    }

    /** `addSection`: a section for the default folder, in the next free palette colour,
        goes in front of the others. Fetching its files is a separate call here. */
    method AddSection()
      modifies this
      ensures sections == [NewSection(Colors.NextAvailableColor(SectionColors(old(sections))))] + old(sections)
    {
      var color := Colors.GetNextAvailableColor(SectionColors(sections));
      sections := [NewSection(color)] + sections;
    }

    /** `deleteSection`: `splice(index, 1)` on the list. */
    method DeleteSection(index: int)
      modifies this
      ensures sections == Spliced(old(sections), index)
    {
      var k := SpliceStart(|sections|, index);
      if k < |sections| {
        sections := sections[..k] + sections[k + 1..];
      }
    }

    /** `updatePath`: sets the folder path of one section. An index with no section
        makes the update throw, which leaves the store as it was (`ok` is false). */
    method UpdatePath(index: int, value: string) returns (ok: bool)
      modifies this
      ensures ok <==> 0 <= index < |old(sections)|
      ensures ok ==> sections == old(sections)[index := old(sections)[index].(folderPath := value)]
      ensures !ok ==> sections == old(sections)
    {
      if 0 <= index < |sections| {
        sections := sections[index := sections[index].(folderPath := value)];
        ok := true;
      } else {
        ok := false;
      }
    }

    /** The metadata merge: every file of every section is annotated in place. */
    method MergeMetadata(list: seq<Option<FileMetadata>>)
      modifies this
      ensures sections == Merged(old(sections), list)
    {
      var i := 0;
      while i < |sections|
        invariant 0 <= i <= |sections| == |old(sections)|
        invariant forall k :: 0 <= k < i ==> sections[k] == MergeSection(old(sections)[k], list)
        invariant forall k :: i <= k < |sections| ==> sections[k] == old(sections)[k]
      {
        var files := sections[i].files;
        var j := 0;
        while j < |files|
          invariant 0 <= j <= |files| == |sections[i].files|
          invariant forall m :: 0 <= m < j ==> files[m] == MergeFile(sections[i].files[m], list)
          invariant forall m :: j <= m < |files| ==> files[m] == sections[i].files[m]
        {
          files := files[j := MergeFile(files[j], list)];
          j := j + 1;
        }
        sections := sections[i := sections[i].(files := files)];
        i := i + 1;
      }
    }

    /** `get_file_paths_in_folder(index)`: lists the section's folder, then merges the
        metadata fetched for the listed files; a failed listing is recorded as an error
        of the section. */
    method GetFilePathsInFolder(index: int, listing: Listing, list: seq<Option<FileMetadata>>)
      modifies this
      ensures sections == Fetched(old(sections), index, listing, list)
    {
      if !(0 <= index < |sections|) || sections[index].folderPath == "" {
        return;
      }
      match listing {
        case Listed(paths) =>
          sections := sections[index := WithListing(sections[index], paths)];
          MergeMetadata(list);
          sections := sections[index := sections[index].(metaData := list)];
        case ListingFailed(message) =>
          sections := sections[index := WithFailure(sections[index], message)];
      }
    }
  }

  /** The merge as written: the metadata entry of a file is looked up with a filter that
      reads `path` of every entry, so a failed (`null`) entry throws a `TypeError`; a file
      with no entry throws one when its `bitRate` is read. None stands for the throw. */
  function LookupAsWritten(list: seq<Option<FileMetadata>>, path: string): Option<FileMetadata> {
    if exists k :: 0 <= k < |list| && list[k].None? then None else Lookup(list, path)
  }

  /** The annotation as written: `bitDepth` is copied from the entry's `duration`. */
  function MergeFileAsWritten(f: AudioFileItem, m: FileMetadata): AudioFileItem {
    f.(bitRate := m.bitRate, size := m.size, channels := m.channels,
       duration := Some(m.duration), bitDepth := Some(m.duration))
  }

  /** The files of one section annotated in order until a lookup throws; the files from
      there on are left as they were, and the flag says whether the walk finished. */
  function MergeFilesAsWritten(files: seq<AudioFileItem>, list: seq<Option<FileMetadata>>): (r: (seq<AudioFileItem>, bool))
    ensures |r.0| == |files|
    ensures forall j :: 0 <= j < |files| ==> r.0[j].path == files[j].path && r.0[j].color == files[j].color
  {
    if files == [] then ([], true)
    else match LookupAsWritten(list, files[0].path)
      case None => (files, false)
      case Some(m) =>
        var rest := MergeFilesAsWritten(files[1..], list);
        ([MergeFileAsWritten(files[0], m)] + rest.0, rest.1)
  }

  /** The merge over all sections as written: it stops at the first throw, leaving the
      files already annotated changed and the rest untouched. */
  function MergeAsWritten(ss: seq<Section>, list: seq<Option<FileMetadata>>): (r: (seq<Section>, bool))
    ensures |r.0| == |ss|
    ensures forall i :: 0 <= i < |ss| ==> r.0[i] == ss[i].(files := r.0[i].files) && |r.0[i].files| == |ss[i].files|
    ensures forall i, j :: 0 <= i < |ss| && 0 <= j < |ss[i].files| ==> r.0[i].files[j].path == ss[i].files[j].path
  {
    if ss == [] then ([], true)
    else
      var here := MergeFilesAsWritten(ss[0].files, list);
      if !here.1 then ([ss[0].(files := here.0)] + ss[1..], false)
      else
        var rest := MergeAsWritten(ss[1..], list);
        ([ss[0].(files := here.0)] + rest.0, rest.1)
  }

  /** `get_file_paths_in_folder` as written: when the merge throws, the `catch` appends
      an `io` error carrying the thrown message (`thrown`, supplied by the JavaScript
      engine) and the metadata list is never recorded; the listed files and the
      annotations made before the throw stay. */
  function FetchedAsWritten(ss: seq<Section>, index: int, listing: Listing, list: seq<Option<FileMetadata>>, thrown: string): seq<Section> {
    if !(0 <= index < |ss|) || ss[index].folderPath == "" then ss
    else match listing
      case Listed(paths) =>
        var merged := MergeAsWritten(ss[index := WithListing(ss[index], paths)], list);
        if merged.1 then merged.0[index := merged.0[index].(metaData := list)]
        else merged.0[index := WithFailure(merged.0[index], Some(thrown))]
      case ListingFailed(message) =>
        ss[index := WithFailure(ss[index], message)]
  }

  /** After a successful listing, the fetch as written keeps the listed paths in the
      fetched section; when the merge finishes it records the metadata list, and when it
      throws it records an `io` error with the thrown message instead and leaves the
      section's metadata list as it was. */
  lemma FetchedAsWrittenSpec(ss: seq<Section>, index: int, paths: seq<string>, list: seq<Option<FileMetadata>>, thrown: string)
    requires 0 <= index < |ss| && ss[index].folderPath != ""
    ensures var listed := ss[index := WithListing(ss[index], paths)];
      var r := FetchedAsWritten(ss, index, Listed(paths), list, thrown);
      && |r| == |ss| && |r[index].files| == |paths|
      && (forall j :: 0 <= j < |paths| ==> r[index].files[j].path == paths[j])
      && (MergeAsWritten(listed, list).1 ==>
            r[index].errors == IoErrors(ss[index].errors) && r[index].metaData == list)
      && (!MergeAsWritten(listed, list).1 ==>
            r[index].errors == IoErrors(ss[index].errors) + [ErrorKind(Io, FailureMessage(Some(thrown)))]
            && r[index].metaData == ss[index].metaData)
  {
    var listed := ss[index := WithListing(ss[index], paths)];
    forall j | 0 <= j < |paths|
      ensures MergeAsWritten(listed, list).0[index].files[j].path == paths[j]
    {
      assert listed[index].files[j].path == paths[j];
    }
  }

  /** Where the merge as written finishes, each file differs from the corrected merge
      only in its bit depth, which holds the duration instead. */
  lemma {:induction false} MergeFilesAsWrittenAgrees(files: seq<AudioFileItem>, list: seq<Option<FileMetadata>>)
    requires MergeFilesAsWritten(files, list).1
    ensures |MergeFilesAsWritten(files, list).0| == |files|
    ensures forall j :: 0 <= j < |files| ==>
      MergeFilesAsWritten(files, list).0[j] == MergeFile(files[j], list).(bitDepth := MergeFile(files[j], list).duration)
  {
    if files != [] {
      var r := MergeFilesAsWritten(files, list);
      var rest := MergeFilesAsWritten(files[1..], list);
      MergeFilesAsWrittenAgrees(files[1..], list);
      forall j | 0 <= j < |files|
        ensures r.0[j] == MergeFile(files[j], list).(bitDepth := MergeFile(files[j], list).duration)
      {
        if j > 0 {
          assert r.0[j] == rest.0[j - 1];
          assert files[1..][j - 1] == files[j];
        }
      }
    }
  }

  /** The merge as written finishes exactly when every file of every section has an
      entry and no fetch failed, unless there are no files at all. */
  lemma {:induction false} MergeFilesAsWrittenFinishes(files: seq<AudioFileItem>, list: seq<Option<FileMetadata>>)
    ensures MergeFilesAsWritten(files, list).1 <==>
      forall j :: 0 <= j < |files| ==> LookupAsWritten(list, files[j].path).Some?
  {
    if files != [] {
      MergeFilesAsWrittenFinishes(files[1..], list);
      assert forall j :: 1 <= j < |files| ==> files[j] == files[1..][j - 1];
    }
  }

  lemma {:induction false} MergeAsWrittenFinishes(ss: seq<Section>, list: seq<Option<FileMetadata>>)
    ensures MergeAsWritten(ss, list).1 <==>
      forall i, j :: 0 <= i < |ss| && 0 <= j < |ss[i].files| ==> LookupAsWritten(list, ss[i].files[j].path).Some?
  {
    if ss != [] {
      MergeFilesAsWrittenFinishes(ss[0].files, list);
      MergeAsWrittenFinishes(ss[1..], list);
      assert forall i :: 1 <= i < |ss| ==> ss[i] == ss[1..][i - 1];
    }
  }

  /** A lookup as written succeeds exactly when no fetch failed and some entry has the
      path, and then it finds what the corrected lookup finds. */
  lemma LookupAsWrittenSpec(list: seq<Option<FileMetadata>>, path: string)
    ensures LookupAsWritten(list, path).Some? <==>
      (forall k :: 0 <= k < |list| ==> list[k].Some?)
      && exists k :: 0 <= k < |list| && list[k].Some? && list[k].value.path == path
    ensures LookupAsWritten(list, path).Some? ==> LookupAsWritten(list, path) == Lookup(list, path)
  {
    if (forall k :: 0 <= k < |list| ==> list[k].Some?) && Lookup(list, path).Some? {
      var m := Lookup(list, path).value;
      var k :| 0 <= k < |list| && list[k] == Some(m);
      assert list[k].value.path == path;
    }
  }

  /** Fetching one section while another section lists a file the fetch did not return:
      the merge as written throws, whereas the corrected merge annotates the fetched file
      and leaves the other section alone. */
  lemma MergeAsWrittenThrowsOnOtherSection()
    ensures var red := Colors.Palette[0];
      var one := AudioFileItem("A\\one.wav", red, None, None, None, None, None);
      var two := AudioFileItem("B\\two.wav", red, None, None, None, None, None);
      var ss := [Section("A", [one], [], [], red), Section("B", [two], [], [], red)];
      var list := [Some(FileMetadata("A\\one.wav", None, None, None, Some(16.0), 2500.0))];
      && !MergeAsWritten(ss, list).1
      && Merged(ss, list)[1] == ss[1]
      && Merged(ss, list)[0].files[0].duration == Some(2500.0)
  {
    var red := Colors.Palette[0];
    var one := AudioFileItem("A\\one.wav", red, None, None, None, None, None);
    var two := AudioFileItem("B\\two.wav", red, None, None, None, None, None);
    var ss := [Section("A", [one], [], [], red), Section("B", [two], [], [], red)];
    var m := FileMetadata("A\\one.wav", None, None, None, Some(16.0), 2500.0);
    var list := [Some(m)];
    assert Lookup(list, one.path) == Some(m);
    assert "B\\two.wav"[0] != "A\\one.wav"[0];
    assert Lookup(list, two.path) == None by {
      assert Lookup(list[1..], two.path) == None;
    }
    MergeAsWrittenFinishes(ss, list);
    LookupAsWrittenSpec(list, two.path);
    assert ss[1].files[0] == two;
    assert !LookupAsWritten(list, ss[1].files[0].path).Some?;
  }

  /** Fetching section A while section B lists a file the fetch did not return: as
      written, the catch records the thrown message as an `io` error on A and A's
      metadata list stays empty; the corrected fetch records the metadata, adds no
      error and annotates A's file. */
  lemma FetchedAsWrittenRecordsThrow()
    ensures var red := Colors.Palette[0];
      var two := AudioFileItem("B\\two.wav", red, None, None, None, None, None);
      var ss := [Section("A", [], [], [], red), Section("B", [two], [], [], red)];
      var list := [Some(FileMetadata("A\\one.wav", None, None, None, Some(16.0), 2500.0))];
      var asWritten := FetchedAsWritten(ss, 0, Listed(["A\\one.wav"]), list, "thrown");
      var corrected := Fetched(ss, 0, Listed(["A\\one.wav"]), list);
      && asWritten[0].errors == [ErrorKind(Io, "thrown")] && asWritten[0].metaData == []
      && corrected[0].errors == [] && corrected[0].metaData == list
      && corrected[0].files[0].duration == Some(2500.0)
  {
    var red := Colors.Palette[0];
    var two := AudioFileItem("B\\two.wav", red, None, None, None, None, None);
    var ss := [Section("A", [], [], [], red), Section("B", [two], [], [], red)];
    var m := FileMetadata("A\\one.wav", None, None, None, Some(16.0), 2500.0);
    var list := [Some(m)];
    var paths := ["A\\one.wav"];
    var listed := ss[0 := WithListing(ss[0], paths)];
    assert IoErrors([]) == [];
    assert "B\\two.wav"[0] != "A\\one.wav"[0];
    assert Lookup(list, two.path) == None by {
      assert Lookup(list[1..], two.path) == None;
    }
    LookupAsWrittenSpec(list, two.path);
    MergeAsWrittenFinishes(listed, list);
    assert listed[1].files[0] == two;
    assert !MergeAsWritten(listed, list).1;
    FetchedAsWrittenSpec(ss, 0, paths, list, "thrown");
    FetchedListed(ss, 0, paths, list);
    MergeFileSpec(AudioFileItem(paths[0], red, None, None, None, None, None), list);
    assert Lookup(list, paths[0]) == Some(m);
  }

  /** The bit depth as written: a 2.5 s file of 16 bits (duration 2500 ms) is shown
      with a bit depth of 2500; the corrected merge shows 16. */
  lemma MergeFileAsWrittenBitDepth()
    ensures var m := FileMetadata("one.wav", None, None, None, Some(16.0), 2500.0);
      var f := AudioFileItem("one.wav", Colors.Palette[0], None, None, None, None, None);
      && MergeFileAsWritten(f, m).bitDepth == Some(2500.0)
      && MergeFile(f, [Some(m)]).bitDepth == Some(16.0)
  {
    var m := FileMetadata("one.wav", None, None, None, Some(16.0), 2500.0);
    assert Lookup([Some(m)], "one.wav") == Some(m);
  }
}

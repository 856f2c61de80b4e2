/** Two commands of `src-tauri/src/lib.rs`: `get_file_paths_in_folder`, which lists
    the audio files of several folders, and `clear_audio_files`, which empties the
    cache. The file system is not modelled: what `read_dir` yields for each folder
    is a parameter, one listing per requested folder, in request order. */
module Commands {
  import opened Wrappers
  import opened Errors
  import opened AppModel
  import Text

  // ---------------------------------------------------------------------------
  // Names and extensions
  // ---------------------------------------------------------------------------

  /** One directory entry: its file name, whether it is a regular file, and whether
      the name is valid Unicode. A name that is not is given with its undecodable
      bytes replaced, and the model assumes they lie outside the extension. */
  datatype DirEntry = DirEntry(name: string, isFile: bool, unicode: bool)

  /** The extensions kept, lower-case. */
  const AudioExtensions: set<string> := {"mp3", "wav", "flac", "ogg", "m4a", "aac", "aiff", "alac", "aif"}

  /** The position of the last '.' in `s`, if any. */
  function LastDot(s: string): (r: Option<nat>)
    ensures r.Some? ==> r.value < |s| && s[r.value] == '.' && forall j :: r.value < j < |s| ==> s[j] != '.'
    ensures r.None? ==> forall j :: 0 <= j < |s| ==> s[j] != '.'
  {
    if s == [] then None
    else if s[|s| - 1] == '.' then Some(|s| - 1)
    else LastDot(s[..|s| - 1])
  }

  /** `Path::extension` of a file name: the text after the last '.', unless that
      '.' is the first character (a hidden file such as ".wav" has none) or the
      name is "..". */
  function Extension(name: string): Option<string> {
    if name == ".." then None
    else match LastDot(name)
      case None => None
      case Some(i) => if i == 0 then None else Some(name[i + 1..])
  }

  /** The filter of the listing loop: a regular file, not an AppleDouble "._" file,
      with an audio extension in any letter case. The "._" test is skipped when the
      name is not valid Unicode, because the source skips it when `to_str` fails. */
  predicate Kept(e: DirEntry) {
    && e.isFile
    && !(e.unicode && Text.StartsWith(e.name, "._"))
    && Extension(e.name).Some?
    && Text.AsciiLower(Extension(e.name).value) in AudioExtensions
  }

  /** `PathBuf::join` of a folder and an entry name. */
  function Join(folder: string, name: string): string {
    if folder == [] || folder[|folder| - 1] == '/' then folder + name else folder + "/" + name
  }

  lemma {:induction false} LastDotNoneIn(t: string)
    requires forall j :: 0 <= j < |t| ==> t[j] != '.'
    ensures LastDot(t) == None
  {
  }

  /** The last '.' of `p + "." + t`, when `t` has none, is the one after `p`. */
  lemma {:induction false} LastDotSplit(p: string, t: string)
    requires forall j :: 0 <= j < |t| ==> t[j] != '.'
    ensures LastDot(p + "." + t) == Some(|p|)
  {
    if t != [] {
      var s := p + "." + t;
      assert s[..|s| - 1] == p + "." + t[..|t| - 1];
      LastDotSplit(p, t[..|t| - 1]);
    } else {
      assert p + "." + t == p + ".";
    }
  }

  /** "take.WAV": the extension is compared without regard to case. */
  lemma UpperCaseExtensionKept()
    ensures Kept(DirEntry("take.WAV", true, true))
  {
    var n := "take.WAV";
    assert n == "take" + "." + "WAV";
    LastDotSplit("take", "WAV");
    assert n[5..] == "WAV";
    assert Text.AsciiLower("WAV") == "wav";
    assert !Text.StartsWith(n, "._") by { assert n[1] != '_'; }
  }

  /** ".wav": a hidden name has no extension and is not kept. */
  lemma HiddenNameNotKept()
    ensures !Kept(DirEntry(".wav", true, true))
  {
    var n := ".wav";
    assert n == "" + "." + "wav";
    LastDotSplit("", "wav");
  }

  /** "._take.wav": the AppleDouble companion of a file is not kept. */
  lemma AppleDoubleNotKept()
    ensures !Kept(DirEntry("._take.wav", true, true))
  {
    assert "._take.wav"[..2] == "._";
  }

  /** A name with no '.' has no extension and is never kept. */
  lemma NoDotNeverKept(e: DirEntry)
    requires forall j :: 0 <= j < |e.name| ==> e.name[j] != '.'
    ensures !Kept(e)
  {
    assert ".."[0] == '.';
  }

  lemma {:induction false} LastDotLower(s: string)
    ensures LastDot(Text.AsciiLower(s)) == LastDot(s)
  {
    if s != [] {
      var t := Text.AsciiLower(s);
      var p := Text.AsciiLower(s[..|s| - 1]);
      forall j | 0 <= j < |p| ensures t[..|t| - 1][j] == p[j] {
      }
      assert t[..|t| - 1] == p;
      LastDotLower(s[..|s| - 1]);
    }
  }

  lemma {:induction false} AsciiLowerSuffix(s: string, i: nat)
    requires i <= |s|
    ensures Text.AsciiLower(s)[i..] == Text.AsciiLower(s[i..])
  {
    var a := Text.AsciiLower(s)[i..];
    var b := Text.AsciiLower(s[i..]);
    forall j | 0 <= j < |a| ensures a[j] == b[j] {
      calc {
        a[j];
        Text.AsciiLower(s)[i + j];
        Text.LowerChar(s[i + j]);
        { assert s[i..][j] == s[i + j]; }
        Text.LowerChar(s[i..][j]);
        b[j];
      }
    }
  }

  lemma {:induction false} AsciiLowerIdempotent(s: string)
    ensures Text.AsciiLower(Text.AsciiLower(s)) == Text.AsciiLower(s)
  {
    var a := Text.AsciiLower(s);
    var b := Text.AsciiLower(a);
    forall j | 0 <= j < |a| ensures b[j] == a[j] {
    }
  }

  lemma LowerCharFixes(c: char)
    ensures Text.LowerChar(c) == '.' <==> c == '.'
    ensures Text.LowerChar(c) == '_' <==> c == '_'
  {
  }

  /** The extension of the lower-cased name is the lower-cased extension. */
  lemma ExtensionLower(name: string)
    ensures Extension(Text.AsciiLower(name)).Some? == Extension(name).Some?
    ensures Extension(name).Some? ==>
      Extension(Text.AsciiLower(name)).value == Text.AsciiLower(Extension(name).value)
  {
    var low := Text.AsciiLower(name);
    LastDotLower(name);
    if low == ".." || name == ".." {
      LowerCharFixes(name[0]);
      LowerCharFixes(name[1]);
      assert low == ".." && name == "..";
    } else {
      match LastDot(name)
      case None =>
      case Some(i) =>
        if i > 0 {
          AsciiLowerSuffix(name, i + 1);
        }
    }
  }

  lemma StartsWithLower(name: string)
    ensures Text.StartsWith(Text.AsciiLower(name), "._") == Text.StartsWith(name, "._")
  {
    if |name| >= 2 {
      var low := Text.AsciiLower(name);
      LowerCharFixes(name[0]);
      LowerCharFixes(name[1]);
      assert low[..2] == "._" <==> low[0] == '.' && low[1] == '_';
      assert name[..2] == "._" <==> name[0] == '.' && name[1] == '_';
    }
  }

  /** Whether an entry is kept does not depend on the letter case of its name. */
  lemma KeptIgnoresCase(e: DirEntry)
    ensures Kept(e.(name := Text.AsciiLower(e.name))) == Kept(e)
  {
    ExtensionLower(e.name);
    StartsWithLower(e.name);
    if Extension(e.name).Some? {
      AsciiLowerIdempotent(Extension(e.name).value);
    }
  }

  // ---------------------------------------------------------------------------
  // `get_file_paths_in_folder`
  // ---------------------------------------------------------------------------

  /** What listing a folder yields: the `read_dir` error, or the entries, each of
      which may itself be an error. */
  type Listing = Result<seq<Result<DirEntry, string>>, string>

  /** The inner loop over the entries, for the entry filter `keep`: the paths of the
      kept entries in listing order, or the first error. */
  function ListedPaths(folder: string, es: seq<Result<DirEntry, string>>, keep: DirEntry -> bool)
    : Result<seq<string>, Error>
  {
    if es == [] then Success([])
    else match ListedPaths(folder, es[..|es| - 1], keep)
      case Failure(err) => Failure(err)
      case Success(acc) =>
        match es[|es| - 1]
        case Failure(msg) => Failure(Error.Io(msg))
        case Success(e) =>
          if !keep(e) then Success(acc)
          else if !e.unicode then Failure(Error.InvalidPath)
          else Success(acc + [Join(folder, e.name)])
  }

  /** The inner loop of `get_file_paths_in_folder`, which keeps the entries `Kept`
      accepts. */
  function FolderFiles(folder: string, es: seq<Result<DirEntry, string>>): Result<seq<string>, Error> {
    ListedPaths(folder, es, Kept)
  }

  /** The outcome for one folder. */
  function FolderResult(folder: string, listing: Listing): Result<seq<string>, Error> {
    match listing
    case Failure(msg) => Failure(Error.Io(msg))
    case Success(es) => FolderFiles(folder, es)
  }

  /** The outer loop over the first `k` folders: one entry per folder, a later
      listing of the same folder replacing an earlier one, or the first error. */
  function AllPaths(folders: seq<string>, listings: seq<Listing>, k: nat): Result<map<string, seq<string>>, Error>
    requires k <= |folders| == |listings|
  {
    if k == 0 then Success(map[])
    else match AllPaths(folders, listings, k - 1)
      case Failure(err) => Failure(err)
      case Success(acc) =>
        match FolderResult(folders[k - 1], listings[k - 1])
        case Failure(err) => Failure(err)
        case Success(files) => Success(acc[folders[k - 1] := files])
  }

  /** A folder's listing succeeds exactly when no entry is an error and no kept entry
      has a name that is not valid Unicode; then it holds the joined path of every
      kept entry and nothing else. */
  lemma FolderFilesContent(folder: string, es: seq<Result<DirEntry, string>>)
    ensures FolderFiles(folder, es).Success? <==> ListingClean(es, Kept)
    ensures FolderFiles(folder, es).Success? ==>
      (forall p :: p in FolderFiles(folder, es).value ==>
         exists i :: 0 <= i < |es| && Kept(es[i].value) && p == Join(folder, es[i].value.name))
      && (forall i :: 0 <= i < |es| && Kept(es[i].value) ==> Join(folder, es[i].value.name) in FolderFiles(folder, es).value)
  {
    ListedSucceeds(folder, es, Kept);
    if ListingClean(es, Kept) {
      ListedMembers(folder, es, Kept);
    }
  }

  /** No entry is an error and every entry `keep` accepts has a valid Unicode name. */
  predicate ListingClean(es: seq<Result<DirEntry, string>>, keep: DirEntry -> bool) {
    forall i :: 0 <= i < |es| ==> es[i].Success? && (keep(es[i].value) ==> es[i].value.unicode)
  }

  lemma {:induction false} ListedSucceeds(folder: string, es: seq<Result<DirEntry, string>>, keep: DirEntry -> bool)
    ensures ListedPaths(folder, es, keep).Success? <==> ListingClean(es, keep)
  {
    if es != [] {
      var init := es[..|es| - 1];
      ListedSucceeds(folder, init, keep);
      assert forall i :: 0 <= i < |init| ==> init[i] == es[i];
    }
  }

  lemma {:induction false} ListedMembers(folder: string, es: seq<Result<DirEntry, string>>, keep: DirEntry -> bool)
    requires ListingClean(es, keep)
    ensures ListedPaths(folder, es, keep).Success?
    ensures forall p :: p in ListedPaths(folder, es, keep).value ==>
      exists i :: 0 <= i < |es| && keep(es[i].value) && p == Join(folder, es[i].value.name)
    ensures forall i :: 0 <= i < |es| && keep(es[i].value) ==>
      Join(folder, es[i].value.name) in ListedPaths(folder, es, keep).value
  {
    ListedSucceeds(folder, es, keep);
    if es != [] {
      var n := |es| - 1;
      var init := es[..n];
      assert forall i :: 0 <= i < n ==> init[i] == es[i];
      ListedMembers(folder, init, keep);
      var acc := ListedPaths(folder, init, keep).value;
      var last := es[n].value;
      var r := ListedPaths(folder, es, keep).value;
      assert r == if keep(last) then acc + [Join(folder, last.name)] else acc;
      forall p | p in r
        ensures exists i :: 0 <= i < |es| && keep(es[i].value) && p == Join(folder, es[i].value.name)
      {
        if p in acc {
          var i :| 0 <= i < n && keep(init[i].value) && p == Join(folder, init[i].value.name);
          assert es[i] == init[i];
        } else {
          assert keep(es[n].value) && p == Join(folder, es[n].value.name);
        }
      }
      forall i | 0 <= i < |es| && keep(es[i].value) ensures Join(folder, es[i].value.name) in r {
        if i < n {
          assert init[i] == es[i];
        }
      }
    }
  }

  /** Kept paths keep listing order: listing a prefix of the entries gives a prefix
      of the paths. */
  lemma {:induction false} FolderFilesPrefix(folder: string, es: seq<Result<DirEntry, string>>, k: nat)
    requires k <= |es| && FolderFiles(folder, es).Success?
    ensures FolderFiles(folder, es[..k]).Success?
    ensures FolderFiles(folder, es[..k]).value <= FolderFiles(folder, es).value
  {
    if k < |es| {
      var init := es[..|es| - 1];
      assert es[..k] == init[..k];
      FolderFilesPrefix(folder, init, k);
    } else {
      assert es[..k] == es;
    }
  }

  /** The call fails exactly when some folder fails; on success the map has one
      entry per requested folder, holding the listing of that folder's last
      request. */
  lemma AllPathsContent(folders: seq<string>, listings: seq<Listing>, k: nat)
    requires k <= |folders| == |listings|
    ensures AllPaths(folders, listings, k).Success? <==>
      forall i :: 0 <= i < k ==> FolderResult(folders[i], listings[i]).Success?
    ensures AllPaths(folders, listings, k).Success? ==>
      var m := AllPaths(folders, listings, k).value;
      && m.Keys == (set i | 0 <= i < k :: folders[i])
      && forall i :: 0 <= i < k && (forall j :: i < j < k ==> folders[j] != folders[i]) ==>
        m[folders[i]] == FolderResult(folders[i], listings[i]).value
  {
    AllPathsSucceeds(folders, listings, k);
    if AllPaths(folders, listings, k).Success? {
      AllPathsEntries(folders, listings, k);
    }
  }

  lemma {:induction false} AllPathsSucceeds(folders: seq<string>, listings: seq<Listing>, k: nat)
    requires k <= |folders| == |listings|
    ensures AllPaths(folders, listings, k).Success? <==>
      forall i :: 0 <= i < k ==> FolderResult(folders[i], listings[i]).Success?
  {
    if k > 0 {
      AllPathsSucceeds(folders, listings, k - 1);
    }
  }

  lemma AllPathsEntries(folders: seq<string>, listings: seq<Listing>, k: nat)
    requires k <= |folders| == |listings|
    requires forall i :: 0 <= i < k ==> FolderResult(folders[i], listings[i]).Success?
    ensures AllPaths(folders, listings, k).Success?
    ensures var m := AllPaths(folders, listings, k).value;
      && m.Keys == (set i | 0 <= i < k :: folders[i])
      && forall i :: 0 <= i < k && (forall j :: i < j < k ==> folders[j] != folders[i]) ==>
        m[folders[i]] == FolderResult(folders[i], listings[i]).value
  {
    AllPathsKeys(folders, listings, k);
    AllPathsValues(folders, listings, k);
  }

  lemma {:induction false} AllPathsKeys(folders: seq<string>, listings: seq<Listing>, k: nat)
    requires k <= |folders| == |listings|
    requires forall i :: 0 <= i < k ==> FolderResult(folders[i], listings[i]).Success?
    ensures AllPaths(folders, listings, k).Success?
    ensures AllPaths(folders, listings, k).value.Keys == (set i | 0 <= i < k :: folders[i])
  {
    AllPathsSucceeds(folders, listings, k);
    if k > 0 {
      AllPathsKeys(folders, listings, k - 1);
      var acc := AllPaths(folders, listings, k - 1).value;
      var files := FolderResult(folders[k - 1], listings[k - 1]).value;
      assert AllPaths(folders, listings, k).value == acc[folders[k - 1] := files];
      AllPathsKeysStep(folders, k);
    }
  }

  lemma {:induction false} AllPathsValues(folders: seq<string>, listings: seq<Listing>, k: nat)
    requires k <= |folders| == |listings|
    requires forall i :: 0 <= i < k ==> FolderResult(folders[i], listings[i]).Success?
    ensures AllPaths(folders, listings, k).Success?
    ensures forall i :: 0 <= i < k && (forall j :: i < j < k ==> folders[j] != folders[i]) ==>
      folders[i] in AllPaths(folders, listings, k).value
      && AllPaths(folders, listings, k).value[folders[i]] == FolderResult(folders[i], listings[i]).value
  {
    AllPathsSucceeds(folders, listings, k);
    if k > 0 {
      AllPathsValues(folders, listings, k - 1);
      var acc := AllPaths(folders, listings, k - 1).value;
      var files := FolderResult(folders[k - 1], listings[k - 1]).value;
      var m := AllPaths(folders, listings, k).value;
      assert m == acc[folders[k - 1] := files];
      forall i | 0 <= i < k && (forall j :: i < j < k ==> folders[j] != folders[i])
        ensures folders[i] in m && m[folders[i]] == FolderResult(folders[i], listings[i]).value
      {
        if i < k - 1 {
          assert folders[k - 1] != folders[i];
          assert forall j :: i < j < k - 1 ==> folders[j] != folders[i];
        }
      }
    }
  }

  lemma AllPathsKeysStep(folders: seq<string>, k: nat)
    requires 0 < k <= |folders|
    ensures (set i | 0 <= i < k :: folders[i]) == (set i | 0 <= i < k - 1 :: folders[i]) + {folders[k - 1]}
  {
  }

  /** `get_file_paths_in_folder`. */
  method GetFilePathsInFolder(folders: seq<string>, listings: seq<Listing>)
    returns (r: Result<map<string, seq<string>>, Error>)
    requires |listings| == |folders|
    ensures r == AllPaths(folders, listings, |folders|)
  {
    var all: map<string, seq<string>> := map[];
    for k := 0 to |folders|
      invariant AllPaths(folders, listings, k) == Success(all)
    {
      if listings[k].Failure? {
        AllPathsFailureSticks(folders, listings, k + 1, Error.Io(listings[k].error));
        return Failure(Error.Io(listings[k].error));
      }
      var es := listings[k].value;
      var valid: seq<string> := [];
      for n := 0 to |es|
        invariant FolderFiles(folders[k], es[..n]) == Success(valid)
      {
        assert es[..n + 1][..n] == es[..n];
        if es[n].Failure? {
          AllPathsFailsAt(folders, listings, k, Error.Io(es[n].error), es, n);
          return Failure(Error.Io(es[n].error));
        }
        var e := es[n].value;
        if Kept(e) {
          if !e.unicode {
            AllPathsFailsAt(folders, listings, k, Error.InvalidPath, es, n);
            return Failure(Error.InvalidPath);
          }
          valid := valid + [Join(folders[k], e.name)];
        }
      }
      assert es[..|es|] == es;
      all := all[folders[k] := valid];
    }
    r := Success(all);
  }

  /** An error in the listing of folder `k` ends the whole call with that error. */
  lemma AllPathsFailsAt(folders: seq<string>, listings: seq<Listing>, k: nat, err: Error,
                        es: seq<Result<DirEntry, string>>, n: nat)
    requires k < |folders| == |listings| && AllPaths(folders, listings, k).Success?
    requires listings[k] == Success(es) && n < |es|
    requires FolderFiles(folders[k], es[..n]).Success?
    requires FolderFiles(folders[k], es[..n + 1]) == Failure(err)
    ensures FolderFiles(folders[k], es).Failure? && FolderFiles(folders[k], es).error == err
    ensures AllPaths(folders, listings, |folders|) == Failure(err)
  {
    FailureSticks(folders[k], es, n + 1, err);
    AllPathsFailureSticks(folders, listings, k + 1, err);
  }

  lemma {:induction false} FailureSticks(folder: string, es: seq<Result<DirEntry, string>>, k: nat, err: Error)
    requires k <= |es| && FolderFiles(folder, es[..k]) == Failure(err)
    ensures FolderFiles(folder, es) == Failure(err)
    decreases |es| - k
  {
    if k < |es| {
      assert es[..k + 1][..k] == es[..k];
      FailureSticks(folder, es, k + 1, err);
    } else {
      assert es[..k] == es;
    }
  }

  lemma {:induction false} AllPathsFailureSticks(folders: seq<string>, listings: seq<Listing>, k: nat, err: Error)
    requires k <= |folders| == |listings| && AllPaths(folders, listings, k) == Failure(err)
    ensures AllPaths(folders, listings, |folders|) == Failure(err)
    decreases |folders| - k
  {
    if k < |folders| {
      AllPathsFailureSticks(folders, listings, k + 1, err);
    }
  }

  // ---------------------------------------------------------------------------
  // `clear_audio_files`
  // ---------------------------------------------------------------------------

  /** `clear_audio_files`: empties the cache and drops the combined buffer, so the
      state projection then shows no file and an "empty" buffer. The
      `buffering-progress` event it emits is not modelled. */
  method ClearAudioFiles(state: AppState)
    requires state.Valid()
    modifies state`audioFiles, state`combinedAudio
    ensures state.Valid()
    ensures state.audioFiles == [] && state.combinedAudio == None
    ensures GetAppState(state).audioFiles == [] && GetAppState(state).combinedAudio == "empty"
  {
    state.audioFiles := [];
    state.combinedAudio := None;
  }
}

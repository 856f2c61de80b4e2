/** Reordering the timeline (`src-tauri/src/sorting.rs`, `update_sorting`): the
    front end sends `(id, index)` pairs; the back end sorts them by index, gives
    every file it finds a start offset equal to the share of the samples before
    it in that order, rebuilds the cache from the files it found, and stores the
    order of the ids. Progress is reported through a channel, modelled as the
    list of events sent. */
module Sorting {
  import opened Wrappers
  import opened OrderedMap
  import opened AppModel
  import Combine

  /** `SortUpdate`: a file id and its new position on the timeline. */
  datatype SortUpdate = SortUpdate(id: Uuid, index: nat)

  /** `SortAudioEvent`. `Finished` is declared by the source but never sent. */
  datatype SortEvent =
    | Started(contentLength: nat)
    | Progress(progress: real, id: Uuid, startOffset: Offset)
    | Finished

  // ---------------------------------------------------------------------------
  // `sort_by_key(|u| u.index)`: a stable sort
  // ---------------------------------------------------------------------------

  predicate SortedByIndex(s: seq<SortUpdate>) {
    forall i, j :: 0 <= i < j < |s| ==> s[i].index <= s[j].index
  }

  /** The updates carrying index `k`, in their order in `s`. */
  function WithIndex(s: seq<SortUpdate>, k: nat): seq<SortUpdate> {
    if s == [] then []
    else (if s[0].index == k then [s[0]] else []) + WithIndex(s[1..], k)
  }

  /** Places `u` after every element whose index is not larger. */
  function InsertAfterEqual(s: seq<SortUpdate>, u: SortUpdate): (r: seq<SortUpdate>)
    ensures |r| == |s| + 1
  {
    if s == [] then [u]
    else if u.index < s[0].index then [u] + s
    else [s[0]] + InsertAfterEqual(s[1..], u)
  }

  /** Inserting adds `u` and keeps every other element. */
  lemma {:induction false} InsertAfterEqualPermutes(s: seq<SortUpdate>, u: SortUpdate)
    ensures multiset(InsertAfterEqual(s, u)) == multiset(s) + multiset{u}
  {
    if s != [] && u.index >= s[0].index {
      InsertAfterEqualPermutes(s[1..], u);
      assert s == [s[0]] + s[1..];
    }
  }

  /** `ordered_updates`: `updates` sorted by index, ties in input order. */
  function SortByIndex(us: seq<SortUpdate>): seq<SortUpdate> {
    if us == [] then [] else InsertAfterEqual(SortByIndex(us[..|us| - 1]), us[|us| - 1])
  }

  lemma {:induction false} WithIndexAppend(s: seq<SortUpdate>, t: seq<SortUpdate>, k: nat)
    ensures WithIndex(s + t, k) == WithIndex(s, k) + WithIndex(t, k)
  {
    if s == [] {
      assert s + t == t;
    } else {
      var head := if s[0].index == k then [s[0]] else [];
      assert (s + t)[0] == s[0];
      assert (s + t)[1..] == s[1..] + t;
      WithIndexAppend(s[1..], t, k);
      calc {
        WithIndex(s + t, k);
        head + WithIndex(s[1..] + t, k);
        head + (WithIndex(s[1..], k) + WithIndex(t, k));
        (head + WithIndex(s[1..], k)) + WithIndex(t, k);
        WithIndex(s, k) + WithIndex(t, k);
      }
    }
  }

  /** An element no larger than the head of a sorted list can go in front of it. */
  lemma SortedCons(x: SortUpdate, rest: seq<SortUpdate>)
    requires SortedByIndex(rest) && (rest == [] || x.index <= rest[0].index)
    ensures SortedByIndex([x] + rest)
  {
    var r := [x] + rest;
    forall i, j | 0 <= i < j < |r| ensures r[i].index <= r[j].index {
      if i == 0 {
        assert r[j] == rest[j - 1];
        assert rest[0].index <= rest[j - 1].index;
      } else {
        assert r[i] == rest[i - 1] && r[j] == rest[j - 1];
      }
    }
  }

  lemma {:induction false} InsertAfterEqualSorted(s: seq<SortUpdate>, u: SortUpdate)
    requires SortedByIndex(s)
    ensures SortedByIndex(InsertAfterEqual(s, u))
  {
    if s == [] {
    } else if u.index < s[0].index {
      SortedCons(u, s);
    } else {
      var rest := InsertAfterEqual(s[1..], u);
      assert SortedByIndex(s[1..]);
      InsertAfterEqualSorted(s[1..], u);
      InsertAfterEqualHead(s[1..], u);
      if s[1..] != [] {
        assert s[0].index <= s[1..][0].index;
      }
      SortedCons(s[0], rest);
    }
  }

  lemma InsertAfterEqualHead(s: seq<SortUpdate>, u: SortUpdate)
    ensures InsertAfterEqual(s, u)[0] == if s == [] || u.index < s[0].index then u else s[0]
  {
  }

  lemma {:induction false} InsertAfterEqualWithIndex(s: seq<SortUpdate>, u: SortUpdate, k: nat)
    requires SortedByIndex(s)
    ensures WithIndex(InsertAfterEqual(s, u), k) == WithIndex(s, k) + (if u.index == k then [u] else [])
  {
    if s == [] {
      SingleWithIndex(u, k);
    } else if u.index < s[0].index {
      InsertInFrontWithIndex(s, u, k);
    } else {
      assert SortedByIndex(s[1..]);
      InsertAfterEqualWithIndex(s[1..], u, k);
      KeepHeadWithIndex(s, InsertAfterEqual(s[1..], u), k, if u.index == k then [u] else []);
    }
  }

  lemma SingleWithIndex(u: SortUpdate, k: nat)
    ensures WithIndex([u], k) == if u.index == k then [u] else []
  {
    assert [u][1..] == [];
  }

  /** Inserting in front of a sorted list whose head has a larger index. */
  lemma InsertInFrontWithIndex(s: seq<SortUpdate>, u: SortUpdate, k: nat)
    requires SortedByIndex(s) && s != [] && u.index < s[0].index
    ensures WithIndex([u] + s, k) == WithIndex(s, k) + (if u.index == k then [u] else [])
  {
    SingleWithIndex(u, k);
    WithIndexAppend([u], s, k);
    if u.index == k {
      NoneWithSmallIndex(s, k);
    }
  }

  /** Keeping the head in front of a tail whose selection gained `tie` at the end. */
  lemma KeepHeadWithIndex(s: seq<SortUpdate>, rest: seq<SortUpdate>, k: nat, tie: seq<SortUpdate>)
    requires s != [] && WithIndex(rest, k) == WithIndex(s[1..], k) + tie
    ensures WithIndex([s[0]] + rest, k) == WithIndex(s, k) + tie
  {
    WithIndexAppend([s[0]], rest, k);
    WithIndexAppend([s[0]], s[1..], k);
    assert [s[0]] + s[1..] == s;
  }

  /** In a sorted list whose first index exceeds `k`, nothing carries index `k`. */
  lemma {:induction false} NoneWithSmallIndex(s: seq<SortUpdate>, k: nat)
    requires SortedByIndex(s) && s != [] && k < s[0].index
    ensures WithIndex(s, k) == []
  {
    if |s| > 1 {
      NoneWithSmallIndex(s[1..], k);
    }
  }

  /** `sort_by_key` orders by index... */
  lemma {:induction false} SortByIndexSorted(us: seq<SortUpdate>)
    ensures SortedByIndex(SortByIndex(us))
  {
    if us != [] {
      SortByIndexSorted(us[..|us| - 1]);
      InsertAfterEqualSorted(SortByIndex(us[..|us| - 1]), us[|us| - 1]);
    }
  }

  /** ... rearranges the updates without losing or duplicating any ... */
  lemma {:induction false} SortByIndexPermutes(us: seq<SortUpdate>)
    ensures multiset(SortByIndex(us)) == multiset(us)
  {
    if us != [] {
      SortByIndexPermutes(us[..|us| - 1]);
      InsertAfterEqualPermutes(SortByIndex(us[..|us| - 1]), us[|us| - 1]);
      assert us == us[..|us| - 1] + [us[|us| - 1]];
    }
  }

  /** ... and is stable: the updates sharing an index keep their input order. */
  lemma {:induction false} SortByIndexStable(us: seq<SortUpdate>, k: nat)
    ensures WithIndex(SortByIndex(us), k) == WithIndex(us, k)
  {
    if us != [] {
      var init := us[..|us| - 1];
      var u := us[|us| - 1];
      var tie := if u.index == k then [u] else [];
      SortByIndexSorted(init);
      assert WithIndex([u], k) == tie by {
        assert [u][1..] == [];
      }
      calc {
        WithIndex(SortByIndex(us), k);
        WithIndex(InsertAfterEqual(SortByIndex(init), u), k);
        { InsertAfterEqualWithIndex(SortByIndex(init), u, k); }
        WithIndex(SortByIndex(init), k) + tie;
        { SortByIndexStable(init, k); }
        WithIndex(init, k) + WithIndex([u], k);
        { WithIndexAppend(init, [u], k); }
        WithIndex(init + [u], k);
        { assert us == init + [u]; }
        WithIndex(us, k);
      }
    }
  }

  // ---------------------------------------------------------------------------
  // Finding files, totals and offsets
  // ---------------------------------------------------------------------------

  /** `audio_files.values().find(|f| f.id == id)`: the first entry in key order
      holding file `id`. */
  function FindById(m: seq<Entry<AudioFile>>, id: Uuid): (r: Option<nat>)
    ensures r.Some? ==>
      r.value < |m| && m[r.value].value.id == id && forall j :: 0 <= j < r.value ==> m[j].value.id != id
    ensures r.None? ==> forall j :: 0 <= j < |m| ==> m[j].value.id != id
  {
    if m == [] then None
    else if m[0].value.id == id then Some(0)
    else match FindById(m[1..], id)
      case None => None
      case Some(i) => Some(i + 1)
  }

  /** The samples of the files found for `us`, in that order; unknown ids
      contribute nothing. */
  function FoundSamples(m: seq<Entry<AudioFile>>, us: seq<SortUpdate>): nat {
    if us == [] then 0
    else
      FoundSamples(m, us[..|us| - 1])
        + match FindById(m, us[|us| - 1].id)
          case None => 0
          case Some(i) => |m[i].value.samples|
  }

  /** `current_sample_offset as f64 / total_samples as f64`; `0 / 0` is NaN. */
  function OffsetValue(current: nat, total: nat): Offset {
    if total == 0 then NotANumber else Ratio(current as real / total as real)
  }

  /** Changes the start offset of one file and nothing else. */
  function SetOffset(e: Entry<AudioFile>, o: Offset): Entry<AudioFile> {
    Entry(e.key, e.value.(startOffset := o))
  }

  /** The cache after the offset loop has handled the first `k` sorted updates. */
  function Reoffset(m: seq<Entry<AudioFile>>, us: seq<SortUpdate>, total: nat, k: nat): (r: seq<Entry<AudioFile>>)
    requires k <= |us|
    ensures |r| == |m|
  {
    if k == 0 then m
    else
      var prev := Reoffset(m, us, total, k - 1);
      match FindById(prev, us[k - 1].id)
      case None => prev
      case Some(i) => prev[i := SetOffset(prev[i], OffsetValue(FoundSamples(m, us[..k - 1]), total))]
  }

  /** The offset loop changes start offsets and nothing else: same length, same
      keys, and every file equal to the original but for its start offset. */
  lemma {:induction false} ReoffsetKeepsFiles(m: seq<Entry<AudioFile>>, us: seq<SortUpdate>, total: nat, k: nat)
    requires k <= |us|
    ensures var r := Reoffset(m, us, total, k);
      forall i :: 0 <= i < |m| ==>
        r[i].key == m[i].key && r[i].value == m[i].value.(startOffset := r[i].value.startOffset)
  {
    if k > 0 {
      ReoffsetKeepsFiles(m, us, total, k - 1);
    }
  }

  /** Finding by id only looks at ids, which the offset loop does not change. */
  lemma {:induction false} FindAfterReoffset(m: seq<Entry<AudioFile>>, r: seq<Entry<AudioFile>>, id: Uuid)
    requires |r| == |m| && forall i :: 0 <= i < |m| ==> r[i].value.id == m[i].value.id
    ensures FindById(r, id) == FindById(m, id)
  {
    if m != [] {
      FindAfterReoffset(m[1..], r[1..], id);
    }
  }

  // ---------------------------------------------------------------------------
  // Rebuilding the cache, and the events
  // ---------------------------------------------------------------------------

  /** `new_map` after the first `k` sorted updates: each found file inserted under
      its own path. */
  function Rebuilt(m: seq<Entry<AudioFile>>, us: seq<SortUpdate>, k: nat): (r: seq<Entry<AudioFile>>)
    requires k <= |us|
    ensures Ordered(r)
  {
    if k == 0 then []
    else
      var prev := Rebuilt(m, us, k - 1);
      match FindById(m, us[k - 1].id)
      case None => prev
      case Some(i) => Insert(prev, m[i].value.path, m[i].value)
  }

  /** The events sent for the first `k` sorted updates out of `n`: two identical
      `Progress` events for each update whose file is found. */
  function ProgressEvents(m: seq<Entry<AudioFile>>, us: seq<SortUpdate>, k: nat): seq<SortEvent>
    requires k <= |us|
  {
    if k == 0 then []
    else
      ProgressEvents(m, us, k - 1)
        + match FindById(m, us[k - 1].id)
          case None => []
          case Some(i) =>
            var p := Progress(Combine.Step(k, |us|), m[i].value.id, m[i].value.startOffset);
            [p, p]
  }

  /** The ids in sorted order: the stored `custom_order`. */
  function Ids(us: seq<SortUpdate>): (r: seq<Uuid>)
    ensures |r| == |us| && forall i :: 0 <= i < |us| ==> r[i] == us[i].id
  {
    seq(|us|, i requires 0 <= i < |us| => us[i].id)
  }

  /** The pairs returned to the front end. */
  function Pairs(us: seq<SortUpdate>): (r: seq<(Uuid, nat)>)
    ensures |r| == |us| && forall i :: 0 <= i < |us| ==> r[i] == (us[i].id, us[i].index)
  {
    seq(|us|, i requires 0 <= i < |us| => (us[i].id, us[i].index))
  }

  /** `update_sorting`. A poisoned lock is not modelled. */
  method UpdateSorting(state: AppState, updates: seq<SortUpdate>)
    returns (r: Result<seq<(Uuid, nat)>, string>, events: seq<SortEvent>)
    requires state.Valid()
    modifies state`audioFiles, state`customOrder
    ensures state.Valid()
    ensures var ordered := SortByIndex(updates);
      var total := FoundSamples(old(state.audioFiles), ordered);
      var m2 := Reoffset(old(state.audioFiles), ordered, total, |ordered|);
      && state.audioFiles == Rebuilt(m2, ordered, |ordered|)
      && state.customOrder == Ids(ordered)
      && r == Success(Pairs(ordered))
      && events == [Started(10)] + ProgressEvents(m2, ordered, |ordered|)
  {
    var ordered := SortByIndex(updates);
    var m := state.audioFiles;
    var total := TotalSamples(m, ordered);
    var m2 := ApplyOffsets(m, ordered, total);
    var newMap, progress := RebuildMap(m2, ordered);
    events := [Started(10)] + progress;
    RebuiltKeyedByPath(m2, ordered, |ordered|);
    state.audioFiles := newMap;
    state.customOrder := Ids(ordered);
    r := Success(Pairs(ordered));
  }

  /** The first loop of `update_sorting`: the samples of every file found. */
  method TotalSamples(m: seq<Entry<AudioFile>>, ordered: seq<SortUpdate>) returns (total: nat)
    ensures total == FoundSamples(m, ordered)
  {
    total := 0;
    for k := 0 to |ordered|
      invariant total == FoundSamples(m, ordered[..k])
    {
      assert ordered[..k + 1][..k] == ordered[..k];
      var found := FindById(m, ordered[k].id);
      if found.Some? {
        total := total + |m[found.value].value.samples|;
      }
    }
    assert ordered[..|ordered|] == ordered;
  }

  /** The second loop: each found file gets the share of the samples before it. */
  method ApplyOffsets(m: seq<Entry<AudioFile>>, ordered: seq<SortUpdate>, total: nat)
    returns (m2: seq<Entry<AudioFile>>)
    ensures m2 == Reoffset(m, ordered, total, |ordered|)
  {
    var current := 0;
    m2 := m;
    for k := 0 to |ordered|
      invariant m2 == Reoffset(m, ordered, total, k)
      invariant current == FoundSamples(m, ordered[..k])
    {
      assert ordered[..k + 1][..k] == ordered[..k];
      ReoffsetKeepsFiles(m, ordered, total, k);
      FindAfterReoffset(m, m2, ordered[k].id);
      var found := FindById(m2, ordered[k].id);
      if found.Some? {
        var i := found.value;
        m2 := m2[i := SetOffset(m2[i], OffsetValue(current, total))];
        current := current + |m2[i].value.samples|;
      }
    }
  }

  /** The third loop: the new map and the two progress events per found file. */
  method RebuildMap(m2: seq<Entry<AudioFile>>, ordered: seq<SortUpdate>)
    returns (newMap: seq<Entry<AudioFile>>, events: seq<SortEvent>)
    ensures newMap == Rebuilt(m2, ordered, |ordered|)
    ensures events == ProgressEvents(m2, ordered, |ordered|)
  {
    newMap := [];
    events := [];
    var n := |ordered|;
    for k := 0 to n
      invariant newMap == Rebuilt(m2, ordered, k)
      invariant events == ProgressEvents(m2, ordered, k)
    {
      var found := FindById(m2, ordered[k].id);
      if found.Some? {
        var file := m2[found.value].value;
        newMap := Insert(newMap, file.path, file);
        var progress := Combine.Step(k + 1, n);
        events := events + [Progress(progress, file.id, file.startOffset), Progress(progress, file.id, file.startOffset)];
      }
    }
  }

  lemma {:induction false} RebuiltKeyedByPath(m: seq<Entry<AudioFile>>, us: seq<SortUpdate>, k: nat)
    requires k <= |us|
    ensures KeyedByPath(Rebuilt(m, us, k))
  {
    if k > 0 {
      RebuiltKeyedByPath(m, us, k - 1);
      var prev := Rebuilt(m, us, k - 1);
      match FindById(m, us[k - 1].id)
      case None =>
      case Some(i) => Combine.InsertKeyedByPath(prev, m[i].value.path, m[i].value);
    }
  }

  // ---------------------------------------------------------------------------
  // What the reorder promises
  // ---------------------------------------------------------------------------

  /** After the reorder the cache holds exactly the files some update names: each
      under its own path and as it was apart from its start offset. Files no update
      names are dropped. */
  lemma {:induction false} RebuiltHoldsFound(m: seq<Entry<AudioFile>>, us: seq<SortUpdate>, k: nat, p: string)
    requires k <= |us| && KeyedByPath(m)
    ensures Get(Rebuilt(m, us, k), p).Some? <==> exists j :: 0 <= j < k && NamesPath(m, us, j, p)
    ensures Get(Rebuilt(m, us, k), p).Some? ==>
      exists i :: 0 <= i < |m| && m[i].key == p && Get(Rebuilt(m, us, k), p) == Some(m[i].value)
  {
    if k > 0 {
      RebuiltHoldsFound(m, us, k - 1, p);
      var prev := Rebuilt(m, us, k - 1);
      var r := Rebuilt(m, us, k);
      match FindById(m, us[k - 1].id)
      case None =>
        assert r == prev;
        assert !NamesPath(m, us, k - 1, p);
        NamesPathBefore(m, us, k, p);
      case Some(i) =>
        assert r == Insert(prev, m[i].value.path, m[i].value);
        RebuiltStepGet(prev, m, i, p);
        if m[i].key == p {
          assert NamesPath(m, us, k - 1, p);
          assert Get(r, p) == Some(m[i].value);
        } else {
          assert !NamesPath(m, us, k - 1, p);
          NamesPathBefore(m, us, k, p);
        }
    }
  }

  /** Update `j` names a file of `m` stored under `p`. */
  predicate NamesPath(m: seq<Entry<AudioFile>>, us: seq<SortUpdate>, j: nat, p: string)
    requires j < |us|
  {
    FindById(m, us[j].id).Some? && m[FindById(m, us[j].id).value].key == p
  }

  lemma NamesPathBefore(m: seq<Entry<AudioFile>>, us: seq<SortUpdate>, k: nat, p: string)
    requires 0 < k <= |us| && !NamesPath(m, us, k - 1, p)
    ensures (exists j :: 0 <= j < k && NamesPath(m, us, j, p)) <==> exists j :: 0 <= j < k - 1 && NamesPath(m, us, j, p)
  {
    if exists j :: 0 <= j < k && NamesPath(m, us, j, p) {
      var j :| 0 <= j < k && NamesPath(m, us, j, p);
      assert j < k - 1;
    }
  }

  /** Inserting entry `i` of a map keyed by path adds exactly its key. */
  lemma RebuiltStepGet(prev: seq<Entry<AudioFile>>, m: seq<Entry<AudioFile>>, i: nat, p: string)
    requires Ordered(prev) && KeyedByPath(m) && i < |m|
    ensures var r := Insert(prev, m[i].value.path, m[i].value);
      && (Get(r, p).Some? <==> Get(prev, p).Some? || m[i].key == p)
      && (m[i].key == p ==> Get(r, p) == Some(m[i].value))
      && (m[i].key != p ==> Get(r, p) == Get(prev, p))
  {
  }

  /** The offset loop gives the file of update `k` the share of the samples of the
      found files sorted before it, provided no other update names the same id. */
  lemma {:induction false} OffsetOfFound(m: seq<Entry<AudioFile>>, us: seq<SortUpdate>, total: nat, n: nat, k: nat)
    requires k < n <= |us|
    requires forall j :: 0 <= j < n && j != k ==> us[j].id != us[k].id
    requires FindById(m, us[k].id).Some?
    ensures Reoffset(m, us, total, n)[FindById(m, us[k].id).value].value.startOffset
      == OffsetValue(FoundSamples(m, us[..k]), total)
  {
    var i := FindById(m, us[k].id).value;
    var prev := Reoffset(m, us, total, n - 1);
    var r := Reoffset(m, us, total, n);
    if k == n - 1 {
      OffsetSetAtStep(m, us, total, n);
    } else {
      OffsetOfFound(m, us, total, n - 1, k);
      OffsetKeptByOtherId(m, us, total, n, i);
    }
  }

  /** The step of the offset loop for a found update sets that file's offset. */
  lemma OffsetSetAtStep(m: seq<Entry<AudioFile>>, us: seq<SortUpdate>, total: nat, n: nat)
    requires 0 < n <= |us| && FindById(m, us[n - 1].id).Some?
    ensures Reoffset(m, us, total, n)[FindById(m, us[n - 1].id).value].value.startOffset
      == OffsetValue(FoundSamples(m, us[..n - 1]), total)
  {
    var prev := Reoffset(m, us, total, n - 1);
    ReoffsetKeepsFiles(m, us, total, n - 1);
    FindAfterReoffset(m, prev, us[n - 1].id);
  }

  /** A step of the offset loop for an update naming another id leaves entry `i`
      alone. */
  lemma OffsetKeptByOtherId(m: seq<Entry<AudioFile>>, us: seq<SortUpdate>, total: nat, n: nat, i: nat)
    requires 0 < n <= |us| && i < |m| && m[i].value.id != us[n - 1].id
    ensures Reoffset(m, us, total, n)[i] == Reoffset(m, us, total, n - 1)[i]
  {
    var prev := Reoffset(m, us, total, n - 1);
    ReoffsetKeepsFiles(m, us, total, n - 1);
    FindAfterReoffset(m, prev, us[n - 1].id);
  }

  /** The files found before position `k` account for no more samples than all of
      them, so every offset lies in `[0, 1]` when the total is positive. */
  lemma {:induction false} FoundSamplesMonotone(m: seq<Entry<AudioFile>>, us: seq<SortUpdate>, k: nat)
    requires k <= |us|
    ensures FoundSamples(m, us[..k]) <= FoundSamples(m, us)
    decreases |us|
  {
    if k < |us| {
      var init := us[..|us| - 1];
      assert us[..k] == init[..k];
      FoundSamplesMonotone(m, init, k);
    } else {
      assert us[..k] == us;
    }
  }

  lemma OffsetInUnitRange(current: nat, total: nat)
    requires 0 < total && current <= total
    ensures OffsetValue(current, total).Ratio?
    ensures 0.0 <= OffsetValue(current, total).value <= 1.0
  {
    Combine.FractionInUnitRange(current, total);
  }

  /** The sorted positions, among the first `k`, whose file is found. */
  function FoundPositions(m: seq<Entry<AudioFile>>, us: seq<SortUpdate>, k: nat): set<nat>
    requires k <= |us|
  {
    set j: nat | j < k && FindById(m, us[j].id).Some?
  }

  /** Events: after `Started { content_length: 10 }`, two events per update whose
      file is found. */
  lemma {:induction false} ProgressEventCount(m: seq<Entry<AudioFile>>, us: seq<SortUpdate>, k: nat)
    requires k <= |us|
    ensures |ProgressEvents(m, us, k)| == 2 * |FoundPositions(m, us, k)|
  {
    if k == 0 {
      assert FoundPositions(m, us, k) == {};
    } else {
      ProgressEventCount(m, us, k - 1);
      FoundPositionsStep(m, us, k);
      ProgressEventsStep(m, us, k);
    }
  }

  lemma ProgressEventsStep(m: seq<Entry<AudioFile>>, us: seq<SortUpdate>, k: nat)
    requires 0 < k <= |us|
    ensures |ProgressEvents(m, us, k)| ==
      |ProgressEvents(m, us, k - 1)| + (if FindById(m, us[k - 1].id).Some? then 2 else 0)
  {
    var prev := ProgressEvents(m, us, k - 1);
    match FindById(m, us[k - 1].id)
    case None =>
      assert ProgressEvents(m, us, k) == prev + [];
    case Some(i) =>
      var p := Progress(Combine.Step(k, |us|), m[i].value.id, m[i].value.startOffset);
      assert ProgressEvents(m, us, k) == prev + [p, p];
  }

  /** Position `k - 1` joins the found positions exactly when its file is found. */
  lemma FoundPositionsStep(m: seq<Entry<AudioFile>>, us: seq<SortUpdate>, k: nat)
    requires 0 < k <= |us|
    ensures |FoundPositions(m, us, k)| ==
      |FoundPositions(m, us, k - 1)| + (if FindById(m, us[k - 1].id).Some? then 1 else 0)
  {
    var before := FoundPositions(m, us, k - 1);
    var added: set<nat> := if FindById(m, us[k - 1].id).Some? then {k - 1} else {};
    FoundPositionsSplit(m, us, k);
    assert before !! added;
    assert |before + added| == |before| + |added|;
  }

  lemma FoundPositionsSplit(m: seq<Entry<AudioFile>>, us: seq<SortUpdate>, k: nat)
    requires 0 < k <= |us|
    ensures FoundPositions(m, us, k) ==
      FoundPositions(m, us, k - 1) + (if FindById(m, us[k - 1].id).Some? then {k - 1} else {})
    ensures k - 1 !in FoundPositions(m, us, k - 1)
  {
    var before := FoundPositions(m, us, k - 1);
    var now := FoundPositions(m, us, k);
    var added: set<nat> := if FindById(m, us[k - 1].id).Some? then {k - 1} else {};
    forall j | j in now ensures j in before + added {
      if j < k - 1 {
        assert j in before;
      }
    }
    forall j | j in before + added ensures j in now {
    }
  }

  /** Every progress event reports a fraction in `(0, 1]`. */
  lemma {:induction false} ProgressInUnitRange(m: seq<Entry<AudioFile>>, us: seq<SortUpdate>, k: nat)
    requires k <= |us|
    ensures forall e :: e in ProgressEvents(m, us, k) ==> e.Progress? && 0.0 < e.progress <= 1.0
  {
    if k > 0 {
      ProgressInUnitRange(m, us, k - 1);
    }
  }

  /** The example of a reorder: `B` (2 samples) placed before `A` (4 samples) starts
      at 0, and `A` at 2/6. */
  lemma ReorderExample()
    ensures var a := AudioFile(1, "a.wav", [0, 0, 0, 0], Ratio(0.0));
      var b := AudioFile(2, "b.wav", [0, 0], Ratio(0.0));
      var m := [Entry("a.wav", a), Entry("b.wav", b)];
      var ordered := SortByIndex([SortUpdate(1, 1), SortUpdate(2, 0)]);
      var total := FoundSamples(m, ordered);
      var m2 := Reoffset(m, ordered, total, 2);
      ordered == [SortUpdate(2, 0), SortUpdate(1, 1)] && total == 6
      && m2[1].value.startOffset == Ratio(0.0)
      && m2[0].value.startOffset == Ratio(2.0 / 6.0)
  {
    var a := AudioFile(1, "a.wav", [0, 0, 0, 0], Ratio(0.0));
    var b := AudioFile(2, "b.wav", [0, 0], Ratio(0.0));
    var m := [Entry("a.wav", a), Entry("b.wav", b)];
    var us := [SortUpdate(1, 1), SortUpdate(2, 0)];
    var o := [SortUpdate(2, 0), SortUpdate(1, 1)];
    assert us[..1] == [SortUpdate(1, 1)] && [SortUpdate(1, 1)][..0] == [];
    assert SortByIndex(us[..1]) == [SortUpdate(1, 1)];
    assert SortByIndex(us) == o;
    assert FindById(m, 2) == Some(1) by { assert m[1..][0].value.id == 2; }
    assert FindById(m, 1) == Some(0);
    assert o[..0] == [] && o[..1] == [SortUpdate(2, 0)] && o[..1][..0] == [] && o[..2] == o;
    assert FoundSamples(m, o[..1]) == 2;
    assert FoundSamples(m, o) == 6;
    assert FoundSamples(m, o[..0]) == 0;
    assert OffsetValue(0, 6) == Ratio(0.0);
    assert Reoffset(m, o, 6, 0) == m;
    assert FindById(m, o[0].id) == Some(1);
    var m1 := Reoffset(m, o, 6, 1);
    assert m1 == m[1 := SetOffset(m[1], Ratio(0.0))];
    assert FindById(m1, 1) == Some(0);
  }
}

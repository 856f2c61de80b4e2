/** The cache and timeline commands of the back end (`src-tauri/src/combine.rs`):
    the waveform renderer, cache synchronisation (`update_inputs`), the background
    combine job and its cancellation, the one-shot `combine_audio_files` and the
    guards of `export_combined_audio_as_wav`.

    The decoder (`get_samples`) is not modelled: what it yields for each path is a
    parameter, aligned with the order in which the paths are visited.
    Events emitted to the front end are returned as logs. */
module Combine {
  import opened Wrappers
  import opened OrderedMap
  import opened AppModel
  import opened Errors
  import Media
  import Text

  // ---------------------------------------------------------------------------
  // Waveform renderer: `generate_waveform_path`
  // ---------------------------------------------------------------------------

  /** One pixel column of the waveform: its index `x` and the smallest and largest
      sample of its slice. The bar's coordinates (`x + offset`, and the two samples
      scaled into the height) and their formatting are not modelled. */
  datatype Column = Column(x: nat, lo: int, hi: int)

  /** `samples.len() / width.max(1)`. */
  function SamplesPerPixel(len: nat, width: nat): nat {
    len / (if width >= 1 then width else 1)
  }

  /** `slice.iter().min()` on a non-empty slice. */
  function MinOf(s: seq<int>): int
    requires |s| > 0
  {
    if |s| == 1 then s[0]
    else
      var rest := MinOf(s[1..]);
      if s[0] <= rest then s[0] else rest
  }

  /** `slice.iter().max()` on a non-empty slice. */
  function MaxOf(s: seq<int>): int
    requires |s| > 0
  {
    if |s| == 1 then s[0]
    else
      var rest := MaxOf(s[1..]);
      if s[0] >= rest then s[0] else rest
  }

  /** `MinOf` and `MaxOf` are the least and the greatest element of the slice. */
  lemma {:induction false} MinMaxOfBounds(s: seq<int>)
    requires |s| > 0
    ensures exists i :: 0 <= i < |s| && s[i] == MinOf(s)
    ensures exists i :: 0 <= i < |s| && s[i] == MaxOf(s)
    ensures forall i :: 0 <= i < |s| ==> MinOf(s) <= s[i] <= MaxOf(s)
  {
    if |s| > 1 {
      MinMaxOfBounds(s[1..]);
      var j :| 0 <= j < |s| - 1 && s[1..][j] == MinOf(s[1..]);
      var k :| 0 <= k < |s| - 1 && s[1..][k] == MaxOf(s[1..]);
      assert s[j + 1] == MinOf(s[1..]) && s[k + 1] == MaxOf(s[1..]);
      forall i | 1 <= i < |s| ensures MinOf(s) <= s[i] <= MaxOf(s) {
        assert s[i] == s[1..][i - 1];
      }
      var lo := if s[0] <= MinOf(s[1..]) then 0 else j + 1;
      var hi := if s[0] >= MaxOf(s[1..]) then 0 else k + 1;
      assert s[lo] == MinOf(s) && s[hi] == MaxOf(s);
    } else {
      assert s[0] == MinOf(s) == MaxOf(s);
    }
  }

  /** `a * b`, written as repeated addition so that the proofs about slice bounds
      stay linear; `TimesIsProduct` shows it is the product. */
  function Times(a: nat, b: nat): nat {
    if a == 0 then 0 else Times(a - 1, b) + b
  }

  lemma {:induction false} TimesIsProduct(a: nat, b: nat)
    ensures Times(a, b) == a * b
  {
    if a > 0 {
      TimesIsProduct(a - 1, b);
    }
  }

  lemma {:induction false} TimesMonotone(a: nat, c: nat, b: nat)
    requires a <= c
    ensures Times(a, b) <= Times(c, b)
  {
    if a < c {
      TimesMonotone(a, c - 1, b);
    }
  }

  /** The `width` slices of `spp` samples fit in the buffer, and `spp` is 0 exactly
      when there are fewer samples than pixels. */
  lemma SlicesFit(len: nat, width: nat)
    requires width >= 1
    ensures Times(width, SamplesPerPixel(len, width)) <= len
    ensures SamplesPerPixel(len, width) == 0 <==> len < width
  {
    TimesIsProduct(width, SamplesPerPixel(len, width));
  }

  /** One turn of the loop for pixel `x`: the slice `start..min(start + spp, len)`,
      and no column when it is empty. */
  function SliceColumn(samples: seq<Sample>, spp: nat, x: nat): seq<Column> {
    var start := Times(x, spp);
    var end := if start + spp <= |samples| then start + spp else |samples|;
    if end <= start then []
    else [Column(x, MinOf(samples[start..end]), MaxOf(samples[start..end]))]
  }

  /** The columns the loop has drawn after pixels `0..n`. */
  function ColumnsUpTo(samples: seq<Sample>, spp: nat, n: nat): seq<Column> {
    if n == 0 then [] else ColumnsUpTo(samples, spp, n - 1) + SliceColumn(samples, spp, n - 1)
  }

  /** The columns `generate_waveform_path` draws for `width` pixels. */
  function Waveform(samples: seq<Sample>, width: nat): seq<Column> {
    ColumnsUpTo(samples, SamplesPerPixel(|samples|, width), width)
  }

  /** `generate_waveform_path`: the loop over pixel columns, skipping empty slices.
      Each column drawn becomes one `M{x},{y1} L{x},{y2} ` command of the SVG path. */
  method GenerateWaveformPath(samples: seq<Sample>, width: nat) returns (cols: seq<Column>)
    ensures cols == Waveform(samples, width)
  {
    var spp := |samples| / (if width >= 1 then width else 1);
    cols := [];
    for x := 0 to width
      invariant cols == ColumnsUpTo(samples, spp, x)
    {
      var start := x * spp;
      var end := if (x + 1) * spp <= |samples| then (x + 1) * spp else |samples|;
      TimesIsProduct(x, spp);
      TimesIsProduct(x + 1, spp);
      if end <= start {
        continue;
      }
      var slice := samples[start..end];
      var lo := MinOf(slice);
      var hi := MaxOf(slice);
      cols := cols + [Column(x, lo, hi)];
    }
  }

  /** Fewer samples than pixels: `spp` is 0, every slice is empty, nothing is drawn. */
  lemma WaveformEmptyWhenShort(samples: seq<Sample>, width: nat)
    requires |samples| < width
    ensures Waveform(samples, width) == []
  {
    SlicesFit(|samples|, width);
    NoSamplesNoColumns(samples, width);
  }

  lemma {:induction false} NoSamplesNoColumns(samples: seq<Sample>, n: nat)
    ensures ColumnsUpTo(samples, 0, n) == []
  {
    if n > 0 {
      NoSamplesNoColumns(samples, n - 1);
    }
  }

  /** At least one sample per pixel: exactly one column per pixel, in pixel order,
      column `x` spanning the smallest and the largest of the `spp` samples from
      `x * spp`. */
  lemma WaveformColumns(samples: seq<Sample>, width: nat, x: nat)
    requires 1 <= width <= |samples| && x < width
    ensures var spp := SamplesPerPixel(|samples|, width);
      var cols := Waveform(samples, width);
      var start := x * spp;
      spp >= 1 && |cols| == width && start + spp <= |samples| && cols[x].x == x
      && (forall i :: start <= i < start + spp ==> cols[x].lo <= samples[i] <= cols[x].hi)
      && (exists i :: start <= i < start + spp && samples[i] == cols[x].lo)
      && (exists i :: start <= i < start + spp && samples[i] == cols[x].hi)
  {
    var spp := SamplesPerPixel(|samples|, width);
    SlicesFit(|samples|, width);
    TimesIsProduct(x, spp);
    FullColumns(samples, spp, width, x);
    var start := x * spp;
    var cols := Waveform(samples, width);
    ColumnSpansSlice(samples, start, start + spp, cols[x]);
  }

  /** A column drawn from the slice `start..end` spans exactly that slice's samples. */
  lemma ColumnSpansSlice(samples: seq<Sample>, start: nat, end: nat, c: Column)
    requires start < end <= |samples|
    requires c.lo == MinOf(samples[start..end]) && c.hi == MaxOf(samples[start..end])
    ensures forall i :: start <= i < end ==> c.lo <= samples[i] <= c.hi
    ensures exists i :: start <= i < end && samples[i] == c.lo
    ensures exists i :: start <= i < end && samples[i] == c.hi
  {
    var slice := samples[start..end];
    MinMaxOfBounds(slice);
    forall i | start <= i < end ensures c.lo <= samples[i] <= c.hi {
      assert samples[i] == slice[i - start];
    }
    var j :| 0 <= j < |slice| && slice[j] == c.lo;
    var k :| 0 <= k < |slice| && slice[k] == c.hi;
    assert samples[start + j] == c.lo && samples[start + k] == c.hi;
  }

  lemma {:induction false} FullColumns(samples: seq<Sample>, spp: nat, n: nat, x: nat)
    requires spp >= 1 && Times(n, spp) <= |samples| && x < n
    ensures var cols := ColumnsUpTo(samples, spp, n);
      var start := Times(x, spp);
      |cols| == n && start + spp <= |samples|
      && cols[x] == Column(x, MinOf(samples[start..start + spp]), MaxOf(samples[start..start + spp]))
  {
    TimesMonotone(n - 1, n, spp);
    if x < n - 1 {
      FullColumns(samples, spp, n - 1, x);
    } else if n - 1 > 0 {
      FullColumns(samples, spp, n - 1, 0);
    }
    TimesMonotone(x, n - 1, spp);
  }

  /** Samples past `width * spp` are never read: two buffers of the same length that
      agree on the first `width * spp` samples draw the same waveform. */
  lemma WaveformIgnoresTail(s: seq<Sample>, t: seq<Sample>, width: nat)
    requires |s| == |t|
    requires forall i :: 0 <= i < width * SamplesPerPixel(|s|, width) && i < |s| ==> s[i] == t[i]
    ensures Waveform(s, width) == Waveform(t, width)
  {
    var spp := SamplesPerPixel(|s|, width);
    TimesIsProduct(width, spp);
    PrefixColumnsAgree(s, t, spp, width, Times(width, spp));
  }

  lemma {:induction false} PrefixColumnsAgree(s: seq<Sample>, t: seq<Sample>, spp: nat, n: nat, bound: nat)
    requires |s| == |t| && Times(n, spp) <= bound
    requires forall i :: 0 <= i < bound && i < |s| ==> s[i] == t[i]
    ensures ColumnsUpTo(s, spp, n) == ColumnsUpTo(t, spp, n)
  {
    if n > 0 {
      PrefixColumnsAgree(s, t, spp, n - 1, bound);
      var start := Times(n - 1, spp);
      var end := if start + spp <= |s| then start + spp else |s|;
      if start < end {
        SameSlice(s, t, start, end, bound);
      }
    }
  }

  lemma SameSlice(s: seq<Sample>, t: seq<Sample>, a: nat, b: nat, bound: nat)
    requires a <= b <= |s| == |t| && b <= bound
    requires forall i :: 0 <= i < bound && i < |s| ==> s[i] == t[i]
    ensures s[a..b] == t[a..b]
  {
    forall i | 0 <= i < b - a
      ensures s[a..b][i] == t[a..b][i]
    {
      assert s[a + i] == t[a + i];
    }
  }

  // ---------------------------------------------------------------------------
  // Cache synchronisation: `update_inputs`
  // ---------------------------------------------------------------------------

  /** `AudioSend` and `Section`, the payload the front end sends. */
  datatype AudioSend = AudioSend(path: string)
  datatype SectionSend = SectionSend(folderPath: string, paths: seq<AudioSend>)

  /** `valid_paths`: every path of every section, as a set. */
  function DesiredPaths(sections: seq<SectionSend>): set<string> {
    set i, j | 0 <= i < |sections| && 0 <= j < |sections[i].paths| :: sections[i].paths[j].path
  }

  /** `order` lists the set `s` once each, in some order: how a `HashSet` iterates. */
  predicate ListsOnce(order: seq<string>, s: set<string>) {
    (forall i, j :: 0 <= i < j < |order| ==> order[i] != order[j])
    && (forall i :: 0 <= i < |order| ==> order[i] in s)
    && (forall p :: p in s ==> p in order)
  }

  /** The cache entry made for a newly decoded path. */
  function NewFile(id: Uuid, path: string, samples: seq<Sample>): AudioFile {
    AudioFile(id, path, samples, Ratio(0.0))
  }

  /** The success text of `update_inputs`. */
  function UpdateMessage(inserted: nat, removed: nat): string {
    "Successfully inserted " + Text.NatToString(inserted) + " new path(s), removed "
      + Text.NatToString(removed) + " unused path(s)."
  }

  /** Where the insert loop stops: the first position `< n` of `order` whose path
      is not in `cached` and fails to decode, or `n` when there is none. */
  function FirstFailure(order: seq<string>, cached: set<string>, decoded: seq<Result<seq<Sample>, Error>>, n: nat): (f: nat)
    requires n <= |order| == |decoded|
    ensures f <= n
    ensures f < n ==> order[f] !in cached && decoded[f].Failure?
    ensures forall j :: 0 <= j < f && order[j] !in cached ==> decoded[j].Success?
  {
    if n == 0 then 0
    else
      var f := FirstFailure(order, cached, decoded, n - 1);
      if f < n - 1 then f
      else if order[n - 1] !in cached && decoded[n - 1].Failure? then n - 1
      else n
  }

  /** The cache after the insert loop has handled the first `n` positions of
      `order` without error, starting from `m`: every path `m` lacked is inserted
      with what was decoded for it. */
  function LoadedMap(m: seq<Entry<AudioFile>>, order: seq<string>, ids: seq<Uuid>,
                     decoded: seq<Result<seq<Sample>, Error>>, n: nat): (r: seq<Entry<AudioFile>>)
    requires Ordered(m)
    requires n <= |order| == |ids| == |decoded|
    ensures Ordered(r)
  {
    if n == 0 then m
    else
      var r := LoadedMap(m, order, ids, decoded, n - 1);
      var p := order[n - 1];
      if p !in Keys(m) && decoded[n - 1].Success? then Insert(r, p, NewFile(ids[n - 1], p, decoded[n - 1].value)) else r
  }

  /** The paths among the first `n` of `order` that were not in `cached` and decoded. */
  function Inserted(order: seq<string>, cached: set<string>, decoded: seq<Result<seq<Sample>, Error>>, n: nat): set<string>
    requires n <= |order| == |decoded|
  {
    set j | 0 <= j < n && order[j] !in cached && decoded[j].Success? :: order[j]
  }

  /** The positions of those paths, in increasing order: where a progress event is
      emitted. */
  function InsertedPositions(order: seq<string>, cached: set<string>, decoded: seq<Result<seq<Sample>, Error>>, n: nat): (s: seq<nat>)
    requires n <= |order| == |decoded|
    ensures forall i :: 0 <= i < |s| ==> s[i] < n && order[s[i]] !in cached && decoded[s[i]].Success?
  {
    if n == 0 then []
    else
      InsertedPositions(order, cached, decoded, n - 1)
        + (if order[n - 1] !in cached && decoded[n - 1].Success? then [n - 1] else [])
  }

  /** Their samples, concatenated in that order: the new `combined_audio`. */
  function NewSamples(order: seq<string>, cached: set<string>, decoded: seq<Result<seq<Sample>, Error>>, n: nat): seq<Sample>
    requires n <= |order| == |decoded|
  {
    if n == 0 then []
    else
      NewSamples(order, cached, decoded, n - 1)
        + (if order[n - 1] !in cached && decoded[n - 1].Success? then decoded[n - 1].value else [])
  }

  /** The progress value `x / n` reported at position `x` of `n` items. */
  function Fraction(x: nat, n: nat): (f: real)
    requires x < n
    ensures 0.0 <= f < 1.0
  {
    FractionBelowOne(x, n);
    x as real / n as real
  }

  lemma FractionBelowOne(x: nat, n: nat)
    requires x < n
    ensures 0.0 <= x as real / n as real < 1.0
  {
    var a := x as real;
    var t := n as real;
    var q := a / t;
    assert q * t == a;
    assert (1.0 - q) * t == t - a;
    FactorSign(q, t);
    FactorSign(1.0 - q, t);
  }

  /** The progress values `update_inputs` emits. */
  function ProgressOf(steps: seq<nat>, n: nat): (p: seq<real>)
    requires forall i :: 0 <= i < |steps| ==> steps[i] < n
    ensures |p| == |steps|
    ensures forall i :: 0 <= i < |p| ==> 0.0 <= p[i] < 1.0
  {
    seq(|steps|, i requires 0 <= i < |steps| => Fraction(steps[i], n))
  }

  lemma InsertedStep(order: seq<string>, cached: set<string>, decoded: seq<Result<seq<Sample>, Error>>, n: nat)
    requires n < |order| == |decoded|
    requires forall i, j :: 0 <= i < j < |order| ==> order[i] != order[j]
    ensures Inserted(order, cached, decoded, n + 1)
      == Inserted(order, cached, decoded, n) + (if order[n] !in cached && decoded[n].Success? then {order[n]} else {})
    ensures order[n] !in Inserted(order, cached, decoded, n)
  {
    var a := Inserted(order, cached, decoded, n + 1);
    var b := Inserted(order, cached, decoded, n) + (if order[n] !in cached && decoded[n].Success? then {order[n]} else {});
    forall p | p in a ensures p in b {
      var j :| 0 <= j < n + 1 && order[j] !in cached && decoded[j].Success? && order[j] == p;
      if j < n { assert p in Inserted(order, cached, decoded, n); }
    }
    forall p | p in b ensures p in a {
      if p in Inserted(order, cached, decoded, n) {
        var j :| 0 <= j < n && order[j] !in cached && decoded[j].Success? && order[j] == p;
      }
    }
  }

  /** One progress event per inserted path: as many positions as paths. */
  lemma {:induction false} InsertedCount(order: seq<string>, cached: set<string>, decoded: seq<Result<seq<Sample>, Error>>, n: nat)
    requires n <= |order| == |decoded|
    requires forall i, j :: 0 <= i < j < |order| ==> order[i] != order[j]
    ensures |InsertedPositions(order, cached, decoded, n)| == |Inserted(order, cached, decoded, n)|
  {
    if n > 0 {
      InsertedCount(order, cached, decoded, n - 1);
      InsertedStep(order, cached, decoded, n - 1);
    }
  }

  /** The loop's cache holds the starting keys and the inserted paths. */
  lemma {:induction false} LoadedMapKeys(m: seq<Entry<AudioFile>>, order: seq<string>, ids: seq<Uuid>,
                                         decoded: seq<Result<seq<Sample>, Error>>, n: nat)
    requires Ordered(m)
    requires n <= |order| == |ids| == |decoded|
    requires forall i, j :: 0 <= i < j < |order| ==> order[i] != order[j]
    ensures Keys(LoadedMap(m, order, ids, decoded, n)) == Keys(m) + Inserted(order, Keys(m), decoded, n)
  {
    if n > 0 {
      LoadedMapKeys(m, order, ids, decoded, n - 1);
      InsertedStep(order, Keys(m), decoded, n - 1);
      LoadedMapKeysStep(m, order, ids, decoded, n);
    }
  }

  lemma LoadedMapKeysStep(m: seq<Entry<AudioFile>>, order: seq<string>, ids: seq<Uuid>,
                          decoded: seq<Result<seq<Sample>, Error>>, n: nat)
    requires Ordered(m)
    requires 0 < n <= |order| == |ids| == |decoded|
    ensures Keys(LoadedMap(m, order, ids, decoded, n)) == Keys(LoadedMap(m, order, ids, decoded, n - 1))
      + (if order[n - 1] !in Keys(m) && decoded[n - 1].Success? then {order[n - 1]} else {})
  {
    var r := LoadedMap(m, order, ids, decoded, n - 1);
    var p := order[n - 1];
    if p !in Keys(m) && decoded[n - 1].Success? {
      var f := NewFile(ids[n - 1], p, decoded[n - 1].value);
      assert LoadedMap(m, order, ids, decoded, n) == Insert(r, p, f);
      assert Keys(Insert(r, p, f)) == Keys(r) + {p};
    } else {
      assert LoadedMap(m, order, ids, decoded, n) == r;
    }
  }

  /** The insert loop finds the next path of `order` missing from its cache exactly
      when the starting cache lacked it. */
  lemma LoadedMapLookup(m: seq<Entry<AudioFile>>, order: seq<string>, ids: seq<Uuid>,
                        decoded: seq<Result<seq<Sample>, Error>>, n: nat)
    requires Ordered(m)
    requires n < |order| == |ids| == |decoded|
    requires forall i, j :: 0 <= i < j < |order| ==> order[i] != order[j]
    ensures Get(LoadedMap(m, order, ids, decoded, n), order[n]).None? <==> order[n] !in Keys(m)
  {
    LoadedMapKeys(m, order, ids, decoded, n);
    InsertedStep(order, Keys(m), decoded, n);
    GetSomeIffKey(LoadedMap(m, order, ids, decoded, n), order[n]);
  }

  /** The loop's cache keeps every starting entry and holds each inserted path
      under the file made from its own decoded samples and id. */
  lemma {:induction false} LoadedMapGet(m: seq<Entry<AudioFile>>, order: seq<string>, ids: seq<Uuid>,
                                        decoded: seq<Result<seq<Sample>, Error>>, n: nat)
    requires Ordered(m)
    requires n <= |order| == |ids| == |decoded|
    requires forall i, j :: 0 <= i < j < |order| ==> order[i] != order[j]
    ensures forall k :: k in Keys(m) ==> Get(LoadedMap(m, order, ids, decoded, n), k) == Get(m, k)
    ensures forall j :: 0 <= j < n && order[j] !in Keys(m) && decoded[j].Success? ==>
      Get(LoadedMap(m, order, ids, decoded, n), order[j]) == Some(NewFile(ids[j], order[j], decoded[j].value))
  {
    if n > 0 {
      LoadedMapGet(m, order, ids, decoded, n - 1);
    }
  }

  /** The loop's cache is keyed by path, as the starting one was. */
  lemma {:induction false} LoadedMapKeyed(m: seq<Entry<AudioFile>>, order: seq<string>, ids: seq<Uuid>,
                                          decoded: seq<Result<seq<Sample>, Error>>, n: nat)
    requires Ordered(m) && KeyedByPath(m)
    requires n <= |order| == |ids| == |decoded|
    ensures KeyedByPath(LoadedMap(m, order, ids, decoded, n))
  {
    if n > 0 {
      LoadedMapKeyed(m, order, ids, decoded, n - 1);
      var r := LoadedMap(m, order, ids, decoded, n - 1);
      var p := order[n - 1];
      if p !in Keys(m) && decoded[n - 1].Success? {
        InsertKeyedByPath(r, p, NewFile(ids[n - 1], p, decoded[n - 1].value));
      }
    }
  }

  /** On the paths of `order` the retained cache and the original one agree on
      which paths are cached, because every path of `order` is wanted. */
  lemma KeptAgreesOnOrder(m0: seq<Entry<AudioFile>>, valid: set<string>, order: seq<string>)
    requires ListsOnce(order, valid)
    ensures forall j :: 0 <= j < |order| ==> (order[j] in Keys(Retain(m0, valid)) <==> order[j] in Keys(m0))
  {
  }

  /** What `update_inputs` leaves in the cache, from the cache `m0` it started
      with: wanted entries that were cached stay untouched and unwanted ones are
      gone. */
  lemma SyncKeepsWantedDropsStale(m0: seq<Entry<AudioFile>>, valid: set<string>, order: seq<string>, ids: seq<Uuid>,
                                  decoded: seq<Result<seq<Sample>, Error>>, stop: nat)
    requires Ordered(m0) && ListsOnce(order, valid)
    requires |ids| == |order| == |decoded| && stop <= |order|
    ensures var m := LoadedMap(Retain(m0, valid), order, ids, decoded, stop);
      && (forall k :: k in Keys(m0) && k in valid ==> Get(m, k) == Get(m0, k))
      && (forall k :: k !in valid ==> Get(m, k) == None)
  {
    var kept := Retain(m0, valid);
    var m := LoadedMap(kept, order, ids, decoded, stop);
    LoadedMapGet(kept, order, ids, decoded, stop);
    LoadedMapKeys(kept, order, ids, decoded, stop);
    forall k | k !in valid ensures Get(m, k) == None {
      GetSomeIffKey(m, k);
    }
  }

  /** Each path decoded before the loop stopped is cached under the file made
      from its own id and samples. */
  lemma SyncCachesDecoded(m0: seq<Entry<AudioFile>>, valid: set<string>, order: seq<string>, ids: seq<Uuid>,
                          decoded: seq<Result<seq<Sample>, Error>>)
    requires Ordered(m0) && ListsOnce(order, valid)
    requires |ids| == |order| == |decoded|
    ensures var kept := Retain(m0, valid);
      var stop := FirstFailure(order, Keys(kept), decoded, |order|);
      forall j :: 0 <= j < stop && order[j] !in Keys(m0) ==>
        Get(LoadedMap(kept, order, ids, decoded, stop), order[j]) == Some(NewFile(ids[j], order[j], decoded[j].value))
  {
    var kept := Retain(m0, valid);
    var stop := FirstFailure(order, Keys(kept), decoded, |order|);
    KeptAgreesOnOrder(m0, valid, order);
    LoadedMapGet(kept, order, ids, decoded, stop);
  }

  /** `update_inputs` succeeds exactly when every wanted path that was not cached
      decodes; it then caches exactly the wanted paths, and reports one insertion
      (and one progress event) per wanted path that was not cached before. */
  lemma SyncSucceedsIff(m0: seq<Entry<AudioFile>>, valid: set<string>, order: seq<string>, ids: seq<Uuid>,
                        decoded: seq<Result<seq<Sample>, Error>>)
    requires Ordered(m0) && ListsOnce(order, valid)
    requires |ids| == |order| == |decoded|
    ensures var kept := Retain(m0, valid);
      var stop := FirstFailure(order, Keys(kept), decoded, |order|);
      && (stop == |order| <==> forall j :: 0 <= j < |order| && order[j] !in Keys(m0) ==> decoded[j].Success?)
      && (stop == |order| ==> Keys(LoadedMap(kept, order, ids, decoded, stop)) == valid)
      && (stop == |order| ==> |InsertedPositions(order, Keys(kept), decoded, stop)| == |valid - Keys(m0)|)
  {
    var kept := Retain(m0, valid);
    var n := |order|;
    var stop := FirstFailure(order, Keys(kept), decoded, n);
    KeptAgreesOnOrder(m0, valid, order);
    if stop == n {
      InsertedAreNew(m0, valid, order, decoded);
      LoadedMapKeys(kept, order, ids, decoded, n);
      InsertedCount(order, Keys(kept), decoded, n);
    }
  }

  /** When no new path fails, the paths inserted are exactly the wanted ones that were
      not cached. */
  lemma InsertedAreNew(m0: seq<Entry<AudioFile>>, valid: set<string>, order: seq<string>,
                       decoded: seq<Result<seq<Sample>, Error>>)
    requires ListsOnce(order, valid) && |order| == |decoded|
    requires forall j :: 0 <= j < |order| && order[j] !in Keys(m0) ==> decoded[j].Success?
    ensures Inserted(order, Keys(Retain(m0, valid)), decoded, |order|) == valid - Keys(m0)
  {
    var ins := Inserted(order, Keys(Retain(m0, valid)), decoded, |order|);
    KeptAgreesOnOrder(m0, valid, order);
    forall p | p in valid - Keys(m0) ensures p in ins {
      var j :| 0 <= j < |order| && order[j] == p;
    }
  }

  lemma InsertKeyedByPath(m: seq<Entry<AudioFile>>, path: string, f: AudioFile)
    requires Ordered(m) && KeyedByPath(m) && f.path == path
    ensures KeyedByPath(Insert(m, path, f))
  {
    var r := Insert(m, path, f);
    forall i | 0 <= i < |r| ensures r[i].key == r[i].value.path {
      GetAt(r, i);
      if r[i].key != path {
        GetSomeIffKey(m, r[i].key);
        var j :| 0 <= j < |m| && m[j].key == r[i].key;
        GetAt(m, j);
      }
    }
  }

  lemma RetainKeyedByPath(m: seq<Entry<AudioFile>>, valid: set<string>)
    requires Ordered(m) && KeyedByPath(m)
    ensures KeyedByPath(Retain(m, valid))
  {
    var r := Retain(m, valid);
    forall i | 0 <= i < |r| ensures r[i].key == r[i].value.path {
      GetAt(r, i);
      GetSomeIffKey(m, r[i].key);
      var j :| 0 <= j < |m| && m[j].key == r[i].key;
      GetAt(m, j);
    }
  }

  /** The `retain` step of `update_inputs`: the cached entries whose path is still
      wanted are kept, in order, and the dropped ones are counted. */
  method RetainWanted(m0: seq<Entry<AudioFile>>, valid: set<string>) returns (kept: seq<Entry<AudioFile>>, removed: nat)
    requires Ordered(m0) && KeyedByPath(m0)
    ensures kept == Retain(m0, valid)
    ensures KeyedByPath(kept)
    ensures removed == |Keys(m0) - valid|
  {
    kept := [];
    removed := 0;
    for i := 0 to |m0|
      invariant kept == Retain(m0[..i], valid)
      invariant removed == Dropped(m0[..i], valid)
    {
      assert m0[..i + 1] == m0[..i] + [m0[i]];
      RetainSnoc(m0[..i], m0[i], valid);
      if m0[i].key in valid {
        kept := kept + [m0[i]];
      } else {
        removed := removed + 1;
      }
    }
    assert m0[..|m0|] == m0;
    RetainKeyedByPath(m0, valid);
    DroppedIsKeyCount(m0, valid);
  }

  /** The insert loop of `update_inputs`: walks `order`, decodes every path `m`
      does not hold, inserts it under its id and appends its samples to
      `combined`, until the first decoding error. */
  method InsertMissing(m: seq<Entry<AudioFile>>, order: seq<string>, ids: seq<Uuid>,
                       decoded: seq<Result<seq<Sample>, Error>>)
    returns (r: seq<Entry<AudioFile>>, combined: seq<Sample>, steps: seq<nat>, stop: nat)
    requires Ordered(m)
    requires forall i, j :: 0 <= i < j < |order| ==> order[i] != order[j]
    requires |ids| == |order| == |decoded|
    ensures stop == FirstFailure(order, Keys(m), decoded, |order|)
    ensures r == LoadedMap(m, order, ids, decoded, stop)
    ensures combined == NewSamples(order, Keys(m), decoded, stop)
    ensures steps == InsertedPositions(order, Keys(m), decoded, stop)
  {
    r, combined, steps := m, [], [];
    for x := 0 to |order|
      invariant FirstFailure(order, Keys(m), decoded, x) == x
      invariant r == LoadedMap(m, order, ids, decoded, x)
      invariant combined == NewSamples(order, Keys(m), decoded, x)
      invariant steps == InsertedPositions(order, Keys(m), decoded, x)
    {
      var path := order[x];
      LoadedMapLookup(m, order, ids, decoded, x);
      if Get(r, path).None? {
        var outcome := decoded[x];
        if outcome.Failure? {
          stop := x;
          return;
        }
        r := Insert(r, path, NewFile(ids[x], path, outcome.value));
        combined := combined + outcome.value;
        steps := steps + [x];
      }
    }
    stop := |order|;
  }

  /** `update_inputs`. `order` is the enumeration order of `valid_paths`, `ids` the
      fresh identifiers and `decoded` what decoding yields, both for each position
      of `order`.

      Stale entries are dropped first and counted; then every path not yet cached
      is decoded and inserted, in `order`, and counted. A decode error returns at
      once: the removals and the insertions made so far stay and `combined_audio`
      is not touched. Otherwise `combined_audio` holds the newly decoded samples. */
  method UpdateInputs(state: AppState, sections: seq<SectionSend>, order: seq<string>, ids: seq<Uuid>,
                      decoded: seq<Result<seq<Sample>, Error>>)
    returns (r: Result<string, Error>, inserted: nat, removed: nat, progress: seq<real>)
    requires state.Valid()
    requires ListsOnce(order, DesiredPaths(sections))
    requires |ids| == |order| == |decoded|
    modifies state`audioFiles, state`combinedAudio
    ensures state.Valid()
    ensures var kept := Retain(old(state.audioFiles), DesiredPaths(sections));
      var stop := FirstFailure(order, Keys(kept), decoded, |order|);
      && state.audioFiles == LoadedMap(kept, order, ids, decoded, stop)
      && removed == |Keys(old(state.audioFiles)) - DesiredPaths(sections)|
      && inserted == |InsertedPositions(order, Keys(kept), decoded, stop)|
      && progress == ProgressOf(InsertedPositions(order, Keys(kept), decoded, stop), |order|)
      && (stop < |order| ==> r == Failure(decoded[stop].error) && state.combinedAudio == old(state.combinedAudio))
      && (stop == |order| ==> r == Success(UpdateMessage(inserted, removed))
                              && state.combinedAudio == Some(NewSamples(order, Keys(kept), decoded, stop)))
  {
    var kept;
    kept, removed := RetainWanted(state.audioFiles, DesiredPaths(sections));
    var m1, combined, steps, stop := InsertMissing(kept, order, ids, decoded);
    LoadedMapKeyed(kept, order, ids, decoded, stop);
    state.audioFiles := m1;
    progress := ProgressOf(steps, |order|);
    inserted := |steps|;
    if stop < |order| {
      r := Failure(decoded[stop].error);
      return;
    }
    state.combinedAudio := Some(combined);
    r := Success(UpdateMessage(inserted, removed));
  }

  // ---------------------------------------------------------------------------
  // Timeline layout and the background job: `combine_all_cached_samples`
  // ---------------------------------------------------------------------------

  /** The width of the whole timeline in pixels (`full_waveform_width`). */
  const FullWidth: nat := 1000

  /** `sample_rate` used for the reported durations. */
  const SampleRate: nat := 44100

  /** The number of samples cached in the entries of `m`, in key order. */
  function SampleCount(m: seq<Entry<AudioFile>>): nat {
    if m == [] then 0 else SampleCount(m[..|m| - 1]) + |m[|m| - 1].value.samples|
  }

  /** `current_sample_offset` when entry `i` is reached: the samples of the
      entries before it in key order. */
  function SamplesBefore(m: seq<Entry<AudioFile>>, i: nat): nat
    requires i <= |m|
  {
    SampleCount(m[..i])
  }

  /** `full_waveform_width * (part / total)`, exactly. */
  function Share(part: nat, total: nat): real
    requires total > 0
  {
    FullWidth as real * (part as real / total as real)
  }

  /** `segment_width as usize`: the share of one entry, truncated to whole pixels. */
  function SegmentWidth(len: nat, total: nat): nat
    requires total > 0
  {
    (FullWidth * len) / total
  }

  /** What a `processed-segment` event describes: where the segment starts on the
      timeline, how many pixels it spans, and the columns drawn for it. */
  datatype Segment = Segment(xOffset: real, width: nat, columns: seq<Column>)

  /** The events the job emits. `CombinedCached` carries `CachedCombineResult`. */
  datatype JobEvent =
    | TotalLength(seconds: real)
    | CombinedCached(svgPath: string, duration: real)
    | ProcessedSegment(segment: Segment)
    | CombineComplete

  /** The result emitted when the job stops early or finds nothing to combine. */
  const EmptyResult: JobEvent := CombinedCached("", 0.0)

  /** The segment emitted for entry `i` of `m`. */
  function SegmentOf(m: seq<Entry<AudioFile>>, total: nat, i: nat): Segment
    requires total > 0 && i < |m|
  {
    var w := SegmentWidth(|m[i].value.samples|, total);
    Segment(Share(SamplesBefore(m, i), total), w, Waveform(m[i].value.samples, w))
  }

  /** The `processed-segment` events for the first `k` entries. */
  function Segments(m: seq<Entry<AudioFile>>, total: nat, k: nat): (r: seq<JobEvent>)
    requires total > 0 && k <= |m|
    ensures |r| == k
    ensures forall i :: 0 <= i < k ==> r[i] == ProcessedSegment(SegmentOf(m, total, i))
  {
    if k == 0 then [] else Segments(m, total, k - 1) + [ProcessedSegment(SegmentOf(m, total, k - 1))]
  }

  /** The first position in `lo..hi` at which the cancel flag is seen set, or `hi`. */
  function FirstTrue(polls: seq<bool>, lo: nat, hi: nat): (r: nat)
    requires lo <= hi <= |polls|
    ensures lo <= r <= hi
    ensures r < hi ==> polls[r]
    ensures forall j :: lo <= j < r ==> !polls[j]
  {
    if hi == lo then lo
    else
      var r := FirstTrue(polls, lo, hi - 1);
      if r < hi - 1 then r else if polls[hi - 1] then hi - 1 else hi
  }

  /** The second pass: one segment per entry until the flag is seen set, then the
      empty result, or `combine-complete` when it never is. */
  function SecondPass(m: seq<Entry<AudioFile>>, polls: seq<bool>, total: nat): seq<JobEvent>
    requires |polls| == 2 * |m| && total > 0
  {
    var n := |m|;
    var c := FirstTrue(polls, n, 2 * n);
    Segments(m, total, c - n) + (if c < 2 * n then [EmptyResult] else [CombineComplete])
  }

  /** Everything the job emits over the cache `m`. `polls[i]` is the value of the
      cancel flag read before entry `i` of the first pass, `polls[|m| + i]` the one
      read before entry `i` of the second: a `cancel_combine` running beside the
      job is visible only through these reads. */
  function JobEvents(m: seq<Entry<AudioFile>>, polls: seq<bool>): seq<JobEvent>
    requires |polls| == 2 * |m|
  {
    var n := |m|;
    if FirstTrue(polls, 0, n) < n then [EmptyResult]
    else
      var total := SampleCount(m);
      [TotalLength(total as real / SampleRate as real)]
        + if total == 0 then [EmptyResult] else SecondPass(m, polls, total)
  }

  /** The job's first pass: totals the cached samples, unless the flag is seen
      set before some entry. */
  method CountSamples(m: seq<Entry<AudioFile>>, polls: seq<bool>) returns (total: nat, cancelled: bool)
    requires |polls| == 2 * |m|
    ensures cancelled <==> FirstTrue(polls, 0, |m|) < |m|
    ensures !cancelled ==> total == SampleCount(m)
  {
    total := 0;
    for i := 0 to |m|
      invariant total == SampleCount(m[..i])
      invariant FirstTrue(polls, 0, i) == i
    {
      if polls[i] {
        return total, true;
      }
      assert m[..i + 1][..i] == m[..i];
      total := total + |m[i].value.samples|;
    }
    assert m[..|m|] == m;
    cancelled := false;
  }

  /** The job's second pass: walks the entries with a running sample offset and
      emits each one's segment, unless the flag is seen set before it. */
  method EmitSegments(m: seq<Entry<AudioFile>>, polls: seq<bool>, total: nat) returns (events: seq<JobEvent>)
    requires |polls| == 2 * |m| && total > 0
    ensures events == SecondPass(m, polls, total)
  {
    var n := |m|;
    events := [];
    var current := 0;
    for i := 0 to n
      invariant current == SamplesBefore(m, i)
      invariant FirstTrue(polls, n, n + i) == n + i
      invariant events == Segments(m, total, i)
    {
      if polls[n + i] {
        events := events + [EmptyResult];
        return;
      }
      var samples := m[i].value.samples;
      var width := SegmentWidth(|samples|, total);
      var xOffset := Share(current, total);
      var cols := GenerateWaveformPath(samples, width);
      events := events + [ProcessedSegment(Segment(xOffset, width, cols))];
      SampleCountAppend(m, i);
      current := current + |samples|;
    }
    events := events + [CombineComplete];
  }

  /** `combine_all_cached_samples`, with the spawned thread run to completion. The
      command itself answers at once with a fixed text; the thread clears the
      cancel flag, then reads the cache and emits its events. It writes neither the
      cache nor `combined_audio`. */
  method CombineAllCachedSamples(state: AppState, polls: seq<bool>)
    returns (r: Result<string, Error>, events: seq<JobEvent>)
    requires |polls| == 2 * |state.audioFiles|
    modifies state`cancelFlag
    ensures !state.cancelFlag
    ensures r == Success("⏳ Combining started in background thread")
    ensures events == JobEvents(state.audioFiles, polls)
  {
    r := Success("⏳ Combining started in background thread");
    state.cancelFlag := false;
    var m := state.audioFiles;
    var total, cancelled := CountSamples(m, polls);
    if cancelled {
      events := [EmptyResult];
      return;
    }
    events := [TotalLength(total as real / SampleRate as real)];
    if total == 0 {
      events := events + [EmptyResult];
      return;
    }
    var rest := EmitSegments(m, polls, total);
    events := events + rest;
  }

  /** `cancel_combine`: sets the flag the job polls. */
  method CancelCombine(state: AppState) returns (r: Result<(), Error>)
    modifies state`cancelFlag
    ensures state.cancelFlag && r == Success(())
  {
    state.cancelFlag := true;
    r := Success(());
  }

  /** A cancellation seen in the first pass ends the job with the empty result
      alone: no length, no segment, no completion. */
  lemma JobCancelledEarly(m: seq<Entry<AudioFile>>, polls: seq<bool>, i: nat)
    requires |polls| == 2 * |m| && i < |m| && polls[i]
    ensures JobEvents(m, polls) == [EmptyResult]
  {
  }

  /** An empty cache (or one holding no samples) yields a zero length and the empty
      result, and never a segment. */
  lemma JobWithoutSamples(m: seq<Entry<AudioFile>>, polls: seq<bool>)
    requires |polls| == 2 * |m| && SampleCount(m) == 0
    ensures JobEvents(m, polls) == [TotalLength(0.0), EmptyResult] || JobEvents(m, polls) == [EmptyResult]
    ensures FirstTrue(polls, 0, |m|) == |m| ==> JobEvents(m, polls) == [TotalLength(0.0), EmptyResult]
  {
  }

  /** `combine-complete` is emitted exactly when there are samples and no poll of
      either pass saw the flag set; the job then emits one segment per entry, in
      key order. */
  lemma JobCompletesIff(m: seq<Entry<AudioFile>>, polls: seq<bool>)
    requires |polls| == 2 * |m|
    ensures var ev := JobEvents(m, polls);
      (|ev| > 0 && ev[|ev| - 1] == CombineComplete)
        <==> (SampleCount(m) > 0 && forall j :: 0 <= j < 2 * |m| ==> !polls[j])
    ensures SampleCount(m) > 0 && (forall j :: 0 <= j < 2 * |m| ==> !polls[j]) ==>
      JobEvents(m, polls) == [TotalLength(SampleCount(m) as real / SampleRate as real)]
        + Segments(m, SampleCount(m), |m|) + [CombineComplete]
  {
    var n := |m|;
    var ev := JobEvents(m, polls);
    if (|ev| > 0 && ev[|ev| - 1] == CombineComplete) {
      var c1 := FirstTrue(polls, 0, n);
      var c2 := FirstTrue(polls, n, 2 * n);
      assert c1 == n && SampleCount(m) > 0 && c2 == 2 * n;
      forall j | 0 <= j < 2 * n ensures !polls[j] {
        if j >= n { assert n <= j < c2; }
      }
    }
  }

  // Layout: the segment offsets tile the timeline.

  lemma {:induction false} SampleCountAppend(m: seq<Entry<AudioFile>>, i: nat)
    requires i < |m|
    ensures SamplesBefore(m, i + 1) == SamplesBefore(m, i) + |m[i].value.samples|
  {
    assert m[..i + 1][..i] == m[..i];
  }

  lemma {:induction false} SamplesBeforeMonotone(m: seq<Entry<AudioFile>>, i: nat, j: nat)
    requires i <= j <= |m|
    ensures SamplesBefore(m, i) <= SamplesBefore(m, j)
  {
    if i < j {
      SamplesBeforeMonotone(m, i, j - 1);
      SampleCountAppend(m, j - 1);
    }
  }

  lemma ShareMonotone(a: nat, b: nat, total: nat)
    requires a <= b && total > 0
    ensures Share(a, total) <= Share(b, total)
  {
    var t := total as real;
    assert a as real / t <= b as real / t;
  }

  lemma ShareAdd(a: nat, b: nat, total: nat)
    requires total > 0
    ensures Share(a + b, total) == Share(a, total) + Share(b, total)
  {
    var t := total as real;
    assert (a + b) as real / t == a as real / t + b as real / t;
  }

  /** The first segment starts at the left edge. */
  lemma FirstOffsetZero(m: seq<Entry<AudioFile>>, total: nat)
    requires total > 0 && |m| > 0
    ensures SegmentOf(m, total, 0).xOffset == 0.0
  {
    assert m[..0] == [];
  }

  /** Later entries never start to the left of earlier ones. */
  lemma OffsetsNondecreasing(m: seq<Entry<AudioFile>>, total: nat, i: nat, j: nat)
    requires total > 0 && i <= j < |m|
    ensures SegmentOf(m, total, i).xOffset <= SegmentOf(m, total, j).xOffset
  {
    SamplesBeforeMonotone(m, i, j);
    ShareMonotone(SamplesBefore(m, i), SamplesBefore(m, j), total);
  }

  /** Each segment starts where the exact share of the one before it ends. */
  lemma OffsetsTile(m: seq<Entry<AudioFile>>, total: nat, j: nat)
    requires total > 0 && j + 1 < |m|
    ensures SegmentOf(m, total, j + 1).xOffset == SegmentOf(m, total, j).xOffset + Share(|m[j].value.samples|, total)
  {
    SampleCountAppend(m, j);
    ShareAdd(SamplesBefore(m, j), |m[j].value.samples|, total);
  }

  /** Over the cache's own total, the running offset ends at the total and every
      segment starts inside the timeline `[0, 1000]`. */
  lemma OffsetsInTimeline(m: seq<Entry<AudioFile>>, j: nat)
    requires SampleCount(m) > 0 && j < |m|
    ensures SamplesBefore(m, |m|) == SampleCount(m)
    ensures 0.0 <= SegmentOf(m, SampleCount(m), j).xOffset <= FullWidth as real
  {
    var total := SampleCount(m);
    assert m[..|m|] == m;
    SamplesBeforeMonotone(m, j, |m|);
    ShareBounds(SamplesBefore(m, j), total);
  }

  lemma ShareBounds(part: nat, total: nat)
    requires 0 < total && part <= total
    ensures 0.0 <= Share(part, total) <= FullWidth as real
  {
    FractionInUnitRange(part, total);
    ProductBounds(FullWidth as real, part as real / total as real);
  }

  lemma ProductBounds(w: real, f: real)
    requires w >= 0.0 && 0.0 <= f <= 1.0
    ensures 0.0 <= w * f <= w
  {
    assert w - w * f == w * (1.0 - f);
  }

  // ---------------------------------------------------------------------------
  // One-shot combination: `combine_audio_files`
  // ---------------------------------------------------------------------------

  /** `CombineAudioResult`: the output path and the waveform of the whole result. */
  datatype CombineAudioResult = CombineAudioResult(output: string, waveform: seq<Column>)

  /** The stream `combine_audio_files` and `export_combined_audio_as_wav` write. */
  const StereoWav: Media.WavSpec := Media.WavSpec(2, 44100, 16, Media.Int)

  /** The first position whose decoding fails, or `|decoded|`. */
  function FirstError(decoded: seq<Result<seq<Sample>, Error>>, n: nat): (f: nat)
    requires n <= |decoded|
    ensures f <= n
    ensures f < n ==> decoded[f].Failure?
    ensures forall j :: 0 <= j < f ==> decoded[j].Success?
  {
    if n == 0 then 0
    else
      var f := FirstError(decoded, n - 1);
      if f < n - 1 then f else if decoded[n - 1].Failure? then n - 1 else n
  }

  /** The decoded samples of the first `n` inputs, concatenated in input order. */
  function Concat(decoded: seq<Result<seq<Sample>, Error>>, n: nat): seq<Sample>
    requires n <= |decoded| && forall j :: 0 <= j < n ==> decoded[j].Success?
  {
    if n == 0 then [] else Concat(decoded, n - 1) + decoded[n - 1].value
  }

  /** The progress values `(i + 1) / n` reported after each of the first `k` inputs. */
  function ProgressAfter(k: nat, n: nat): (p: seq<real>)
    requires k <= n
    ensures |p| == k
    ensures forall i :: 0 <= i < k ==> 0.0 < p[i] <= 1.0
    ensures k > 0 ==> p[k - 1] == k as real / n as real
  {
    if k == 0 then [] else ProgressAfter(k - 1, n) + [Step(k, n)]
  }

  function Step(x: nat, n: nat): (f: real)
    requires 0 < x <= n
    ensures 0.0 < f <= 1.0 && f == x as real / n as real
  {
    FractionInUnitRange(x, n);
    x as real / n as real
  }

  /** `x / n` for `0 <= x <= n` lies in `[0, 1]`, and is positive when `x` is. */
  lemma FractionInUnitRange(x: nat, n: nat)
    requires 0 < n && x <= n
    ensures 0.0 <= x as real / n as real <= 1.0
    ensures 0 < x ==> 0.0 < x as real / n as real
  {
    var a := x as real;
    var t := n as real;
    var q := a / t;
    assert q * t == a;
    assert (1.0 - q) * t == t - a;
    FactorSign(q, t);
    FactorSign(1.0 - q, t);
  }

  lemma FactorSign(y: real, t: real)
    requires t > 0.0
    ensures y * t >= 0.0 ==> y >= 0.0
    ensures y * t > 0.0 ==> y > 0.0
  {
  }

  /** `combine_audio_files`: decodes the inputs in order, reporting progress after
      each, stops at the first decoding error; then writes every sample to a
      stereo 44.1 kHz 16-bit WAV file at `outputPath` and returns the waveform of the
      whole buffer, 1000 pixels wide. `io` says how the file system answers: when the
      file cannot be created nothing changes on disk; when a sample cannot be written
      the file is left unfinished. Every writer error is a `HoundWriteError`. A
      buffer with an odd number of samples is written out in full, and then the
      writer's finaliser refuses it because its last frame lacks a right sample. */
  method CombineAudioFiles(inputFiles: seq<string>, outputPath: string,
                           decoded: seq<Result<seq<Sample>, Error>>, io: Media.WriteOutcome, disk: Media.Disk)
    returns (r: Result<CombineAudioResult, Error>, progress: seq<real>)
    requires |decoded| == |inputFiles|
    modifies disk
    ensures var f := FirstError(decoded, |decoded|);
      && progress == ProgressAfter(f, |inputFiles|)
      && (f < |decoded| ==> r == Failure(decoded[f].error) && disk.files == old(disk.files))
      && (f == |decoded| && io.CreateFailed? ==>
            r == Failure(Error.HoundWriteError(io.message)) && disk.files == old(disk.files))
      && (f == |decoded| && io.WriteFailed? ==>
            r == Failure(Error.HoundWriteError(io.message)) && disk.files == old(disk.files)[outputPath := Media.Unfinished])
      && (f == |decoded| && io.Written? && !Media.WholeFrames(StereoWav, Concat(decoded, f)) ==>
            r == Failure(Error.HoundWriteError(Media.UnfinishedSampleMessage))
            && disk.files == old(disk.files)[outputPath := Media.Unfinished])
      && (f == |decoded| && io.Written? && Media.WholeFrames(StereoWav, Concat(decoded, f)) ==>
            r == Success(CombineAudioResult(outputPath, Waveform(Concat(decoded, f), FullWidth)))
            && disk.files == old(disk.files)[outputPath := Media.WavData(StereoWav, Concat(decoded, f))])
  {
    var all: seq<Sample> := [];
    progress := [];
    for i := 0 to |inputFiles|
      invariant FirstError(decoded, i) == i
      invariant all == Concat(decoded, i)
      invariant progress == ProgressAfter(i, |inputFiles|)
    {
      var outcome := decoded[i];
      if outcome.Failure? {
        r := Failure(outcome.error);
        return;
      }
      all := all + outcome.value;
      progress := progress + [((i + 1) as real / |inputFiles| as real)];
    }
    var written := WriteWav(outputPath, all, io, disk);
    if written.Some? {
      r := Failure(Error.HoundWriteError(written.value));
      return;
    }
    var cols := GenerateWaveformPath(all, FullWidth);
    r := Success(CombineAudioResult(outputPath, cols));
  }

  /** Writes `samples` through hound as stereo 16-bit WAV at `path` and returns the
      writer's error text, if any: creating the file, writing a sample or finalising
      the file can fail, and finalising fails when the samples do not fill whole
      frames. Only a finished file holds the samples. */
  method WriteWav(path: string, samples: seq<Sample>, io: Media.WriteOutcome, disk: Media.Disk)
    returns (failure: Option<string>)
    modifies disk
    ensures io.CreateFailed? ==> failure == Some(io.message) && disk.files == old(disk.files)
    ensures io.WriteFailed? ==> failure == Some(io.message) && disk.files == old(disk.files)[path := Media.Unfinished]
    ensures io.Written? && !Media.WholeFrames(StereoWav, samples) ==>
      failure == Some(Media.UnfinishedSampleMessage) && disk.files == old(disk.files)[path := Media.Unfinished]
    ensures io.Written? && Media.WholeFrames(StereoWav, samples) ==>
      failure == None && disk.files == old(disk.files)[path := Media.WavData(StereoWav, samples)]
  {
    match io
    case CreateFailed(m) =>
      failure := Some(m);
    case WriteFailed(m) =>
      disk.Abandon(path);
      failure := Some(m);
    case Written =>
      if Media.WholeFrames(StereoWav, samples) {
        disk.Store(path, Media.WavData(StereoWav, samples));
        failure := None;
      } else {
        disk.Abandon(path);
        failure := Some(Media.UnfinishedSampleMessage);
      }
  }

  /** The concatenation holds every input's samples back to back: its length is
      the sum, and input `j`'s samples sit at the offset of the inputs before it. */
  lemma {:induction false} ConcatLayout(decoded: seq<Result<seq<Sample>, Error>>, n: nat, j: nat)
    requires n <= |decoded| && forall i :: 0 <= i < n ==> decoded[i].Success?
    requires j < n
    ensures var before := |Concat(decoded, j)|;
      before + |decoded[j].value| <= |Concat(decoded, n)|
      && Concat(decoded, n)[before..before + |decoded[j].value|] == decoded[j].value
      && Concat(decoded, n)[..before] == Concat(decoded, j)
  {
    if j < n - 1 {
      ConcatLayout(decoded, n - 1, j);
      var before := |Concat(decoded, j)|;
      var c := Concat(decoded, n - 1);
      assert Concat(decoded, n)[..|c|] == c;
    }
  }

  // ---------------------------------------------------------------------------
  // `export_combined_audio_as_wav`
  // ---------------------------------------------------------------------------

  /** `export_combined_audio_as_wav`: refuses to write when nothing was combined or
      the buffer is empty, otherwise writes the buffer as stereo 16-bit WAV and
      reports the writer's error text, as `WriteWav` describes. */
  method ExportCombinedAudioAsWav(state: AppState, outputPath: string, io: Media.WriteOutcome, disk: Media.Disk)
    returns (r: Result<string, string>)
    modifies disk
    ensures state.combinedAudio.None? ==> r == Failure("No combined audio available")
    ensures state.combinedAudio == Some([]) ==> r == Failure("Combined audio is empty")
    ensures (state.combinedAudio.None? || state.combinedAudio == Some([])) ==> disk.files == old(disk.files)
    ensures state.combinedAudio.Some? && state.combinedAudio.value != [] ==>
      var samples := state.combinedAudio.value;
      && (io.CreateFailed? ==> r == Failure(io.message) && disk.files == old(disk.files))
      && (io.WriteFailed? ==> r == Failure(io.message) && disk.files == old(disk.files)[outputPath := Media.Unfinished])
      && (io.Written? && !Media.WholeFrames(StereoWav, samples) ==>
            r == Failure(Media.UnfinishedSampleMessage) && disk.files == old(disk.files)[outputPath := Media.Unfinished])
      && (io.Written? && Media.WholeFrames(StereoWav, samples) ==>
            r == Success("WAV file successfully saved to " + outputPath)
            && disk.files == old(disk.files)[outputPath := Media.WavData(StereoWav, samples)])
  {
    if state.combinedAudio.None? {
      return Failure("No combined audio available");
    }
    var samples := state.combinedAudio.value;
    if |samples| == 0 {
      return Failure("Combined audio is empty");
    }
    var written := WriteWav(outputPath, samples, io, disk);
    if written.Some? {
      return Failure(written.value);
    }
    r := Success("WAV file successfully saved to " + outputPath);
  }
}

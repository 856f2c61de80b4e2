/** The front end's command timing log and the payload it sends to `update_inputs`
    (src/lib/state/performance.ts). */
module Performance {
  import opened Wrappers
  import Combine
  import Sections

  /** `PerformanceMetric`: how long a command took, and the clock reading (`Date.now()`)
      when it was recorded. */
  datatype PerfMetric = PerfMetric(time: real, timeStamp: int)

  /** How many entries each metric keeps. */
  const Capacity: nat := 100

  /** The keys of `PerformanceState`, one per timed command. */
  const MetricNames: set<string> := {
    "combine_audio_files", "get_metadata", "get_file_paths_in_folder", "pause_sample_preview",
    "play_sample_preview", "update_inputs", "combine_all_cached_samples", "play_timeline_audio",
    "cancel_combine", "pause_timeline_audio", "clear_audio_files", "export_combined_audio_as_wav",
    "get_app_state", "test_async", "export_audio", "open_in_explorer", "update_sorting",
    "combine_all_cached_samples_with_custom_order", "set_timeline_play_position"
  }

  type Store = map<string, seq<PerfMetric>>

  /** `slice(-100)`: the last hundred entries, or all of them when there are fewer. */
  function Last100(s: seq<PerfMetric>): seq<PerfMetric> {
    if |s| > Capacity then s[|s| - Capacity..] else s
  }

  /** `store[metric] ?? []`: a metric never recorded reads as empty. */
  function Previous(store: Store, metric: string): seq<PerfMetric> {
    if metric in store then store[metric] else []
  }

  /** The updater of `setPerfMetric`. */
  function WithMetric(store: Store, metric: string, time: real, now: int): Store {
    store[metric := Last100(Previous(store, metric) + [PerfMetric(time, now)])]
  }

  /** Recording a metric appends it to its list and keeps the last hundred entries: the
      new list has `min(old + 1, 100)` entries and ends with the new one; below capacity
      nothing is dropped, and at capacity exactly the oldest entries go. Every other
      metric is kept as it was. */
  lemma WithMetricSpec(store: Store, metric: string, time: real, now: int)
    ensures var r := WithMetric(store, metric, time, now);
      var prev := Previous(store, metric);
      var entry := PerfMetric(time, now);
      && r.Keys == store.Keys + {metric}
      && |r[metric]| == (if |prev| + 1 < Capacity then |prev| + 1 else Capacity)
      && r[metric][|r[metric]| - 1] == entry
      && (|prev| < Capacity ==> r[metric] == prev + [entry])
      && (|prev| >= Capacity ==> r[metric] == prev[|prev| - Capacity + 1..] + [entry])
      && (forall k :: k in store && k != metric ==> r[k] == store[k])
  {
    var prev := Previous(store, metric);
    var entry := PerfMetric(time, now);
    if |prev| >= Capacity {
      assert (prev + [entry])[|prev| + 1 - Capacity..] == prev[|prev| - Capacity + 1..] + [entry];
    }
  }

  /** No metric holds more than a hundred entries. */
  predicate Bounded(store: Store) {
    forall k :: k in store ==> |store[k]| <= Capacity
  }

  /** The updater of `resetPerformance`: every key of the store, mapped to []. */
  function Cleared(store: Store): Store {
    map k | k in store :: []
  }

  /** Resetting keeps the set of metrics and empties each; recording into a reset store
      leaves just the new entry. */
  lemma ClearedSpec(store: Store, metric: string, time: real, now: int)
    ensures Cleared(store).Keys == store.Keys
    ensures forall k :: k in Cleared(store) ==> Cleared(store)[k] == []
    ensures WithMetric(Cleared(store), metric, time, now)[metric] == [PerfMetric(time, now)]
    ensures Bounded(Cleared(store))
  {
  }

  /** Recording keeps the log bounded. */
  lemma BoundedPreserved(store: Store, metric: string, time: real, now: int)
    requires Bounded(store)
    ensures Bounded(WithMetric(store, metric, time, now))
  {
    WithMetricSpec(store, metric, time, now);
  }

  /** The store after recording `times`, one after another, under the same metric. */
  function Recorded(store: Store, metric: string, times: seq<real>, now: int): Store
    decreases |times|
  {
    if times == [] then store
    else WithMetric(Recorded(store, metric, times[..|times| - 1], now), metric, times[|times| - 1], now)
  }

  /** After `n` recordings of one metric into an empty list, it holds `min(n, 100)`
      entries. */
  lemma {:induction false} RecordedLength(store: Store, metric: string, times: seq<real>, now: int)
    requires Previous(store, metric) == []
    ensures var r := Recorded(store, metric, times, now);
      |Previous(r, metric)| == if |times| < Capacity then |times| else Capacity
  {
    if times != [] {
      var p := Recorded(store, metric, times[..|times| - 1], now);
      RecordedLength(store, metric, times[..|times| - 1], now);
      WithMetricSpec(p, metric, times[|times| - 1], now);
    }
  }

  /** The persisted `performanceStore`. */
  class PerformanceStore {
    var metrics: Store

    /** The initial store: every timed command with an empty list. */
    constructor()
      ensures metrics.Keys == MetricNames && Bounded(metrics)
      ensures forall k :: k in metrics ==> metrics[k] == []
    {
      metrics := map k | k in MetricNames :: [];
    }

    /** `setPerfMetric`, with the clock reading passed in. */
    method SetPerfMetric(metric: string, time: real, now: int)
      modifies this
      ensures metrics == WithMetric(old(metrics), metric, time, now)
      ensures old(Bounded(metrics)) ==> Bounded(metrics)
    {
      if Bounded(metrics) {
        BoundedPreserved(metrics, metric, time, now);
      }
      metrics := WithMetric(metrics, metric, time, now);
    }

    /** `resetPerformance`. */
    method ResetPerformance()
      modifies this
      ensures metrics == Cleared(old(metrics))
    {
      metrics := Cleared(metrics);
    }

    /** `invokeWithPerf`: runs the command (its outcome is given), records how long it
        took whether it resolved or rejected, and returns the outcome as `{ok, value}` or
        `{ok, error}`. The two clock readings and `Date.now()` are parameters. */
    method InvokeWithPerf<T, E>(command: string, outcome: Result<T, E>, start: real, end: real, now: int)
      returns (r: Result<T, E>)
      modifies this
      ensures r == outcome
      ensures metrics == WithMetric(old(metrics), command, end - start, now)
    {
      SetPerfMetric(command, end - start, now);
      r := outcome;
    }
  }

  /** The sends `updateInputs` builds: one per section, with its folder path and the
      paths of its files in order. */
  function SectionSends(ss: seq<Sections.Section>): (r: seq<Combine.SectionSend>)
    ensures |r| == |ss|
    ensures forall i :: 0 <= i < |ss| ==>
      r[i].folderPath == ss[i].folderPath && |r[i].paths| == |ss[i].files|
      && forall j :: 0 <= j < |ss[i].files| ==> r[i].paths[j].path == ss[i].files[j].path
  {
    seq(|ss|, i requires 0 <= i < |ss| =>
      Combine.SectionSend(ss[i].folderPath,
        seq(|ss[i].files|, j requires 0 <= j < |ss[i].files| => Combine.AudioSend(ss[i].files[j].path))))
  }

  /** The paths the back end is asked to keep are exactly the paths of `getAllFiles`. */
  lemma SendsCoverAllFiles(ss: seq<Sections.Section>)
    ensures Combine.DesiredPaths(SectionSends(ss)) == set f | f in Sections.GetAllFiles(ss) :: f.path
  {
    var sends := SectionSends(ss);
    Sections.GetAllFilesSpec(ss);
    forall p | p in Combine.DesiredPaths(sends) ensures p in set f | f in Sections.GetAllFiles(ss) :: f.path {
      var i, j :| 0 <= i < |sends| && 0 <= j < |sends[i].paths| && sends[i].paths[j].path == p;
      assert ss[i].files[j] in ss[i].files;
    }
    forall p | p in (set f | f in Sections.GetAllFiles(ss) :: f.path) ensures p in Combine.DesiredPaths(sends) {
      var f :| f in Sections.GetAllFiles(ss) && f.path == p;
      var i :| 0 <= i < |ss| && f in ss[i].files;
      var j :| 0 <= j < |ss[i].files| && ss[i].files[j] == f;
      assert sends[i].paths[j].path == p;
    }
  }
}

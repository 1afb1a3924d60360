/**
 * `ChartInfoExporter`: an export writes, under `Export--<UTC time>`, the
 * metadata and cleaned values of every valid chart, then prunes old exports
 * down to the retention count. The clock, the chart records and the outcome
 * of each directory removal are inputs; the catalog backup and the YAML copy
 * of `values.json` are not part of this model.
 */
module Export {
  import opened Wrappers
  import opened Strings
  import Sorting
  import opened Timestamps
  import opened Json
  import opened BaseManager
  import ApiFetch
  import BackupCreate
  import BackupManager

  /** The export root's name: `Export--` and the UTC time as `%Y-%m-%d_%H:%M:%S`. */
  function ExportRootName(t: Timestamp): (r: string)
    requires Fits(t)
    ensures |r| == 27 && StartsWith(r, ExportPrefix)
  {
    ExportPrefix + Format(t)
  }

  /** The time written into an export's name is the time it is sorted by. */
  lemma ExportRootStamp(t: Timestamp)
    requires Valid(t)
    ensures ExportStamp(ExportRootName(t)) == Some(t)
  {
    var f := Format(t);
    FormatNoLetter(t);
    assert ExportPrefix[0] == 'E';
    AbsentHead(f, ExportPrefix);
    ReplacePrefixGone(ExportPrefix, f);
    ParseFormat(t);
  }

  // ---------------------------------------------------------------- export

  /** What is written for one chart: the directory, the metadata record and the cleaned values. */
  datatype Written = Written(app: string, metadata: Value, values: Value)

  function WrittenFor(app: string, chart: Option<Value>): (w: Written)
    ensures w.app == app && BackupCreate.NoIxKeys(w.values)
  {
    Written(app,
            BackupCreate.MetadataRecord(app, ApiFetch.ChartName(chart), ApiFetch.Catalog(chart),
                                        ApiFetch.Train(chart), ApiFetch.Version(chart)),
            BackupCreate.WrittenValues(ApiFetch.Config(chart), true))
  }

  /** The charts an export writes, in release order: every valid one, none of the others. */
  function Exported(releases: seq<string>, chartOf: string -> Option<Value>): (r: seq<Written>)
    ensures forall w :: w in r ==> w.app in releases && ApiFetch.IsValid(chartOf(w.app)) && w == WrittenFor(w.app, chartOf(w.app))
    ensures forall a :: a in releases && ApiFetch.IsValid(chartOf(a)) ==> WrittenFor(a, chartOf(a)) in r
    decreases |releases|
  {
    if releases == [] then []
    else
      var app := releases[|releases| - 1];
      var rest := Exported(releases[..|releases| - 1], chartOf);
      assert releases == releases[..|releases| - 1] + [app];
      if ApiFetch.IsValid(chartOf(app)) then rest + [WrittenFor(app, chartOf(app))] else rest
  }

  /**
   * The per-app loop of `export`: every app gets a directory under `charts/`;
   * an invalid chart is then skipped, a valid one gets its metadata and its
   * values cleaned of `ix` keys.
   */
  method ExportCharts(releases: seq<string>, chartOf: string -> Option<Value>)
    returns (dirs: seq<string>, written: seq<Written>)
    ensures |dirs| == |releases| && forall k :: 0 <= k < |dirs| ==> dirs[k] == "charts/" + releases[k]
    ensures written == Exported(releases, chartOf)
  {
    dirs := [];
    written := [];
    for i := 0 to |releases|
      invariant |dirs| == i && forall k :: 0 <= k < i ==> dirs[k] == "charts/" + releases[k]
      invariant written == Exported(releases[..i], chartOf)
    {
      var app := releases[i];
      dirs := dirs + ["charts/" + app];
      assert releases[..i + 1][..i] == releases[..i];
      var chart := chartOf(app);
      if !ApiFetch.IsValid(chart) {
        continue;
      }
      written := written + [WrittenFor(app, chart)];
    }
    assert releases[..|releases|] == releases;
  }

  /** The metadata written for an app names it as the release, with the chart's own fields. */
  lemma ExportedRecord(releases: seq<string>, chartOf: string -> Option<Value>, w: Written)
    requires w in Exported(releases, chartOf)
    ensures Get(w.metadata, "release_name") == Some(Str(w.app))
    ensures Get(w.metadata, "chart_name") == Some(Str(ApiFetch.ChartName(chartOf(w.app))))
    ensures Get(w.metadata, "version") == Some(Str(ApiFetch.Version(chartOf(w.app))))
  {
    var c := chartOf(w.app);
    BackupCreate.MetadataFields(w.app, ApiFetch.ChartName(c), ApiFetch.Catalog(c), ApiFetch.Train(c), ApiFetch.Version(c));
  }

  // ---------------------------------------------------------------- _cleanup_old_exports

  /** The ascending comparison `sorted` uses: `a` may come before `b` when it is no newer. */
  function OlderFirst(stamp: string -> Timestamp): (string, string) -> bool {
    (a: string, b: string) => Le(stamp(a), stamp(b))
  }

  lemma OlderFirstOrder(stamp: string -> Timestamp)
    ensures Sorting.TotalPreorder(OlderFirst(stamp))
  {
    LeOrder();
  }

  /**
   * The exports `_cleanup_old_exports` removes: the `Export--` directories
   * sorted oldest first, all but the newest `retention` of them when there
   * are more. A name whose time does not parse makes the sort raise.
   */
  function CleanupTargets(entries: seq<(string, bool)>, retention: int): (r: Result<seq<string>>)
    ensures r.Ok? <==> AllStamped(ExportCandidates(entries), ExportStamp)
    ensures r.Ok? ==> forall x :: x in r.value ==> (x, true) in entries && StartsWith(x, ExportPrefix)
  {
    var c := ExportCandidates(entries);
    if !AllStamped(c, ExportStamp) then Err("time data does not match format '%Y-%m-%d_%H:%M:%S'")
    else
      var sorted := Sorting.SortBy(c, OlderFirst(ExportKey));
      var r := Sorting.RetentionSlice(sorted, retention);
      assert forall x :: x in r ==> x in multiset(sorted);
      Ok(r)
  }

  /** Every removed export is no newer than every kept one, and exactly `retention` are kept when there are more. */
  lemma CleanupRemovesOldest(entries: seq<(string, bool)>, retention: int)
    requires CleanupTargets(entries, retention).Ok?
    ensures var sorted := Sorting.SortBy(ExportCandidates(entries), OlderFirst(ExportKey));
            var r := CleanupTargets(entries, retention).value;
            r <= sorted
            && (forall i, j :: 0 <= i < |r| <= j < |sorted| ==> Le(ExportKey(sorted[i]), ExportKey(sorted[j])))
            && (0 < retention < |sorted| ==> |sorted| - |r| == retention)
  {
    var sorted := Sorting.SortBy(ExportCandidates(entries), OlderFirst(ExportKey));
    OlderFirstOrder(ExportKey);
    Sorting.SortBySorted(ExportCandidates(entries), OlderFirst(ExportKey));
    Sorting.RetentionRemovesOldest(sorted, retention, OlderFirst(ExportKey));
  }

  /** Retention `0` removes no export here, while `delete_old_exports` removes every one. */
  lemma RetentionZeroContrast(entries: seq<(string, bool)>, exports: seq<string>)
    requires AllStamped(ExportCandidates(entries), ExportStamp)
    ensures CleanupTargets(entries, 0) == Ok([])
    ensures BackupManager.OldExports(exports, 0) == exports
  {
    BackupManager.RetentionZeroRemovesAll(exports);
  }

  function Fails(removeOk: string -> bool): string -> bool {
    x => !removeOk(x)
  }

  /**
   * The deletion loop of `_cleanup_old_exports`: a failed `shutil.rmtree` is
   * logged and the loop goes on, so every target is attempted.
   */
  method RemoveExports(targets: seq<string>, removeOk: string -> bool) returns (removed: seq<string>, failed: seq<string>)
    ensures removed == Sorting.Filter(targets, removeOk)
    ensures failed == Sorting.Filter(targets, Fails(removeOk))
  {
    removed := [];
    failed := [];
    for i := 0 to |targets|
      invariant removed == Sorting.Filter(targets[..i], removeOk)
      invariant failed == Sorting.Filter(targets[..i], Fails(removeOk))
    {
      var target := targets[i];
      Sorting.FilterNext(targets, i, removeOk);
      Sorting.FilterNext(targets, i, Fails(removeOk));
      assert Fails(removeOk)(target) == !removeOk(target);
      if removeOk(target) {
        removed := removed + [target];
      } else {
        failed := failed + [target];
      }
    }
    assert targets[..|targets|] == targets;
    FailsPartition(targets, removeOk);
  }

  lemma FailsPartition(targets: seq<string>, removeOk: string -> bool)
    ensures |Sorting.Filter(targets, removeOk)| + |Sorting.Filter(targets, Fails(removeOk))| == |targets|
  {
    Sorting.FilterPartition(targets, removeOk, Fails(removeOk));
    assert |multiset(Sorting.Filter(targets, removeOk))| == |Sorting.Filter(targets, removeOk)|;
  }

  /** `_cleanup_old_exports`: `raised` when the sort raises, otherwise the exports removed and those that failed. */
  method CleanupOldExports(entries: seq<(string, bool)>, retention: int, removeOk: string -> bool)
    returns (raised: bool, removed: seq<string>, failed: seq<string>)
    ensures raised <==> CleanupTargets(entries, retention).Err?
    ensures raised ==> removed == [] && failed == []
    ensures !raised ==> removed == Sorting.Filter(CleanupTargets(entries, retention).value, removeOk)
                        && failed == Sorting.Filter(CleanupTargets(entries, retention).value, Fails(removeOk))
  {
    var targets := CleanupTargets(entries, retention);
    if targets.Err? {
      return true, [], [];
    }
    raised := false;
    removed, failed := RemoveExports(targets.value, removeOk);
  }
}

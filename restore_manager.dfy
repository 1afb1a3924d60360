/**
 * `RestoreManager`: choosing the backup to restore, deleting the backups
 * newer than it (their datasets and the snapshots named after them) after a
 * confirmation, the gate in front of the full restore, and choosing a chart
 * by number, and the dispatch of the interactive restore. Prompt answers are
 * parameters.
 */
module RestoreManager {
  import opened Wrappers
  import opened Strings
  import Sorting
  import opened BaseManager
  import opened Paths
  import opened ZfsCache
  import opened ZfsLifecycle
  import opened ZfsSnapshot

  /** The index of the first full backup (newest first) whose path ends with `name`. */
  function RestoreIndex(full: seq<string>, name: string): (r: Option<nat>)
    ensures r.Some? ==> r.value < |full| && EndsWith(full[r.value], name)
                        && forall k :: 0 <= k < r.value ==> !EndsWith(full[k], name)
    ensures r.None? ==> forall k :: 0 <= k < |full| ==> !EndsWith(full[k], name)
  {
    FirstEnding(full, name, 0)
  }

  function FirstEnding(full: seq<string>, name: string, i: nat): (r: Option<nat>)
    requires i <= |full|
    ensures r.Some? ==> i <= r.value < |full| && EndsWith(full[r.value], name)
                        && forall k :: i <= k < r.value ==> !EndsWith(full[k], name)
    ensures r.None? ==> forall k :: i <= k < |full| ==> !EndsWith(full[k], name)
    decreases |full| - i
  {
    if i == |full| then None
    else if EndsWith(full[i], name) then Some(i)
    else FirstEnding(full, name, i + 1)
  }

  /** The backups newer than the target: those before it in newest-first order. */
  function Newer(full: seq<string>, name: string): (r: seq<string>)
    ensures RestoreIndex(full, name).Some? ==> r == full[..RestoreIndex(full, name).value]
    ensures RestoreIndex(full, name).None? ==> r == []
  {
    match RestoreIndex(full, name)
    case None => []
    case Some(i) => full[..i]
  }

  /** `remove_newer_backups` returns True iff the target exists and, when it is not the newest, the answer is yes. */
  predicate RemovalProceeds(full: seq<string>, name: string, answer: string) {
    RestoreIndex(full, name).Some? && (RestoreIndex(full, name).value == 0 || IsYes(answer))
  }

  /**
   * `delete_dataset` of `backup` goes through over a cache holding `datasets`
   * and `snapshots`: the dataset is cached, and each of its own snapshots and
   * then the dataset itself are destroyed.
   */
  predicate DatasetDeleted(datasets: set<string>, snapshots: set<string>, backup: string, zfsOk: string -> bool) {
    && backup in datasets
    && (forall s :: s in snapshots && StartsWith(s, backup + "@") ==> zfsOk(DestroyCommand(s)))
    && zfsOk(DestroyRecursiveCommand(backup))
  }

  /** `delete_snapshots` of the backup's name destroys the snapshot `s`. */
  predicate NamedDeleted(s: string, backup: string, zfsOk: string -> bool) {
    EndsWith(s, "@" + BaseName(backup)) && zfsOk(DestroyCommand(s))
  }

  /** A snapshot the deletion of `backup` may destroy: one of the dataset's own, or one named after the backup. */
  predicate OwnedBy(s: string, backup: string) {
    StartsWith(s, backup + "@") || EndsWith(s, "@" + BaseName(backup))
  }

  /**
   * `remove_newer_backups`: for each newer backup, in order, its dataset is
   * deleted and then every snapshot named after it. Nothing is deleted when
   * the target is missing, is the newest, or the answer is not yes. Each
   * newer backup whose deletion goes through leaves the cache together with
   * its own snapshots; every snapshot named after one of them whose destroy
   * succeeds goes; nothing else is removed.
   */
  method RemoveNewerBackups(lifecycle: LifecycleManager, snapshots: SnapshotManager, full: seq<string>,
                            name: string, answer: string, zfsOk: string -> bool, zfsErr: string -> string)
    returns (ok: bool, processed: seq<string>)
    requires lifecycle.cache == snapshots.cache
    modifies lifecycle.cache
    ensures ok <==> RemovalProceeds(full, name, answer)
    ensures processed == if ok then Newer(full, name) else []
    ensures processed == [] ==> lifecycle.cache.datasets == old(lifecycle.cache.datasets)
                                && lifecycle.cache.snapshots == old(lifecycle.cache.snapshots)
    ensures lifecycle.cache.datasets <= old(lifecycle.cache.datasets)
    ensures lifecycle.cache.snapshots <= old(lifecycle.cache.snapshots)
    ensures forall d :: d in old(lifecycle.cache.datasets) && d !in processed ==> d in lifecycle.cache.datasets
    ensures forall b :: b in processed && DatasetDeleted(old(lifecycle.cache.datasets), old(lifecycle.cache.snapshots), b, zfsOk)
              ==> b !in lifecycle.cache.datasets
                  && forall s :: s in old(lifecycle.cache.snapshots) && StartsWith(s, b + "@") ==> s !in lifecycle.cache.snapshots
    ensures forall b, s :: b in processed && s in old(lifecycle.cache.snapshots) && NamedDeleted(s, b, zfsOk)
              ==> s !in lifecycle.cache.snapshots
    ensures forall s :: s in old(lifecycle.cache.snapshots) && s !in lifecycle.cache.snapshots
              ==> zfsOk(DestroyCommand(s)) && exists b :: b in processed && OwnedBy(s, b)
  {
    var index := RestoreIndex(full, name);
    if index.None? {
      return false, [];
    }
    var i := index.value;
    if i > 0 {
      if !IsYes(answer) {
        return false, [];
      }
      var newer := full[..i];
      RemoveAll(lifecycle, snapshots, newer, zfsOk, zfsErr);
      return true, newer;
    }
    return true, [];
  }

  /** The deletion loop of `remove_newer_backups` over `newer`, in order. */
  method RemoveAll(lifecycle: LifecycleManager, snapshots: SnapshotManager, newer: seq<string>,
                   zfsOk: string -> bool, zfsErr: string -> string)
    requires lifecycle.cache == snapshots.cache
    modifies lifecycle.cache
    ensures lifecycle.cache.datasets <= old(lifecycle.cache.datasets)
    ensures lifecycle.cache.snapshots <= old(lifecycle.cache.snapshots)
    ensures forall d :: d in old(lifecycle.cache.datasets) && d !in newer ==> d in lifecycle.cache.datasets
    ensures forall b :: b in newer && DatasetDeleted(old(lifecycle.cache.datasets), old(lifecycle.cache.snapshots), b, zfsOk)
              ==> b !in lifecycle.cache.datasets
                  && forall s :: s in old(lifecycle.cache.snapshots) && StartsWith(s, b + "@") ==> s !in lifecycle.cache.snapshots
    ensures forall b, s :: b in newer && s in old(lifecycle.cache.snapshots) && NamedDeleted(s, b, zfsOk)
              ==> s !in lifecycle.cache.snapshots
    ensures forall s :: s in old(lifecycle.cache.snapshots) && s !in lifecycle.cache.snapshots
              ==> zfsOk(DestroyCommand(s)) && exists b :: b in newer && OwnedBy(s, b)
  {
    var cache := lifecycle.cache;
    ghost var datasets0, snapshots0 := cache.datasets, cache.snapshots;
    for k := 0 to |newer|
      invariant cache.datasets <= datasets0 && cache.snapshots <= snapshots0
      invariant forall d :: d in datasets0 && d !in newer[..k] ==> d in cache.datasets
      invariant forall b :: b in newer[..k] && DatasetDeleted(datasets0, snapshots0, b, zfsOk)
                  ==> b !in cache.datasets
                      && forall s :: s in snapshots0 && StartsWith(s, b + "@") ==> s !in cache.snapshots
      invariant forall b, s :: b in newer[..k] && s in snapshots0 && NamedDeleted(s, b, zfsOk) ==> s !in cache.snapshots
      invariant forall s :: s in snapshots0 && s !in cache.snapshots
                  ==> zfsOk(DestroyCommand(s)) && exists b :: b in newer[..k] && OwnedBy(s, b)
    {
      var backup := newer[k];
      RemoveBackup(lifecycle, snapshots, backup, zfsOk, zfsErr);
      assert newer[..k + 1] == newer[..k] + [backup];
    }
    assert newer[..|newer|] == newer;
  }

  /**
   * One backup of the loop: its dataset, then the snapshots named after it.
   * A deletion that goes through removes the dataset and its own snapshots;
   * every snapshot named after the backup whose destroy succeeds goes; no
   * other dataset and no other snapshot is removed.
   */
  method RemoveBackup(lifecycle: LifecycleManager, snapshots: SnapshotManager, backup: string,
                      zfsOk: string -> bool, zfsErr: string -> string)
    requires lifecycle.cache == snapshots.cache
    modifies lifecycle.cache
    ensures lifecycle.cache.datasets
            == if DatasetDeleted(old(lifecycle.cache.datasets), old(lifecycle.cache.snapshots), backup, zfsOk)
               then old(lifecycle.cache.datasets) - {backup} else old(lifecycle.cache.datasets)
    ensures lifecycle.cache.snapshots <= old(lifecycle.cache.snapshots)
    ensures DatasetDeleted(old(lifecycle.cache.datasets), old(lifecycle.cache.snapshots), backup, zfsOk)
            ==> forall s :: s in old(lifecycle.cache.snapshots) && StartsWith(s, backup + "@") ==> s !in lifecycle.cache.snapshots
    ensures forall s :: s in old(lifecycle.cache.snapshots) && NamedDeleted(s, backup, zfsOk) ==> s !in lifecycle.cache.snapshots
    ensures forall s :: s in old(lifecycle.cache.snapshots) && s !in lifecycle.cache.snapshots
              ==> zfsOk(DestroyCommand(s)) && OwnedBy(s, backup)
  {
    var deleted, issued, destroyed := lifecycle.DeleteDataset(backup, zfsOk);
    var errors := snapshots.DeleteSnapshots(BaseName(backup), zfsOk, zfsErr);
  }

  /** The full restore runs only after a first yes and a removal that proceeds. */
  predicate RestoreAllRuns(full: seq<string>, name: string, first: string, second: string) {
    IsYes(first) && RemovalProceeds(full, name, second)
  }

  /**
   * `restore_all`: `first` answers the warning prompt and `second` the
   * deletion prompt of `remove_newer_backups`. `runs` tells whether
   * `RestoreAll` is started.
   */
  method RestoreAllGate(lifecycle: LifecycleManager, snapshots: SnapshotManager, full: seq<string>,
                        name: string, first: string, second: string,
                        zfsOk: string -> bool, zfsErr: string -> string)
    returns (runs: bool)
    requires lifecycle.cache == snapshots.cache
    modifies lifecycle.cache
    ensures runs <==> RestoreAllRuns(full, name, first, second)
    ensures !IsYes(first) ==> lifecycle.cache.datasets == old(lifecycle.cache.datasets)
                              && lifecycle.cache.snapshots == old(lifecycle.cache.snapshots)
  {
    if !IsYes(first) {
      return false;
    }
    var ok, processed := RemoveNewerBackups(lifecycle, snapshots, full, name, second, zfsOk, zfsErr);
    runs := ok;
  }

  /** Declining the first prompt never starts the restore. */
  lemma DeclinedRestoreDoesNotRun(full: seq<string>, name: string, second: string)
    ensures !RestoreAllRuns(full, name, "no", second)
  {
    NoRejected();
  }

  /** When the target is the newest backup, the second answer does not matter. */
  lemma NewestNeedsNoSecondAnswer(full: seq<string>, name: string, first: string, a: string, b: string)
    requires |full| > 0 && EndsWith(full[0], name)
    ensures RestoreAllRuns(full, name, first, a) == RestoreAllRuns(full, name, first, b)
    ensures Newer(full, name) == []
  {
    assert RestoreIndex(full, name) == Some(0);
  }

  // ---------------------------------------------------------------- chart selection

  /** The names of the directory entries that are directories, in listing order. */
  function DirNames(entries: seq<(string, bool)>): (r: seq<string>)
    ensures forall n :: n in r <==> (n, true) in entries
    decreases |entries|
  {
    if entries == [] then []
    else
      assert entries == [entries[0]] + entries[1..];
      (if entries[0].1 then [entries[0].0] else []) + DirNames(entries[1..])
  }

  /**
   * `interactive_select_chart`: nothing without a charts directory or without
   * charts; otherwise the sorted chart names, numbered from 1.
   */
  function SelectChart(chartsDirExists: bool, entries: seq<(string, bool)>, answer: string): (r: Option<string>)
    ensures r.Some? ==> chartsDirExists && (r.value, true) in entries
  {
    if !chartsDirExists then None
    else
      var charts := Sorting.SortStrings(DirNames(entries));
      if charts == [] then None
      else
        var r := SelectNumbered(charts, answer);
        assert r.Some? ==> r.value in multiset(charts);
        r
  }

  /** Entering `n` selects the `n`-th chart name in sorted order, when there is one. */
  lemma SelectChartByNumber(entries: seq<(string, bool)>, n: nat)
    ensures var charts := Sorting.SortStrings(DirNames(entries));
            SelectChart(true, entries, NatToString(n)) == if 1 <= n <= |charts| then Some(charts[n - 1]) else None
  {
    SelectByNumber(Sorting.SortStrings(DirNames(entries)), n);
  }

  /**
   * The app `restore_single` and `import_chart` work on: the app given, or,
   * when none is given (`None` or `''`), the chart chosen at the prompt.
   * `None` means the command stops without restoring or importing.
   */
  function ChartTarget(appName: string, chartsDirExists: bool, entries: seq<(string, bool)>, answer: string): (r: Option<string>)
    ensures appName != "" ==> r == Some(appName)
    ensures appName == "" && r.Some? ==> chartsDirExists && (r.value, true) in entries
    ensures appName == "" && !chartsDirExists ==> r.None?
  {
    if appName != "" then Some(appName) else SelectChart(chartsDirExists, entries, answer)
  }

  // ---------------------------------------------------------------- interactive restore

  datatype Command = RestoreAllCommand(backup: string) | RestoreSingleCommand(backup: string)

  /** The listing `interactive_restore` offers: full backups for the two restores, exports otherwise. */
  function RestoreListing(restoreType: string): string {
    if restoreType == "restore_all" || restoreType == "restore_single" then "full" else "export"
  }

  /**
   * `interactive_restore`: the restore it starts, on the name of the backup
   * selected. Any other restore type selects an export and then starts
   * nothing.
   */
  function InteractiveRestore(restoreType: string, full: seq<string>, exports: seq<string>, answer: string): (r: Option<Command>)
    ensures r.Some? ==> restoreType == "restore_all" || restoreType == "restore_single"
    ensures r.Some? ==> (r.value.RestoreAllCommand? <==> restoreType == "restore_all")
    ensures r.Some? ==> exists k :: 0 <= k < |full| && r.value.backup == BaseName(full[k])
    ensures restoreType == "restore_all" || restoreType == "restore_single" ==>
              (r.Some? <==> SelectBackup("full", full, exports, answer).Some?)
  {
    match SelectBackup(RestoreListing(restoreType), full, exports, answer)
    case None => None
    case Some(b) =>
      if restoreType == "restore_all" then
        assert b in full;
        Some(RestoreAllCommand(BaseName(b)))
      else if restoreType == "restore_single" then
        assert b in full;
        Some(RestoreSingleCommand(BaseName(b)))
      else None
  }

  /** The number shown beside full backup `k` starts the restore of that backup. */
  lemma InteractiveRestoreByNumber(full: seq<string>, exports: seq<string>, k: nat)
    requires k < |full|
    ensures InteractiveRestore("restore_all", full, exports, NatToString(k + 1)) == Some(RestoreAllCommand(BaseName(full[k])))
  {
    SelectByNumber(full, k + 1);
  }
}

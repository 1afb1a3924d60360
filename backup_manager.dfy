/**
 * `BackupManager`: the backup and export commands' sequencing, the removal of snapshots
 * left behind by deleted backups, export retention and deletion by index.
 * `delete_backup`, `delete_old_backups`, the snapshot listing and
 * `delete_snapshot` are not defined in the modelled code: the first two
 * appear as the step or the name they are given, the listing is an input and
 * the deletions are returned rather than performed.
 */
module BackupManager {
  import opened Wrappers
  import opened Strings
  import Sorting
  import opened Timestamps
  import opened BaseManager
  import opened Paths

  datatype Step = RunBackup | CleanupDangling | DeleteOldBackups(retention: int) | RunExport | PruneExports(retention: int)

  /** `backup_all`: the backup, then the dangling-snapshot cleanup, then pruning only when a retention is given. */
  function BackupAllSteps(retention: Option<int>): (r: seq<Step>)
    ensures |r| >= 2 && r[0] == RunBackup && r[1] == CleanupDangling
    ensures retention.None? ==> |r| == 2
    ensures retention.Some? ==> r == [RunBackup, CleanupDangling, DeleteOldBackups(retention.value)]
  {
    [RunBackup, CleanupDangling] + (if retention.Some? then [DeleteOldBackups(retention.value)] else [])
  }

  /** `export_chart_info`: the export, then export pruning only when a retention is given. */
  function ExportChartInfoSteps(retention: Option<int>): (r: seq<Step>)
    ensures |r| >= 1 && r[0] == RunExport
    ensures retention.None? ==> |r| == 1
    ensures retention.Some? ==> r == [RunExport, PruneExports(retention.value)]
  {
    [RunExport] + (if retention.Some? then [PruneExports(retention.value)] else [])
  }

  // ---------------------------------------------------------------- dangling snapshots

  /** `pattern.search(snapshot).group()`: the first `HeavyScript--` timestamp token, as text. */
  function Token(snapshot: string): (r: Option<string>)
    ensures r.Some? ==> |r.value| == 32 && StartsWith(r.value, Prefix)
  {
    match SearchFrom(snapshot, 0)
    case None => None
    case Some(i) =>
      var t := snapshot[i..i + 32];
      assert t[..13] == snapshot[i..i + 13];
      Some(t)
  }

  /** The names of the listed full backups. */
  function BackupNames(full: seq<string>): set<string> {
    set b | b in full :: BaseName(b)
  }

  /** A snapshot is dangling iff it carries a token that names no listed full backup. */
  predicate Dangling(snapshot: string, names: set<string>) {
    Token(snapshot).Some? && Token(snapshot).value !in names
  }

  function DanglingTest(names: set<string>): string -> bool {
    s => Dangling(s, names)
  }

  /**
   * `cleanup_dangling_snapshots`: the snapshots it deletes, in listing order.
   * Snapshots without a token are kept.
   */
  method CleanupDanglingSnapshots(full: seq<string>, snapshots: seq<string>) returns (deleted: seq<string>)
    ensures deleted == Sorting.Filter(snapshots, DanglingTest(BackupNames(full)))
    ensures forall s :: s in deleted <==> s in snapshots && Dangling(s, BackupNames(full))
  {
    var names := BackupNames(full);
    deleted := [];
    for i := 0 to |snapshots|
      invariant deleted == Sorting.Filter(snapshots[..i], DanglingTest(names))
    {
      var snapshot := snapshots[i];
      Sorting.FilterNext(snapshots, i, DanglingTest(names));
      assert DanglingTest(names)(snapshot) == Dangling(snapshot, names);
      if Dangling(snapshot, names) {
        deleted := deleted + [snapshot];
      }
    }
    assert snapshots[..|snapshots|] == snapshots;
  }

  /** A snapshot taken by a listed backup run, `dataset@HeavyScript--<t>`, is not dangling. */
  lemma OwnSnapshotKept(dataset: string, full: seq<string>, k: nat, t: Timestamp)
    requires k < |full| && Valid(t) && BaseName(full[k]) == Prefix + Format(t)
    requires forall j :: 0 <= j <= |dataset| ==> !TokenAt(dataset + "@" + BaseName(full[k]), j)
    ensures !Dangling(dataset + "@" + BaseName(full[k]), BackupNames(full))
  {
    var s := dataset + "@" + BaseName(full[k]);
    var i := |dataset| + 1;
    assert s[i..] == BaseName(full[k]) && |s| == i + 32;
    assert s[i..i + 13] == Prefix;
    assert s[i + 13..i + 32] == Format(t);
    FormatShape(t);
    FirstToken(s, i);
    assert s[i..i + 32] == BaseName(full[k]);
    assert BaseName(full[k]) in BackupNames(full);
  }

  /** A match with none before it is the one `re.search` finds. */
  lemma FirstToken(s: string, i: nat)
    requires TokenAt(s, i) && forall j :: 0 <= j < i ==> !TokenAt(s, j)
    ensures SearchFrom(s, 0) == Some(i)
  {
  }

  /** A snapshot whose token names no listed backup is deleted. */
  lemma ForeignTokenDeleted(full: seq<string>, snapshots: seq<string>, s: string)
    requires s in snapshots && Token(s).Some? && Token(s).value !in BackupNames(full)
    ensures s in Sorting.Filter(snapshots, DanglingTest(BackupNames(full)))
  {
  }

  // ---------------------------------------------------------------- export retention

  /** Python's `items[i:]`, where a negative `i` counts from the end. */
  function SliceFrom<T>(items: seq<T>, i: int): (r: seq<T>)
    ensures |r| <= |items| && r == items[|items| - |r|..]
  {
    if i >= |items| then []
    else if i >= 0 then items[i..]
    else if -i >= |items| then items
    else items[|items| + i..]
  }

  /** The exports `delete_old_exports` removes from the newest-first list. */
  function OldExports(exports: seq<string>, retention: int): seq<string> {
    if |exports| > retention then SliceFrom(exports, retention) else []
  }

  /** A non-negative retention keeps exactly the first (newest) `retention` exports. */
  lemma OldExportsKeepNewest(exports: seq<string>, retention: nat)
    ensures exports[..if retention < |exports| then retention else |exports|] + OldExports(exports, retention) == exports
  {
    if retention < |exports| {
      assert exports[..retention] + exports[retention..] == exports;
    }
  }

  /** Retention `0` removes every export. */
  lemma RetentionZeroRemovesAll(exports: seq<string>)
    ensures OldExports(exports, 0) == exports
  {
  }

  /**
   * `delete_old_exports`: removes the old exports in order; a failed
   * `shutil.rmtree` raises and ends the loop. `removed` are the exports
   * removed before that.
   */
  method DeleteOldExports(exports: seq<string>, retention: int, removeOk: string -> bool)
    returns (removed: seq<string>, raised: bool)
    ensures var targets := OldExports(exports, retention);
            removed <= targets
            && (forall k :: 0 <= k < |removed| ==> removeOk(removed[k]))
            && (raised <==> |removed| < |targets|)
            && (raised ==> !removeOk(targets[|removed|]))
  {
    var targets := OldExports(exports, retention);
    removed := [];
    for i := 0 to |targets|
      invariant removed == targets[..i]
      invariant forall k :: 0 <= k < i ==> removeOk(targets[k])
    {
      if !removeOk(targets[i]) {
        return removed, true;
      }
      removed := removed + [targets[i]];
    }
    assert targets[..|targets|] == targets;
    raised := false;
  }

  /** `delete_backup_by_index`: the name handed to `delete_backup`; nothing for an index outside full++exports. */
  function DeleteByIndexTarget(full: seq<string>, exports: seq<string>, index: int): (r: Option<string>)
    ensures r.Some? <==> 0 <= index < |full| + |exports|
    ensures r.Some? && index < |full| ==> r.value == BaseName(full[index])
    ensures r.Some? && index >= |full| ==> r.value == BaseName(exports[index - |full|])
  {
    var all := full + exports;
    if 0 <= index < |all| then Some(BaseName(all[index])) else None
  }

  /**
   * `interactive_delete_backup`: the name handed to `delete_backup_by_name`,
   * the last component of the backup selected from the combined listing.
   */
  function InteractiveDeleteTarget(full: seq<string>, exports: seq<string>, answer: string): (r: Option<string>)
    ensures r.Some? <==> SelectBackup("all", full, exports, answer).Some?
    ensures r.Some? ==> exists k :: 0 <= k < |full + exports| && r.value == BaseName((full + exports)[k])
  {
    match SelectBackup("all", full, exports, answer)
    case None => None
    case Some(b) =>
      var all := full + exports;
      assert exists k :: 0 <= k < |all| && all[k] == b;
      Some(BaseName(b))
  }

  /**
   * Answering the prompt with the number shown beside entry `k` deletes the
   * same backup as deleting by index `k`.
   */
  lemma InteractiveMatchesIndex(full: seq<string>, exports: seq<string>, k: nat)
    requires k < |full| + |exports|
    ensures InteractiveDeleteTarget(full, exports, NatToString(k + 1)) == DeleteByIndexTarget(full, exports, k)
  {
    SelectByNumber(full + exports, k + 1);
  }
}

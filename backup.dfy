/**
 * `Backup`: the full backup run. The steps that call out to the platform
 * (chart-version copy, namespace, secrets, PVC and CRD backups, database
 * dump, snapshot creation, refer-size query, `zfs send`) are inputs: one
 * `AppEnv` per app gives their outcomes, and a `Platform` gives the cached
 * datasets, the stream settings and the per-snapshot outcomes. The run
 * produces the failure ledger and the trace of snapshot and send operations.
 */
module Backup {
  import opened Wrappers
  import opened Strings
  import Sorting
  import Timestamps
  import opened Ledger
  import ZfsSnapshot

  // ---------------------------------------------------------------- size strings

  /** The multiplier of a size-unit letter: `K`, `M`, `G` and `T` are powers of 1024; lower case is no unit. */
  function UnitFactor(c: char): Option<nat> {
    if c == 'K' then Some(1024)
    else if c == 'M' then Some(1024 * 1024)
    else if c == 'G' then Some(1024 * 1024 * 1024)
    else if c == 'T' then Some(1024 * 1024 * 1024 * 1024)
    else None
  }

  /**
   * The spellings `float` reads as an infinity: after blanks and an optional
   * sign, `inf` or `infinity` in any letter case.
   */
  predicate InfinityText(text: string) {
    var u := Lower(Unsigned(Strip(text)));
    u == "inf" || u == "infinity"
  }

  /**
   * `_size_str_to_bytes`: a trailing unit letter multiplies the number before
   * it, otherwise the whole string is the number; a string that is not a
   * number gives 0. Two failures are not caught: the empty string raises
   * `IndexError`, and an infinity before a unit raises `OverflowError` when
   * it is converted to an integer.
   */
  function SizeStrToBytes(s: string): (r: Result<int>)
    ensures r.Err? <==> s == [] || (UnitFactor(s[|s| - 1]).Some? && InfinityText(s[..|s| - 1]))
  {
    if s == [] then Err("string index out of range")
    else match UnitFactor(s[|s| - 1])
      case Some(factor) =>
        if InfinityText(s[..|s| - 1]) then Err("cannot convert float infinity to integer")
        else
          (match IntLiteral(s[..|s| - 1])
           case Some(n) => Ok(n * factor)
           case None => Ok(0))
      case None =>
        (match IntLiteral(s)
         case Some(n) => Ok(n)
         case None => Ok(0))
  }

  /** A count that starts and ends with a digit is never an infinity. */
  lemma DigitsNotInfinity(s: string)
    requires s != [] && IsDigit(s[0]) && IsDigit(s[|s| - 1])
    ensures !InfinityText(s)
  {
    assert !IsSpace(s[0]) && !IsSpace(s[|s| - 1]);
    PlainStrip(s);
    assert Unsigned(s) == s;
    var u := Lower(s);
    assert u[0] == s[0] && IsDigit(u[0]);
    assert u != "inf" by { assert "inf"[0] == 'i'; }
    assert u != "infinity" by { assert "infinity"[0] == 'i'; }
  }

  /** A decimal count followed by a unit letter is that count times the unit. */
  lemma SizeWithUnit(n: nat, unit: char)
    requires UnitFactor(unit).Some?
    ensures SizeStrToBytes(NatToString(n) + [unit]) == Ok(n * UnitFactor(unit).value)
  {
    var s := NatToString(n) + [unit];
    assert s[..|s| - 1] == NatToString(n);
    DigitsOfNat(n);
    assert IsDigit(NatToString(n)[0]);
    DigitsNotInfinity(NatToString(n));
    DigitsLiteral(NatToString(n));
  }

  /** A plain decimal count is read as a number of bytes. */
  lemma SizePlain(n: nat)
    ensures SizeStrToBytes(NatToString(n)) == Ok(n)
  {
    var s := NatToString(n);
    DigitsOfNat(n);
    assert IsDigit(s[|s| - 1]);
    assert UnitFactor(s[|s| - 1]).None?;
    DigitsLiteral(s);
  }

  /** The default `10G` is ten gibibytes. */
  lemma DefaultMaximum()
    ensures SizeStrToBytes("10G") == Ok(10 * 1024 * 1024 * 1024)
  {
    assert NatToString(10) == "10";
    SizeWithUnit(10, 'G');
    assert NatToString(10) + ['G'] == "10G";
  }

  /** A lower-case unit is not a unit: `int("10k")` raises `ValueError`, so the size is 0. */
  lemma LowerCaseUnitIsZero()
    ensures SizeStrToBytes("10k") == Ok(0)
  {
    var s := "10k";
    assert UnitFactor(s[2]).None?;
    NonDigitEnd(s);
  }

  /** `int(" 10")` is 10: the blank is skipped. */
  lemma PaddedSize(s: string)
    requires |s| == 3 && s[0] == ' ' && s[1] == '1' && s[2] == '0'
    ensures SizeStrToBytes(s) == Ok(10)
  {
    assert UnitFactor(s[2]).None?;
    PaddedTen(s);
  }

  /** `float("1_0")` is 10: an underscore between digits only groups them. */
  lemma GroupedSize(s: string)
    requires |s| == 4 && s[0] == '1' && s[1] == '_' && s[2] == '0' && s[3] == 'G'
    ensures SizeStrToBytes(s) == Ok(10 * 1024 * 1024 * 1024)
  {
    var m := s[..3];
    assert |m| == 3 && m[0] == '1' && m[1] == '_' && m[2] == '0';
    GroupedPair(m, 10);
    DigitsNotInfinity(m);
    assert s[..|s| - 1] == m && UnitFactor(s[|s| - 1]) == Some(1024 * 1024 * 1024);
  }

  /** `float("inf")` times a unit cannot be converted to an integer. */
  lemma InfinityWithUnit(s: string)
    requires |s| == 4 && s[0] == 'i' && s[1] == 'n' && s[2] == 'f' && s[3] == 'G'
    ensures SizeStrToBytes(s).Err?
  {
    var m := s[..3];
    assert |m| == 3 && m[0] == 'i' && m[1] == 'n' && m[2] == 'f';
    PlainStrip(m);
    assert Unsigned(m) == m;
    var u := Lower(m);
    assert |u| == 3 && u[0] == 'i' && u[1] == 'n' && u[2] == 'f';
    assert u == "inf";
    assert InfinityText(m);
    assert s[..|s| - 1] == m && UnitFactor(s[|s| - 1]).Some?;
  }

  /** `int("inf")` raises `ValueError`, so the size is 0. */
  lemma InfinityWithoutUnit(s: string)
    requires |s| == 3 && s[0] == 'i' && s[1] == 'n' && s[2] == 'f'
    ensures SizeStrToBytes(s) == Ok(0)
  {
    assert UnitFactor(s[2]).None?;
    NonDigitEnd(s);
  }

  // ---------------------------------------------------------------- names

  /** The name of every snapshot of one run: `HeavyScript--` and the run's UTC time. */
  function SnapshotName(t: Timestamps.Timestamp): (r: string)
    requires Timestamps.Fits(t)
    ensures |r| == 32 && StartsWith(r, Timestamps.Prefix)
  {
    Timestamps.Prefix + Timestamps.Format(t)
  }

  /** The run's timestamp is read back from the snapshot name it produced. */
  lemma SnapshotNameTimestamp(t: Timestamps.Timestamp)
    requires Timestamps.Valid(t)
    ensures Timestamps.EmbeddedTimestamp(SnapshotName(t)) == Some(t)
  {
    Timestamps.EmbeddedOfName([], t);
    assert [] + Timestamps.Prefix + Timestamps.Format(t) == SnapshotName(t);
  }

  /** `snapshot.replace('/', '%%')`. */
  function Escape(snapshot: string): string {
    ReplaceAll(snapshot, "/", "%%")
  }

  /** The stream file of a snapshot inside the app's backup directory. */
  function StreamFile(appDir: string, snapshot: string): string {
    appDir + "/snapshots/" + Escape(snapshot) + ".zfs"
  }

  /** The escaped name is one path component: it holds no `/`. */
  lemma EscapeIsFlat(snapshot: string)
    ensures '/' !in Escape(snapshot)
  {
    ReplaceCharRemoves(snapshot, '/', "%%");
  }

  /** Unescaping `%%` gives the snapshot back when its name holds no `%`. */
  lemma {:induction false} EscapeInverse(snapshot: string)
    requires '%' !in snapshot
    ensures ReplaceAll(Escape(snapshot), "%%", "/") == snapshot
    decreases |snapshot|
  {
    if snapshot != [] {
      var rest := snapshot[1..];
      EscapeInverse(rest);
      var t := Escape(rest);
      if snapshot[0] == '/' {
        assert Escape(snapshot) == "%%" + t;
        var u := "%%" + t;
        assert u[..2] == "%%" && u[2..] == t;
      } else {
        assert Escape(snapshot) == [snapshot[0]] + t;
        var u := [snapshot[0]] + t;
        if |u| >= 2 {
          assert u[..2] != "%%" by { assert u[0] == snapshot[0]; }
          assert u[1..] == t;
        } else {
          assert t == [] && rest == [];
        }
      }
    }
  }

  /** Snapshots without `%` get distinct stream files. */
  lemma StreamFileInjective(appDir: string, a: string, b: string)
    requires '%' !in a && '%' !in b
    requires StreamFile(appDir, a) == StreamFile(appDir, b)
    ensures a == b
  {
    var fa := StreamFile(appDir, a);
    var n := |appDir + "/snapshots/"|;
    assert |Escape(a)| == |Escape(b)|;
    assert Escape(a) == fa[n..|fa| - 4];
    assert Escape(b) == fa[n..|fa| - 4];
    EscapeInverse(a);
    EscapeInverse(b);
  }

  // ---------------------------------------------------------------- platform datasets

  /**
   * `_backup_application_datasets`' selection: the cached datasets whose name
   * starts with the apps dataset and that are not ignored.
   */
  function PlatformDatasets(datasets: set<string>, root: string, ignore: set<string>): (r: set<string>)
    ensures r <= datasets && r !! ignore
  {
    set d | d in datasets && StartsWith(d, root) && d !in ignore
  }

  /** The prefix test is textual: a sibling that shares the name as a prefix is selected too. */
  lemma SiblingDatasetSelected()
    ensures "tank/ix-applications-old" in PlatformDatasets({"tank/ix-applications-old"}, "tank/ix-applications", {})
  {
    assert StartsWith("tank/ix-applications-old", "tank/ix-applications");
  }

  // ---------------------------------------------------------------- one app

  datatype Op =
    | Snapshot(dataset: string)
    | Send(snapshot: string, file: string)

  /** What the platform answers: cached datasets, stream settings and per-snapshot outcomes. */
  datatype Platform = Platform(
    cached: set<string>,
    streams: bool,
    maxBytes: int,
    snapName: string,
    backupDir: string,
    snapshotOk: string -> bool,
    snapshotMessage: string -> string,
    referSize: string -> int,
    sendOk: string -> bool,
    sendMessage: string -> string)

  /**
   * What the per-app steps return: the outcomes of the chart-version, namespace,
   * secret, CRD and database backups, the PVC errors, the namespace's volume
   * paths (`None` for a volume without a CSI dataset) and the ix_volumes dataset
   * (`""` for none). Three steps can also raise, and nothing in the loop catches
   * it: `backup_namespace` when cleaning the manifest fails (the `Err` of
   * `KubeBackup.BackupNamespace`), `backup_pvcs` when a volume raises (its
   * `raised`), and the database backup when its final `stop_app` fails (the
   * `raised` of `DatabaseBackup.BackupDatabase`).
   */
  datatype AppEnv = AppEnv(
    valid: bool,
    versionOk: bool,
    namespaceOk: bool,
    namespaceRaised: bool,
    secretsOk: bool,
    hasPvc: bool,
    pvcErrors: seq<string>,
    pvcsRaised: bool,
    crdDirExists: bool,
    crdOk: bool,
    isCnpg: bool,
    dbOk: bool,
    dbMessage: string,
    dbRaised: bool,
    volumePaths: seq<Option<string>>,
    ixVolumes: string)

  datatype Step = Step(failures: seq<string>, ops: seq<Op>)

  function Then(a: Step, b: Step): Step {
    Step(a.failures + b.failures, a.ops + b.ops)
  }

  const FetchFailed := "Failed to fetch chart data"

  function AppDir(p: Platform, app: string): string {
    p.backupDir + "/charts/" + app
  }

  /** The stream of one snapshot: sent only when streams are on and its refer size is within the maximum. */
  function StreamStep(p: Platform, snapshot: string, appDir: string): (r: Step)
    ensures r.ops != [] <==> p.streams && p.referSize(snapshot) <= p.maxBytes
    ensures r.ops != [] ==> r.ops == [Send(snapshot, StreamFile(appDir, snapshot))]
    ensures |r.failures| <= 1
  {
    if p.streams && p.referSize(snapshot) <= p.maxBytes then
      Step(if p.sendOk(snapshot) then [] else [p.sendMessage(snapshot)], [Send(snapshot, StreamFile(appDir, snapshot))])
    else Step([], [])
  }

  /** One PVC dataset: existence check, snapshot, then the stream. */
  function DatasetStep(p: Platform, path: string, appDir: string): Step {
    if path !in p.cached then Step([ZfsSnapshot.MissingDataset(path)], [])
    else if !p.snapshotOk(path) then Step([p.snapshotMessage(path)], [Snapshot(path)])
    else Then(Step([], [Snapshot(path)]), StreamStep(p, path + "@" + p.snapName, appDir))
  }

  predicate HasSend(ops: seq<Op>) {
    exists k :: 0 <= k < |ops| && ops[k].Send?
  }

  /** An uncached dataset is reported and not snapshotted. */
  lemma MissingDatasetNotSnapshotted(p: Platform, path: string, appDir: string)
    requires path !in p.cached
    ensures DatasetStep(p, path, appDir).ops == []
    ensures DatasetStep(p, path, appDir).failures == [ZfsSnapshot.MissingDataset(path)]
  {
  }

  /** A dataset's stream is sent iff it is cached, its snapshot succeeded and the stream gate passes. */
  lemma DatasetSendsStream(p: Platform, path: string, appDir: string)
    ensures HasSend(DatasetStep(p, path, appDir).ops) <==>
            path in p.cached && p.snapshotOk(path)
            && p.streams && p.referSize(path + "@" + p.snapName) <= p.maxBytes
  {
    var st := DatasetStep(p, path, appDir);
    if path in p.cached && p.snapshotOk(path) {
      var s := StreamStep(p, path + "@" + p.snapName, appDir);
      assert st.ops == [Snapshot(path)] + s.ops;
      if s.ops != [] {
        assert st.ops[1].Send?;
      }
    } else if path in p.cached {
      assert st.ops == [Snapshot(path)];
    }
  }

  /** The PVC datasets of the app in order; `None` where a path is `None` (`None.split` raises and ends the run). */
  function VolumesStep(p: Platform, paths: seq<Option<string>>, appDir: string): (r: Option<Step>)
    ensures r.None? <==> None in paths
    decreases |paths|
  {
    if paths == [] then Some(Step([], []))
    else if paths[0].None? then None
    else
      match VolumesStep(p, paths[1..], appDir)
      case None => None
      case Some(rest) => Some(Then(DatasetStep(p, paths[0].value, appDir), rest))
  }

  /** The ix_volumes dataset's stream: its snapshot comes from the platform datasets, so only the stream is sent here. */
  function IxVolumesStep(p: Platform, ixVolumes: string, appDir: string): Step {
    if ixVolumes == [] then Step([], []) else StreamStep(p, ixVolumes + "@" + p.snapName, appDir)
  }

  /** The messages of the fixed steps, in the order the run takes them. */
  function FixedFailures(e: AppEnv): seq<string> {
    (if e.versionOk then [] else ["Failed to backup chart version"])
    + (if e.namespaceOk then [] else ["Failed to backup namespace"])
    + (if e.secretsOk then [] else ["Failed to backup secrets"])
    + (if e.hasPvc then e.pvcErrors else [])
    + (if e.crdDirExists && !e.crdOk then ["Failed to backup CRDs"] else [])
    + (if e.isCnpg && !e.dbOk then [e.dbMessage] else [])
  }

  /** A step the iteration takes raises: the PVC backup only runs for an app with a PVC, the database backup only for a CNPG app. */
  predicate StepRaises(e: AppEnv) {
    e.namespaceRaised || (e.hasPvc && e.pvcsRaised) || (e.isCnpg && e.dbRaised)
  }

  /** One iteration of the app loop; `None` when it raises. */
  function AppStep(p: Platform, app: string, e: AppEnv): (r: Option<Step>)
    ensures !e.valid ==> r == Some(Step([FetchFailed], []))
    ensures e.valid ==> (r.None? <==> StepRaises(e) || None in e.volumePaths)
  {
    if !e.valid then Some(Step([FetchFailed], []))
    else if StepRaises(e) then None
    else
      match VolumesStep(p, e.volumePaths, AppDir(p, app))
      case None => None
      case Some(v) =>
        var ix := IxVolumesStep(p, e.ixVolumes, AppDir(p, app));
        Some(Step(FixedFailures(e) + v.failures + ix.failures, v.ops + ix.ops))
  }

  // ---------------------------------------------------------------- the app loop

  datatype Acc = Acc(log: Log, ops: seq<Op>)

  /** The app loop over a list of releases; `None` when some iteration raises. */
  function Run(p: Platform, releases: seq<string>, envOf: string -> AppEnv): Option<Acc>
    decreases |releases|
  {
    if releases == [] then Some(Acc([], []))
    else
      var app := releases[|releases| - 1];
      match Run(p, releases[..|releases| - 1], envOf)
      case None => None
      case Some(acc) =>
        match AppStep(p, app, envOf(app))
        case None => None
        case Some(st) => Some(Acc(Record(acc.log, app, st.failures), acc.ops + st.ops))
  }

  /** The run completes iff no app's iteration raises. */
  lemma {:induction false} RunCompletes(p: Platform, releases: seq<string>, envOf: string -> AppEnv)
    ensures Run(p, releases, envOf).Some? <==>
            forall k :: 0 <= k < |releases| ==> AppStep(p, releases[k], envOf(releases[k])).Some?
    decreases |releases|
  {
    if releases != [] {
      var init := releases[..|releases| - 1];
      RunCompletes(p, init, envOf);
      assert forall k :: 0 <= k < |init| ==> init[k] == releases[k];
    }
  }

  /**
   * The run completes iff every app whose chart record is valid has no raising
   * step and a dataset path for each of its volumes.
   */
  lemma RunCompletesWhen(p: Platform, releases: seq<string>, envOf: string -> AppEnv)
    ensures Run(p, releases, envOf).Some? <==>
            forall k :: 0 <= k < |releases| && envOf(releases[k]).valid ==>
              !StepRaises(envOf(releases[k])) && None !in envOf(releases[k]).volumePaths
  {
    RunCompletes(p, releases, envOf);
    forall k | 0 <= k < |releases|
      ensures AppStep(p, releases[k], envOf(releases[k])).Some? <==>
              (envOf(releases[k]).valid ==> !StepRaises(envOf(releases[k])) && None !in envOf(releases[k]).volumePaths)
    {
    }
  }

  /** Each app's list in the ledger holds exactly the messages of its own iteration; apps not run have none. */
  lemma {:induction false} RunErrors(p: Platform, releases: seq<string>, envOf: string -> AppEnv, app: string)
    requires Sorting.Distinct(releases)
    requires Run(p, releases, envOf).Some?
    ensures app in releases ==>
              AppStep(p, app, envOf(app)).Some?
              && ErrorsOf(Run(p, releases, envOf).value.log, app) == AppStep(p, app, envOf(app)).value.failures
    ensures app !in releases ==> ErrorsOf(Run(p, releases, envOf).value.log, app) == []
    decreases |releases|
  {
    if releases != [] {
      var init := releases[..|releases| - 1];
      var last := releases[|releases| - 1];
      assert Sorting.Distinct(init);
      RunErrors(p, init, envOf, app);
      var acc := Run(p, init, envOf).value;
      var st := AppStep(p, last, envOf(last)).value;
      RecordErrors(acc.log, last, st.failures, app);
      assert releases == init + [last];
      if app == last {
        assert app !in init;
      }
    }
  }

  /** An invalid chart record puts exactly `Failed to fetch chart data` against that app. */
  lemma InvalidChartRecordsFetchFailure(p: Platform, releases: seq<string>, envOf: string -> AppEnv, app: string)
    requires Sorting.Distinct(releases) && app in releases && !envOf(app).valid
    requires Run(p, releases, envOf).Some?
    ensures ErrorsOf(Run(p, releases, envOf).value.log, app) == [FetchFailed]
  {
    RunErrors(p, releases, envOf, app);
  }

  /** The ledger is empty iff every app's iteration recorded nothing. */
  lemma {:induction false} RunClean(p: Platform, releases: seq<string>, envOf: string -> AppEnv)
    requires Run(p, releases, envOf).Some?
    ensures Run(p, releases, envOf).value.log == [] <==>
            forall k :: 0 <= k < |releases| ==>
              AppStep(p, releases[k], envOf(releases[k])).Some?
              && AppStep(p, releases[k], envOf(releases[k])).value.failures == []
    decreases |releases|
  {
    RunCompletes(p, releases, envOf);
    if releases != [] {
      var init := releases[..|releases| - 1];
      RunClean(p, init, envOf);
      RunCompletes(p, init, envOf);
      assert forall k :: 0 <= k < |init| ==> init[k] == releases[k];
    }
  }

  /** Every snapshot the app loop takes is of a cached dataset, and every stream it sends passed the gate. */
  lemma {:induction false} RunOpsGated(p: Platform, releases: seq<string>, envOf: string -> AppEnv)
    requires Run(p, releases, envOf).Some?
    ensures forall op :: op in Run(p, releases, envOf).value.ops ==>
              (op.Snapshot? ==> op.dataset in p.cached)
              && (op.Send? ==> p.streams && p.referSize(op.snapshot) <= p.maxBytes)
    decreases |releases|
  {
    if releases != [] {
      var init := releases[..|releases| - 1];
      var last := releases[|releases| - 1];
      RunOpsGated(p, init, envOf);
      var e := envOf(last);
      if e.valid {
        VolumesGated(p, e.volumePaths, AppDir(p, last));
      }
    }
  }

  lemma {:induction false} VolumesGated(p: Platform, paths: seq<Option<string>>, appDir: string)
    requires VolumesStep(p, paths, appDir).Some?
    ensures forall op :: op in VolumesStep(p, paths, appDir).value.ops ==>
              (op.Snapshot? ==> op.dataset in p.cached)
              && (op.Send? ==> p.streams && p.referSize(op.snapshot) <= p.maxBytes)
    decreases |paths|
  {
    if paths != [] {
      VolumesGated(p, paths[1..], appDir);
    }
  }

  // ---------------------------------------------------------------- the whole run

  const Succeeded := "\nAll applications backed up successfully."
  const SomeFailed := "\nSome applications failed to backup:"

  /** `_backup_application_datasets`: one snapshot per selected dataset, in the set's iteration order. */
  method SnapshotPlatformDatasets(selected: set<string>) returns (ops: seq<Op>)
    ensures |ops| == |selected|
    ensures forall k :: 0 <= k < |ops| ==> ops[k].Snapshot? && ops[k].dataset in selected
    ensures forall d :: d in selected ==> Snapshot(d) in ops
  {
    var order := Sorting.Enumerate(selected);
    ops := [];
    for i := 0 to |order|
      invariant |ops| == i
      invariant forall k :: 0 <= k < i ==> ops[k] == Snapshot(order[k])
    {
      ops := ops + [Snapshot(order[i])];
    }
    forall d | d in selected
      ensures Snapshot(d) in ops
    {
      var k :| 0 <= k < |order| && order[k] == d;
      assert ops[k] == Snapshot(d);
    }
  }

  /** The app loop of `backup_all`, appending each app's messages to the ledger. */
  method BackupApps(p: Platform, releases: seq<string>, envOf: string -> AppEnv) returns (r: Option<Acc>)
    ensures r == Run(p, releases, envOf)
  {
    var log: Log := [];
    var appOps: seq<Op> := [];
    for i := 0 to |releases|
      invariant Run(p, releases[..i], envOf) == Some(Acc(log, appOps))
    {
      var app := releases[i];
      assert releases[..i + 1][..i] == releases[..i];
      var st := AppStep(p, app, envOf(app));
      if st.None? {
        assert Run(p, releases[..i + 1], envOf).None?;
        PrefixRaises(p, releases, i + 1, envOf);
        return None;
      }
      log := Record(log, app, st.value.failures);
      appOps := appOps + st.value.ops;
    }
    assert releases[..|releases|] == releases;
    r := Some(Acc(log, appOps));
  }

  /**
   * `backup_all`: snapshots of the platform datasets, the app loop, then one
   * snapshot of the backup dataset and the failure summary. `summary` is
   * `None` when an app iteration raises, in which case neither the last
   * snapshot nor the summary happens.
   */
  method BackupAll(p: Platform, root: string, ignore: set<string>, backupDataset: string,
                   releases: seq<string>, envOf: string -> AppEnv)
    returns (ops: seq<Op>, summary: Option<seq<string>>)
    ensures var selected := PlatformDatasets(p.cached, root, ignore);
            |selected| <= |ops|
            && (forall k :: 0 <= k < |selected| ==> ops[k].Snapshot? && ops[k].dataset in selected)
            && (forall d :: d in selected ==> Snapshot(d) in ops[..|selected|])
    ensures summary.None? <==> Run(p, releases, envOf).None?
    ensures summary.Some? ==>
              var acc := Run(p, releases, envOf).value;
              ops[|PlatformDatasets(p.cached, root, ignore)|..] == acc.ops + [Snapshot(backupDataset)]
              && summary.value == Summary(acc.log, Succeeded, SomeFailed)
  {
    var platformOps := SnapshotPlatformDatasets(PlatformDatasets(p.cached, root, ignore));
    var run := BackupApps(p, releases, envOf);
    if run.None? {
      return platformOps, None;
    }
    ops := platformOps + run.value.ops + [Snapshot(backupDataset)];
    assert ops[..|platformOps|] == platformOps;
    assert ops[|platformOps|..] == run.value.ops + [Snapshot(backupDataset)];
    summary := Some(Summary(run.value.log, Succeeded, SomeFailed));
  }

  /** Once a prefix of the loop raises, the whole loop does. */
  lemma {:induction false} PrefixRaises(p: Platform, releases: seq<string>, i: nat, envOf: string -> AppEnv)
    requires i <= |releases| && Run(p, releases[..i], envOf).None?
    ensures Run(p, releases, envOf).None?
    decreases |releases| - i
  {
    if i < |releases| {
      assert releases[..i + 1][..i] == releases[..i];
      PrefixRaises(p, releases, i + 1, envOf);
    } else {
      assert releases[..i] == releases;
    }
  }
}

/**
 * `RestoreBase`: the state a restore keeps and the steps both the full and
 * the single-app restore share. The state is the failure ledger
 * (`failures`, `critical_failures`), the recreate plan (`create_list`), the
 * queued redeploys (`job_handles`) and the chart index, plus the platform
 * operations made so far, in order. Each platform call is an `Op`; what it
 * does (raises, succeeds or fails, returns a message or a failure list) is
 * an input, `Env.outcome`, and so is whether a dataset or file exists.
 */
module Restore {
  import opened Wrappers
  import opened Strings
  import opened Paths
  import opened Ledger
  import opened BackupFetch
  import Sorting

  /** The platform-wide operations a restore makes. */
  datatype GlobalStep =
    | StopServices | DeleteRancherData | ResetCni | AbortSyncJobs | RollbackAppsDataset
    | CleanupK3s | RecreateDatasets
    | RestoreKubeConfig | StartServices | WaitKubernetes
    | RestoreCatalog
    | WaitCnpg(release: string)

  /** The operations a restore makes on behalf of one app. */
  datatype AppStep =
    | RollbackPv(file: string)
    | RestoreCrd
    | CreateDataset(path: string)
    | RestoreChartVersion
    | RestoreNamespace
    | RestorePvZfs
    | DeleteVersions
    | CreateChart
    | RestoreSecrets
    | Redeploy
    | DeleteCnpgPvcs
    | WaitJob
    | RestoreDatabase

  datatype Op = Global(step: GlobalStep) | OnApp(app: string, appStep: AppStep)

  /** What an operation did: raised, or returned a success flag, a message and (for the applies) a failure list. */
  datatype Outcome = Raised(error: string) | Done(success: bool, message: string, failures: seq<string>)

  datatype Env = Env(outcome: Op -> Outcome, present: string -> bool)

  datatype State = State(
    charts: Charts,
    failures: Log,
    critical: seq<string>,
    createList: seq<string>,
    jobHandles: seq<string>,
    trace: seq<Op>)

  /** The chart index is a dict, an app is critical at most once, and a critical app has left the index. */
  predicate Consistent(s: State) {
    Valid(s.charts) && Sorting.Distinct(s.critical) && forall a :: a in s.critical ==> a !in s.charts.info
  }

  function Perform(s: State, op: Op): State {
    s.(trace := s.trace + [op])
  }

  /** `failures[app].append(message)`. */
  function Fail(s: State, app: string, message: string): State {
    s.(failures := s.failures + [(app, message)])
  }

  /** `failures[app].extend(messages)` (no entry at all for an empty list). */
  function FailAll(s: State, app: string, messages: seq<string>): State {
    s.(failures := Record(s.failures, app, messages))
  }

  /** Python truthiness of what `get_file` returns. */
  predicate Truthy(f: FileRef) {
    match f
    case NoFile => false
    case OnePath(_) => true
    case Paths(ps) => ps != []
  }

  // ---------------------------------------------------------------- _handle_critical_failure

  /**
   * `_handle_critical_failure`: the error is always recorded; the app is
   * marked critical and deleted from the chart index only the first time.
   */
  function Critical(s: State, app: string, error: string): (r: State)
    ensures r.createList == s.createList && r.jobHandles == s.jobHandles && r.trace == s.trace
  {
    var t := Fail(s, app, error);
    if app in s.critical then t
    else t.(critical := s.critical + [app], charts := Removed(s.charts, app))
  }

  lemma CriticalMeans(s: State, app: string, error: string, b: string)
    requires Consistent(s)
    ensures var r := Critical(s, app, error);
            Consistent(r)
            && ErrorsOf(r.failures, b) == ErrorsOf(s.failures, b) + (if b == app then [error] else [])
            && (b in r.critical <==> b in s.critical || b == app)
            && app !in r.charts.info
            && (app in s.critical ==> r.charts == s.charts && r.critical == s.critical)
            && (b != app ==> (b in r.charts.info <==> b in s.charts.info))
            && (b != app && b in s.charts.info ==> r.charts.info[b] == s.charts.info[b])
  {
    ErrorsOfAppend(s.failures, app, error, b);
    var r := Critical(s, app, error);
    if app !in s.critical {
      assert Sorting.Distinct(r.critical) by {
        forall i, j | 0 <= i < j < |r.critical| ensures r.critical[i] != r.critical[j] {
          if j == |s.critical| { assert r.critical[i] in s.critical; }
        }
      }
    }
  }

  // ---------------------------------------------------------------- _build_restore_plan

  const PrometheusOperator := "prometheus-operator"
  const MetadataMissing := "metadata file missing"
  const ValuesMissing := "values file missing"
  const Aborted := "Restore process aborted by the user."
  /** The `TypeError` that `critical_failures.append(app_name, reason)` raises. */
  const AppendArity := "list.append() takes exactly one argument (2 given)"

  /** What the plan decides for one app. */
  datatype Decision = WillCreate | WillRedeploy | CannotRestore(reason: string)

  function Decide(c: Charts, app: string): (d: Decision)
    ensures app !in c.info ==> d == CannotRestore(MetadataMissing)
  {
    if !Truthy(GetFile(c, app, MetadataFile)) then CannotRestore(MetadataMissing)
    else if !Truthy(GetFile(c, app, ValuesFile)) then CannotRestore(ValuesMissing)
    else if GetChartName(c, app) == PrometheusOperator then WillCreate
    else if !Truthy(GetFile(c, app, Namespace)) then WillCreate
    else WillRedeploy
  }

  /**
   * The plan's rule: an app without a metadata or a values file cannot be
   * restored; a `prometheus-operator` chart, or an app without a namespace
   * file, is created; every other app is redeployed.
   */
  lemma DecideRule(c: Charts, app: string)
    requires app in c.info
    ensures Decide(c, app).CannotRestore? <==> c.info[app].metadataFile.None? || c.info[app].valuesFile.None?
    ensures Decide(c, app) == WillCreate <==>
              c.info[app].metadataFile.Some? && c.info[app].valuesFile.Some?
              && (c.info[app].chartName == PrometheusOperator || c.info[app].namespace.None?)
  {
  }

  /** The decision reads only the app's own record. */
  lemma DecideLocal(c: Charts, d: Charts, app: string)
    requires app in c.info && app in d.info && c.info[app] == d.info[app]
    ensures Decide(c, app) == Decide(d, app)
  {
  }

  /** One app of the plan loop, as intended: a missing file marks the app critical and the loop goes on. */
  function PlanStep(s: State, app: string): State {
    match Decide(s.charts, app)
    case CannotRestore(reason) => Critical(s, app, reason)
    case WillCreate => s.(createList := s.createList + [app])
    case WillRedeploy => s
  }

  function Plan(s: State, apps: seq<string>): (r: State)
    ensures r.trace == s.trace && r.jobHandles == s.jobHandles
    decreases |apps|
  {
    if apps == [] then s else PlanStep(Plan(s, apps[..|apps| - 1]), apps[|apps| - 1])
  }

  /** Only apps the plan found to be missing a file have left the index; the others keep their records. */
  predicate Shrunk(c0: Charts, c: Charts) {
    (forall a :: a in c.info ==> a in c0.info && c.info[a] == c0.info[a])
    && (forall a :: a in c0.info && a !in c.info ==> Missing(c0, a))
  }

  lemma DecideStable(c0: Charts, c: Charts, app: string)
    requires Shrunk(c0, c)
    ensures Decide(c, app) == WillCreate <==> Decide(c0, app) == WillCreate
    ensures Missing(c, app) <==> Missing(c0, app)
  {
    if app in c.info {
      DecideLocal(c0, c, app);
    }
  }

  /** An app the plan finds missing a metadata or a values file. */
  predicate Missing(c: Charts, app: string) {
    Decide(c, app).CannotRestore?
  }

  /** The plan keeps the state consistent and runs nothing. */
  lemma {:induction false} PlanConsistent(s: State, apps: seq<string>)
    requires Consistent(s)
    ensures Consistent(Plan(s, apps))
    ensures Plan(s, apps).trace == s.trace && Plan(s, apps).jobHandles == s.jobHandles
    decreases |apps|
  {
    if apps != [] {
      var t := Plan(s, apps[..|apps| - 1]);
      var app := apps[|apps| - 1];
      PlanConsistent(s, apps[..|apps| - 1]);
      if Missing(t.charts, app) {
        CriticalMeans(t, app, Decide(t.charts, app).reason, app);
      }
    }
  }

  /** Only apps missing a file leave the index, and the rest keep their records. */
  lemma {:induction false} PlanShrunk(s: State, apps: seq<string>)
    ensures Shrunk(s.charts, Plan(s, apps).charts)
    decreases |apps|
  {
    if apps != [] {
      var t := Plan(s, apps[..|apps| - 1]);
      var app := apps[|apps| - 1];
      PlanShrunk(s, apps[..|apps| - 1]);
      PlanShrunkStep(s.charts, t, app);
    }
  }

  lemma PlanShrunkStep(c0: Charts, t: State, app: string)
    requires Shrunk(c0, t.charts)
    ensures Shrunk(c0, PlanStep(t, app).charts)
  {
    DecideStable(c0, t.charts, app);
    var r := PlanStep(t, app).charts;
    assert forall a :: a in r.info ==> a in t.charts.info && r.info[a] == t.charts.info[a];
  }

  /** The create list gains exactly the apps the plan will create, in their order. */
  lemma {:induction false} PlanCreates(s: State, apps: seq<string>)
    ensures Plan(s, apps).createList == s.createList + Sorting.Filter(apps, a => Decide(s.charts, a) == WillCreate)
    decreases |apps|
  {
    if apps != [] {
      var init := apps[..|apps| - 1];
      var app := apps[|apps| - 1];
      assert init + [app] == apps;
      assert Plan(s, apps) == PlanStep(Plan(s, init), app);
      PlanCreates(s, init);
      PlanShrunk(s, init);
      PlanCreatesStep(s.charts, Plan(s, init), app);
      var f := a => Decide(s.charts, a) == WillCreate;
      var x := if f(app) then [app] else [];
      Sorting.FilterSnoc(init, app, f);
      AppendAssoc(s.createList, Plan(s, init).createList, Plan(s, apps).createList,
        Sorting.Filter(init, f), Sorting.Filter(apps, f), x);
    }
  }

  lemma AppendAssoc(l0: seq<string>, l1: seq<string>, l2: seq<string>, f1: seq<string>, f2: seq<string>, x: seq<string>)
    requires l1 == l0 + f1 && l2 == l1 + x && f2 == f1 + x
    ensures l2 == l0 + f2
  {
  }

  lemma PlanCreatesStep(c0: Charts, t: State, app: string)
    requires Shrunk(c0, t.charts)
    ensures PlanStep(t, app).createList == t.createList + (if Decide(c0, app) == WillCreate then [app] else [])
  {
    DecideStable(c0, t.charts, app);
  }

  /** Exactly the apps missing a file join the critical failures. */
  lemma {:induction false} PlanCriticals(s: State, apps: seq<string>)
    ensures forall a :: a in Plan(s, apps).critical <==> a in s.critical || (a in apps && Missing(s.charts, a))
    decreases |apps|
  {
    if apps != [] {
      var init := apps[..|apps| - 1];
      var app := apps[|apps| - 1];
      assert init + [app] == apps;
      assert forall a :: a in apps <==> a in init || a == app;
      PlanCriticals(s, init);
      PlanShrunk(s, init);
      DecideStable(s.charts, Plan(s, init).charts, app);
    }
  }

  /**
   * What the plan leaves, started from `s`: the create list gained exactly
   * the apps the plan will create, in order; exactly the apps missing a file
   * became critical, and they are out of the index; the other apps keep
   * their records; nothing was run.
   */
  ghost predicate PlannedFrom(s: State, apps: seq<string>, r: State) {
    Consistent(r)
    && r.createList == s.createList + Sorting.Filter(apps, a => Decide(s.charts, a) == WillCreate)
    && (forall a :: a in apps && Missing(s.charts, a) ==> a in r.critical && a !in r.charts.info)
    && (forall a :: a in r.critical <==> a in s.critical || (a in apps && Missing(s.charts, a)))
    && Shrunk(s.charts, r.charts)
    && r.trace == s.trace && r.jobHandles == s.jobHandles
  }

  lemma PlanMeans(s: State, apps: seq<string>)
    requires Consistent(s)
    ensures PlannedFrom(s, apps, Plan(s, apps))
  {
    PlanConsistent(s, apps);
    PlanShrunk(s, apps);
    PlanCreates(s, apps);
    PlanCriticals(s, apps);
  }

  /**
   * The plan loop as written: `critical_failures.append(app_name, reason)`
   * raises `TypeError` at the first app missing a file, before the app is
   * deleted from the index; the state is what the earlier apps left, and
   * the exception leaves the plan.
   */
  function PlanAsWritten(s: State, apps: seq<string>): (r: Res)
    ensures r.s.charts == s.charts && r.s.critical == s.critical && r.s.failures == s.failures
    ensures r.s.trace == s.trace && r.s.jobHandles == s.jobHandles
    decreases |apps|
  {
    if apps == [] then Res(s, None)
    else
      var p := PlanAsWritten(s, apps[..|apps| - 1]);
      if p.raised.Some? then p
      else
        var t := p.s;
        var app := apps[|apps| - 1];
        match Decide(t.charts, app)
        case CannotRestore(_) => Res(t, Some(AppendArity))
        case WillCreate => Res(t.(createList := t.createList + [app]), None)
        case WillRedeploy => Res(t, None)
  }

  /** When it does not raise, the plan as written is the intended plan, which then leaves the index alone. */
  lemma {:induction false} PlanAsWrittenAgrees(s: State, apps: seq<string>)
    ensures PlanAsWritten(s, apps).raised.None? ==> PlanAsWritten(s, apps).s == Plan(s, apps)
    ensures PlanAsWritten(s, apps).raised.None? ==> Plan(s, apps).charts == s.charts
    decreases |apps|
  {
    if apps != [] {
      PlanAsWrittenAgrees(s, apps[..|apps| - 1]);
    }
  }

  /** As written, the plan raises the `TypeError` exactly when some app misses a file. */
  lemma {:induction false} PlanAsWrittenRaises(s: State, apps: seq<string>)
    ensures PlanAsWritten(s, apps).raised.Some? <==> exists a :: a in apps && Missing(s.charts, a)
    ensures PlanAsWritten(s, apps).raised.Some? ==> PlanAsWritten(s, apps).raised == Some(AppendArity)
    decreases |apps|
  {
    if apps != [] {
      var init := apps[..|apps| - 1];
      var app := apps[|apps| - 1];
      assert init + [app] == apps;
      assert forall a :: a in apps <==> a in init || a == app;
      PlanAsWrittenRaises(s, init);
      var p := PlanAsWritten(s, init);
      assert PlanAsWritten(s, apps) == if p.raised.Some? then p else PlanAsWritten(s, apps)
        by { assert apps[..|apps| - 1] == init; }
      if p.raised.None? {
        assert Missing(s.charts, app) <==> Decide(p.s.charts, app).CannotRestore?;
      } else {
        var w :| w in init && Missing(s.charts, w);
        assert w in apps;
      }
    }
  }

  /** Once the plan as written has raised, the later apps change nothing. */
  lemma {:induction false} PlanRaisedStays(s: State, apps: seq<string>, n: nat)
    requires n <= |apps| && PlanAsWritten(s, apps[..n]).raised.Some?
    ensures PlanAsWritten(s, apps) == PlanAsWritten(s, apps[..n])
    decreases |apps| - n
  {
    if n < |apps| {
      assert apps[..n + 1][..n] == apps[..n];
      PlanRaisedStays(s, apps, n + 1);
    } else {
      assert apps[..n] == apps;
    }
  }

  /** Over the apps of an index whose records all have both files, the plan as written never raises. */
  lemma PlanFiledNeverRaises(s: State, apps: seq<string>)
    requires Filed(s.charts) && forall a :: a in apps ==> a in s.charts.info
    ensures PlanAsWritten(s, apps).raised.None?
  {
    PlanAsWrittenRaises(s, apps);
    forall a | a in apps ensures !Missing(s.charts, a) {
      DecideRule(s.charts, a);
    }
  }

  /** The confirmation: only `yes`, ignoring surrounding blanks and case, lets the restore go on. */
  function Confirm(answer: string): (r: Option<string>)
    ensures r.None? <==> IsYes(answer)
    ensures r.Some? ==> r.value == Aborted
  {
    if IsYes(answer) then None else Some(Aborted)
  }

  // ---------------------------------------------------------------- containment

  /** The entries appended to a log all belong to `app`. */
  predicate LogGrows(log: Log, r: Log, app: string) {
    |log| <= |r| && r[..|log|] == log && forall k :: |log| <= k < |r| ==> r[k].0 == app
  }

  /** The operations appended to a trace all act on `app`. */
  predicate TraceGrows(trace: seq<Op>, r: seq<Op>, app: string) {
    |trace| <= |r| && r[..|trace|] == trace && forall k :: |trace| <= k < |r| ==> r[k].OnApp? && r[k].app == app
  }

  /**
   * What a step on behalf of `app` may change: it may make `app` critical
   * (dropping it from the index), append it to the create list, record
   * messages for it and run operations on it, and nothing else.
   */
  predicate Local(s: State, r: State, app: string) {
    (r.critical == s.critical || (app !in s.critical && r.critical == s.critical + [app]))
    && (r.charts == s.charts || r.charts == Removed(s.charts, app))
    && (r.createList == s.createList || (app !in s.createList && r.createList == s.createList + [app]))
    && LogGrows(s.failures, r.failures, app)
    && TraceGrows(s.trace, r.trace, app)
  }

  lemma LocalTrans(s: State, t: State, u: State, app: string)
    requires Local(s, t, app) && Local(t, u, app)
    ensures Local(s, u, app)
  {
    RemovedIdempotent(s.charts, app);
    assert u.failures[..|s.failures|] == u.failures[..|t.failures|][..|s.failures|];
    assert u.trace[..|s.trace|] == u.trace[..|t.trace|][..|s.trace|];
    assert forall k :: |s.failures| <= k < |t.failures| ==> u.failures[k] == u.failures[..|t.failures|][k];
    assert forall k :: |s.trace| <= k < |t.trace| ==> u.trace[k] == u.trace[..|t.trace|][k];
  }

  lemma PerformLocal(s: State, app: string, step: AppStep)
    ensures Local(s, Perform(s, OnApp(app, step)), app)
  {
    assert (s.trace + [OnApp(app, step)])[..|s.trace|] == s.trace;
  }

  lemma FailLocal(s: State, app: string, message: string)
    ensures Local(s, Fail(s, app, message), app)
  {
    assert (s.failures + [(app, message)])[..|s.failures|] == s.failures;
  }

  lemma FailAllLocal(s: State, app: string, messages: seq<string>)
    ensures Local(s, FailAll(s, app, messages), app)
  {
    RecordAppends(s.failures, app, messages);
    assert (s.failures + Entries(app, messages))[..|s.failures|] == s.failures;
  }

  lemma CriticalLocal(s: State, app: string, error: string)
    requires Consistent(s)
    ensures Local(s, Critical(s, app, error), app)
    ensures Consistent(Critical(s, app, error))
    ensures app in Critical(s, app, error).critical && app !in Critical(s, app, error).charts.info
    ensures |Critical(s, app, error).failures| == |s.failures| + 1
  {
    FailLocal(s, app, error);
    CriticalMeans(s, app, error, app);
  }

  // ---------------------------------------------------------------- _rollback_volumes

  const NotIterable := "'NoneType' object is not iterable"
  const PvSuffix := "-pv.yaml"

  /** A state reached, and the exception propagating from it, if any. */
  datatype Res = Res(s: State, raised: Option<string>)

  /** The volume files that are rolled back: those whose name ends in `-pv.yaml`, in order. */
  function PvOnly(files: seq<string>): (r: seq<string>)
    ensures forall f :: f in r <==> f in files && EndsWith(BaseName(f), PvSuffix)
  {
    Sorting.Filter(files, f => EndsWith(BaseName(f), PvSuffix))
  }

  /** `rollback_persistent_volume` for one file: a failure records its message, a success nothing. */
  function RollbackOne(s: State, env: Env, app: string, file: string): (r: Res)
    ensures r.s.charts == s.charts && r.s.critical == s.critical
    ensures r.s.createList == s.createList && r.s.jobHandles == s.jobHandles
  {
    var op := OnApp(app, RollbackPv(file));
    var t := Perform(s, op);
    match env.outcome(op)
    case Raised(e) => Res(t, Some(e))
    case Done(ok, message, _) => Res(if ok then t else Fail(t, app, message), None)
  }

  /** The rollback loop over the files in order, ended by the first raise. */
  function RollbackEach(s: State, env: Env, app: string, files: seq<string>): (r: Res)
    ensures r.s.charts == s.charts && r.s.critical == s.critical
    ensures r.s.createList == s.createList && r.s.jobHandles == s.jobHandles
    decreases |files|
  {
    if files == [] then Res(s, None)
    else
      var p := RollbackEach(s, env, app, files[..|files| - 1]);
      if p.raised.Some? then p else RollbackOne(p.s, env, app, files[|files| - 1])
  }

  /** `_rollback_volumes`: iterating the `None` an unknown app has raises `TypeError`. */
  function Rollback(s: State, env: Env, app: string): (r: Res)
    ensures r.s.charts == s.charts && r.s.critical == s.critical
    ensures r.s.createList == s.createList && r.s.jobHandles == s.jobHandles
  {
    var f := GetFile(s.charts, app, PvZfsVolumes);
    if f.Paths? then RollbackEach(s, env, app, PvOnly(f.paths)) else Res(s, Some(NotIterable))
  }

  /** One rollback operation per file, in order. */
  function RollbackOps(app: string, files: seq<string>): (r: seq<Op>)
    ensures |r| == |files| && forall k :: 0 <= k < |r| ==> r[k] == OnApp(app, RollbackPv(files[k]))
  {
    seq(|files|, k requires 0 <= k < |files| => OnApp(app, RollbackPv(files[k])))
  }

  /** The messages of the rollbacks that report failure, in order. */
  function FailedMessages(env: Env, app: string, files: seq<string>): seq<string>
    decreases |files|
  {
    if files == [] then []
    else
      var o := env.outcome(OnApp(app, RollbackPv(files[|files| - 1])));
      FailedMessages(env, app, files[..|files| - 1]) + (if o.Done? && !o.success then [o.message] else [])
  }

  /** Every operation the rollback loop appends is a rollback of one of the given files for the app. */
  predicate RollsBack(trace: seq<Op>, r: seq<Op>, app: string, files: seq<string>) {
    |trace| <= |r| && r[..|trace|] == trace
    && forall k :: |trace| <= k < |r| ==> r[k].OnApp? && r[k].app == app && r[k].appStep.RollbackPv? && r[k].appStep.file in files
  }

  /**
   * The rollback loop rolls back nothing but the given files; without a
   * raise it rolls back every one of them, in order.
   */
  lemma {:induction false} RollbackEachTrace(s: State, env: Env, app: string, files: seq<string>)
    ensures var r := RollbackEach(s, env, app, files);
            RollsBack(s.trace, r.s.trace, app, files)
            && (r.raised.None? ==> r.s.trace == s.trace + RollbackOps(app, files))
    decreases |files|
  {
    if files != [] {
      var init := files[..|files| - 1];
      var f := files[|files| - 1];
      assert init + [f] == files;
      RollbackEachTrace(s, env, app, init);
      var p := RollbackEach(s, env, app, init);
      if p.raised.None? {
        var op := OnApp(app, RollbackPv(f));
        assert RollbackEach(s, env, app, files) == RollbackOne(p.s, env, app, f);
        assert RollbackOne(p.s, env, app, f).s.trace == p.s.trace + [op];
        RollsBackSnoc(s.trace, p.s.trace, app, init, f);
        assert RollbackOps(app, files) == RollbackOps(app, init) + [op];
      } else {
        assert RollbackEach(s, env, app, files) == p;
        RollsBackWiden(s.trace, p.s.trace, app, init, f);
      }
    }
  }

  lemma RollsBackSnoc(t: seq<Op>, r: seq<Op>, app: string, files: seq<string>, f: string)
    requires RollsBack(t, r, app, files)
    ensures RollsBack(t, r + [OnApp(app, RollbackPv(f))], app, files + [f])
  {
    var r' := r + [OnApp(app, RollbackPv(f))];
    assert r'[..|r|] == r;
    ExtendsTrans(t, r, r');
    forall k | |t| <= k < |r'|
      ensures r'[k].OnApp? && r'[k].app == app && r'[k].appStep.RollbackPv? && r'[k].appStep.file in files + [f]
    {
      if k < |r| {
        assert r'[k] == r[k];
      }
    }
  }

  lemma RollsBackWiden(t: seq<Op>, r: seq<Op>, app: string, files: seq<string>, f: string)
    requires RollsBack(t, r, app, files)
    ensures RollsBack(t, r, app, files + [f])
  {
  }

  /** The rollback loop records messages for the app only; without a raise, exactly the failure messages, in order. */
  lemma {:induction false} RollbackEachFailures(s: State, env: Env, app: string, files: seq<string>)
    ensures var r := RollbackEach(s, env, app, files);
            LogGrows(s.failures, r.s.failures, app)
            && (r.raised.None? ==> r.s.failures == s.failures + Entries(app, FailedMessages(env, app, files)))
    decreases |files|
  {
    if files != [] {
      var init := files[..|files| - 1];
      var f := files[|files| - 1];
      RollbackEachFailures(s, env, app, init);
      var p := RollbackEach(s, env, app, init);
      if p.raised.None? {
        var o := env.outcome(OnApp(app, RollbackPv(f)));
        var extra := if o.Done? && !o.success then [o.message] else [];
        assert FailedMessages(env, app, files) == FailedMessages(env, app, init) + extra;
        assert Entries(app, FailedMessages(env, app, files)) == Entries(app, FailedMessages(env, app, init)) + Entries(app, extra);
        var r := RollbackOne(p.s, env, app, f);
        assert RollbackEach(s, env, app, files) == r;
        assert r.s.failures == p.s.failures + Entries(app, extra);
        LogGrowsAppend(s.failures, p.s.failures, app, Entries(app, extra));
      } else {
        assert RollbackEach(s, env, app, files) == p;
      }
    }
  }

  lemma LogGrowsAppend(log: Log, r: Log, app: string, more: Log)
    requires LogGrows(log, r, app) && forall k :: 0 <= k < |more| ==> more[k].0 == app
    ensures LogGrows(log, r + more, app)
  {
    var r' := r + more;
    assert r'[..|log|] == r[..|log|];
    forall k | |log| <= k < |r'| ensures r'[k].0 == app {
      if k < |r| { assert r'[k] == r[k]; } else { assert r'[k] == more[k - |r|]; }
    }
  }

  /**
   * `_rollback_volumes` rolls back only the app's `-pv.yaml` files; without
   * a raise it rolls back all of them, in order, and each failure appends
   * its message to the app's list. An unknown app raises before any rollback.
   */
  lemma RollbackMeans(s: State, env: Env, app: string)
    ensures var r := Rollback(s, env, app);
            r.s.charts == s.charts && r.s.critical == s.critical
            && r.s.createList == s.createList && r.s.jobHandles == s.jobHandles
            && LogGrows(s.failures, r.s.failures, app)
            && (app !in s.charts.info ==> r == Res(s, Some(NotIterable)))
            && |s.trace| <= |r.s.trace| && r.s.trace[..|s.trace|] == s.trace
            && (forall k :: |s.trace| <= k < |r.s.trace| ==>
                  r.s.trace[k].OnApp? && r.s.trace[k].app == app && r.s.trace[k].appStep.RollbackPv?
                  && EndsWith(BaseName(r.s.trace[k].appStep.file), PvSuffix))
            && (app in s.charts.info && r.raised.None? ==>
                  var pv := PvOnly(s.charts.info[app].pvZfsVolumes);
                  r.s.trace == s.trace + RollbackOps(app, pv)
                  && r.s.failures == s.failures + Entries(app, FailedMessages(env, app, pv)))
  {
    if app in s.charts.info {
      RollbackKnown(s, env, app);
    } else {
      assert Rollback(s, env, app) == Res(s, Some(NotIterable));
    }
  }

  /** The rollback of an indexed app is the rollback loop over its `-pv.yaml` files. */
  lemma RollbackKnown(s: State, env: Env, app: string)
    requires app in s.charts.info
    ensures var r := Rollback(s, env, app); var pv := PvOnly(s.charts.info[app].pvZfsVolumes);
            r == RollbackEach(s, env, app, pv)
            && LogGrows(s.failures, r.s.failures, app)
            && |s.trace| <= |r.s.trace| && r.s.trace[..|s.trace|] == s.trace
            && (forall k :: |s.trace| <= k < |r.s.trace| ==>
                  r.s.trace[k].OnApp? && r.s.trace[k].app == app && r.s.trace[k].appStep.RollbackPv?
                  && EndsWith(BaseName(r.s.trace[k].appStep.file), PvSuffix))
            && (r.raised.None? ==>
                  r.s.trace == s.trace + RollbackOps(app, pv)
                  && r.s.failures == s.failures + Entries(app, FailedMessages(env, app, pv)))
  {
    var pv := PvOnly(s.charts.info[app].pvZfsVolumes);
    var r := RollbackEach(s, env, app, pv);
    assert Rollback(s, env, app) == r;
    RollbackEachPv(s, env, app, s.charts.info[app].pvZfsVolumes);
    RollbackEachFailures(s, env, app, pv);
  }

  /** The rollback of an app's `-pv.yaml` files appends rollbacks of such files only. */
  lemma RollbackEachPv(s: State, env: Env, app: string, files: seq<string>)
    ensures var r := RollbackEach(s, env, app, PvOnly(files));
            |s.trace| <= |r.s.trace| && r.s.trace[..|s.trace|] == s.trace
            && (forall k :: |s.trace| <= k < |r.s.trace| ==>
                  r.s.trace[k].OnApp? && r.s.trace[k].app == app && r.s.trace[k].appStep.RollbackPv?
                  && EndsWith(BaseName(r.s.trace[k].appStep.file), PvSuffix))
            && (r.raised.None? ==> r.s.trace == s.trace + RollbackOps(app, PvOnly(files)))
  {
    var pv := PvOnly(files);
    var r := RollbackEach(s, env, app, pv);
    RollbackEachTrace(s, env, app, pv);
    assert RollsBack(s.trace, r.s.trace, app, pv);
    forall k | |s.trace| <= k < |r.s.trace|
      ensures EndsWith(BaseName(r.s.trace[k].appStep.file), PvSuffix)
    {
      assert r.s.trace[k].appStep.file in pv;
    }
  }

  // ---------------------------------------------------------------- _restore_application

  const ChartDatasetFailed := "Failed to create chart dataset"
  const VolumeDatasetFailed := "Failed to create volume dataset"
  const NamespaceFailed := "Namespace restore failed"
  const RedeployFailed := "Failed to redeploy: "
  const RestorationException := "Exception during restoration: "

  /** `os.path.join(dataset, "releases", app, "charts")`. */
  function ChartsDataset(dataset: string, app: string): string {
    dataset + "/releases/" + app + "/charts"
  }

  /** `os.path.join(dataset, "releases", app, "volumes", "ix_volumes")`. */
  function VolumesDataset(dataset: string, app: string): string {
    dataset + "/releases/" + app + "/volumes/ix_volumes"
  }

  /** Where `_restore_application` stands: it goes on, or it has returned False. */
  datatype Flow = Next(s: State) | Failed(s: State)

  /** An exception inside `_restore_application` is recorded against the app, and the call returns False. */
  function Escape(s: State, app: string, error: string): Flow {
    Failed(Fail(s, app, RestorationException + error))
  }

  /** Creates a missing dataset; a failed creation makes the app critical. */
  function EnsureDataset(s: State, env: Env, app: string, path: string, failure: string): Flow {
    if env.present(path) then Next(s)
    else
      var op := OnApp(app, CreateDataset(path));
      var t := Perform(s, op);
      match env.outcome(op)
      case Raised(e) => Escape(t, app, e)
      case Done(ok, _, _) => if ok then Next(t) else Failed(Critical(t, app, failure))
  }

  /**
   * The part for an app that is to be redeployed: create its two datasets
   * if needed, put its chart version back, and restore its namespace; a
   * failed namespace restore moves the app to the create list.
   */
  function Prepare(s: State, env: Env, dataset: string, app: string): Flow {
    if app in s.createList then Next(s)
    else
      match EnsureDataset(s, env, app, ChartsDataset(dataset, app), ChartDatasetFailed)
      case Failed(t) => Failed(t)
      case Next(t) =>
        match EnsureDataset(t, env, app, VolumesDataset(dataset, app), VolumeDatasetFailed)
        case Failed(u) => Failed(u)
        case Next(u) =>
          var v := Perform(u, OnApp(app, RestoreChartVersion));
          match env.outcome(OnApp(app, RestoreChartVersion))
          case Raised(e) => Escape(v, app, e)
          case Done(_, _, _) =>
            var w := Perform(v, OnApp(app, RestoreNamespace));
            match env.outcome(OnApp(app, RestoreNamespace))
            case Raised(e) => Escape(w, app, e)
            case Done(ok, _, _) =>
              if ok then Next(w)
              else Next(Fail(w, app, NamespaceFailed).(createList := w.createList + [app]))
  }

  /** Applies a file list of the app (PV/ZFS volumes or secrets) if it has one; the files that fail are recorded. */
  function Apply(s: State, env: Env, app: string, kind: FileKind, step: AppStep): Flow {
    if !Truthy(GetFile(s.charts, app, kind)) then Next(s)
    else
      var t := Perform(s, OnApp(app, step));
      match env.outcome(OnApp(app, step))
      case Raised(e) => Escape(t, app, e)
      case Done(_, _, failures) => Next(FailAll(t, app, failures))
  }

  /** An app on the create list has its versions directory deleted and its chart created; a failed creation makes it critical. */
  function CreateApp(s: State, env: Env, app: string): Flow {
    if app !in s.createList then Next(s)
    else
      var t := Perform(s, OnApp(app, DeleteVersions));
      match env.outcome(OnApp(app, DeleteVersions))
      case Raised(e) => Escape(t, app, e)
      case Done(_, _, _) =>
        var u := Perform(t, OnApp(app, CreateChart));
        match env.outcome(OnApp(app, CreateChart))
        case Raised(e) => Escape(u, app, e)
        case Done(ok, message, _) => if ok then Next(u) else Failed(Critical(u, app, message))
  }

  /** An app off the create list is redeployed and its job queued; a raise makes it critical. */
  function RedeployApp(s: State, env: Env, app: string): Flow {
    if app in s.createList then Next(s)
    else
      var t := Perform(s, OnApp(app, Redeploy));
      match env.outcome(OnApp(app, Redeploy))
      case Raised(e) => Failed(Critical(t, app, RedeployFailed + e))
      case Done(_, _, _) => Next(t.(jobHandles := t.jobHandles + [app]))
  }

  /** `_delete_cnpg_pvcs` runs when the app lists a delete file that exists; it never raises. */
  function DeletePvcs(s: State, env: Env, app: string): State {
    var f := GetFile(s.charts, app, CnpgPvcsToDelete);
    if f.OnePath? && env.present(f.path) then Perform(s, OnApp(app, DeleteCnpgPvcs)) else s
  }

  /** `_restore_application`: the state it leaves and what it returns. */
  function RestoreApp(s: State, env: Env, dataset: string, app: string): (State, bool) {
    match Prepare(s, env, dataset, app)
    case Failed(t) => (t, false)
    case Next(t) =>
      match Apply(t, env, app, PvZfsVolumes, RestorePvZfs)
      case Failed(u) => (u, false)
      case Next(u) =>
        match CreateApp(u, env, app)
        case Failed(v) => (v, false)
        case Next(v) =>
          match Apply(v, env, app, Secrets, RestoreSecrets)
          case Failed(w) => (w, false)
          case Next(w) =>
            match RedeployApp(w, env, app)
            case Failed(x) => (x, false)
            case Next(x) => (DeletePvcs(x, env, app), true)
  }

  /**
   * What one stage may leave: a consistent state changed only on behalf of
   * the app; a stage that goes on has made nothing critical, and one that
   * returns False has recorded a message.
   */
  predicate Contained(s: State, f: Flow, app: string) {
    Consistent(f.s) && Local(s, f.s, app)
    && (f.Next? ==> f.s.critical == s.critical && f.s.charts == s.charts)
    && (f.Failed? ==> |s.failures| < |f.s.failures|)
  }

  lemma ContainedTrans(s: State, t: State, f: Flow, app: string)
    requires Contained(s, Next(t), app) && Contained(t, f, app)
    ensures Contained(s, f, app)
  {
    LocalTrans(s, t, f.s, app);
  }

  lemma EscapeContained(s: State, t: State, app: string, error: string)
    requires Consistent(s) && Local(s, t, app) && t.critical == s.critical && t.charts == s.charts
    ensures Contained(s, Escape(t, app, error), app)
  {
    FailLocal(t, app, RestorationException + error);
    LocalTrans(s, t, Escape(t, app, error).s, app);
  }

  lemma CriticalContained(s: State, t: State, app: string, error: string)
    requires Consistent(s) && Local(s, t, app) && t.critical == s.critical && t.charts == s.charts
    ensures Contained(s, Failed(Critical(t, app, error)), app)
  {
    CriticalLocal(t, app, error);
    LocalTrans(s, t, Critical(t, app, error), app);
  }

  lemma EnsureDatasetContained(s: State, env: Env, app: string, path: string, failure: string)
    requires Consistent(s)
    ensures Contained(s, EnsureDataset(s, env, app, path, failure), app)
    ensures EnsureDataset(s, env, app, path, failure).s.jobHandles == s.jobHandles
    ensures EnsureDataset(s, env, app, path, failure).s.createList == s.createList
  {
    if !env.present(path) {
      var op := OnApp(app, CreateDataset(path));
      PerformLocal(s, app, CreateDataset(path));
      match env.outcome(op)
      case Raised(e) => EscapeContained(s, Perform(s, op), app, e);
      case Done(ok, _, _) =>
        if !ok { CriticalContained(s, Perform(s, op), app, failure); }
    }
  }

  lemma PrepareContained(s: State, env: Env, dataset: string, app: string)
    requires Consistent(s)
    ensures Contained(s, Prepare(s, env, dataset, app), app)
    ensures Prepare(s, env, dataset, app).s.jobHandles == s.jobHandles
  {
    if app !in s.createList {
      EnsureDatasetContained(s, env, app, ChartsDataset(dataset, app), ChartDatasetFailed);
      var f := EnsureDataset(s, env, app, ChartsDataset(dataset, app), ChartDatasetFailed);
      if f.Next? {
        var t := f.s;
        EnsureDatasetContained(t, env, app, VolumesDataset(dataset, app), VolumeDatasetFailed);
        var g := EnsureDataset(t, env, app, VolumesDataset(dataset, app), VolumeDatasetFailed);
        ContainedTrans(s, t, g, app);
        if g.Next? {
          var u := g.s;
          var v := Perform(u, OnApp(app, RestoreChartVersion));
          PerformLocal(u, app, RestoreChartVersion);
          LocalTrans(s, u, v, app);
          match env.outcome(OnApp(app, RestoreChartVersion))
          case Raised(e) => EscapeContained(s, v, app, e);
          case Done(_, _, _) =>
            var w := Perform(v, OnApp(app, RestoreNamespace));
            PerformLocal(v, app, RestoreNamespace);
            LocalTrans(s, v, w, app);
            match env.outcome(OnApp(app, RestoreNamespace))
            case Raised(e) => EscapeContained(s, w, app, e);
            case Done(ok, _, _) =>
              if !ok {
                var x := Fail(w, app, NamespaceFailed);
                FailLocal(w, app, NamespaceFailed);
                LocalTrans(s, w, x, app);
                assert w.createList == s.createList;
              }
        }
      }
    }
  }

  lemma ApplyContained(s: State, env: Env, app: string, kind: FileKind, step: AppStep)
    requires Consistent(s)
    ensures Contained(s, Apply(s, env, app, kind, step), app)
    ensures Apply(s, env, app, kind, step).s.jobHandles == s.jobHandles
    ensures Apply(s, env, app, kind, step).s.createList == s.createList
  {
    if Truthy(GetFile(s.charts, app, kind)) {
      var t := Perform(s, OnApp(app, step));
      PerformLocal(s, app, step);
      match env.outcome(OnApp(app, step))
      case Raised(e) => EscapeContained(s, t, app, e);
      case Done(_, _, failures) =>
        FailAllLocal(t, app, failures);
        LocalTrans(s, t, FailAll(t, app, failures), app);
    }
  }

  lemma CreateAppContained(s: State, env: Env, app: string)
    requires Consistent(s)
    ensures Contained(s, CreateApp(s, env, app), app)
    ensures CreateApp(s, env, app).s.jobHandles == s.jobHandles
    ensures CreateApp(s, env, app).s.createList == s.createList
  {
    if app in s.createList {
      var t := Perform(s, OnApp(app, DeleteVersions));
      PerformLocal(s, app, DeleteVersions);
      match env.outcome(OnApp(app, DeleteVersions))
      case Raised(e) => EscapeContained(s, t, app, e);
      case Done(_, _, _) =>
        var u := Perform(t, OnApp(app, CreateChart));
        PerformLocal(t, app, CreateChart);
        LocalTrans(s, t, u, app);
        match env.outcome(OnApp(app, CreateChart))
        case Raised(e) => EscapeContained(s, u, app, e);
        case Done(ok, message, _) =>
          if !ok { CriticalContained(s, u, app, message); }
    }
  }

  lemma RedeployAppContained(s: State, env: Env, app: string)
    requires Consistent(s)
    ensures Contained(s, RedeployApp(s, env, app), app)
    ensures RedeployApp(s, env, app).s.createList == s.createList
    ensures var f := RedeployApp(s, env, app);
            f.s.jobHandles == if f.Next? && app !in s.createList then s.jobHandles + [app] else s.jobHandles
  {
    if app !in s.createList {
      var t := Perform(s, OnApp(app, Redeploy));
      PerformLocal(s, app, Redeploy);
      match env.outcome(OnApp(app, Redeploy))
      case Raised(e) => CriticalContained(s, t, app, RedeployFailed + e);
      case Done(_, _, _) =>
    }
  }

  /**
   * Containment of `_restore_application`: it changes only what belongs to
   * the app: its critical mark and index entry, its place on the create
   * list, its messages, its queued job and operations on it. It returns
   * True only if nothing became critical, and False only after recording a
   * message for the app. Its job is queued exactly when it returns True and
   * the app is (still) off the create list.
   */
  lemma RestoreAppContained(s: State, env: Env, dataset: string, app: string)
    requires Consistent(s)
    ensures var (r, ok) := RestoreApp(s, env, dataset, app);
            Consistent(r) && Local(s, r, app)
            && (ok ==> r.critical == s.critical && r.charts == s.charts)
            && (!ok ==> |s.failures| < |r.failures| && r.failures[|r.failures| - 1].0 == app)
            && r.jobHandles == (if ok && app !in r.createList then s.jobHandles + [app] else s.jobHandles)
  {
    PrepareContained(s, env, dataset, app);
    var f := Prepare(s, env, dataset, app);
    if f.Next? {
      var t := f.s;
      ApplyContained(t, env, app, PvZfsVolumes, RestorePvZfs);
      var g := Apply(t, env, app, PvZfsVolumes, RestorePvZfs);
      ContainedTrans(s, t, g, app);
      if g.Next? {
        var u := g.s;
        CreateAppContained(u, env, app);
        var h := CreateApp(u, env, app);
        ContainedTrans(s, u, h, app);
        if h.Next? {
          var v := h.s;
          ApplyContained(v, env, app, Secrets, RestoreSecrets);
          var i := Apply(v, env, app, Secrets, RestoreSecrets);
          ContainedTrans(s, v, i, app);
          if i.Next? {
            var w := i.s;
            RedeployAppContained(w, env, app);
            var j := RedeployApp(w, env, app);
            ContainedTrans(s, w, j, app);
            if j.Next? {
              var x := j.s;
              var y := DeletePvcs(x, env, app);
              if y != x {
                PerformLocal(x, app, DeleteCnpgPvcs);
                LocalTrans(s, x, y, app);
              }
            }
          }
        }
      }
    }
  }

  // ---------------------------------------------------------------- _restore_crds

  /** `_restore_crds`: the CRD files that fail are recorded against the app; a raise propagates. */
  function ApplyCrds(s: State, env: Env, app: string): (r: Res)
    ensures r.s.charts == s.charts && r.s.critical == s.critical
    ensures r.s.createList == s.createList && r.s.jobHandles == s.jobHandles
    ensures r.s.trace == s.trace + [OnApp(app, RestoreCrd)]
  {
    var t := Perform(s, OnApp(app, RestoreCrd));
    match env.outcome(OnApp(app, RestoreCrd))
    case Raised(e) => Res(t, Some(e))
    case Done(_, _, failures) => Res(FailAll(t, app, failures), None)
  }

  /** The CRD loop: one restore per app in order, and a raise ends the loop and propagates. */
  function ApplyAllCrds(s: State, env: Env, apps: seq<string>): (r: Res)
    ensures r.s.charts == s.charts && r.s.critical == s.critical
    ensures r.s.createList == s.createList && r.s.jobHandles == s.jobHandles
    decreases |apps|
  {
    if apps == [] then Res(s, None)
    else
      var p := ApplyAllCrds(s, env, apps[..|apps| - 1]);
      if p.raised.Some? then p else ApplyCrds(p.s, env, apps[|apps| - 1])
  }

  /** Without a raise, the app's list gains exactly the CRD files that failed. */
  lemma ApplyCrdsMeans(s: State, env: Env, app: string, b: string)
    ensures var r := ApplyCrds(s, env, app);
            var o := env.outcome(OnApp(app, RestoreCrd));
            (r.raised.None? <==> o.Done?)
            && (o.Done? ==> ErrorsOf(r.s.failures, b) == ErrorsOf(s.failures, b) + (if b == app then o.failures else []))
  {
    var o := env.outcome(OnApp(app, RestoreCrd));
    if o.Done? {
      RecordErrors(s.failures, app, o.failures, b);
    }
  }

  // ---------------------------------------------------------------- the phases both restores share

  const RollbackFailed := "Failed to rollback volume snapshots: "
  const CatalogKey := "Catalog"
  const CatalogFailed := "Restoration failed: "
  const CnpgChart := "cloudnative-pg"
  const CnpgFailed := "Cloud Native PostgreSQL failed to restore"
  const RestorationFailed := "Restoration failed"
  const JobFailed := "Job failed: "
  const DatabaseFailed := "Database restore failed: "

  /** The volume rollback loop of `RestoreAll`: an exception is recorded against its app and the loop goes on. */
  function RollbackAll(s: State, env: Env, apps: seq<string>): (r: State)
    ensures r.charts == s.charts && r.critical == s.critical
    ensures r.createList == s.createList && r.jobHandles == s.jobHandles
    decreases |apps|
  {
    if apps == [] then s
    else
      var t := RollbackAll(s, env, apps[..|apps| - 1]);
      var app := apps[|apps| - 1];
      var r := Rollback(t, env, app);
      if r.raised.Some? then Fail(r.s, app, RollbackFailed + r.raised.value) else r.s
  }

  /** The catalog restore: an exception is recorded under `Catalog`. */
  function CatalogStep(s: State, env: Env): (r: State)
    ensures r.charts == s.charts && r.critical == s.critical
    ensures r.createList == s.createList && r.jobHandles == s.jobHandles
    ensures r.trace == s.trace + [Global(RestoreCatalog)]
  {
    var t := Perform(s, Global(RestoreCatalog));
    match env.outcome(Global(RestoreCatalog))
    case Raised(e) => Fail(t, CatalogKey, CatalogFailed + e)
    case Done(_, _, _) => t
  }

  /**
   * The application loop's state: the restore state, whether the wait for
   * the CNPG operator has been made (`cnpg_active`, as long as the loop goes
   * on), and an exception leaving the loop.
   */
  datatype Loop = Loop(s: State, waited: bool, raised: Option<string>)

  /** `_restore_application` followed by the loop's own handling of False. */
  function Restored(s: State, env: Env, dataset: string, app: string, waited: bool): Loop {
    var (t, ok) := RestoreApp(s, env, dataset, app);
    Loop(if ok then t else Critical(t, app, RestorationFailed), waited, None)
  }

  /**
   * One app of the application loop. A CNPG app while `cloudnative-pg` is
   * critical is itself made critical and skipped; the first other CNPG app
   * waits for the operator, if the backup has a `cloudnative-pg` chart, and
   * a raise of that wait leaves the restore.
   */
  function RestoreStep(l: Loop, env: Env, dataset: string, app: string): Loop {
    var s := l.s;
    if app in CnpgApps(s.charts) && CnpgChart in s.critical then
      Loop(Critical(s, app, CnpgFailed), l.waited, None)
    else if app in CnpgApps(s.charts) && !l.waited && CnpgChart in ChartNames(s.charts) then
      var op := Global(WaitCnpg(GetReleaseName(s.charts, CnpgChart)));
      var t := Perform(s, op);
      if env.outcome(op).Raised? then Loop(t, true, Some(env.outcome(op).error))
      else Restored(t, env, dataset, app, true)
    else Restored(s, env, dataset, app, l.waited)
  }

  /** The application loop over the apps in order. */
  function RestoreApps(l: Loop, env: Env, dataset: string, apps: seq<string>): Loop
    decreases |apps|
  {
    if apps == [] then l
    else
      var p := RestoreApps(l, env, dataset, apps[..|apps| - 1]);
      if p.raised.Some? then p else RestoreStep(p, env, dataset, apps[|apps| - 1])
  }

  /** The redeploy jobs are awaited in order; a job that raises makes its app critical. */
  function WaitJobs(s: State, env: Env, apps: seq<string>): (r: State)
    ensures r.createList == s.createList && r.jobHandles == s.jobHandles
    decreases |apps|
  {
    if apps == [] then s else WaitJob1(WaitJobs(s, env, apps[..|apps| - 1]), env, apps[|apps| - 1])
  }

  /** Awaiting one app's redeploy job. */
  function WaitJob1(s: State, env: Env, app: string): (r: State)
    ensures r.createList == s.createList && r.jobHandles == s.jobHandles
    ensures r.trace == s.trace + [OnApp(app, WaitJob)]
  {
    var u := Perform(s, OnApp(app, WaitJob));
    var o := env.outcome(OnApp(app, WaitJob));
    if o.Raised? then Critical(u, app, JobFailed + o.error) else u
  }

  /** One database restore: a failure or an exception is recorded, never made critical. */
  function RestoreDb(s: State, env: Env, app: string): (r: State)
    ensures r.charts == s.charts && r.critical == s.critical
    ensures r.createList == s.createList && r.jobHandles == s.jobHandles
    ensures r.trace == s.trace + [OnApp(app, RestoreDatabase)]
  {
    var t := Perform(s, OnApp(app, RestoreDatabase));
    var o := env.outcome(OnApp(app, RestoreDatabase));
    if o.Raised? then Fail(t, app, DatabaseFailed + o.error)
    else if !o.success then Fail(t, app, o.message)
    else t
  }

  function RestoreDbs(s: State, env: Env, apps: seq<string>): (r: State)
    ensures r.charts == s.charts && r.critical == s.critical
    ensures r.createList == s.createList && r.jobHandles == s.jobHandles
    decreases |apps|
  {
    if apps == [] then s else RestoreDb(RestoreDbs(s, env, apps[..|apps| - 1]), env, apps[|apps| - 1])
  }

  // ---------------------------------------------------------------- what the phases append

  /** The rows appended to a log all belong to apps of the list. */
  predicate LogGrowsFor(log: Log, r: Log, apps: seq<string>) {
    |log| <= |r| && r[..|log|] == log && forall k :: |log| <= k < |r| ==> r[k].0 in apps
  }

  /** One `step` per app, in list order. */
  function AppOps(apps: seq<string>, step: AppStep): (r: seq<Op>)
    ensures |r| == |apps| && forall k :: 0 <= k < |r| ==> r[k] == OnApp(apps[k], step)
  {
    seq(|apps|, k requires 0 <= k < |apps| => OnApp(apps[k], step))
  }

  /** Every operation after `trace` rolls back a `-pv.yaml` volume of a listed app. */
  predicate RollbacksOf(trace: seq<Op>, r: seq<Op>, apps: seq<string>) {
    |trace| <= |r| && r[..|trace|] == trace
    && forall k :: |trace| <= k < |r| ==>
         r[k].OnApp? && r[k].app in apps && r[k].appStep.RollbackPv? && EndsWith(BaseName(r[k].appStep.file), PvSuffix)
  }

  /** One app of the volume rollback phase: its `-pv.yaml` volumes only, and errors only against it. */
  lemma RollbackAllStep(t: State, env: Env, app: string)
    ensures var r := Rollback(t, env, app);
            var u := if r.raised.Some? then Fail(r.s, app, RollbackFailed + r.raised.value) else r.s;
            RollbacksOf(t.trace, u.trace, [app]) && LogGrowsFor(t.failures, u.failures, [app])
  {
    RollbackMeans(t, env, app);
    var r := Rollback(t, env, app);
    forall k | |t.trace| <= k < |r.s.trace| ensures r.s.trace[k].OnApp? && r.s.trace[k].app in [app] {
      assert r.s.trace[k].app == app;
    }
    forall k | |t.failures| <= k < |r.s.failures| ensures r.s.failures[k].0 in [app] {
      assert r.s.failures[k].0 == app;
    }
    RaisedRollbackFails(t, r, app);
  }

  lemma RaisedRollbackFails(t: State, r: Res, app: string)
    requires RollbacksOf(t.trace, r.s.trace, [app]) && LogGrowsFor(t.failures, r.s.failures, [app])
    ensures var u := if r.raised.Some? then Fail(r.s, app, RollbackFailed + r.raised.value) else r.s;
            RollbacksOf(t.trace, u.trace, [app]) && LogGrowsFor(t.failures, u.failures, [app])
  {
    if r.raised.Some? {
      var u := Fail(r.s, app, RollbackFailed + r.raised.value);
      assert u.failures[..|t.failures|] == r.s.failures[..|t.failures|];
    }
  }

  lemma RollbacksOfTrans(a: seq<Op>, b: seq<Op>, c: seq<Op>, init: seq<string>, app: string)
    requires RollbacksOf(a, b, init) && RollbacksOf(b, c, [app])
    ensures RollbacksOf(a, c, init + [app])
  {
    assert c[..|a|] == c[..|b|][..|a|];
    forall k | |a| <= k < |b| ensures c[k] == b[k] {
      assert c[..|b|][k] == c[k];
    }
  }

  lemma LogGrowsForTrans(a: Log, b: Log, c: Log, init: seq<string>, app: string)
    requires LogGrowsFor(a, b, init) && LogGrowsFor(b, c, [app])
    ensures LogGrowsFor(a, c, init + [app])
  {
    assert c[..|a|] == c[..|b|][..|a|];
    forall k | |a| <= k < |b| ensures c[k] == b[k] {
      assert c[..|b|][k] == c[k];
    }
  }

  /**
   * The volume rollback phase changes only the failures and the trace: each
   * operation rolls back a `-pv.yaml` volume of a listed app, and each
   * recorded error belongs to a listed app.
   */
  lemma {:induction false} RollbackAllMeans(s: State, env: Env, apps: seq<string>)
    ensures var r := RollbackAll(s, env, apps);
            RollbacksOf(s.trace, r.trace, apps) && LogGrowsFor(s.failures, r.failures, apps)
    decreases |apps|
  {
    if apps == [] {
      assert s.trace[..|s.trace|] == s.trace && s.failures[..|s.failures|] == s.failures;
    } else {
      var init := apps[..|apps| - 1];
      var app := apps[|apps| - 1];
      assert apps == init + [app];
      RollbackAllMeans(s, env, init);
      var t := RollbackAll(s, env, init);
      RollbackAllStep(t, env, app);
      var r := RollbackAll(s, env, apps);
      RollbacksOfTrans(s.trace, t.trace, r.trace, init, app);
      LogGrowsForTrans(s.failures, t.failures, r.failures, init, app);
    }
  }

  /** One awaited job: a raise makes its app critical, and nothing else changes in the critical list. */
  lemma WaitJob1Means(s: State, env: Env, app: string)
    requires Consistent(s)
    ensures var r := WaitJob1(s, env, app);
            Consistent(r) && Narrower(s, r) && LogGrowsFor(s.failures, r.failures, [app])
            && (forall a :: a in r.critical <==>
                  a in s.critical || (a == app && env.outcome(OnApp(app, WaitJob)).Raised?))
  {
    var u := Perform(s, OnApp(app, WaitJob));
    var o := env.outcome(OnApp(app, WaitJob));
    if o.Raised? {
      CriticalMeans(u, app, JobFailed + o.error, app);
      ChartNamesRemoved(s.charts, app);
      var r := Critical(u, app, JobFailed + o.error);
      assert r.failures == s.failures + [(app, JobFailed + o.error)];
      assert r.failures[..|s.failures|] == s.failures;
    } else {
      assert s.failures[..|s.failures|] == s.failures;
    }
  }

  /**
   * Waiting on the redeploy jobs awaits each queued app once, in order; an
   * app ends up critical exactly when it already was or its job raised.
   */
  lemma {:induction false} WaitJobsMeans(s: State, env: Env, apps: seq<string>)
    requires Consistent(s)
    ensures var r := WaitJobs(s, env, apps);
            Consistent(r) && Narrower(s, r)
            && r.trace == s.trace + AppOps(apps, WaitJob)
            && LogGrowsFor(s.failures, r.failures, apps)
            && (forall a :: a in r.critical <==>
                  a in s.critical || (a in apps && env.outcome(OnApp(a, WaitJob)).Raised?))
    decreases |apps|
  {
    if apps == [] {
      assert s.failures[..|s.failures|] == s.failures;
    } else {
      var init := apps[..|apps| - 1];
      var app := apps[|apps| - 1];
      assert apps == init + [app];
      WaitJobsMeans(s, env, init);
      var t := WaitJobs(s, env, init);
      WaitJob1Means(t, env, app);
      assert AppOps(apps, WaitJob) == AppOps(init, WaitJob) + [OnApp(app, WaitJob)];
      LogGrowsForTrans(s.failures, t.failures, WaitJobs(s, env, apps).failures, init, app);
    }
  }

  /**
   * The database phase restores each listed app's database once, in order,
   * records errors only against listed apps, and makes nothing critical.
   */
  lemma {:induction false} RestoreDbsMeans(s: State, env: Env, apps: seq<string>)
    ensures var r := RestoreDbs(s, env, apps);
            r.trace == s.trace + AppOps(apps, RestoreDatabase)
            && LogGrowsFor(s.failures, r.failures, apps)
    decreases |apps|
  {
    if apps != [] {
      var init := apps[..|apps| - 1];
      var app := apps[|apps| - 1];
      RestoreDbsMeans(s, env, init);
      var t := RestoreDbs(s, env, init);
      assert AppOps(apps, RestoreDatabase) == AppOps(init, RestoreDatabase) + [OnApp(app, RestoreDatabase)];
      assert apps == init + [app];
      var r := RestoreDbs(s, env, apps);
      assert r.failures[..|t.failures|] == t.failures;
      assert forall k :: |s.failures| <= k < |t.failures| ==> r.failures[k] == t.failures[k];
    }
  }

  // ---------------------------------------------------------------- the application loop

  predicate IsWait(op: Op) {
    op.Global? && op.step.WaitCnpg?
  }

  /** An operation of the restore that leaves the cluster's services and datasets alone. */
  predicate AppLevel(op: Op) {
    op.OnApp? || op == Global(RestoreCatalog) || IsWait(op)
  }

  /** `r` extends `t` by such operations only. */
  predicate AppLevelSince(t: seq<Op>, r: seq<Op>) {
    |t| <= |r| && r[..|t|] == t && forall k :: |t| <= k < |r| ==> AppLevel(r[k])
  }

  lemma AppLevelTrans(a: seq<Op>, b: seq<Op>, c: seq<Op>)
    requires AppLevelSince(a, b) && AppLevelSince(b, c)
    ensures AppLevelSince(a, c)
  {
    assert c[..|a|] == c[..|b|][..|a|];
    forall k | |a| <= k < |b| ensures c[k] == b[k] {
      assert c[..|b|][k] == c[k];
    }
  }

  /** A trace that extends an extension of `a` extends `a`. */
  lemma ExtendsTrans(a: seq<Op>, b: seq<Op>, c: seq<Op>)
    requires |a| <= |b| && b[..|a|] == a && |b| <= |c| && c[..|b|] == b
    ensures |a| <= |c| && c[..|a|] == a
  {
    assert c[..|a|] == c[..|b|][..|a|];
  }

  /** The number of waits for the CNPG operator in a trace. */
  function CountWaits(trace: seq<Op>): nat
    decreases |trace|
  {
    if trace == [] then 0
    else CountWaits(trace[..|trace| - 1]) + (if IsWait(trace[|trace| - 1]) then 1 else 0)
  }

  /** Appending operations that are no waits keeps the count. */
  lemma {:induction false} CountWaitsNone(t: seq<Op>, r: seq<Op>)
    requires |t| <= |r| && r[..|t|] == t && forall k :: |t| <= k < |r| ==> !IsWait(r[k])
    ensures CountWaits(r) == CountWaits(t)
    decreases |r|
  {
    if |r| > |t| {
      var init := r[..|r| - 1];
      assert init[..|t|] == r[..|t|];
      assert forall k :: |t| <= k < |init| ==> init[k] == r[k];
      CountWaitsNone(t, init);
    } else {
      assert r == r[..|t|];
    }
  }

  /** A sub-index (the same records for fewer apps) has no chart name the index lacks. */
  lemma ChartNamesSub(c0: Charts, c: Charts)
    requires Valid(c0) && Valid(c)
    requires forall a :: a in c.info ==> a in c0.info && c.info[a] == c0.info[a]
    ensures forall x :: x in ChartNames(c) ==> x in ChartNames(c0)
  {
    forall x | x in ChartNames(c) ensures x in ChartNames(c0) {
      var k :| 0 <= k < |ChartNames(c)| && ChartNames(c)[k] == x;
      var a := c.order[k];
      assert a in c0.order;
      var j :| 0 <= j < |c0.order| && c0.order[j] == a;
      assert ChartNames(c0)[j] == x;
    }
  }

  /** Deleting an app from the index drops chart names, never adds one. */
  lemma ChartNamesRemoved(c: Charts, app: string)
    requires Valid(c)
    ensures forall x :: x in ChartNames(Removed(c, app)) ==> x in ChartNames(c)
  {
    ChartNamesSub(c, Removed(c, app));
  }

  /** The index and the critical list only lose and gain apps: chart names and records are never added. */
  ghost predicate Narrower(s: State, r: State) {
    (forall x :: x in ChartNames(r.charts) ==> x in ChartNames(s.charts))
    && (forall a :: a in s.critical ==> a in r.critical)
    && (forall a :: a in r.charts.info ==> a in s.charts.info && r.charts.info[a] == s.charts.info[a])
  }

  lemma LocalNarrower(s: State, r: State, app: string)
    requires Valid(s.charts) && Local(s, r, app)
    ensures Narrower(s, r)
  {
    ChartNamesRemoved(s.charts, app);
  }

  /** The state the app's own restore starts from: after the wait for the operator, if this app makes it. */
  function Awaited(l: Loop, app: string): State {
    var s := l.s;
    if app in CnpgApps(s.charts) && CnpgChart !in s.critical && !l.waited && CnpgChart in ChartNames(s.charts)
    then Perform(s, Global(WaitCnpg(GetReleaseName(s.charts, CnpgChart))))
    else s
  }

  lemma RestoredLocal(s: State, env: Env, dataset: string, app: string, waited: bool)
    requires Consistent(s)
    ensures var r := Restored(s, env, dataset, app, waited);
            Consistent(r.s) && Local(s, r.s, app) && r.raised.None? && r.waited == waited
            && (app !in r.s.critical ==> RestoreApp(s, env, dataset, app).1)
  {
    RestoreAppContained(s, env, dataset, app);
    var (t, ok) := RestoreApp(s, env, dataset, app);
    if !ok {
      CriticalLocal(t, app, RestorationFailed);
      LocalTrans(s, t, Critical(t, app, RestorationFailed), app);
    }
  }

  /**
   * One app of the application loop changes only what belongs to that app,
   * besides the operator wait. A CNPG app met while `cloudnative-pg` is
   * critical becomes critical without any operation. An app that comes out
   * of its step not critical had `_restore_application` return True.
   */
  lemma RestoreStepLocal(l: Loop, env: Env, dataset: string, app: string)
    requires Consistent(l.s)
    ensures var r := RestoreStep(l, env, dataset, app);
            Consistent(r.s)
            && (r.raised.None? ==> Local(Awaited(l, app), r.s, app))
            && (r.raised.Some? ==> r.s == Awaited(l, app) && r.s != l.s)
            && (app in CnpgApps(l.s.charts) && CnpgChart in l.s.critical ==>
                  r.s.trace == l.s.trace && app in r.s.critical && r.raised.None?)
            && (r.raised.None? && app !in r.s.critical ==> RestoreApp(Awaited(l, app), env, dataset, app).1)
  {
    var s := l.s;
    if app in CnpgApps(s.charts) && CnpgChart in s.critical {
      CriticalLocal(s, app, CnpgFailed);
    } else {
      RestoredLocal(Awaited(l, app), env, dataset, app, l.waited || Awaited(l, app) != s);
    }
  }

  /** One app of the loop makes the operator wait at most once, and only if a `cloudnative-pg` chart is indexed. */
  lemma RestoreStepWaits(l: Loop, env: Env, dataset: string, app: string)
    requires Consistent(l.s)
    ensures var r := RestoreStep(l, env, dataset, app);
            Consistent(r.s) && Narrower(l.s, r.s) && AppLevelSince(l.s.trace, r.s.trace)
            && (l.waited ==> r.waited)
            && CountWaits(r.s.trace) == CountWaits(l.s.trace) + (if r.waited && !l.waited then 1 else 0)
            && (r.waited && !l.waited ==> CnpgChart in ChartNames(l.s.charts))
  {
    RestoreStepLocal(l, env, dataset, app);
    var s := l.s;
    var r := RestoreStep(l, env, dataset, app);
    var t := Awaited(l, app);
    if app in CnpgApps(s.charts) && CnpgChart in s.critical {
      assert t == s && r == Loop(Critical(s, app, CnpgFailed), l.waited, None);
      LocalWaits(s, r.s, app);
    } else if app in CnpgApps(s.charts) && !l.waited && CnpgChart in ChartNames(s.charts) {
      var op := Global(WaitCnpg(GetReleaseName(s.charts, CnpgChart)));
      assert t == Perform(s, op);
      WaitPerformed(s, op);
      if r.raised.None? {
        assert r == Restored(t, env, dataset, app, true);
        LocalWaits(t, r.s, app);
        AppLevelTrans(s.trace, t.trace, r.s.trace);
      }
    } else {
      assert t == s && r == Restored(s, env, dataset, app, l.waited);
      LocalWaits(s, r.s, app);
    }
  }

  /** An app's own steps add no wait, keep the trace app-level and only narrow the index. */
  lemma LocalWaits(s: State, r: State, app: string)
    requires Valid(s.charts) && Local(s, r, app)
    ensures CountWaits(r.trace) == CountWaits(s.trace) && AppLevelSince(s.trace, r.trace) && Narrower(s, r)
  {
    CountWaitsNone(s.trace, r.trace);
    LocalNarrower(s, r, app);
  }

  /** Waiting for the operator counts one wait. */
  lemma WaitPerformed(s: State, op: Op)
    requires IsWait(op)
    ensures CountWaits(Perform(s, op).trace) == CountWaits(s.trace) + 1
    ensures AppLevelSince(s.trace, Perform(s, op).trace)
  {
    var t := s.trace + [op];
    assert t[..|t| - 1] == s.trace;
    assert t[..|s.trace|] == s.trace;
  }

  /**
   * The application loop keeps the state consistent, only narrows the
   * index, and waits for the CNPG operator at most once per run: exactly
   * when the wait flag turns on, and only if a `cloudnative-pg` chart was
   * indexed when the loop began.
   */
  lemma {:induction false} RestoreAppsWaits(l: Loop, env: Env, dataset: string, apps: seq<string>)
    requires Consistent(l.s)
    ensures var r := RestoreApps(l, env, dataset, apps);
            Consistent(r.s) && Narrower(l.s, r.s) && AppLevelSince(l.s.trace, r.s.trace)
            && (l.waited ==> r.waited)
            && CountWaits(r.s.trace) == CountWaits(l.s.trace) + (if r.waited && !l.waited then 1 else 0)
            && (r.waited && !l.waited ==> CnpgChart in ChartNames(l.s.charts))
    decreases |apps|
  {
    if apps == [] {
      assert l.s.trace[..|l.s.trace|] == l.s.trace;
    } else {
      var init := apps[..|apps| - 1];
      RestoreAppsWaits(l, env, dataset, init);
      var p := RestoreApps(l, env, dataset, init);
      if p.raised.None? {
        RestoreStepWaits(p, env, dataset, apps[|apps| - 1]);
        AppLevelTrans(l.s.trace, p.s.trace, RestoreApps(l, env, dataset, apps).s.trace);
      }
    }
  }

  // ---------------------------------------------------------------- the shared middle of both restores

  /** How `restore` ends. */
  datatype Exit =
    | Declined(reason: string)            // the confirmation was refused
    | NoReleases                          // the backup lists no release
    | SetupAborted(summary: seq<string>)  // the initial Kubernetes setup failed
    | StartAborted(summary: seq<string>)  // Kubernetes did not come up
    | Uncaught(error: string)             // an exception left `restore`
    | Completed(summary: seq<string>)

  /** Appending per-app operations keeps a trace app-level and adds no wait. */
  lemma AppOpsAppended(t: seq<Op>, apps: seq<string>, step: AppStep)
    ensures AppLevelSince(t, t + AppOps(apps, step))
    ensures CountWaits(t + AppOps(apps, step)) == CountWaits(t)
  {
    var r := t + AppOps(apps, step);
    assert r[..|t|] == t;
    CountWaitsNone(t, r);
  }

  /** Every operation appended to `t` restores the CRDs of an app of the list. */
  predicate RestoresCrds(t: seq<Op>, r: seq<Op>, apps: seq<string>) {
    |t| <= |r| && r[..|t|] == t
    && forall k :: |t| <= k < |r| ==> r[k].OnApp? && r[k].app in apps && r[k].appStep == RestoreCrd
  }

  lemma RestoresCrdsSnoc(t: seq<Op>, r: seq<Op>, apps: seq<string>, app: string)
    requires RestoresCrds(t, r, apps)
    ensures RestoresCrds(t, r + [OnApp(app, RestoreCrd)], apps + [app])
  {
    var r' := r + [OnApp(app, RestoreCrd)];
    assert r'[..|r|] == r;
    ExtendsTrans(t, r, r');
    forall k | |t| <= k < |r'|
      ensures r'[k].OnApp? && r'[k].app in apps + [app] && r'[k].appStep == RestoreCrd
    {
      if k < |r| {
        assert r'[k] == r[k];
      }
    }
  }

  lemma RestoresCrdsWiden(t: seq<Op>, r: seq<Op>, apps: seq<string>, app: string)
    requires RestoresCrds(t, r, apps)
    ensures RestoresCrds(t, r, apps + [app])
  {
  }

  /** The CRD loop restores the CRDs of listed apps only; without a raise, of each of them in order. */
  lemma {:induction false} ApplyAllCrdsTrace(s: State, env: Env, apps: seq<string>)
    ensures var r := ApplyAllCrds(s, env, apps);
            RestoresCrds(s.trace, r.s.trace, apps)
            && (r.raised.None? ==> r.s.trace == s.trace + AppOps(apps, RestoreCrd))
    decreases |apps|
  {
    if apps == [] {
      assert s.trace[..|s.trace|] == s.trace;
    } else {
      var init := apps[..|apps| - 1];
      var app := apps[|apps| - 1];
      assert apps == init + [app];
      ApplyAllCrdsTrace(s, env, init);
      var p := ApplyAllCrds(s, env, init);
      if p.raised.None? {
        var r := ApplyCrds(p.s, env, app);
        assert ApplyAllCrds(s, env, apps) == r;
        assert AppOps(apps, RestoreCrd) == AppOps(init, RestoreCrd) + [OnApp(app, RestoreCrd)];
        RestoresCrdsSnoc(s.trace, p.s.trace, init, app);
      } else {
        assert ApplyAllCrds(s, env, apps) == p;
        RestoresCrdsWiden(s.trace, p.s.trace, init, app);
      }
    }
  }

  /**
   * What both restores do after the volume rollback: restore the catalog,
   * the CRDs of `crdApps`, then each of `apps`, then wait for the queued
   * redeploy jobs. The CRD loop and the application loop let an exception
   * out of `restore`; the result carries it.
   */
  function Restoring(s: State, env: Env, dataset: string, crdApps: seq<string>, apps: seq<string>): Res {
    var d := ApplyAllCrds(CatalogStep(s, env), env, crdApps);
    if d.raised.Some? then d else RestoreAndWait(d.s, env, dataset, apps)
  }

  /** The application loop and, when nothing left it, the wait for the jobs it queued. */
  function RestoreAndWait(s: State, env: Env, dataset: string, apps: seq<string>): Res {
    var l := RestoreApps(Loop(s.(jobHandles := []), false, None), env, dataset, apps);
    if l.raised.Some? then Res(l.s, l.raised) else Res(WaitJobs(l.s, env, l.s.jobHandles), None)
  }

  lemma CatalogCrdsMeans(s: State, env: Env, crdApps: seq<string>)
    ensures var d := ApplyAllCrds(CatalogStep(s, env), env, crdApps);
            d.s.charts == s.charts && d.s.critical == s.critical
            && AppLevelSince(s.trace, d.s.trace) && CountWaits(d.s.trace) == CountWaits(s.trace)
  {
    var c := CatalogStep(s, env);
    var d := ApplyAllCrds(c, env, crdApps);
    ApplyAllCrdsTrace(c, env, crdApps);
    assert c.trace[..|s.trace|] == s.trace;
    CountWaitsNone(s.trace, c.trace);
    CountWaitsNone(c.trace, d.s.trace);
    AppLevelTrans(s.trace, c.trace, d.s.trace);
  }

  lemma RestoreAndWaitMeans(s: State, env: Env, dataset: string, apps: seq<string>)
    requires Consistent(s)
    ensures var r := RestoreAndWait(s, env, dataset, apps);
            Consistent(r.s) && Narrower(s, r.s) && AppLevelSince(s.trace, r.s.trace)
            && CountWaits(r.s.trace) <= CountWaits(s.trace) + 1
            && (CnpgChart !in ChartNames(s.charts) ==> CountWaits(r.s.trace) == CountWaits(s.trace))
  {
    var l0 := Loop(s.(jobHandles := []), false, None);
    RestoreAppsWaits(l0, env, dataset, apps);
    var l := RestoreApps(l0, env, dataset, apps);
    if l.raised.None? {
      assert RestoreAndWait(s, env, dataset, apps).s == WaitJobs(l.s, env, l.s.jobHandles);
      WaitJobsTail(s, l.s, env);
    } else {
      assert RestoreAndWait(s, env, dataset, apps).s == l.s;
    }
  }

  /** Waiting for the launched jobs keeps what the restore loop established. */
  lemma WaitJobsTail(s: State, t: State, env: Env)
    requires Consistent(t) && Narrower(s, t) && AppLevelSince(s.trace, t.trace)
    ensures var r := WaitJobs(t, env, t.jobHandles);
            Consistent(r) && Narrower(s, r) && AppLevelSince(s.trace, r.trace) && CountWaits(r.trace) == CountWaits(t.trace)
  {
    WaitJobsMeans(t, env, t.jobHandles);
    AppOpsAppended(t.trace, t.jobHandles, WaitJob);
    AppLevelTrans(s.trace, t.trace, WaitJobs(t, env, t.jobHandles).trace);
  }

  /**
   * The shared middle keeps the state consistent and only narrows the
   * index; it performs nothing but app-level operations, and waits for the
   * CNPG operator at most once, never when no `cloudnative-pg` chart is
   * indexed.
   */
  lemma RestoringMeans(s: State, env: Env, dataset: string, crdApps: seq<string>, apps: seq<string>)
    requires Consistent(s)
    ensures var r := Restoring(s, env, dataset, crdApps, apps);
            Consistent(r.s) && Narrower(s, r.s) && AppLevelSince(s.trace, r.s.trace)
            && CountWaits(r.s.trace) <= CountWaits(s.trace) + 1
            && (CnpgChart !in ChartNames(s.charts) ==> CountWaits(r.s.trace) == CountWaits(s.trace))
  {
    var d := ApplyAllCrds(CatalogStep(s, env), env, crdApps);
    CatalogCrdsMeans(s, env, crdApps);
    if d.raised.None? {
      RestoreAndWaitMeans(d.s, env, dataset, apps);
      AppLevelTrans(s.trace, d.s.trace, RestoreAndWait(d.s, env, dataset, apps).s.trace);
    }
  }

  // ---------------------------------------------------------------- _log_failures

  const SummaryHeader := "\nRestore Summary\n---------------"
  const AllRestored := "All applications restored successfully."
  const CriticalHeader := "Some applications encountered critical errors and could not proceed:"
  const FailedHeader := "Some applications failed to restore:"

  /** The lines `_log_failures` logs. */
  function SummaryLines(s: State): seq<string> {
    [SummaryHeader]
    + if s.failures == [] && s.critical == [] then [AllRestored]
      else (if s.critical != [] then [CriticalHeader] + Indented(s.critical) else [])
           + (if s.failures != [] then [FailedHeader] + AppLines(s.failures, Apps(s.failures)) else [])
  }

  /** Every line of the per-app part is an app header ending in `:` or an indented message. */
  lemma {:induction false} AppLinesShape(log: Log, apps: seq<string>)
    ensures forall l :: l in AppLines(log, apps) ==> |l| > 0 && (l[|l| - 1] == ':' || l[0] == ' ')
    ensures forall a :: a in apps ==> a + ":" in AppLines(log, apps)
    decreases |apps|
  {
    if apps != [] {
      AppLinesShape(log, apps[1..]);
      var ind := Indented(ErrorsOf(log, apps[0]));
      forall l | l in ind ensures |l| > 0 && l[0] == ' ' {
        var k :| 0 <= k < |ind| && ind[k] == l;
        assert l == "  " + ErrorsOf(log, apps[0])[k];
      }
      assert forall a :: a in apps ==> a == apps[0] || a in apps[1..];
    }
  }

  /** The summary is the header, then either the success line or the critical part and the per-app part. */
  lemma SummaryParts(s: State)
    ensures s.failures != [] || s.critical != [] ==>
              SummaryLines(s) == [SummaryHeader]
                + (if s.critical != [] then [CriticalHeader] + Indented(s.critical) else [])
                + (if s.failures != [] then [FailedHeader] + AppLines(s.failures, Apps(s.failures)) else [])
  {
  }

  /** The success line is neither an indented line nor a line of the per-app part. */
  lemma NotAListedLine(xs: seq<string>, log: Log)
    ensures AllRestored !in Indented(xs)
    ensures AllRestored !in AppLines(log, Apps(log))
  {
    assert AllRestored[|AllRestored| - 1] == '.' && AllRestored[0] == 'A';
    AppLinesShape(log, Apps(log));
  }

  /** `_log_failures` reports that all applications were restored iff no failure and no critical failure was recorded. */
  lemma SummarySuccess(s: State)
    ensures AllRestored in SummaryLines(s) <==> s.failures == [] && s.critical == []
  {
    if s.failures != [] || s.critical != [] {
      SummaryParts(s);
      NotAListedLine(s.critical, s.failures);
      assert AllRestored != SummaryHeader && AllRestored != CriticalHeader && AllRestored != FailedHeader;
    }
  }

  /** Otherwise every critical app is listed, indented, and every app with a message has its heading. */
  lemma SummaryLists(s: State)
    ensures forall a :: a in s.critical ==> "  " + a in SummaryLines(s)
    ensures forall a :: a in Apps(s.failures) ==> a + ":" in SummaryLines(s)
  {
    SummaryParts(s);
    AppLinesShape(s.failures, Apps(s.failures));
    forall a | a in s.critical ensures "  " + a in SummaryLines(s) {
      var k :| 0 <= k < |s.critical| && s.critical[k] == a;
      assert Indented(s.critical)[k] == "  " + a;
    }
    if s.failures == [] {
      assert Apps(s.failures) == [];
    }
  }

  // ---------------------------------------------------------------- RestoreBase

  /**
   * The restore's state as the object keeps it. `dataset` is the apps
   * dataset of the backed-up configuration and `appsDatasetExists` whether
   * it existed when the restore was set up; `trace` records the platform
   * calls in the order they are made.
   */
  class RestoreBase {
    const dataset: string
    const appsDatasetExists: bool
    const chartInfo: BackupChartFetcher
    var failures: Log
    var criticalFailures: seq<string>
    var createList: seq<string>
    var jobHandles: seq<string>
    var trace: seq<Op>

    function Snapshot(): State
      reads this, chartInfo
    {
      State(chartInfo.charts, failures, criticalFailures, createList, jobHandles, trace)
    }

    /** The ledger, the plan and the trace start empty over the parsed chart index. */
    constructor (dataset: string, appsDatasetExists: bool, chartInfo: BackupChartFetcher)
      ensures this.dataset == dataset && this.appsDatasetExists == appsDatasetExists && this.chartInfo == chartInfo
      ensures Snapshot() == State(chartInfo.charts, [], [], [], [], [])
    {
      this.dataset := dataset;
      this.appsDatasetExists := appsDatasetExists;
      this.chartInfo := chartInfo;
      failures := [];
      criticalFailures := [];
      createList := [];
      jobHandles := [];
      trace := [];
    }

    /** A platform call: it is recorded, and the environment says how it ends. */
    method Call(env: Env, op: Op) returns (o: Outcome)
      modifies this
      ensures Snapshot() == Perform(old(Snapshot()), op) && o == env.outcome(op)
    {
      trace := trace + [op];
      o := env.outcome(op);
    }

    /** `failures[app].append(message)`. */
    method RecordFailure(app: string, message: string)
      modifies this
      ensures Snapshot() == Fail(old(Snapshot()), app, message)
    {
      failures := failures + [(app, message)];
    }

    /** `failures[app].extend(messages)`. */
    method ExtendFailures(app: string, messages: seq<string>)
      modifies this
      ensures Snapshot() == FailAll(old(Snapshot()), app, messages)
    {
      failures := Record(failures, app, messages);
    }

    /** `_handle_critical_failure`. */
    method HandleCriticalFailure(app: string, error: string)
      modifies this, chartInfo
      ensures Snapshot() == Critical(old(Snapshot()), app, error)
    {
      failures := failures + [(app, error)];
      if app !in criticalFailures {
        criticalFailures := criticalFailures + [app];
        chartInfo.HandleCriticalFailure(app);
      }
    }

    /**
     * `_build_restore_plan` as written: `typeError` is the `TypeError` the
     * two-argument `append` raises at the first app missing a file, which
     * ends the plan before the prompt; otherwise `aborted` is the
     * `RuntimeError` a declined confirmation raises.
     */
    method BuildRestorePlan(appNames: seq<string>, answer: string) returns (typeError: Option<string>, aborted: Option<string>)
      modifies this
      ensures Res(Snapshot(), typeError) == PlanAsWritten(old(Snapshot()), appNames)
      ensures typeError.None? ==> aborted == Confirm(answer)
      ensures typeError.Some? ==> aborted.None?
    {
      aborted := None;
      for i := 0 to |appNames|
        invariant Res(Snapshot(), None) == PlanAsWritten(old(Snapshot()), appNames[..i])
      {
        var app := appNames[i];
        assert appNames[..i + 1][..i] == appNames[..i];
        match Decide(chartInfo.charts, app)
        case CannotRestore(_) =>
          typeError := Some(AppendArity);
          PlanRaisedStays(old(Snapshot()), appNames, i + 1);
          return;
        case WillCreate => createList := createList + [app];
        case WillRedeploy =>
      }
      assert appNames[..|appNames|] == appNames;
      typeError := None;
      aborted := Confirm(answer);
    }

    /** `rollback_persistent_volume` for one file, and its failure recorded. */
    method RollbackFile(env: Env, app: string, file: string) returns (raised: Option<string>)
      modifies this
      ensures Res(Snapshot(), raised) == RollbackOne(old(Snapshot()), env, app, file)
    {
      var o := Call(env, OnApp(app, RollbackPv(file)));
      if o.Raised? {
        return Some(o.error);
      }
      if !o.success {
        RecordFailure(app, o.message);
      }
      return None;
    }

    /** The rollback loop over the given files, ended by the first raise. */
    method RollbackFiles(env: Env, app: string, files: seq<string>) returns (raised: Option<string>)
      modifies this
      ensures Res(Snapshot(), raised) == RollbackEach(old(Snapshot()), env, app, files)
    {
      ghost var s0 := Snapshot();
      for i := 0 to |files|
        invariant RollbackEach(s0, env, app, files[..i]) == Res(Snapshot(), None)
      {
        assert files[..i + 1][..i] == files[..i];
        raised := RollbackFile(env, app, files[i]);
        if raised.Some? {
          RollbackRaisedStays(s0, env, app, files, i + 1);
          return;
        }
      }
      assert files[..|files|] == files;
      return None;
    }

    /** `_rollback_volumes`; the result is the exception it raises, if any. */
    method RollbackVolumes(env: Env, app: string) returns (raised: Option<string>)
      modifies this
      ensures Res(Snapshot(), raised) == Rollback(old(Snapshot()), env, app)
    {
      var f := GetFile(chartInfo.charts, app, PvZfsVolumes);
      if !f.Paths? {
        return Some(NotIterable);
      }
      raised := RollbackFiles(env, app, PvOnly(f.paths));
    }

    /** `_restore_crds`; the result is the exception it raises, if any. */
    method RestoreCrds(env: Env, app: string) returns (raised: Option<string>)
      modifies this
      ensures Res(Snapshot(), raised) == ApplyCrds(old(Snapshot()), env, app)
    {
      var o := Call(env, OnApp(app, RestoreCrd));
      match o
      case Raised(e) => return Some(e);
      case Done(_, _, crdFailures) =>
        ExtendFailures(app, crdFailures);
        return None;
    }

    /** An exception inside `_restore_application`. */
    method Escaped(app: string, error: string)
      modifies this
      ensures Failed(Snapshot()) == Escape(old(Snapshot()), app, error)
    {
      RecordFailure(app, RestorationException + error);
    }

    /** Creates a missing release dataset of the app; the result says whether the restore goes on. */
    method EnsureAppDataset(env: Env, app: string, path: string, failure: string) returns (next: bool)
      modifies this, chartInfo
      ensures var f := EnsureDataset(old(Snapshot()), env, app, path, failure);
              Snapshot() == f.s && next == f.Next?
    {
      if !env.present(path) {
        var o := Call(env, OnApp(app, CreateDataset(path)));
        if o.Raised? {
          Escaped(app, o.error);
          return false;
        }
        if !o.success {
          HandleCriticalFailure(app, failure);
          return false;
        }
      }
      return true;
    }

    /** The datasets, the chart version and the namespace of an app off the create list. */
    method PrepareApplication(env: Env, app: string) returns (next: bool)
      modifies this, chartInfo
      ensures var f := Prepare(old(Snapshot()), env, dataset, app);
              Snapshot() == f.s && next == f.Next?
    {
      if app in createList {
        return true;
      }
      next := EnsureAppDataset(env, app, ChartsDataset(dataset, app), ChartDatasetFailed);
      if !next {
        return;
      }
      next := EnsureAppDataset(env, app, VolumesDataset(dataset, app), VolumeDatasetFailed);
      if !next {
        return;
      }
      var o := Call(env, OnApp(app, RestoreChartVersion));
      if o.Raised? {
        Escaped(app, o.error);
        return false;
      }
      o := Call(env, OnApp(app, RestoreNamespace));
      if o.Raised? {
        Escaped(app, o.error);
        return false;
      }
      if !o.success {
        RecordFailure(app, NamespaceFailed);
        createList := createList + [app];
      }
      return true;
    }

    /** Applies the app's PV/ZFS volume or secret files, if it has any. */
    method ApplyFiles(env: Env, app: string, kind: FileKind, step: AppStep) returns (next: bool)
      modifies this
      ensures var f := Apply(old(Snapshot()), env, app, kind, step);
              Snapshot() == f.s && next == f.Next?
    {
      if Truthy(GetFile(chartInfo.charts, app, kind)) {
        var o := Call(env, OnApp(app, step));
        if o.Raised? {
          Escaped(app, o.error);
          return false;
        }
        ExtendFailures(app, o.failures);
      }
      return true;
    }

    /** Deletes the versions directory and creates the chart of an app on the create list. */
    method CreateApplication(env: Env, app: string) returns (next: bool)
      modifies this, chartInfo
      ensures var f := CreateApp(old(Snapshot()), env, app);
              Snapshot() == f.s && next == f.Next?
    {
      if app !in createList {
        return true;
      }
      var o := Call(env, OnApp(app, DeleteVersions));
      if o.Raised? {
        Escaped(app, o.error);
        return false;
      }
      o := Call(env, OnApp(app, CreateChart));
      if o.Raised? {
        Escaped(app, o.error);
        return false;
      }
      if !o.success {
        HandleCriticalFailure(app, o.message);
        return false;
      }
      return true;
    }

    /** Redeploys an app off the create list and queues its job. */
    method RedeployApplication(env: Env, app: string) returns (next: bool)
      modifies this, chartInfo
      ensures var f := RedeployApp(old(Snapshot()), env, app);
              Snapshot() == f.s && next == f.Next?
    {
      if app in createList {
        return true;
      }
      var o := Call(env, OnApp(app, Redeploy));
      if o.Raised? {
        HandleCriticalFailure(app, RedeployFailed + o.error);
        return false;
      }
      jobHandles := jobHandles + [app];
      return true;
    }

    /** `_restore_application`. */
    method RestoreApplication(env: Env, app: string) returns (ok: bool)
      modifies this, chartInfo
      ensures (Snapshot(), ok) == RestoreApp(old(Snapshot()), env, dataset, app)
    {
      ok := PrepareApplication(env, app);
      if !ok {
        return;
      }
      ok := ApplyFiles(env, app, PvZfsVolumes, RestorePvZfs);
      if !ok {
        return;
      }
      ok := CreateApplication(env, app);
      if !ok {
        return;
      }
      ok := ApplyFiles(env, app, Secrets, RestoreSecrets);
      if !ok {
        return;
      }
      ok := RedeployApplication(env, app);
      if !ok {
        return;
      }
      var deleteFile := GetFile(chartInfo.charts, app, CnpgPvcsToDelete);
      if deleteFile.OnePath? && env.present(deleteFile.path) {
        var _ := Call(env, OnApp(app, DeleteCnpgPvcs));
      }
    }

    /** The catalog restore of either restore. */
    method RestoreCatalogs(env: Env)
      modifies this
      ensures Snapshot() == CatalogStep(old(Snapshot()), env)
    {
      var o := Call(env, Global(RestoreCatalog));
      if o.Raised? {
        RecordFailure(CatalogKey, CatalogFailed + o.error);
      }
    }

    /** One app of the application loop; `waited` is `cnpg_active`. */
    method RestoreInLoop(env: Env, app: string, waited: bool) returns (waitedAfter: bool, raised: Option<string>)
      modifies this, chartInfo
      ensures Loop(Snapshot(), waitedAfter, raised) == RestoreStep(Loop(old(Snapshot()), waited, None), env, dataset, app)
    {
      waitedAfter, raised := waited, None;
      if app in CnpgApps(chartInfo.charts) {
        if CnpgChart in criticalFailures {
          HandleCriticalFailure(app, CnpgFailed);
          return;
        }
        if !waited && CnpgChart in ChartNames(chartInfo.charts) {
          var o := Call(env, Global(WaitCnpg(GetReleaseName(chartInfo.charts, CnpgChart))));
          waitedAfter := true;
          if o.Raised? {
            return true, Some(o.error);
          }
        }
      }
      var ok := RestoreApplication(env, app);
      if !ok {
        HandleCriticalFailure(app, RestorationFailed);
      }
    }

    /** The application loop of either restore; the result is the exception that leaves it, if any. */
    method RestoreApplications(env: Env, apps: seq<string>) returns (raised: Option<string>)
      modifies this, chartInfo
      ensures var l := RestoreApps(Loop(old(Snapshot()).(jobHandles := []), false, None), env, dataset, apps);
              Snapshot() == l.s && raised == l.raised
    {
      jobHandles := [];
      var cnpgActive := false;
      ghost var l0 := Loop(Snapshot(), false, None);
      for i := 0 to |apps|
        invariant RestoreApps(l0, env, dataset, apps[..i]) == Loop(Snapshot(), cnpgActive, None)
      {
        assert apps[..i + 1][..i] == apps[..i];
        cnpgActive, raised := RestoreInLoop(env, apps[i], cnpgActive);
        if raised.Some? {
          RestoreRaisedStays(l0, env, dataset, apps, i + 1);
          return;
        }
      }
      assert apps[..|apps|] == apps;
      return None;
    }

    /** The wait for each queued redeploy job, in order. */
    method WaitForJobs(env: Env)
      modifies this, chartInfo
      ensures Snapshot() == WaitJobs(old(Snapshot()), env, old(jobHandles))
    {
      ghost var s0 := Snapshot();
      var handles := jobHandles;
      for i := 0 to |handles|
        invariant Snapshot() == WaitJobs(s0, env, handles[..i])
      {
        assert handles[..i + 1][..i] == handles[..i];
        var o := Call(env, OnApp(handles[i], WaitJob));
        if o.Raised? {
          HandleCriticalFailure(handles[i], JobFailed + o.error);
        }
      }
      assert handles[..|handles|] == handles;
    }

    /** The database restore of each app, in order. */
    method RestoreDatabases(env: Env, apps: seq<string>)
      modifies this
      ensures Snapshot() == RestoreDbs(old(Snapshot()), env, apps)
    {
      ghost var s0 := Snapshot();
      for i := 0 to |apps|
        invariant Snapshot() == RestoreDbs(s0, env, apps[..i])
      {
        assert apps[..i + 1][..i] == apps[..i];
        var o := Call(env, OnApp(apps[i], RestoreDatabase));
        if o.Raised? {
          RecordFailure(apps[i], DatabaseFailed + o.error);
        } else if !o.success {
          RecordFailure(apps[i], o.message);
        }
      }
      assert apps[..|apps|] == apps;
    }

    /** The volume rollback loop: a raise is recorded against its app and the loop goes on. */
    method RollbackAllVolumes(env: Env, apps: seq<string>)
      modifies this
      ensures Snapshot() == RollbackAll(old(Snapshot()), env, apps)
    {
      ghost var s0 := Snapshot();
      for i := 0 to |apps|
        invariant Snapshot() == RollbackAll(s0, env, apps[..i])
      {
        assert apps[..i + 1][..i] == apps[..i];
        var raised := RollbackVolumes(env, apps[i]);
        if raised.Some? {
          RecordFailure(apps[i], RollbackFailed + raised.value);
        }
      }
      assert apps[..|apps|] == apps;
    }

    /** The CRD loop; the result is the exception that leaves it, if any. */
    method RestoreAllCrds(env: Env, apps: seq<string>) returns (raised: Option<string>)
      modifies this
      ensures Res(Snapshot(), raised) == ApplyAllCrds(old(Snapshot()), env, apps)
    {
      ghost var s0 := Snapshot();
      for i := 0 to |apps|
        invariant ApplyAllCrds(s0, env, apps[..i]) == Res(Snapshot(), None)
      {
        assert apps[..i + 1][..i] == apps[..i];
        raised := RestoreCrds(env, apps[i]);
        if raised.Some? {
          CrdsRaisedStays(s0, env, apps, i + 1);
          return;
        }
      }
      assert apps[..|apps|] == apps;
      return None;
    }

    /** The catalog, the CRDs, the applications and the redeploy jobs, in that order. */
    method RestoreShared(env: Env, crdApps: seq<string>, apps: seq<string>) returns (raised: Option<string>)
      modifies this, chartInfo
      ensures Res(Snapshot(), raised) == Restoring(old(Snapshot()), env, dataset, crdApps, apps)
    {
      RestoreCatalogs(env);
      raised := RestoreAllCrds(env, crdApps);
      if raised.Some? {
        return;
      }
      raised := RestoreApplications(env, apps);
      if raised.None? {
        WaitForJobs(env);
      }
    }

    /** `_log_failures`: the lines it logs. */
    method LogFailures() returns (lines: seq<string>)
      ensures lines == SummaryLines(Snapshot())
    {
      lines := [SummaryHeader];
      if failures == [] && criticalFailures == [] {
        lines := lines + [AllRestored];
        return;
      }
      if criticalFailures != [] {
        lines := lines + [CriticalHeader] + Indented(criticalFailures);
      }
      if failures != [] {
        lines := lines + [FailedHeader] + AppLines(failures, Apps(failures));
      }
    }
  }

  /** Once a prefix of the files raises, the rollback loop ends there. */
  lemma {:induction false} RollbackRaisedStays(s: State, env: Env, app: string, files: seq<string>, n: nat)
    requires n <= |files| && RollbackEach(s, env, app, files[..n]).raised.Some?
    ensures RollbackEach(s, env, app, files) == RollbackEach(s, env, app, files[..n])
    decreases |files| - n
  {
    if n < |files| {
      assert files[..n + 1][..n] == files[..n];
      RollbackRaisedStays(s, env, app, files, n + 1);
    } else {
      assert files[..n] == files;
    }
  }

  /** Once the CRD loop raises, it ends there. */
  lemma {:induction false} CrdsRaisedStays(s: State, env: Env, apps: seq<string>, n: nat)
    requires n <= |apps| && ApplyAllCrds(s, env, apps[..n]).raised.Some?
    ensures ApplyAllCrds(s, env, apps) == ApplyAllCrds(s, env, apps[..n])
    decreases |apps| - n
  {
    if n < |apps| {
      assert apps[..n + 1][..n] == apps[..n];
      CrdsRaisedStays(s, env, apps, n + 1);
    } else {
      assert apps[..n] == apps;
    }
  }

  /** Once the application loop raises, it ends there. */
  lemma {:induction false} RestoreRaisedStays(l: Loop, env: Env, dataset: string, apps: seq<string>, n: nat)
    requires n <= |apps| && RestoreApps(l, env, dataset, apps[..n]).raised.Some?
    ensures RestoreApps(l, env, dataset, apps) == RestoreApps(l, env, dataset, apps[..n])
    decreases |apps| - n
  {
    if n < |apps| {
      assert apps[..n + 1][..n] == apps[..n];
      RestoreRaisedStays(l, env, dataset, apps, n + 1);
    } else {
      assert apps[..n] == apps;
    }
  }
}

/**
 * `RestoreAll.restore`: the restore of every release of a backup. After the
 * restore plan it prepares Kubernetes (`_initial_kubernetes_setup`), rolls
 * back every release's volumes, starts Kubernetes again
 * (`_start_kubernetes_services`) and then runs the phases it shares with the
 * single-app restore, followed by the database restore of every CNPG app.
 */
module RestoreAll {
  import opened Wrappers
  import opened BackupFetch
  import opened Restore
  import opened Strings

  /** The failure key and message when the initial setup raises. */
  const SetupKey := "Initial Kubernetes Setup"
  const SetupError := "Initial Kubernetes setup failed."
  /** The failure key when Kubernetes does not come up, and the message when the wait says so. */
  const StartKey := "Kubernetes Initialization"
  const KubernetesError := "Kubernetes failed to initialize."

  /**
   * The calls of `_initial_kubernetes_setup`, in order: stopping the
   * services, deleting the Rancher data and resetting the CNI configuration
   * only when the applications dataset exists; aborting the sync jobs and
   * rolling back the applications dataset always; cleaning up `k3s` and
   * recreating the datasets again only when the dataset exists.
   */
  function SetupOps(appsDatasetExists: bool): seq<GlobalStep> {
    (if appsDatasetExists then [StopServices, DeleteRancherData, ResetCni] else [])
    + [AbortSyncJobs, RollbackAppsDataset]
    + (if appsDatasetExists then [CleanupK3s, RecreateDatasets] else [])
  }

  function Globals(steps: seq<GlobalStep>): (r: seq<Op>)
    ensures |r| == |steps| && forall k :: 0 <= k < |r| ==> r[k] == Global(steps[k])
  {
    seq(|steps|, k requires 0 <= k < |steps| => Global(steps[k]))
  }

  /** The index of the first step that raises, or the number of steps. */
  function FirstRaise(env: Env, steps: seq<GlobalStep>): (n: nat)
    ensures n <= |steps|
    ensures forall k :: 0 <= k < n ==> !env.outcome(Global(steps[k])).Raised?
    ensures n < |steps| ==> env.outcome(Global(steps[n])).Raised?
    decreases |steps|
  {
    if steps == [] then 0
    else
      var m := FirstRaise(env, steps[..|steps| - 1]);
      if m < |steps| - 1 || env.outcome(Global(steps[|steps| - 1])).Raised? then m else |steps|
  }

  /** The setup steps in order, each guarded by its own `try`; the first raise ends the setup. */
  function RunSetup(s: State, env: Env, steps: seq<GlobalStep>): (r: (State, bool))
    ensures r.0 == s.(trace := r.0.trace)
    decreases |steps|
  {
    if steps == [] then (s, false)
    else
      var p := RunSetup(s, env, steps[..|steps| - 1]);
      if p.1 then p
      else
        var op := Global(steps[|steps| - 1]);
        (Perform(p.0, op), env.outcome(op).Raised?)
  }

  /**
   * The setup performs its steps in order up to and including the first
   * that raises, and fails exactly when one raises.
   */
  lemma {:induction false} RunSetupMeans(s: State, env: Env, steps: seq<GlobalStep>)
    ensures var r := RunSetup(s, env, steps);
            var n := FirstRaise(env, steps);
            (r.1 <==> n < |steps|)
            && r.0.trace == s.trace + Globals(steps[..if r.1 then n + 1 else n])
    decreases |steps|
  {
    if steps == [] {
      assert steps[..0] == [];
    } else {
      var init := steps[..|steps| - 1];
      var last := steps[|steps| - 1];
      RunSetupMeans(s, env, init);
      var m := FirstRaise(env, init);
      if RunSetup(s, env, init).1 {
        assert init[..m + 1] == steps[..m + 1];
      } else {
        assert init == steps[..m];
        GlobalsSnoc(init, last);
        assert init + [last] == steps;
        assert steps[..|steps|] == steps;
      }
    }
  }

  lemma GlobalsSnoc(steps: seq<GlobalStep>, step: GlobalStep)
    ensures Globals(steps + [step]) == Globals(steps) + [Global(step)]
  {
  }

  /** Once a setup step raises, the setup ends there. */
  lemma {:induction false} SetupRaisedStays(s: State, env: Env, steps: seq<GlobalStep>, n: nat)
    requires n <= |steps| && RunSetup(s, env, steps[..n]).1
    ensures RunSetup(s, env, steps) == RunSetup(s, env, steps[..n])
    decreases |steps| - n
  {
    if n < |steps| {
      assert steps[..n + 1][..n] == steps[..n];
      SetupRaisedStays(s, env, steps, n + 1);
    } else {
      assert steps[..n] == steps;
    }
  }

  /**
   * `_start_kubernetes_services`: restoring the Kubernetes configuration,
   * starting the services when the applications dataset exists, and waiting
   * for Kubernetes. A raise, or a wait that reports False, is the exception
   * the result carries.
   */
  function Start(s: State, env: Env, appsDatasetExists: bool): (r: (State, Option<string>))
    ensures r.0 == s.(trace := r.0.trace)
  {
    var t := Perform(s, Global(RestoreKubeConfig));
    var o := env.outcome(Global(RestoreKubeConfig));
    if o.Raised? then (t, Some(o.error))
    else
      var u := if appsDatasetExists then Perform(t, Global(StartServices)) else t;
      var started := env.outcome(Global(StartServices));
      if appsDatasetExists && started.Raised? then (u, Some(started.error))
      else
        var v := Perform(u, Global(WaitKubernetes));
        var w := env.outcome(Global(WaitKubernetes));
        if w.Raised? then (v, Some(w.error))
        else if !w.success then (v, Some(KubernetesError))
        else (v, None)
  }

  /** Kubernetes counts as started exactly when no call raises and the wait reports True. */
  predicate Started(env: Env, appsDatasetExists: bool) {
    env.outcome(Global(RestoreKubeConfig)).Done?
    && (appsDatasetExists ==> env.outcome(Global(StartServices)).Done?)
    && env.outcome(Global(WaitKubernetes)).Done? && env.outcome(Global(WaitKubernetes)).success
  }

  /**
   * The start phase fails exactly when Kubernetes is not started; it only
   * performs its three kinds of call, in order, and reaches the wait unless
   * an earlier call raises.
   */
  lemma StartMeans(s: State, env: Env, appsDatasetExists: bool)
    ensures var r := Start(s, env, appsDatasetExists);
            (r.1.None? <==> Started(env, appsDatasetExists))
            && |s.trace| < |r.0.trace| && r.0.trace[..|s.trace|] == s.trace
            && r.0.trace[|s.trace|] == Global(RestoreKubeConfig)
            && (forall k :: |s.trace| <= k < |r.0.trace| ==>
                  r.0.trace[k] in [Global(RestoreKubeConfig), Global(StartServices), Global(WaitKubernetes)])
            && (r.1.None? ==> r.0.trace[|r.0.trace| - 1] == Global(WaitKubernetes))
  {
    var r := Start(s, env, appsDatasetExists);
    assert r.0.trace[..|s.trace|] == s.trace;
  }

  /**
   * The whole restore. The plan covers every release; a refused
   * confirmation or a backup without releases ends it at once. A failed
   * setup or start marks its own key critical and logs the summary. The
   * volume rollback runs between the setup and the start.
   */
  function Run(s: State, env: Env, answer: string, appsDatasetExists: bool, dataset: string): (r: (State, Exit))
    ensures r.1.Declined? ==> r.0.trace == s.trace && r.0.failures == s.failures && r.0.critical == s.critical
  {
    var p := PlanAsWritten(s, AllReleases(s.charts));
    if p.raised.Some? then (p.s, Uncaught(p.raised.value))
    else
      var declined := Confirm(answer);
      if declined.Some? then (p.s, Declined(declined.value)) else Planned(p.s, env, appsDatasetExists, dataset)
  }

  /**
   * Over an index whose records all have both files, as every parsed index
   * does, the plan as written does not raise and is the intended plan.
   */
  lemma PlanOfReleases(s: State)
    requires Consistent(s) && Filed(s.charts)
    ensures PlanAsWritten(s, AllReleases(s.charts)) == Res(Plan(s, AllReleases(s.charts)), None)
  {
    var apps := AllReleases(s.charts);
    forall a | a in apps ensures a in s.charts.info {
      assert a in multiset(apps);
      assert a in multiset(s.charts.order);
    }
    PlanFiledNeverRaises(s, apps);
    PlanAsWrittenAgrees(s, apps);
  }

  /** Everything after a confirmed plan. */
  function Planned(p: State, env: Env, appsDatasetExists: bool, dataset: string): (r: (State, Exit))
    ensures !r.1.Declined?
    ensures r.1.NoReleases? ==> r.0 == p
  {
    if AllReleases(p.charts) == [] then (p, NoReleases)
    else
      var q := RunSetup(p, env, SetupOps(appsDatasetExists));
      if q.1 then
        var c := Critical(q.0, SetupKey, SetupError);
        (c, SetupAborted(SummaryLines(c)))
      else AfterSetup(q.0, env, appsDatasetExists, dataset)
  }

  /** The volume rollback and the start of Kubernetes. */
  function AfterSetup(s: State, env: Env, appsDatasetExists: bool, dataset: string): (r: (State, Exit))
    ensures r.1.StartAborted? || r.1.Uncaught? || r.1.Completed?
  {
    var rb := RollbackAll(s, env, AllReleases(s.charts));
    var st := Start(rb, env, appsDatasetExists);
    if st.1.Some? then
      var c := Critical(st.0, StartKey, st.1.value);
      (c, StartAborted(SummaryLines(c)))
    else Finish(st.0, env, dataset)
  }

  /** The shared phases over every release, then the database restore of every CNPG app. */
  function Finish(s: State, env: Env, dataset: string): (r: (State, Exit))
    ensures r.1.Uncaught? || r.1.Completed?
  {
    var m := Restoring(s, env, dataset, AppsWithCrds(s.charts), AllReleases(s.charts));
    if m.raised.Some? then (m.s, Uncaught(m.raised.value))
    else
      var d := RestoreDbs(m.s, env, CnpgApps(m.s.charts));
      (d, Completed(SummaryLines(d)))
  }

  // ---------------------------------------------------------------- properties of a run

  /**
   * A refused confirmation declines the run, and a declined run, like one
   * over a backup without releases, performs no operation at all.
   */
  lemma RunDeclined(s: State, env: Env, answer: string, appsDatasetExists: bool, dataset: string)
    requires Consistent(s) && Filed(s.charts)
    ensures var run := Run(s, env, answer, appsDatasetExists, dataset); var r, exit := run.0, run.1;
            (exit.Declined? <==> !IsYes(answer))
            && (exit.Declined? || exit.NoReleases? ==> r.trace == s.trace)
  {
    PlanOfReleases(s);
  }

  /**
   * A failed setup marks `Initial Kubernetes Setup` critical and leaves
   * every release untouched: the setup's own steps, up to the one that
   * raised, are all that was performed.
   */
  lemma RunSetupAborted(s: State, env: Env, answer: string, appsDatasetExists: bool, dataset: string)
    requires Consistent(s)
    ensures var run := Run(s, env, answer, appsDatasetExists, dataset); var r, exit := run.0, run.1;
            var ops := SetupOps(appsDatasetExists);
            exit.SetupAborted? ==>
              SetupKey in r.critical
              && FirstRaise(env, ops) < |ops|
              && r.trace == s.trace + Globals(ops[..FirstRaise(env, ops) + 1])
  {
    var p := PlanAsWritten(s, AllReleases(s.charts));
    if p.raised.None? && Confirm(answer).None? {
      PlannedSetupAborted(p.s, env, appsDatasetExists, dataset);
    }
  }

  lemma PlannedSetupAborted(p: State, env: Env, appsDatasetExists: bool, dataset: string)
    ensures var run := Planned(p, env, appsDatasetExists, dataset); var r, exit := run.0, run.1;
            var ops := SetupOps(appsDatasetExists);
            exit.SetupAborted? ==>
              SetupKey in r.critical
              && FirstRaise(env, ops) < |ops|
              && r.trace == p.trace + Globals(ops[..FirstRaise(env, ops) + 1])
  {
    var steps := SetupOps(appsDatasetExists);
    RunSetupMeans(p, env, steps);
    var q := RunSetup(p, env, steps);
    if AllReleases(p.charts) != [] {
      if q.1 {
        assert Planned(p, env, appsDatasetExists, dataset).0 == Critical(q.0, SetupKey, SetupError);
      } else {
        assert Planned(p, env, appsDatasetExists, dataset) == AfterSetup(q.0, env, appsDatasetExists, dataset);
      }
    }
  }

  /** A run that gets past the setup has performed every setup step, in order, before anything else. */
  lemma RunSetupFirst(s: State, env: Env, answer: string, appsDatasetExists: bool, dataset: string)
    requires Consistent(s) && Filed(s.charts)
    ensures var run := Run(s, env, answer, appsDatasetExists, dataset); var r, exit := run.0, run.1;
            var ops := s.trace + Globals(SetupOps(appsDatasetExists));
            exit.StartAborted? || exit.Uncaught? || exit.Completed? ==>
              FirstRaise(env, SetupOps(appsDatasetExists)) == |SetupOps(appsDatasetExists)|
              && |ops| <= |r.trace| && r.trace[..|ops|] == ops
  {
    var p := Plan(s, AllReleases(s.charts));
    PlanOfReleases(s);
    PlanConsistent(s, AllReleases(s.charts));
    if Confirm(answer).None? {
      PlannedSetupFirst(p, env, appsDatasetExists, dataset);
    }
  }

  lemma PlannedSetupFirst(p: State, env: Env, appsDatasetExists: bool, dataset: string)
    requires Consistent(p)
    ensures var run := Planned(p, env, appsDatasetExists, dataset); var r, exit := run.0, run.1;
            var ops := p.trace + Globals(SetupOps(appsDatasetExists));
            exit.StartAborted? || exit.Uncaught? || exit.Completed? ==>
              FirstRaise(env, SetupOps(appsDatasetExists)) == |SetupOps(appsDatasetExists)|
              && |ops| <= |r.trace| && r.trace[..|ops|] == ops
  {
    var steps := SetupOps(appsDatasetExists);
    RunSetupMeans(p, env, steps);
    var q := RunSetup(p, env, steps);
    if AllReleases(p.charts) != [] && !q.1 {
      assert steps[..|steps|] == steps;
      AfterSetupExtends(q.0, env, appsDatasetExists, dataset);
      var r := AfterSetup(q.0, env, appsDatasetExists, dataset).0;
      ExtendsTrans(p.trace + Globals(steps), q.0.trace, r.trace);
    }
  }

  lemma AfterSetupExtends(s: State, env: Env, appsDatasetExists: bool, dataset: string)
    requires Consistent(s)
    ensures var r := AfterSetup(s, env, appsDatasetExists, dataset).0;
            |s.trace| <= |r.trace| && r.trace[..|s.trace|] == s.trace
  {
    AfterSetupWaits(s, env, appsDatasetExists, dataset);
  }

  /** Kubernetes that does not come up marks `Kubernetes Initialization` critical. */
  lemma RunStartAborted(s: State, env: Env, answer: string, appsDatasetExists: bool, dataset: string)
    requires Consistent(s)
    ensures var run := Run(s, env, answer, appsDatasetExists, dataset); var r, exit := run.0, run.1;
            exit.StartAborted? ==> StartKey in r.critical && !Started(env, appsDatasetExists)
  {
    var p := PlanAsWritten(s, AllReleases(s.charts)).s;
    if PlanAsWritten(s, AllReleases(s.charts)).raised.None? && Confirm(answer).None? && AllReleases(p.charts) != [] {
      var q := RunSetup(p, env, SetupOps(appsDatasetExists));
      if !q.1 {
        AfterSetupStartAborted(q.0, env, appsDatasetExists, dataset);
      }
    }
  }

  lemma AfterSetupStartAborted(s: State, env: Env, appsDatasetExists: bool, dataset: string)
    ensures var r := AfterSetup(s, env, appsDatasetExists, dataset);
            r.1.StartAborted? ==> StartKey in r.0.critical && !Started(env, appsDatasetExists)
  {
    var rb := RollbackAll(s, env, AllReleases(s.charts));
    var st := Start(rb, env, appsDatasetExists);
    StartMeans(rb, env, appsDatasetExists);
    if st.1.Some? {
      var c := Critical(st.0, StartKey, st.1.value);
      assert AfterSetup(s, env, appsDatasetExists, dataset).0 == c;
    } else {
      assert !Finish(st.0, env, dataset).1.StartAborted?;
    }
  }

  /** The volume rollback and the start change only the failures and the trace, and wait for nothing. */
  lemma RollbackStartMeans(s: State, env: Env, appsDatasetExists: bool)
    ensures var st := Start(RollbackAll(s, env, AllReleases(s.charts)), env, appsDatasetExists).0;
            st.charts == s.charts && st.critical == s.critical
            && |s.trace| <= |st.trace| && st.trace[..|s.trace|] == s.trace
            && CountWaits(st.trace) == CountWaits(s.trace)
  {
    var rb := RollbackAll(s, env, AllReleases(s.charts));
    RollbackAllMeans(s, env, AllReleases(s.charts));
    CountWaitsNone(s.trace, rb.trace);
    var st := Start(rb, env, appsDatasetExists);
    StartMeans(rb, env, appsDatasetExists);
    CountWaitsNone(rb.trace, st.0.trace);
    ExtendsTrans(s.trace, rb.trace, st.0.trace);
  }

  /** The phases after the setup keep the state consistent and wait for the operator at most once. */
  lemma AfterSetupWaits(s: State, env: Env, appsDatasetExists: bool, dataset: string)
    requires Consistent(s)
    ensures var r := AfterSetup(s, env, appsDatasetExists, dataset).0;
            |s.trace| <= |r.trace| && r.trace[..|s.trace|] == s.trace
            && CountWaits(r.trace) <= CountWaits(s.trace) + 1
            && (CnpgChart !in ChartNames(s.charts) ==> CountWaits(r.trace) == CountWaits(s.trace))
  {
    var rb := RollbackAll(s, env, AllReleases(s.charts));
    var st := Start(rb, env, appsDatasetExists);
    RollbackStartMeans(s, env, appsDatasetExists);
    var t := st.0;
    if st.1.None? {
      assert Consistent(t);
      FinishWaits(t, env, dataset);
      var r := Finish(t, env, dataset).0;
      assert AfterSetup(s, env, appsDatasetExists, dataset).0 == r;
      ExtendsTrans(s.trace, t.trace, r.trace);
    } else {
      assert AfterSetup(s, env, appsDatasetExists, dataset).0 == Critical(t, StartKey, st.1.value);
    }
  }

  lemma FinishWaits(s: State, env: Env, dataset: string)
    requires Consistent(s)
    ensures var r := Finish(s, env, dataset).0;
            |s.trace| <= |r.trace| && r.trace[..|s.trace|] == s.trace
            && CountWaits(r.trace) <= CountWaits(s.trace) + 1
            && (CnpgChart !in ChartNames(s.charts) ==> CountWaits(r.trace) == CountWaits(s.trace))
  {
    var m := Restoring(s, env, dataset, AppsWithCrds(s.charts), AllReleases(s.charts));
    RestoringMeans(s, env, dataset, AppsWithCrds(s.charts), AllReleases(s.charts));
    if m.raised.None? {
      RestoreDbsMeans(m.s, env, CnpgApps(m.s.charts));
      AppOpsAppended(m.s.trace, CnpgApps(m.s.charts), RestoreDatabase);
      AppLevelTrans(s.trace, m.s.trace, m.s.trace + AppOps(CnpgApps(m.s.charts), RestoreDatabase));
    }
  }

  /**
   * A run waits for the CNPG operator at most once, and not at all when the
   * backup indexes no `cloudnative-pg` chart.
   */
  lemma RunWaitsOnce(s: State, env: Env, answer: string, appsDatasetExists: bool, dataset: string)
    requires Consistent(s)
    ensures var run := Run(s, env, answer, appsDatasetExists, dataset); var r, exit := run.0, run.1;
            CountWaits(r.trace) <= CountWaits(s.trace) + 1
            && (CnpgChart !in ChartNames(s.charts) ==> CountWaits(r.trace) == CountWaits(s.trace))
  {
    var p := PlanAsWritten(s, AllReleases(s.charts));
    if p.raised.None? {
      PlanAsWrittenAgrees(s, AllReleases(s.charts));
      PlanConsistent(s, AllReleases(s.charts));
      PlannedWaits(p.s, env, appsDatasetExists, dataset);
    }
  }

  /** Setup steps wait for nothing. */
  lemma {:induction false} SetupNoWaitsFrom(p: State, env: Env, steps: seq<GlobalStep>)
    requires forall k :: 0 <= k < |steps| ==> !steps[k].WaitCnpg?
    ensures CountWaits(RunSetup(p, env, steps).0.trace) == CountWaits(p.trace)
    decreases |steps|
  {
    if steps != [] {
      var init := steps[..|steps| - 1];
      SetupNoWaitsFrom(p, env, init);
      var q := RunSetup(p, env, init);
      if !q.1 {
        var t := q.0.trace + [Global(steps[|steps| - 1])];
        assert t[..|t| - 1] == q.0.trace;
      }
    }
  }

  lemma SetupNoWaits(p: State, env: Env, appsDatasetExists: bool)
    ensures CountWaits(RunSetup(p, env, SetupOps(appsDatasetExists)).0.trace) == CountWaits(p.trace)
  {
    SetupNoWaitsFrom(p, env, SetupOps(appsDatasetExists));
  }

  lemma PlannedWaits(p: State, env: Env, appsDatasetExists: bool, dataset: string)
    requires Consistent(p)
    ensures var r := Planned(p, env, appsDatasetExists, dataset).0;
            CountWaits(r.trace) <= CountWaits(p.trace) + 1
            && (CnpgChart !in ChartNames(p.charts) ==> CountWaits(r.trace) == CountWaits(p.trace))
  {
    var steps := SetupOps(appsDatasetExists);
    var q := RunSetup(p, env, steps);
    RunSetupMeans(p, env, steps);
    SetupNoWaits(p, env, appsDatasetExists);
    if AllReleases(p.charts) != [] {
      if q.1 {
        assert Planned(p, env, appsDatasetExists, dataset).0.trace == q.0.trace;
      } else {
        assert Planned(p, env, appsDatasetExists, dataset) == AfterSetup(q.0, env, appsDatasetExists, dataset);
        assert q.0.charts == p.charts && Consistent(q.0);
        AfterSetupWaits(q.0, env, appsDatasetExists, dataset);
      }
    }
  }

  /**
   * A completed run ends with the database restore of exactly the CNPG
   * apps still indexed, in order, and none of them is critical.
   */
  lemma RunDatabases(s: State, env: Env, dataset: string)
    requires Consistent(s)
    ensures var fin := Finish(s, env, dataset); var r, exit := fin.0, fin.1;
            var dbs := AppOps(CnpgApps(r.charts), RestoreDatabase);
            exit.Completed? ==>
              |dbs| <= |r.trace| && r.trace[|r.trace| - |dbs|..] == dbs
              && forall a :: a in CnpgApps(r.charts) ==> a !in r.critical
  {
    var m := Restoring(s, env, dataset, AppsWithCrds(s.charts), AllReleases(s.charts));
    RestoringMeans(s, env, dataset, AppsWithCrds(s.charts), AllReleases(s.charts));
    if m.raised.None? {
      RestoreDbsMeans(m.s, env, CnpgApps(m.s.charts));
    }
  }

  // ---------------------------------------------------------------- the restore on a `RestoreBase`

  /** `_initial_kubernetes_setup`; the result says whether it raised. */
  method InitialSetup(r: RestoreBase, env: Env) returns (failed: bool)
    modifies r
    ensures (r.Snapshot(), failed) == RunSetup(old(r.Snapshot()), env, SetupOps(r.appsDatasetExists))
  {
    var steps := SetupOps(r.appsDatasetExists);
    ghost var s0 := r.Snapshot();
    for i := 0 to |steps|
      invariant RunSetup(s0, env, steps[..i]) == (r.Snapshot(), false)
    {
      assert steps[..i + 1][..i] == steps[..i];
      var o := r.Call(env, Global(steps[i]));
      if o.Raised? {
        SetupRaisedStays(s0, env, steps, i + 1);
        return true;
      }
    }
    assert steps[..|steps|] == steps;
    return false;
  }

  /** `_start_kubernetes_services`; the result is the exception it raises, if any. */
  method StartKubernetes(r: RestoreBase, env: Env) returns (error: Option<string>)
    modifies r
    ensures (r.Snapshot(), error) == Start(old(r.Snapshot()), env, r.appsDatasetExists)
  {
    var o := r.Call(env, Global(RestoreKubeConfig));
    if o.Raised? {
      return Some(o.error);
    }
    if r.appsDatasetExists {
      o := r.Call(env, Global(StartServices));
      if o.Raised? {
        return Some(o.error);
      }
    }
    o := r.Call(env, Global(WaitKubernetes));
    if o.Raised? {
      return Some(o.error);
    }
    if !o.success {
      return Some(KubernetesError);
    }
    return None;
  }

  /** The phases after the start: the shared ones, the database restore and the summary. */
  method FinishRestore(r: RestoreBase, env: Env) returns (exit: Exit)
    modifies r, r.chartInfo
    ensures (r.Snapshot(), exit) == Finish(old(r.Snapshot()), env, r.dataset)
  {
    var raised := r.RestoreShared(env, AppsWithCrds(r.chartInfo.charts), AllReleases(r.chartInfo.charts));
    if raised.Some? {
      return Uncaught(raised.value);
    }
    r.RestoreDatabases(env, CnpgApps(r.chartInfo.charts));
    var lines := r.LogFailures();
    return Completed(lines);
  }

  /** The volume rollback and everything after it. */
  method RollbackAndStart(r: RestoreBase, env: Env) returns (exit: Exit)
    modifies r, r.chartInfo
    ensures (r.Snapshot(), exit) == AfterSetup(old(r.Snapshot()), env, r.appsDatasetExists, r.dataset)
  {
    r.RollbackAllVolumes(env, AllReleases(r.chartInfo.charts));
    var error := StartKubernetes(r, env);
    if error.Some? {
      r.HandleCriticalFailure(StartKey, error.value);
      var lines := r.LogFailures();
      return StartAborted(lines);
    }
    exit := FinishRestore(r, env);
  }

  /** `RestoreAll.restore`, with `answer` the reply to the confirmation prompt. */
  method RunRestore(r: RestoreBase, env: Env, answer: string) returns (exit: Exit)
    modifies r, r.chartInfo
    ensures (r.Snapshot(), exit) == Run(old(r.Snapshot()), env, answer, r.appsDatasetExists, r.dataset)
  {
    var typeError, declined := r.BuildRestorePlan(AllReleases(r.chartInfo.charts), answer);
    if typeError.Some? {
      return Uncaught(typeError.value);
    }
    if declined.Some? {
      return Declined(declined.value);
    }
    if AllReleases(r.chartInfo.charts) == [] {
      return NoReleases;
    }
    var failed := InitialSetup(r, env);
    if failed {
      r.HandleCriticalFailure(SetupKey, SetupError);
      var lines := r.LogFailures();
      return SetupAborted(lines);
    }
    exit := RollbackAndStart(r, env);
  }
}

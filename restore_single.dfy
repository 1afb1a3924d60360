/**
 * `RestoreSingle.restore`: the restore of the apps a caller names, in the
 * caller's order, without touching the Kubernetes services or datasets.
 * The CRD and database phases keep to the named apps that have CRDs or a
 * CNPG database.
 */
module RestoreSingle {
  import opened Wrappers
  import opened Ledger
  import opened BackupFetch
  import opened Restore
  import Sorting

  /** The `AttributeError` text of a call to a method `RestoreSingle` does not define. */
  const NoRestoreSnapshots := "'RestoreSingle' object has no attribute 'restore_snapshots'"

  /** The apps of `apps` that are also in `names`, in the order of `apps`. */
  function Among(apps: seq<string>, names: seq<string>): (r: seq<string>)
    ensures forall a :: a in r <==> a in apps && a in names
  {
    Sorting.Filter(apps, a => a in names)
  }

  /**
   * The single-app rollback loop as written: once `_rollback_volumes`
   * returns, the call to the undefined `restore_snapshots` raises, so every
   * app gets a rollback failure, whatever its volumes did.
   */
  function RollbackAsWritten(s: State, env: Env, apps: seq<string>): (r: State)
    ensures r.charts == s.charts && r.critical == s.critical
    ensures r.createList == s.createList && r.jobHandles == s.jobHandles
    decreases |apps|
  {
    if apps == [] then s
    else
      var t := RollbackAsWritten(s, env, apps[..|apps| - 1]);
      var app := apps[|apps| - 1];
      var r := Rollback(t, env, app);
      Fail(r.s, app, RollbackFailed + if r.raised.Some? then r.raised.value else NoRestoreSnapshots)
  }

  /** Every volume of the app that the rollback visits reports success. */
  ghost predicate CleanRollback(c: Charts, env: Env, app: string) {
    app in c.info
    && forall f :: f in PvOnly(c.info[app].pvZfsVolumes) ==>
         env.outcome(OnApp(app, RollbackPv(f))).Done? && env.outcome(OnApp(app, RollbackPv(f))).success
  }

  lemma {:induction false} RollbackEachClean(s: State, env: Env, app: string, files: seq<string>)
    requires forall f :: f in files ==>
               env.outcome(OnApp(app, RollbackPv(f))).Done? && env.outcome(OnApp(app, RollbackPv(f))).success
    ensures RollbackEach(s, env, app, files).raised.None?
    ensures RollbackEach(s, env, app, files).s.failures == s.failures
    decreases |files|
  {
    if files != [] {
      assert forall f :: f in files[..|files| - 1] ==> f in files;
      RollbackEachClean(s, env, app, files[..|files| - 1]);
    }
  }

  /** A clean rollback raises nothing and records nothing. */
  lemma RollbackClean(s: State, env: Env, app: string)
    requires CleanRollback(s.charts, env, app)
    ensures Rollback(s, env, app).raised.None? && Rollback(s, env, app).s.failures == s.failures
  {
    RollbackEachClean(s, env, app, PvOnly(s.charts.info[app].pvZfsVolumes));
  }

  /**
   * As written, even an app whose every volume rolls back cleanly is
   * reported as `Failed to rollback volume snapshots: 'RestoreSingle'
   * object has no attribute 'restore_snapshots'`.
   */
  lemma {:induction false} RollbackAsWrittenFails(s: State, env: Env, apps: seq<string>)
    ensures var r := RollbackAsWritten(s, env, apps);
            forall a :: a in apps && CleanRollback(s.charts, env, a) ==> (a, RollbackFailed + NoRestoreSnapshots) in r.failures
    decreases |apps|
  {
    if apps != [] {
      var init := apps[..|apps| - 1];
      var app := apps[|apps| - 1];
      RollbackAsWrittenFails(s, env, init);
      var t := RollbackAsWritten(s, env, init);
      RollbackMeans(t, env, app);
      var r := RollbackAsWritten(s, env, apps);
      var x := Rollback(t, env, app);
      assert r.failures[..|x.s.failures|] == x.s.failures;
      assert x.s.failures[..|t.failures|] == t.failures;
      forall a | a in init && CleanRollback(s.charts, env, a)
        ensures (a, RollbackFailed + NoRestoreSnapshots) in r.failures
      {
        var k :| 0 <= k < |t.failures| && t.failures[k] == (a, RollbackFailed + NoRestoreSnapshots);
        assert x.s.failures[k] == t.failures[k];
        assert r.failures[k] == x.s.failures[k];
      }
      if CleanRollback(s.charts, env, app) {
        RollbackClean(t, env, app);
        assert r.failures[|r.failures| - 1] == (app, RollbackFailed + NoRestoreSnapshots);
      }
    }
  }

  /**
   * The rollback phase without the call to `restore_snapshots`: apps whose
   * volumes all roll back cleanly leave the failures as they were.
   */
  lemma {:induction false} RollbackAllClean(s: State, env: Env, apps: seq<string>)
    requires forall a :: a in apps ==> CleanRollback(s.charts, env, a)
    ensures RollbackAll(s, env, apps).failures == s.failures
    decreases |apps|
  {
    if apps != [] {
      var init := apps[..|apps| - 1];
      assert forall a :: a in init ==> a in apps;
      RollbackAllClean(s, env, init);
      RollbackClean(RollbackAll(s, env, init), env, apps[|apps| - 1]);
    }
  }

  /** One app of the rollback phase as written: its `-pv.yaml` volumes only, and one more error against it. */
  lemma RollbackAsWrittenStep(t: State, env: Env, app: string)
    ensures var r := Rollback(t, env, app);
            var u := Fail(r.s, app, RollbackFailed + if r.raised.Some? then r.raised.value else NoRestoreSnapshots);
            RollbacksOf(t.trace, u.trace, [app]) && LogGrowsFor(t.failures, u.failures, [app])
  {
    RollbackMeans(t, env, app);
    var r := Rollback(t, env, app);
    forall k | |t.trace| <= k < |r.s.trace| ensures r.s.trace[k].OnApp? && r.s.trace[k].app in [app] {
      assert r.s.trace[k].app == app;
    }
    forall k | |t.failures| <= k < |r.s.failures| ensures r.s.failures[k].0 in [app] {
      assert r.s.failures[k].0 == app;
    }
    FailKeepsRollbacks(t, r.s, app, RollbackFailed + if r.raised.Some? then r.raised.value else NoRestoreSnapshots);
  }

  lemma FailKeepsRollbacks(t: State, s: State, app: string, message: string)
    requires RollbacksOf(t.trace, s.trace, [app]) && LogGrowsFor(t.failures, s.failures, [app])
    ensures var u := Fail(s, app, message);
            RollbacksOf(t.trace, u.trace, [app]) && LogGrowsFor(t.failures, u.failures, [app])
  {
    var u := Fail(s, app, message);
    assert u.failures[..|t.failures|] == s.failures[..|t.failures|];
  }

  /**
   * The rollback phase as written changes only the failures and the trace:
   * each operation rolls back a `-pv.yaml` volume of a named app, and each
   * recorded error belongs to a named app.
   */
  lemma {:induction false} RollbackAsWrittenMeans(s: State, env: Env, apps: seq<string>)
    ensures var r := RollbackAsWritten(s, env, apps);
            RollbacksOf(s.trace, r.trace, apps) && LogGrowsFor(s.failures, r.failures, apps)
    decreases |apps|
  {
    if apps == [] {
      assert s.trace[..|s.trace|] == s.trace && s.failures[..|s.failures|] == s.failures;
    } else {
      var init := apps[..|apps| - 1];
      var app := apps[|apps| - 1];
      assert apps == init + [app];
      RollbackAsWrittenMeans(s, env, init);
      var t := RollbackAsWritten(s, env, init);
      RollbackAsWrittenStep(t, env, app);
      var r := RollbackAsWritten(s, env, apps);
      RollbacksOfTrans(s.trace, t.trace, r.trace, init, app);
      LogGrowsForTrans(s.failures, t.failures, r.failures, init, app);
    }
  }

  /**
   * The whole single-app restore over `appNames`, as written. A named app
   * missing a file raises the plan's `TypeError`, which `restore` does not
   * catch; a refused confirmation or a backup without releases ends the
   * run at once.
   */
  function Run(s: State, env: Env, answer: string, appNames: seq<string>, dataset: string): (r: (State, Exit))
    ensures r.1.Declined? ==> r.0.trace == s.trace && r.0.failures == s.failures && r.0.critical == s.critical
  {
    var p := PlanAsWritten(s, appNames);
    if p.raised.Some? then (p.s, Uncaught(p.raised.value))
    else
      var declined := Confirm(answer);
      if declined.Some? then (p.s, Declined(declined.value)) else Planned(p.s, env, appNames, dataset)
  }

  /** Everything after a confirmed plan, as written: the volume rollback of the named apps, then the rest. */
  function Planned(p: State, env: Env, appNames: seq<string>, dataset: string): (r: (State, Exit))
    ensures !r.1.Declined?
    ensures r.1.NoReleases? ==> r.0 == p
  {
    if AllReleases(p.charts) == [] then (p, NoReleases)
    else Finish(RollbackAsWritten(p, env, appNames), env, appNames, dataset)
  }

  /**
   * The run as intended: the plan marks an app missing a file critical and
   * goes on, and the rollback phase records only what `_rollback_volumes`
   * raises.
   */
  function RunIntended(s: State, env: Env, answer: string, appNames: seq<string>, dataset: string): (State, Exit) {
    var p := Plan(s, appNames);
    var declined := Confirm(answer);
    if declined.Some? then (p, Declined(declined.value)) else PlannedIntended(p, env, appNames, dataset)
  }

  function PlannedIntended(p: State, env: Env, appNames: seq<string>, dataset: string): (r: (State, Exit))
    ensures !r.1.Declined?
    ensures r.1.NoReleases? ==> r.0 == p
  {
    if AllReleases(p.charts) == [] then (p, NoReleases)
    else Finish(RollbackAll(p, env, appNames), env, appNames, dataset)
  }

  /** The shared phases over the named apps, then the database restore of those that are CNPG apps. */
  function Finish(s: State, env: Env, appNames: seq<string>, dataset: string): (r: (State, Exit))
    ensures r.1.Uncaught? || r.1.Completed?
  {
    var m := Restoring(s, env, dataset, Among(appNames, AppsWithCrds(s.charts)), appNames);
    if m.raised.Some? then (m.s, Uncaught(m.raised.value))
    else
      var d := RestoreDbs(m.s, env, Among(appNames, CnpgApps(m.s.charts)));
      (d, Completed(SummaryLines(d)))
  }

  // ---------------------------------------------------------------- properties of a run

  /**
   * As written, a named app missing a file (an app the backup does not
   * index, say) ends the run with the plan's `TypeError` before the prompt,
   * having run and recorded nothing; otherwise a refused confirmation
   * declines the run. A declined run, or one without releases, performs
   * nothing.
   */
  lemma RunDeclined(s: State, env: Env, answer: string, appNames: seq<string>, dataset: string)
    ensures var run := Run(s, env, answer, appNames, dataset); var r, exit := run.0, run.1;
            var missing := exists a :: a in appNames && Missing(s.charts, a);
            (missing ==> exit == Uncaught(AppendArity) && r.trace == s.trace && r.failures == s.failures)
            && (exit.Declined? <==> !missing && !Strings.IsYes(answer))
            && (exit.Declined? || exit.NoReleases? ==> r.trace == s.trace)
  {
    PlanAsWrittenRaises(s, appNames);
  }

  /** In the intended run a refused confirmation declines the run; a declined run, or one without releases, performs nothing. */
  lemma RunIntendedDeclined(s: State, env: Env, answer: string, appNames: seq<string>, dataset: string)
    requires Consistent(s)
    ensures var run := RunIntended(s, env, answer, appNames, dataset); var r, exit := run.0, run.1;
            (exit.Declined? <==> !Strings.IsYes(answer))
            && (exit.Declined? || exit.NoReleases? ==> r.trace == s.trace)
  {
    PlanConsistent(s, appNames);
  }

  lemma FinishMeans(s: State, env: Env, appNames: seq<string>, dataset: string)
    requires Consistent(s)
    ensures var r := Finish(s, env, appNames, dataset).0;
            AppLevelSince(s.trace, r.trace)
            && CountWaits(r.trace) <= CountWaits(s.trace) + 1
            && (CnpgChart !in ChartNames(s.charts) ==> CountWaits(r.trace) == CountWaits(s.trace))
  {
    var m := Restoring(s, env, dataset, Among(appNames, AppsWithCrds(s.charts)), appNames);
    RestoringMeans(s, env, dataset, Among(appNames, AppsWithCrds(s.charts)), appNames);
    if m.raised.None? {
      var dbs := Among(appNames, CnpgApps(m.s.charts));
      RestoreDbsMeans(m.s, env, dbs);
      AppOpsAppended(m.s.trace, dbs, RestoreDatabase);
      AppLevelTrans(s.trace, m.s.trace, m.s.trace + AppOps(dbs, RestoreDatabase));
    }
  }

  lemma PlannedMeans(p: State, env: Env, appNames: seq<string>, dataset: string)
    requires Consistent(p)
    ensures var r := Planned(p, env, appNames, dataset).0;
            AppLevelSince(p.trace, r.trace)
            && CountWaits(r.trace) <= CountWaits(p.trace) + 1
            && (CnpgChart !in ChartNames(p.charts) ==> CountWaits(r.trace) == CountWaits(p.trace))
  {
    if AllReleases(p.charts) == [] {
      assert p.trace[..|p.trace|] == p.trace;
    } else {
      var rb := RollbackAsWritten(p, env, appNames);
      RollbackAsWrittenMeans(p, env, appNames);
      CountWaitsNone(p.trace, rb.trace);
      FinishMeans(rb, env, appNames, dataset);
      AppLevelTrans(p.trace, rb.trace, Finish(rb, env, appNames, dataset).0.trace);
    }
  }

  lemma PlannedIntendedMeans(p: State, env: Env, appNames: seq<string>, dataset: string)
    requires Consistent(p)
    ensures var r := PlannedIntended(p, env, appNames, dataset).0;
            AppLevelSince(p.trace, r.trace)
            && CountWaits(r.trace) <= CountWaits(p.trace) + 1
            && (CnpgChart !in ChartNames(p.charts) ==> CountWaits(r.trace) == CountWaits(p.trace))
  {
    if AllReleases(p.charts) == [] {
      assert p.trace[..|p.trace|] == p.trace;
    } else {
      var rb := RollbackAll(p, env, appNames);
      RollbackAllMeans(p, env, appNames);
      CountWaitsNone(p.trace, rb.trace);
      FinishMeans(rb, env, appNames, dataset);
      AppLevelTrans(p.trace, rb.trace, Finish(rb, env, appNames, dataset).0.trace);
    }
  }

  /**
   * The single-app restore never touches the Kubernetes services or the
   * applications dataset: it performs only per-app operations, the catalog
   * restore and the wait for the CNPG operator, and that wait at most once,
   * never when the backup indexes no `cloudnative-pg` chart.
   */
  lemma RunAppLevel(s: State, env: Env, answer: string, appNames: seq<string>, dataset: string)
    requires Consistent(s)
    ensures var run := Run(s, env, answer, appNames, dataset); var r := run.0;
            AppLevelSince(s.trace, r.trace)
            && CountWaits(r.trace) <= CountWaits(s.trace) + 1
            && (CnpgChart !in ChartNames(s.charts) ==> CountWaits(r.trace) == CountWaits(s.trace))
  {
    var p := PlanAsWritten(s, appNames);
    if p.raised.Some? || Confirm(answer).Some? {
      assert Run(s, env, answer, appNames, dataset).0 == p.s;
      assert s.trace[..|s.trace|] == s.trace;
    } else {
      assert Run(s, env, answer, appNames, dataset) == Planned(p.s, env, appNames, dataset);
      PlanAsWrittenAgrees(s, appNames);
      PlanConsistent(s, appNames);
      PlannedMeans(p.s, env, appNames, dataset);
    }
  }

  /** The same holds of the intended run. */
  lemma RunIntendedAppLevel(s: State, env: Env, answer: string, appNames: seq<string>, dataset: string)
    requires Consistent(s)
    ensures var run := RunIntended(s, env, answer, appNames, dataset); var r := run.0;
            AppLevelSince(s.trace, r.trace)
            && CountWaits(r.trace) <= CountWaits(s.trace) + 1
            && (CnpgChart !in ChartNames(s.charts) ==> CountWaits(r.trace) == CountWaits(s.trace))
  {
    var p := Plan(s, appNames);
    PlanConsistent(s, appNames);
    if Confirm(answer).Some? {
      assert RunIntended(s, env, answer, appNames, dataset).0 == p;
      assert s.trace[..|s.trace|] == s.trace;
    } else {
      assert RunIntended(s, env, answer, appNames, dataset) == PlannedIntended(p, env, appNames, dataset);
      PlanShrunk(s, appNames);
      ChartNamesSub(s.charts, p.charts);
      PlannedIntendedMeans(p, env, appNames, dataset);
    }
  }

  /**
   * A completed run ends with the database restore of exactly the named
   * apps that are CNPG apps still indexed, in the caller's order, and none
   * of them is critical.
   */
  lemma RunDatabases(s: State, env: Env, appNames: seq<string>, dataset: string)
    requires Consistent(s)
    ensures var fin := Finish(s, env, appNames, dataset); var r, exit := fin.0, fin.1;
            var dbs := AppOps(Among(appNames, CnpgApps(r.charts)), RestoreDatabase);
            exit.Completed? ==>
              |dbs| <= |r.trace| && r.trace[|r.trace| - |dbs|..] == dbs
              && forall a :: a in Among(appNames, CnpgApps(r.charts)) ==> a !in r.critical
  {
    var m := Restoring(s, env, dataset, Among(appNames, AppsWithCrds(s.charts)), appNames);
    RestoringMeans(s, env, dataset, Among(appNames, AppsWithCrds(s.charts)), appNames);
    if m.raised.None? {
      RestoreDbsMeans(m.s, env, Among(appNames, CnpgApps(m.s.charts)));
    }
  }

  // ---------------------------------------------------------------- the restore on a `RestoreBase`

  /** The phases after the volume rollback. */
  method FinishRestore(r: RestoreBase, env: Env, appNames: seq<string>) returns (exit: Exit)
    modifies r, r.chartInfo
    ensures (r.Snapshot(), exit) == Finish(old(r.Snapshot()), env, appNames, r.dataset)
  {
    var raised := r.RestoreShared(env, Among(appNames, AppsWithCrds(r.chartInfo.charts)), appNames);
    if raised.Some? {
      return Uncaught(raised.value);
    }
    r.RestoreDatabases(env, Among(appNames, CnpgApps(r.chartInfo.charts)));
    var lines := r.LogFailures();
    return Completed(lines);
  }

  /** The volume rollback loop as written: each named app records the error of `_rollback_volumes` or, after it, of `restore_snapshots`. */
  method RollbackNamed(r: RestoreBase, env: Env, appNames: seq<string>)
    modifies r
    ensures r.Snapshot() == RollbackAsWritten(old(r.Snapshot()), env, appNames)
  {
    ghost var s0 := r.Snapshot();
    for i := 0 to |appNames|
      invariant r.Snapshot() == RollbackAsWritten(s0, env, appNames[..i])
    {
      assert appNames[..i + 1][..i] == appNames[..i];
      var raised := r.RollbackVolumes(env, appNames[i]);
      r.RecordFailure(appNames[i], RollbackFailed + if raised.Some? then raised.value else NoRestoreSnapshots);
    }
    assert appNames[..|appNames|] == appNames;
  }

  /** `RestoreSingle.restore(app_names)`, with `answer` the reply to the confirmation prompt. */
  method RunRestore(r: RestoreBase, env: Env, answer: string, appNames: seq<string>) returns (exit: Exit)
    modifies r, r.chartInfo
    ensures (r.Snapshot(), exit) == Run(old(r.Snapshot()), env, answer, appNames, r.dataset)
  {
    var typeError, declined := r.BuildRestorePlan(appNames, answer);
    if typeError.Some? {
      return Uncaught(typeError.value);
    }
    if declined.Some? {
      return Declined(declined.value);
    }
    if AllReleases(r.chartInfo.charts) == [] {
      return NoReleases;
    }
    RollbackNamed(r, env, appNames);
    exit := FinishRestore(r, env, appNames);
  }
}

/**
 * `CNPGBase`: what the database backup and restore share. The app's chart
 * name, status and database credentials are given; starting and stopping the
 * app and the commands run in its pods are recorded in a trace.
 */
module Cnpg {
  import opened Wrappers

  /** The facts about an app its database backup and restore read. */
  datatype DbApp = DbApp(app: string, chartName: string, status: string,
                         databaseName: Option<string>, userSecret: Option<string>)

  /** An action on the app or its primary pod. */
  datatype AppOp = StartApp | StopApp | Exec(command: seq<string>)

  /** Every app lives in the namespace `ix-<app>`. */
  function Namespace(app: string): (r: string)
    ensures |r| == |app| + 3 && r[3..] == app
  {
    "ix-" + app
  }

  /**
   * The facts as `CNPGBase` sets them up from the chart and the fetched
   * secrets: immich gets neither a database name nor a user.
   */
  function Setup(app: string, chartName: string, status: string,
                 fetchedName: Option<string>, fetchedUser: Option<string>): (r: DbApp)
    ensures r.app == app && r.chartName == chartName && r.status == status
    ensures chartName == "immich" ==> r.databaseName.None? && DatabaseUser(r).None?
    ensures chartName != "immich" ==> r.databaseName == fetchedName && r.userSecret == fetchedUser
  {
    if chartName == "immich" then DbApp(app, chartName, status, None, None)
    else DbApp(app, chartName, status, fetchedName, fetchedUser)
  }

  /** For charts other than immich the user is the secret's user, or the database name when that is empty. */
  function DatabaseUser(db: DbApp): (r: Option<string>)
    ensures db.userSecret.Some? && db.userSecret.value != "" ==> r == db.userSecret
    ensures !(db.userSecret.Some? && db.userSecret.value != "") ==> r == db.databaseName
  {
    if db.userSecret.Some? && db.userSecret.value != "" then db.userSecret else db.databaseName
  }

  /** `f"{value}"` of an optional string: `None` prints as `None`. */
  function Shown(o: Option<string>): string {
    if o.Some? then o.value else "None"
  }

  /** `not self.primary_pod`: a missing or empty pod name. */
  predicate PodFound(pod: Option<string>) {
    pod.Some? && pod.value != ""
  }

  /** The `k3s kubectl exec` head shared by every database command, ending at `--`. */
  function ExecHead(namespace: string, pod: string, stdin: bool): (r: seq<string>)
    ensures |r| == (if stdin then 10 else 9) && r[..3] == ["k3s", "kubectl", "exec"]
    ensures r[|r| - 2] == pod && r[|r| - 1] == "--" && r[|r| - 3] == "postgres"
  {
    ["k3s", "kubectl", "exec", "--namespace", namespace] + (if stdin then ["--stdin"] else [])
    + ["--container", "postgres", pod, "--"]
  }

  /** `stop_app` raises this when the app does not stop. */
  function StopError(app: string, err: string): string {
    "Failed to stop app " + app + ": " + err
  }

  /** `n` runs of the same command. */
  function Repeat(op: AppOp, n: nat): (r: seq<AppOp>)
    ensures |r| == n && forall i :: 0 <= i < n ==> r[i] == op
  {
    seq(n, _ => op)
  }

  /** How many times `op` occurs in a trace. */
  function Count(trace: seq<AppOp>, op: AppOp): (n: nat)
    ensures n <= |trace|
    ensures n == 0 <==> op !in trace
    decreases |trace|
  {
    if trace == [] then 0
    else
      assert trace == [trace[0]] + trace[1..];
      (if trace[0] == op then 1 else 0) + Count(trace[1..], op)
  }

  lemma {:induction false} CountAppend(a: seq<AppOp>, b: seq<AppOp>, op: AppOp)
    ensures Count(a + b, op) == Count(a, op) + Count(b, op)
    decreases |a|
  {
    if a == [] {
      assert a + b == b;
    } else {
      CountAppend(a[1..], b, op);
      assert (a + b)[0] == a[0] && (a + b)[1..] == a[1..] + b;
    }
  }

  /** `n` copies of `op` hold `op` exactly `n` times. */
  lemma {:induction false} CountRepeat(op: AppOp, n: nat)
    ensures Count(Repeat(op, n), op) == n
    decreases n
  {
    if n > 0 {
      assert Repeat(op, n) == [op] + Repeat(op, n - 1);
      CountAppend([op], Repeat(op, n - 1), op);
      CountRepeat(op, n - 1);
    }
  }

  /** The start of a database operation on an app found stopped: it is started first. */
  function Opening(wasStopped: bool): seq<AppOp> {
    if wasStopped then [StartApp] else []
  }

  /** The opening start, then a body that starts nothing: the start appears once, first, and nothing else changes. */
  lemma OpenedTrace(wasStopped: bool, body: seq<AppOp>)
    requires StartApp !in body
    ensures var t := Opening(wasStopped) + body;
            (StartApp in t <==> wasStopped) && Count(t, StartApp) <= 1 && (StartApp in t ==> t[0] == StartApp)
            && Count(t, StopApp) == Count(body, StopApp) && (StopApp in t <==> StopApp in body)
            && (|body| >= 1 ==> t[|t| - 1] == body[|body| - 1])
            && (forall op :: op in t && op.Exec? ==> op in body)
  {
    var t := Opening(wasStopped) + body;
    CountAppend(Opening(wasStopped), body, StartApp);
    CountAppend(Opening(wasStopped), body, StopApp);
  }

  /** The trace when no primary pod is found: the opening start, then its matching stop. */
  function NoPodTrace(wasStopped: bool): seq<AppOp> {
    Opening(wasStopped) + (if wasStopped then [StopApp] else [])
  }

  lemma NoPodTraceShape(wasStopped: bool)
    ensures var t := NoPodTrace(wasStopped);
            (StartApp in t <==> wasStopped) && Count(t, StartApp) <= 1 && (StartApp in t ==> t[0] == StartApp)
            && (StopApp in t <==> wasStopped)
            && (wasStopped ==> Count(t, StopApp) == 1 && t[|t| - 1] == StopApp)
            && (forall op :: op in t ==> !op.Exec?)
  {
    if wasStopped {
      var t := NoPodTrace(wasStopped);
      assert t == [StartApp, StopApp];
      assert t[1..] == [StopApp] && t[1..][1..] == [];
    }
  }
}

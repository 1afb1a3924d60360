/**
 * `RestoreCNPGDatabase`: restoring a CNPG database from its dump. The file's
 * presence, the app's start and stop, the primary pod, the drop of existing
 * objects and each restore attempt are inputs; the actions taken are
 * recorded in a trace. Waiting between attempts and the cluster health check
 * are not part of this model.
 */
module DatabaseRestore {
  import opened Wrappers
  import opened Strings
  import opened Cnpg

  /** The outcome of a command whose exceptions are caught where it runs. */
  datatype Run = Exited(code: int, stderr: string) | Raised(msg: string)

  /** The outcome of one restore attempt. */
  datatype Attempt =
    | Ran(code: int, stderr: string)
    | ApiError(msg: string)
    | IoError(msg: string)
    | OtherError(msg: string)

  const Deadlock := "deadlock detected"
  const RestoreRetries := 3
  const RetryFailed := " Restore failed after retrying."

  /** The text of the `TypeError` raised by `b'...' in s` on a `str`. */
  const BytesInText := "'in <string>' requires string as left operand, not bytes"

  /** A failed attempt `_execute_restore_command` retries. */
  predicate Deadlocked(a: Attempt) {
    a.Ran? && a.code != 0 && Finds(a.stderr, Deadlock)
  }

  /** `_get_restore_command`: `psql` in text mode for immich, `pg_restore` in binary mode otherwise. */
  function RestoreCommand(db: DbApp, pod: string): (r: (seq<string>, string))
    ensures |r.0| > 10 && r.0[..10] == ExecHead(Namespace(db.app), pod, true)
    ensures db.chartName == "immich" ==> r.0[10..] == ["psql", "--echo-errors", "--quiet"] && r.1 == "r"
    ensures db.chartName != "immich" ==>
              && r.1 == "rb" && |r.0| == 18 && r.0[10] == "pg_restore"
              && r.0[11] == "--role=" + Shown(DatabaseUser(db)) && r.0[12] == "--dbname=" + Shown(db.databaseName)
              && r.0[13..] == ["--clean", "--if-exists", "--no-owner", "--no-privileges", "--disable-triggers"]
  {
    var head := ExecHead(Namespace(db.app), pod, true);
    if db.chartName == "immich" then
      (head + ["psql", "--echo-errors", "--quiet"], "r")
    else
      (head + ["pg_restore", "--role=" + Shown(DatabaseUser(db)), "--dbname=" + Shown(db.databaseName),
               "--clean", "--if-exists", "--no-owner", "--no-privileges", "--disable-triggers"], "rb")
  }

  /** The SQL block dropping every table, sequence, view and function of the current schema. */
  const DropAllObjects := "DO $$ ... END $$;"

  /** `_drop_all_objects`'s command. */
  function DropCommand(db: DbApp, pod: string): (r: seq<string>)
    ensures |r| == 15 && r[..10] == ExecHead(Namespace(db.app), pod, true)
    ensures r[10..] == ["psql", "--dbname", Shown(db.databaseName), "--command", DropAllObjects]
  {
    ExecHead(Namespace(db.app), pod, true) + ["psql", "--dbname", Shown(db.databaseName), "--command", DropAllObjects]
  }

  /** `str(e)` of the `TypeError` `subprocess.run` raises on a `None` among its arguments. */
  const NoneArgument := "expected str, bytes or os.PathLike object, not NoneType"

  const DropFailed := "Failed to drop all objects in database: "

  /**
   * `_drop_all_objects`. With no database name (every immich app) the command
   * holds `None` and `subprocess.run` raises before any process runs; otherwise
   * the drop succeeds on exit code 0 and fails with its stderr or exception text.
   */
  function DropResult(db: DbApp, drop: Run): (r: (bool, string))
    ensures r.0 <==> db.databaseName.Some? && drop.Exited? && drop.code == 0
    ensures db.databaseName.None? ==> r.1 == DropFailed + NoneArgument
    ensures db.databaseName.Some? && drop.Raised? ==> r.1 == DropFailed + drop.msg
    ensures db.databaseName.Some? && drop.Exited? && drop.code != 0 ==> r.1 == DropFailed + drop.stderr
  {
    if db.databaseName.None? then (false, DropFailed + NoneArgument)
    else
      match drop
      case Exited(code, stderr) =>
        if code != 0 then (false, DropFailed + stderr)
        else (true, "All objects in database dropped successfully.")
      case Raised(msg) => (false, DropFailed + msg)
  }

  function AttemptNote(k: nat, retries: nat, code: int): string {
    " Attempt " + NatToString(k + 1) + "/" + NatToString(retries) + ": Restore command failed with return code " + IntToString(code)
  }

  /** The outcome of `_execute_restore_command`: what it raises, its result and the attempts made. */
  datatype Tried = Tried(raised: Option<string>, success: bool, message: string, used: nat)

  /** The restore attempts from the `k`-th on, `message` holding the notes of the earlier ones. */
  function Attempts(attempt: nat -> Attempt, retries: nat, textMode: bool, k: nat, message: string): Tried
    decreases retries - k
  {
    if k >= retries then Tried(None, false, message + RetryFailed, k)
    else
      match attempt(k)
      case ApiError(m) => Tried(None, false, "Failed to restore database: " + m, k + 1)
      case IoError(m) => Tried(None, false, "IO error during restore process: " + m, k + 1)
      case OtherError(m) => Tried(Some(m), false, message, k + 1)
      case Ran(code, stderr) =>
        if code == 0 then Tried(None, true, "Database restored successfully.", k + 1)
        else
          var noted := message + AttemptNote(k, retries, code);
          if textMode then Tried(Some(BytesInText), false, noted, k + 1)
          else if !Finds(stderr, Deadlock) then Tried(None, false, noted + RetryFailed, k + 1)
          else Attempts(attempt, retries, textMode, k + 1, Retrying(noted, k, retries))
  }

  /** The notes after a deadlocked `k`-th attempt. */
  function Retrying(noted: string, k: nat, retries: nat): string {
    noted + " Deadlock detected. Retrying " + NatToString(k + 1) + "/" + NatToString(retries) + "..."
  }

  /**
   * The attempts run on past every deadlocked binary-mode attempt: they end as
   * the attempts from the first other one, `k`, do, with `message` the notes so far.
   */
  lemma AttemptsReach(attempt: nat -> Attempt, retries: nat, textMode: bool) returns (k: nat, message: string)
    ensures k <= retries && (k >= 1 ==> !textMode)
    ensures forall j :: 0 <= j < k ==> Deadlocked(attempt(j))
    ensures k < retries ==> textMode || !Deadlocked(attempt(k))
    ensures Attempts(attempt, retries, textMode, 0, "") == Attempts(attempt, retries, textMode, k, message)
  {
    k, message := 0, "";
    while k < retries && !textMode && Deadlocked(attempt(k))
      invariant k <= retries
      invariant k >= 1 ==> !textMode
      invariant forall j :: 0 <= j < k ==> Deadlocked(attempt(j))
      invariant Attempts(attempt, retries, textMode, 0, "") == Attempts(attempt, retries, textMode, k, message)
    {
      message := Retrying(message + AttemptNote(k, retries, attempt(k).code), k, retries);
      k := k + 1;
    }
  }

  /** Where the attempts stop, at `k`, they end with the value `_execute_restore_command` returns there. */
  lemma AttemptsStop(attempt: nat -> Attempt, retries: nat, textMode: bool, k: nat, message: string)
    requires k <= retries && (k < retries ==> textMode || !Deadlocked(attempt(k)))
    ensures var t := Attempts(attempt, retries, textMode, k, message);
            && (k >= retries ==> t == Tried(None, false, message + RetryFailed, k))
            && (k < retries && attempt(k).ApiError? ==> t == Tried(None, false, "Failed to restore database: " + attempt(k).msg, k + 1))
            && (k < retries && attempt(k).IoError? ==> t == Tried(None, false, "IO error during restore process: " + attempt(k).msg, k + 1))
            && (k < retries && attempt(k).OtherError? ==> t == Tried(Some(attempt(k).msg), false, message, k + 1))
            && (k < retries && attempt(k).Ran? && attempt(k).code == 0 ==> t == Tried(None, true, "Database restored successfully.", k + 1))
            && (k < retries && attempt(k).Ran? && attempt(k).code != 0 && textMode ==>
                  t == Tried(Some(BytesInText), false, message + AttemptNote(k, retries, attempt(k).code), k + 1))
            && (k < retries && attempt(k).Ran? && attempt(k).code != 0 && !textMode ==>
                  t == Tried(None, false, message + AttemptNote(k, retries, attempt(k).code) + RetryFailed, k + 1))
  {
  }

  /** A message with the retry note appended ends in it. */
  lemma EndsWithRetryFailed(m: string)
    ensures EndsWith(m + RetryFailed, RetryFailed)
  {
    var r := m + RetryFailed;
    assert r[|r| - |RetryFailed|..] == RetryFailed;
  }

  /** How many attempts run: each but the last deadlocked, and only binary-mode ones retried. */
  lemma AttemptsUsed(attempt: nat -> Attempt, retries: nat, textMode: bool)
    ensures var t := Attempts(attempt, retries, textMode, 0, "");
            t.used <= retries && (retries > 0 ==> t.used >= 1)
            && (forall j :: 0 <= j < t.used - 1 ==> Deadlocked(attempt(j)))
            && (t.used >= 2 ==> !textMode)
            && (!textMode && 1 <= t.used < retries && attempt(t.used - 1).Ran? && attempt(t.used - 1).code != 0
                ==> !Finds(attempt(t.used - 1).stderr, Deadlock))
  {
    var k, message := AttemptsReach(attempt, retries, textMode);
    var t := Attempts(attempt, retries, textMode, k, message);
    assert t.used == k || (k < retries && t.used == k + 1);
  }

  /**
   * How the attempts end: success exactly on an exit code 0, and a raise
   * exactly on an unexpected exception or a failed text-mode attempt.
   */
  lemma AttemptsEnd(attempt: nat -> Attempt, retries: nat, textMode: bool)
    ensures var t := Attempts(attempt, retries, textMode, 0, "");
            (t.success <==> t.used >= 1 && attempt(t.used - 1).Ran? && attempt(t.used - 1).code == 0)
            && (t.raised.Some? <==> t.used >= 1 && (attempt(t.used - 1).OtherError?
                                                    || (textMode && attempt(t.used - 1).Ran? && attempt(t.used - 1).code != 0)))
  {
    var k, message := AttemptsReach(attempt, retries, textMode);
    AttemptsStop(attempt, retries, textMode, k, message);
  }


  /** The value raised, and the message of a success. */
  lemma AttemptsRaised(attempt: nat -> Attempt, retries: nat, textMode: bool)
    ensures var t := Attempts(attempt, retries, textMode, 0, "");
            (t.success ==> t.raised.None? && t.message == "Database restored successfully.")
            && (t.used >= 1 && attempt(t.used - 1).OtherError? ==> t.raised == Some(attempt(t.used - 1).msg))
            && (textMode && t.used >= 1 && attempt(t.used - 1).Ran? && attempt(t.used - 1).code != 0
                ==> t.raised == Some(BytesInText))
  {
    var k, message := AttemptsReach(attempt, retries, textMode);
    AttemptsStop(attempt, retries, textMode, k, message);
  }


  /** The message each failure that raises nothing leaves. */
  lemma AttemptsMessages(attempt: nat -> Attempt, retries: nat, textMode: bool)
    ensures var t := Attempts(attempt, retries, textMode, 0, "");
            (t.used >= 1 && attempt(t.used - 1).ApiError? ==>
               t.raised.None? && !t.success && t.message == "Failed to restore database: " + attempt(t.used - 1).msg)
            && (t.used >= 1 && attempt(t.used - 1).IoError? ==>
                  t.raised.None? && !t.success && t.message == "IO error during restore process: " + attempt(t.used - 1).msg)
            && (t.raised.None? && !t.success && (t.used == 0 || attempt(t.used - 1).Ran?) ==> EndsWith(t.message, RetryFailed))
  {
    var k, message := AttemptsReach(attempt, retries, textMode);
    AttemptsStop(attempt, retries, textMode, k, message);
    if k >= retries {
      EndsWithRetryFailed(message);
    } else if attempt(k).Ran? {
      EndsWithRetryFailed(message + AttemptNote(k, retries, attempt(k).code));
    }
  }

  /**
   * `_execute_restore_command` as written. `textMode` is the immich restore
   * of an uncompressed dump, whose stderr is text: the deadlock test then
   * raises `TypeError` on the first failed attempt. `raised` is an exception
   * that leaves the method; `used` counts the attempts made.
   */
  method ExecuteRestore(attempt: nat -> Attempt, retries: nat, textMode: bool)
    returns (raised: Option<string>, success: bool, message: string, used: nat)
    ensures used <= retries && (retries > 0 ==> used >= 1)
    ensures forall j :: 0 <= j < used - 1 ==> Deadlocked(attempt(j))
    ensures used >= 2 ==> !textMode
    ensures success <==> used >= 1 && attempt(used - 1).Ran? && attempt(used - 1).code == 0
    ensures success ==> raised.None? && message == "Database restored successfully."
    ensures raised.Some? <==> used >= 1 && (attempt(used - 1).OtherError?
                                            || (textMode && attempt(used - 1).Ran? && attempt(used - 1).code != 0))
    ensures used >= 1 && attempt(used - 1).OtherError? ==> raised == Some(attempt(used - 1).msg)
    ensures textMode && used >= 1 && attempt(used - 1).Ran? && attempt(used - 1).code != 0 ==> raised == Some(BytesInText)
    ensures used >= 1 && attempt(used - 1).ApiError? ==>
              raised.None? && !success && message == "Failed to restore database: " + attempt(used - 1).msg
    ensures used >= 1 && attempt(used - 1).IoError? ==>
              raised.None? && !success && message == "IO error during restore process: " + attempt(used - 1).msg
    ensures !textMode && 1 <= used < retries && attempt(used - 1).Ran? && attempt(used - 1).code != 0
            ==> !Finds(attempt(used - 1).stderr, Deadlock)
    ensures raised.None? && !success && (used == 0 || attempt(used - 1).Ran?) ==> EndsWith(message, RetryFailed)
    ensures Tried(raised, success, message, used) == Attempts(attempt, retries, textMode, 0, "")
  {
    AttemptsUsed(attempt, retries, textMode);
    AttemptsEnd(attempt, retries, textMode);
    AttemptsRaised(attempt, retries, textMode);
    AttemptsMessages(attempt, retries, textMode);
    raised, success, message, used := RestoreAttempts(attempt, retries, textMode);
  }

  /** The attempt loop of `_execute_restore_command`: it ends as `Attempts` says. */
  method RestoreAttempts(attempt: nat -> Attempt, retries: nat, textMode: bool)
    returns (raised: Option<string>, success: bool, message: string, used: nat)
    ensures Tried(raised, success, message, used) == Attempts(attempt, retries, textMode, 0, "")
  {
    message := "";
    used := 0;
    var k := 0;
    while k < retries
      invariant k <= retries && used == k
      invariant Attempts(attempt, retries, textMode, 0, "") == Attempts(attempt, retries, textMode, k, message)
      decreases retries - k
    {
      used := k + 1;
      match attempt(k)
      case ApiError(m) =>
        return None, false, "Failed to restore database: " + m, used;
      case IoError(m) =>
        return None, false, "IO error during restore process: " + m, used;
      case OtherError(m) =>
        return Some(m), false, message, used;
      case Ran(code, stderr) =>
        if code == 0 {
          return None, true, "Database restored successfully.", used;
        }
        message := message + AttemptNote(k, retries, code);
        if textMode {
          return Some(BytesInText), false, message, used;
        }
        if !Finds(stderr, Deadlock) {
          message := message + RetryFailed;
          return None, false, message, used;
        }
        message := Retrying(message, k, retries);
      k := k + 1;
    }
    message := message + RetryFailed;
    raised := None;
    success := false;
  }

  /** An immich text-mode restore whose first attempt fails is not retried even on a deadlock: it raises. */
  method TextModeDeadlockRaises() returns (raised: Option<string>, used: nat)
    ensures raised == Some(BytesInText) && used == 1
  {
    var success, message;
    raised, success, message, used := ExecuteRestore((k: nat) => Ran(1, Deadlock), RestoreRetries, true);
  }

  /**
   * `_execute_restore_command` as evidently intended: the deadlock test reads
   * stderr in either mode, so a deadlocked attempt is retried and nothing but
   * an unexpected exception leaves the method.
   */
  method ExecuteRestoreDecoded(attempt: nat -> Attempt, retries: nat)
    returns (raised: Option<string>, success: bool, message: string, used: nat)
    ensures used <= retries && (retries > 0 ==> used >= 1)
    ensures forall j :: 0 <= j < used - 1 ==> Deadlocked(attempt(j))
    ensures success <==> used >= 1 && attempt(used - 1).Ran? && attempt(used - 1).code == 0
    ensures success ==> raised.None? && message == "Database restored successfully."
    ensures raised.Some? <==> used >= 1 && attempt(used - 1).OtherError?
    ensures raised.Some? ==> raised == Some(attempt(used - 1).msg)
    ensures 1 <= used < retries && attempt(used - 1).Ran? && attempt(used - 1).code != 0
            ==> !Finds(attempt(used - 1).stderr, Deadlock)
    ensures raised.None? && !success && (used == 0 || attempt(used - 1).Ran?) ==> EndsWith(message, RetryFailed)
    ensures Tried(raised, success, message, used) == Attempts(attempt, retries, false, 0, "")
  {
    raised, success, message, used := ExecuteRestore(attempt, retries, false);
  }

  /** The app was stopped and `restore` started it, so it must stop it again. */
  predicate Started(db: DbApp, fileExists: bool, startOk: bool) {
    fileExists && db.status == "STOPPED" && startOk
  }

  /** `restore` gets as far as the primary pod: the file exists and the app runs. */
  predicate Running(db: DbApp, fileExists: bool, startOk: bool) {
    fileExists && (db.status != "STOPPED" || startOk)
  }

  /**
   * How often `restore` stops an app it started, once the drop went through:
   * once, or twice when the stop after a failed restore raised inside the `try`.
   */
  function Stops(t: Tried, wasStopped: bool, stopOk: nat -> bool): nat {
    if !wasStopped then 0 else if t.raised.None? && !t.success && !stopOk(0) then 2 else 1
  }

  /**
   * What `restore` returns or raises once the drop went through and the
   * restore attempts ended as `t`: success iff the restore succeeded and so
   * did stopping the app again; only the last stop raises out of `restore`; a
   * raise inside the `try` becomes the message `Failed to execute restore
   * command: ...`, and a failed restore otherwise keeps the attempts' message.
   */
  predicate AfterDrop(db: DbApp, t: Tried, wasStopped: bool, stopOk: nat -> bool, stopErr: string,
                      raised: Option<string>, success: bool, message: string)
  {
    var stops := Stops(t, wasStopped, stopOk);
    && (success <==> t.success && (wasStopped ==> stopOk(0)))
    && (raised.Some? <==> stops > 0 && !stopOk(stops - 1))
    && (raised.Some? ==> raised == Some(StopError(db.app, stopErr)))
    && (success ==> message == "Database restored successfully.")
    && (raised.None? && t.raised.Some? ==> message == "Failed to execute restore command: " + t.raised.value)
    && (raised.None? && t.raised.None? && !t.success ==>
          message == (if stops == 2 then "Failed to execute restore command: " + StopError(db.app, stopErr) else t.message))
  }

  /**
   * `restore`. An app found stopped is started for the restore and stopped
   * again afterwards. `stopOk(k)` says whether the `k`-th `stop_app` call
   * succeeds; a failing one raises, and `raised` is what leaves `restore`.
   */
  method RestoreDatabase(db: DbApp, fileExists: bool, startOk: bool, pod: Option<string>, drop: Run,
                         attempt: nat -> Attempt, stopOk: nat -> bool, stopErr: string)
    returns (raised: Option<string>, success: bool, message: string, trace: seq<AppOp>)
    ensures !fileExists ==> raised.None? && !success && message == "Backup file not found." && trace == []
    ensures fileExists && db.status == "STOPPED" && !startOk
            ==> raised.None? && !success && message == "Failed to start app " + db.app + "." && trace == [StartApp]
    ensures StartApp in trace <==> fileExists && db.status == "STOPPED"
    ensures Count(trace, StartApp) <= 1 && (StartApp in trace ==> trace[0] == StartApp)
    ensures !Started(db, fileExists, startOk) ==> StopApp !in trace
    ensures raised.Some? ==> Started(db, fileExists, startOk) && !success
    ensures success ==> raised.None? && message == "Database restored successfully."
    ensures success ==> PodFound(pod) && DropResult(db, drop).0
    ensures db.databaseName.None? ==> !success && forall op :: op in trace ==> !op.Exec?
    ensures Running(db, fileExists, startOk) && PodFound(pod) && DropResult(db, drop).0 && attempt(0).Ran? && attempt(0).code == 0
            && (Started(db, fileExists, startOk) ==> stopOk(0))
            ==> success
    ensures Running(db, fileExists, startOk) && !PodFound(pod)
            ==> !success && (forall op :: op in trace ==> !op.Exec?)
                && (raised.None? <==> !Started(db, fileExists, startOk) || stopOk(0))
                && (raised.None? ==> message == "Primary pod not found.")
    ensures Running(db, fileExists, startOk) && PodFound(pod) && !DropResult(db, drop).0
            ==> raised.None? && !success && message == DropResult(db, drop).1 && StopApp !in trace
    ensures Running(db, fileExists, startOk) && PodFound(pod) && DropResult(db, drop).0
            ==> var t := Attempts(attempt, RestoreRetries, false, 0, "");
                && AfterDrop(db, t, db.status == "STOPPED", stopOk, stopErr, raised, success, message)
                && trace == Opening(db.status == "STOPPED") + PodBody(db, pod.value, t.used, Stops(t, db.status == "STOPPED", stopOk))
    ensures Running(db, fileExists, startOk) && PodFound(pod)
            ==> forall op :: op in trace && op.Exec? ==>
                  op.command == DropCommand(db, pod.value) || op.command == RestoreCommand(db, pod.value).0
    ensures Started(db, fileExists, startOk) && !(PodFound(pod) && !DropResult(db, drop).0) && stopOk(0)
            ==> Count(trace, StopApp) == 1 && trace[|trace| - 1] == StopApp
  {
    trace := [];
    raised := None;
    success := false;
    if !fileExists {
      message := "Backup file not found.";
      return;
    }
    var wasStopped := false;
    if db.status == "STOPPED" {
      trace := [StartApp];
      if !startOk {
        message := "Failed to start app " + db.app + ".";
        return;
      }
      wasStopped := true;
    }
    if !PodFound(pod) {
      message := "Primary pod not found.";
      trace := NoPodTrace(wasStopped);
      NoPodTraceShape(wasStopped);
      if wasStopped && !stopOk(0) {
        raised := Some(StopError(db.app, stopErr));
      }
      return;
    }
    assert trace == Opening(wasStopped);
    var body;
    raised, success, message, body := RestoreOnPod(db, pod.value, drop, attempt, wasStopped, stopOk, stopErr);
    OpenedTrace(wasStopped, body);
    trace := Opening(wasStopped) + body;
  }

  /**
   * The `try` block of `restore` and the final stop: the drop, the restore
   * attempts, and the stop of an app `restore` started. `body` is the part of
   * the trace from the drop on; a drop with no database name runs nothing.
   */
  method RestoreOnPod(db: DbApp, pod: string, drop: Run, attempt: nat -> Attempt, wasStopped: bool,
                      stopOk: nat -> bool, stopErr: string)
    returns (raised: Option<string>, success: bool, message: string, body: seq<AppOp>)
    ensures StartApp !in body
    ensures db.databaseName.Some? ==> |body| >= 1 && body[0] == Exec(DropCommand(db, pod))
    ensures forall op :: op in body && op.Exec? ==>
              op.command == DropCommand(db, pod) || op.command == RestoreCommand(db, pod).0
    ensures !DropResult(db, drop).0 ==>
              raised.None? && !success && message == DropResult(db, drop).1
              && body == (if db.databaseName.None? then [] else [Exec(DropCommand(db, pod))])
    ensures !wasStopped ==> StopApp !in body && raised.None?
    ensures raised.Some? ==> !success
    ensures success ==> raised.None? && message == "Database restored successfully." && DropResult(db, drop).0
    ensures DropResult(db, drop).0 && attempt(0).Ran? && attempt(0).code == 0 && (wasStopped ==> stopOk(0)) ==> success
    ensures DropResult(db, drop).0 ==>
              var t := Attempts(attempt, RestoreRetries, false, 0, "");
              && AfterDrop(db, t, wasStopped, stopOk, stopErr, raised, success, message)
              && body == PodBody(db, pod, t.used, Stops(t, wasStopped, stopOk))
    ensures wasStopped && DropResult(db, drop).0 && stopOk(0) ==> Count(body, StopApp) == 1 && body[|body| - 1] == StopApp
  {
    raised := None;
    success := false;
    var command := RestoreCommand(db, pod).0;
    var dropped := DropResult(db, drop);
    if !dropped.0 {
      message := dropped.1;
      if db.databaseName.None? {
        body := [];
      } else {
        body := [Exec(DropCommand(db, pod))];
        assert body == PodBody(db, pod, 0, 0);
        PodBodyShape(db, pod, 0, 0);
      }
      return;
    }
    raised, success, message, body := RestoreAfterDrop(db, pod, attempt, wasStopped, stopOk, stopErr);
    var t := Attempts(attempt, RestoreRetries, false, 0, "");
    PodBodyShape(db, pod, t.used, Stops(t, wasStopped, stopOk));
  }

  /** The part of `RestoreOnPod` after a drop that went through. */
  method RestoreAfterDrop(db: DbApp, pod: string, attempt: nat -> Attempt, wasStopped: bool,
                          stopOk: nat -> bool, stopErr: string)
    returns (raised: Option<string>, success: bool, message: string, body: seq<AppOp>)
    ensures var t := Attempts(attempt, RestoreRetries, false, 0, "");
            && AfterDrop(db, t, wasStopped, stopOk, stopErr, raised, success, message)
            && body == PodBody(db, pod, t.used, Stops(t, wasStopped, stopOk))
  {
    raised := None;
    success := false;
    ghost var t := Attempts(attempt, RestoreRetries, false, 0, "");
    var failure, ok, msg, used := ExecuteRestoreDecoded(attempt, RestoreRetries);
    var stops := 0;
    if failure.Some? {
      message := "Failed to execute restore command: " + failure.value;
    } else if !ok {
      message := msg;
      if !wasStopped {
        body := PodBody(db, pod, used, 0);
        return;
      }
      stops := 1;
      if stopOk(0) {
        body := PodBody(db, pod, used, 1);
        return;
      }
      message := "Failed to execute restore command: " + StopError(db.app, stopErr);
    } else {
      success := true;
      message := "Database restored successfully.";
    }
    if wasStopped {
      if !stopOk(stops) {
        raised := Some(StopError(db.app, stopErr));
        success := false;
      }
      stops := stops + 1;
    }
    assert stops == Stops(t, wasStopped, stopOk);
    body := PodBody(db, pod, used, stops);
  }

  /**
   * As written no immich restore succeeds or runs a command in the pod: the
   * app has no database name, so the drop raises before its process starts and
   * `restore` returns its failure.
   */
  method ImmichNeverRestores(app: string, status: string, fetchedName: Option<string>, fetchedUser: Option<string>,
                             fileExists: bool, startOk: bool, pod: Option<string>, drop: Run,
                             attempt: nat -> Attempt, stopOk: nat -> bool, stopErr: string)
    returns (success: bool, message: string, trace: seq<AppOp>)
    ensures !success && forall op :: op in trace ==> !op.Exec?
    ensures Running(Setup(app, "immich", status, fetchedName, fetchedUser), fileExists, startOk) && PodFound(pod)
            ==> message == DropFailed + NoneArgument
  {
    var db := Setup(app, "immich", status, fetchedName, fetchedUser);
    var raised;
    raised, success, message, trace := RestoreDatabase(db, fileExists, startOk, pod, drop, attempt, stopOk, stopErr);
  }

  /** The trace from the drop on: the drop, `used` restore attempts and `stops` stops of the app. */
  function PodBody(db: DbApp, pod: string, used: nat, stops: nat): seq<AppOp> {
    [Exec(DropCommand(db, pod))] + Repeat(Exec(RestoreCommand(db, pod).0), used) + Repeat(StopApp, stops)
  }

  lemma PodBodyShape(db: DbApp, pod: string, used: nat, stops: nat)
    ensures var body := PodBody(db, pod, used, stops);
            |body| >= 1 && body[0] == Exec(DropCommand(db, pod)) && StartApp !in body
            && (forall op :: op in body && op.Exec? ==>
                  op.command == DropCommand(db, pod) || op.command == RestoreCommand(db, pod).0)
            && Count(body, StopApp) == stops
            && (stops > 0 ==> body[|body| - 1] == StopApp)
            && (stops == 0 ==> StopApp !in body)
  {
    var head := [Exec(DropCommand(db, pod))] + Repeat(Exec(RestoreCommand(db, pod).0), used);
    var stopsPart := Repeat(StopApp, stops);
    CountAppend([Exec(DropCommand(db, pod))], Repeat(Exec(RestoreCommand(db, pod).0), used), StopApp);
    CountAppend(head, stopsPart, StopApp);
    CountRepeat(StopApp, stops);
    assert StopApp !in Repeat(Exec(RestoreCommand(db, pod).0), used);
  }
}

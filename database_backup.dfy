/**
 * `BackupCNPGDatabase`: dumping an app's CNPG database to `<app>.sql.gz` in
 * the backup directory. The app's start and stop, the primary pod, the dump
 * command's outcome and the outcome of each file step are inputs; the dump
 * is followed as text from the command's output to the compressed file's
 * content.
 */
module DatabaseBackup {
  import opened Wrappers
  import opened Strings
  import opened Cnpg

  // ---------------------------------------------------------------- file names

  /** The temporary dump file `<dir>/<app>.sql`. */
  function TempFile(dir: string, app: string): (r: string)
    ensures EndsWith(r, ".sql") && StartsWith(r, dir + "/")
  {
    assert (dir + "/" + app + ".sql")[..|dir + "/"|] == dir + "/";
    dir + "/" + app + ".sql"
  }

  /** The output file is the temporary file's name with `.gz` appended. */
  function OutputFile(dir: string, app: string): (r: string)
    ensures EndsWith(r, ".sql.gz") && r == TempFile(dir, app) + ".gz"
  {
    dir + "/" + app + ".sql.gz"
  }

  // ---------------------------------------------------------------- _modify_dump_for_immich

  const DropRole := "DROP ROLE IF EXISTS postgres;"
  const CreateRole := "CREATE ROLE postgres;"
  const EmptySearchPath := "SELECT pg_catalog.set_config('search_path', '', false);"
  const PublicSearchPath := "SELECT pg_catalog.set_config(" + "'search_path', 'public, " + "pg_catalog', true);"

  /** A line that creates or drops the `postgres` role. */
  predicate RoleLine(line: string) {
    Contains(line, DropRole) || Contains(line, CreateRole)
  }

  /** The rewrite of one line: role lines are commented out first, the empty search path is replaced. */
  function ImmichLine(line: string): (r: string)
    ensures RoleLine(line) ==> r == "-- " + line
    ensures !RoleLine(line) && Contains(line, EmptySearchPath) ==> r == PublicSearchPath
    ensures !RoleLine(line) && !Contains(line, EmptySearchPath) ==> r == line
  {
    if RoleLine(line) then "-- " + line
    else if Contains(line, EmptySearchPath) then PublicSearchPath
    else line
  }

  /** The rewrite never joins two lines into one or splits one into two. */
  lemma ImmichLineSingle(line: string)
    requires '\n' !in line
    ensures '\n' !in ImmichLine(line)
  {
    assert '\n' !in "-- ";
    assert '\n' !in "SELECT pg_catalog.set_config(";
    assert '\n' !in "'search_path', 'public, ";
    assert '\n' !in "pg_catalog', true);";
  }

  /**
   * `str.splitlines()` on text whose line breaks are `\n`: the pieces between
   * the breaks, with no empty piece after a final break.
   */
  function Lines(s: string): (r: seq<string>)
    ensures forall k :: 0 <= k < |r| ==> '\n' !in r[k]
    ensures s == "" <==> r == []
  {
    if s == "" then []
    else if s[|s| - 1] == '\n' then Split(s[..|s| - 1], '\n')
    else Split(s, '\n')
  }

  /** Joining the lines back gives the text, less a final line break. */
  lemma LinesJoin(s: string)
    ensures s != "" && s[|s| - 1] == '\n' ==> Join(Lines(s), '\n') + "\n" == s
    ensures s == "" || s[|s| - 1] != '\n' ==> Join(Lines(s), '\n') == s
  {
    if s != "" {
      if s[|s| - 1] == '\n' {
        JoinSplit(s[..|s| - 1], '\n');
        assert s[..|s| - 1] + "\n" == s;
      } else {
        JoinSplit(s, '\n');
      }
    }
  }

  function Rewritten(lines: seq<string>): (r: seq<string>)
    ensures |r| == |lines| && forall k :: 0 <= k < |r| ==> r[k] == ImmichLine(lines[k])
  {
    seq(|lines|, k requires 0 <= k < |lines| => ImmichLine(lines[k]))
  }

  /**
   * Reading the temporary file in text mode: universal newlines turn every
   * `\r\n` and every lone `\r` into `\n`.
   */
  function ReadText(s: string): (r: string)
    ensures '\r' !in r
    ensures '\r' !in s ==> r == s
    ensures s == "" <==> r == ""
    decreases |s|
  {
    if s == "" then ""
    else if s[0] == '\r' then "\n" + ReadText(if |s| > 1 && s[1] == '\n' then s[2..] else s[1..])
    else [s[0]] + ReadText(s[1..])
  }

  /** The immich dump as read back in text mode: every line rewritten, joined by `\n` with no final break. */
  function ModifyDump(dump: string): string {
    Join(Rewritten(Lines(ReadText(dump))), '\n')
  }

  /**
   * Splitting the rewritten dump at `\n` gives back exactly the rewritten
   * lines, one per line of the dump as text mode reads it.
   */
  lemma ModifyDumpLines(dump: string)
    requires dump != ""
    ensures Split(ModifyDump(dump), '\n') == Rewritten(Lines(ReadText(dump)))
    ensures |Split(ModifyDump(dump), '\n')| == |Lines(ReadText(dump))|
  {
    var lines := Lines(ReadText(dump));
    var r := Rewritten(lines);
    forall k | 0 <= k < |r| ensures '\n' !in r[k] {
      ImmichLineSingle(lines[k]);
    }
    SplitJoin(r, '\n');
  }

  /** A `\r\n` or a lone `\r` in the dump ends a line, as the text-mode read makes it. */
  lemma CarriageReturnsEndLines()
    ensures ModifyDump("a\r\nb") == "a\nb"
    ensures ModifyDump("a\rb\r") == "a\nb"
  {
    CrLfRead();
    LoneCrRead();
    TwoLines();
    assert Rewritten(["a", "b"]) == ["a", "b"] by {
      PlainLineKept("a"); PlainLineKept("b");
    }
  }

  lemma CrLfRead()
    ensures ReadText("a\r\nb") == "a\nb"
  {
    assert "a\r\nb"[1..] == "\r\nb" && "\r\nb"[2..] == "b";
    assert ReadText("b") == "b";
  }

  lemma LoneCrRead()
    ensures ReadText("a\rb\r") == "a\nb\n"
  {
    assert "\r"[1..] == "" && ReadText("\r") == "\n";
    assert "b\r"[1..] == "\r" && ReadText("b\r") == "b\n";
    assert "\rb\r"[1..] == "b\r" && ReadText("\rb\r") == "\nb\n";
    assert "a\rb\r"[1..] == "\rb\r";
  }

  /** Both `a\nb` and `a\nb\n` are the two lines `a` and `b`. */
  lemma TwoLines()
    ensures Lines("a\nb") == ["a", "b"] && Lines("a\nb\n") == ["a", "b"]
  {
    assert "a\nb"[1..] == "\nb" && "\nb"[1..] == "b" && "b"[1..] == "";
    assert Split("", '\n') == [""];
    assert ['b'] + "" == "b";
    assert Split("b", '\n') == ["b"];
    assert Split("\nb", '\n') == ["", "b"];
    var rest := Split("\nb", '\n');
    assert "a\nb"[0] == 'a' && ['a'] + rest[0] == "a" && rest[1..] == ["b"];
    assert Split("a\nb", '\n') == ["a", "b"];
    assert "a\nb\n"[..3] == "a\nb";
  }

  /** A line mentioning neither role statement nor the empty search path passes through unchanged. */
  lemma PlainLineKept(line: string)
    requires !Contains(line, DropRole) && !Contains(line, CreateRole) && !Contains(line, EmptySearchPath)
    ensures ImmichLine(line) == line
  {
  }

  // ---------------------------------------------------------------- _get_dump_command

  /** `_get_dump_command`: `pg_dumpall` for immich, a custom-format `pg_dump` of the database otherwise. */
  function DumpCommand(db: DbApp, pod: string): (r: seq<string>)
    ensures |r| == 12 && r[..9] == ExecHead(Namespace(db.app), pod, false)
    ensures db.chartName == "immich" ==> r[9..] == ["pg_dumpall", "--clean", "--if-exists"]
    ensures db.chartName != "immich" ==> r[9..] == ["pg_dump", "--format=custom", "--dbname=" + Shown(db.databaseName)]
  {
    var head := ExecHead(Namespace(db.app), pod, false);
    if db.chartName == "immich" then head + ["pg_dumpall", "--clean", "--if-exists"]
    else head + ["pg_dump", "--format=custom", "--dbname=" + Shown(db.databaseName)]
  }

  // ---------------------------------------------------------------- _execute_backup_command

  /** The dump command's exit code and output, or the exception its run raised. */
  datatype DumpRun = Dumped(code: int, stdout: string) | DumpRaised(msg: string)

  /** `_execute_backup_command`: the failure message, or success with what is written to the temporary file. */
  function ExecuteBackup(run: DumpRun): (r: (bool, string, Option<string>))
    ensures r.0 <==> run.Dumped? && run.code == 0
    ensures r.0 <==> r.2.Some?
    ensures r.0 ==> r.2 == Some(run.stdout)
    ensures run.Dumped? && run.code != 0 ==> r.1 == "Backup command failed with return code " + IntToString(run.code)
    ensures run.DumpRaised? ==> r.1 == "Failed to execute backup command: " + run.msg
  {
    match run
    case DumpRaised(msg) => (false, "Failed to execute backup command: " + msg, None)
    case Dumped(code, stdout) =>
      if code != 0 then (false, "Backup command failed with return code " + IntToString(code), None)
      else (true, "", Some(stdout))
  }

  // ---------------------------------------------------------------- backup

  /** The app was stopped and `backup` started it, so it must stop it again. */
  predicate Started(db: DbApp, startOk: bool) {
    db.status == "STOPPED" && startOk
  }

  predicate Running(db: DbApp, startOk: bool) {
    db.status != "STOPPED" || startOk
  }

  /** The content of the compressed file after a dump `stdout`: rewritten for immich only. */
  function Compressed(db: DbApp, stdout: string): string {
    if db.chartName == "immich" then ModifyDump(stdout) else stdout
  }

  /**
   * The exception raised after a good dump, if any: the immich rewrite's, which
   * skips the compression, else the compression's.
   */
  function LateError(db: DbApp, modifyErr: Option<string>, compressErr: Option<string>): (r: Option<string>)
    ensures r.None? <==> (db.chartName == "immich" ==> modifyErr.None?) && compressErr.None?
  {
    if db.chartName == "immich" && modifyErr.Some? then modifyErr else compressErr
  }

  /** The dump, the immich rewrite and the compression all went through. */
  predicate Dumps(db: DbApp, run: DumpRun, modifyErr: Option<string>, compressErr: Option<string>) {
    run.Dumped? && run.code == 0 && LateError(db, modifyErr, compressErr).None?
  }

  /**
   * What `backup` reports, as written: success only after a good dump, and then
   * kept even when the rewrite or the compression raised, with the exception's
   * text as the message and no compressed file.
   */
  predicate Reported(db: DbApp, dir: string, run: DumpRun, modifyErr: Option<string>, compressErr: Option<string>,
                     success: bool, message: string, output: Option<string>) {
    && (success ==> run.Dumped? && run.code == 0)
    && (success && Dumps(db, run, modifyErr, compressErr) ==>
          message == "Database dumped and compressed successfully to " + OutputFile(dir, db.app)
          && output == Some(Compressed(db, run.stdout)))
    && (success && !Dumps(db, run, modifyErr, compressErr) ==>
          output.None? && message == "Failed to execute dump command: " + LateError(db, modifyErr, compressErr).value)
  }

  /**
   * `backup`. An app found stopped is started for the dump and stopped again
   * on every later exit. `stopOk(k)` says whether the `k`-th `stop_app` call
   * succeeds; a failing one raises, and `raised` is what leaves `backup`.
   * `temp` and `output` are the contents written to the temporary and the
   * compressed file, if any.
   */
  method BackupDatabase(db: DbApp, dir: string, startOk: bool, pod: Option<string>, run: DumpRun,
                        modifyErr: Option<string>, compressErr: Option<string>, stopOk: nat -> bool, stopErr: string)
    returns (raised: Option<string>, success: bool, message: string, trace: seq<AppOp>,
             temp: Option<string>, output: Option<string>)
    ensures db.status == "STOPPED" && !startOk ==>
              raised.None? && !success && message == "Failed to start app " + db.app + "." && trace == [StartApp]
    ensures StartApp in trace <==> db.status == "STOPPED"
    ensures Count(trace, StartApp) <= 1 && (StartApp in trace ==> trace[0] == StartApp)
    ensures !Started(db, startOk) ==> StopApp !in trace && raised.None?
    ensures Started(db, startOk) && stopOk(0) ==> raised.None? && Count(trace, StopApp) == 1 && trace[|trace| - 1] == StopApp
    ensures raised.Some? ==> !success
    ensures Running(db, startOk) && !PodFound(pod) ==>
              !success && temp.None? && output.None? && (forall op :: op in trace ==> !op.Exec?)
              && (raised.None? ==> message == "Primary pod not found.")
    ensures Running(db, startOk) && PodFound(pod) ==>
              forall op :: op in trace && op.Exec? ==> op.command == DumpCommand(db, pod.value)
    ensures success ==> raised.None? && PodFound(pod)
    ensures Reported(db, dir, run, modifyErr, compressErr, success, message, output)
    ensures Running(db, startOk) && PodFound(pod) && run.Dumped? && run.code == 0
            && (Started(db, startOk) ==> stopOk(0))
            ==> success
    ensures temp.Some? ==> run.Dumped? && run.code == 0 && temp == Some(run.stdout)
    ensures output.Some? ==> PodFound(pod) && Dumps(db, run, modifyErr, compressErr)
    ensures Running(db, startOk) && PodFound(pod) && run.Dumped? && run.code != 0 && (Started(db, startOk) ==> stopOk(0))
            ==> !success && temp.None? && message == "Backup command failed with return code " + IntToString(run.code)
  {
    trace := [];
    raised := None;
    success := false;
    temp := None;
    output := None;
    if db.status == "STOPPED" && !startOk {
      message := "Failed to start app " + db.app + ".";
      trace := [StartApp];
      return;
    }
    var wasStopped := db.status == "STOPPED";
    if !PodFound(pod) {
      message := "Primary pod not found.";
      trace := NoPodTrace(wasStopped);
      NoPodTraceShape(wasStopped);
      if wasStopped && !stopOk(0) {
        raised := Some(StopError(db.app, stopErr));
      }
      return;
    }
    var body;
    raised, success, message, body, temp, output :=
      DumpOnPod(db, dir, pod.value, run, modifyErr, compressErr, wasStopped, stopOk, stopErr);
    OpenedTrace(wasStopped, body);
    trace := Opening(wasStopped) + body;
  }

  /** The `try` block of `backup` and the final stop. `body` is the part of the trace from the dump on. */
  method DumpOnPod(db: DbApp, dir: string, pod: string, run: DumpRun, modifyErr: Option<string>,
                   compressErr: Option<string>, wasStopped: bool, stopOk: nat -> bool, stopErr: string)
    returns (raised: Option<string>, success: bool, message: string, body: seq<AppOp>,
             temp: Option<string>, output: Option<string>)
    ensures |body| >= 1 && body[0] == Exec(DumpCommand(db, pod)) && StartApp !in body
    ensures forall op :: op in body && op.Exec? ==> op.command == DumpCommand(db, pod)
    ensures !wasStopped ==> StopApp !in body && raised.None?
    ensures wasStopped && stopOk(0) ==> raised.None? && Count(body, StopApp) == 1 && body[|body| - 1] == StopApp
    ensures raised.Some? ==> !success
    ensures success ==> raised.None?
    ensures Reported(db, dir, run, modifyErr, compressErr, success, message, output)
    ensures run.Dumped? && run.code == 0 && (wasStopped ==> stopOk(0)) ==> success
    ensures run.Dumped? && run.code == 0 && wasStopped && !stopOk(0) ==> raised.Some?
    ensures temp.Some? ==> run.Dumped? && run.code == 0 && temp == Some(run.stdout)
    ensures output.Some? ==> Dumps(db, run, modifyErr, compressErr)
    ensures run.Dumped? && run.code != 0 && (wasStopped ==> stopOk(0))
            ==> !success && temp.None? && message == "Backup command failed with return code " + IntToString(run.code)
  {
    raised := None;
    success := false;
    output := None;
    var executed := ExecuteBackup(run);
    var ok := executed.0;
    message, temp := executed.1, executed.2;
    var stops := 0;
    if !ok {
      if !wasStopped {
        body := DumpBody(db, pod, 0);
        DumpBodyShape(db, pod, 0);
        return;
      }
      stops := 1;
      if stopOk(0) {
        body := DumpBody(db, pod, 1);
        DumpBodyShape(db, pod, 1);
        return;
      }
      message := "Failed to execute dump command: " + StopError(db.app, stopErr);
    } else {
      // `result` is now the dict of the good dump; the `except` below only replaces its message
      success := true;
      var late := LateError(db, modifyErr, compressErr);
      if late.Some? {
        message := "Failed to execute dump command: " + late.value;
      } else {
        message := "Database dumped and compressed successfully to " + OutputFile(dir, db.app);
        output := Some(Compressed(db, run.stdout));
      }
    }
    if wasStopped {
      if !stopOk(stops) {
        raised := Some(StopError(db.app, stopErr));
        success := false;
      }
      stops := stops + 1;
    }
    body := DumpBody(db, pod, stops);
    DumpBodyShape(db, pod, stops);
  }

  /**
   * The `try` block of `backup` with `result["success"] = False` added to its
   * `except`: an exception from the immich rewrite or the compression is then
   * reported as a failure instead of keeping the dump's success flag.
   */
  method DumpOnPodChecked(db: DbApp, dir: string, pod: string, run: DumpRun, modifyErr: Option<string>,
                          compressErr: Option<string>, wasStopped: bool, stopOk: nat -> bool, stopErr: string)
    returns (raised: Option<string>, success: bool, message: string, body: seq<AppOp>,
             temp: Option<string>, output: Option<string>)
    ensures success <==> Dumps(db, run, modifyErr, compressErr) && (wasStopped ==> stopOk(0))
    ensures success ==>
              && raised.None?
              && message == "Database dumped and compressed successfully to " + OutputFile(dir, db.app)
              && output == Some(Compressed(db, run.stdout))
    ensures run.Dumped? && run.code == 0 && LateError(db, modifyErr, compressErr).Some? && raised.None? ==>
              output.None? && message == "Failed to execute dump command: " + LateError(db, modifyErr, compressErr).value
    ensures output.Some? ==> Dumps(db, run, modifyErr, compressErr)
  {
    raised, success, message, body, temp, output :=
      DumpOnPod(db, dir, pod, run, modifyErr, compressErr, wasStopped, stopOk, stopErr);
    if LateError(db, modifyErr, compressErr).Some? {
      success := false;
    }
  }

  /** The trace from the dump on: the dump, then `stops` stops of the app. */
  function DumpBody(db: DbApp, pod: string, stops: nat): seq<AppOp> {
    [Exec(DumpCommand(db, pod))] + Repeat(StopApp, stops)
  }

  lemma DumpBodyShape(db: DbApp, pod: string, stops: nat)
    ensures var body := DumpBody(db, pod, stops);
            |body| >= 1 && body[0] == Exec(DumpCommand(db, pod)) && StartApp !in body
            && (forall op :: op in body && op.Exec? ==> op.command == DumpCommand(db, pod))
            && Count(body, StopApp) == stops
            && (stops > 0 ==> body[|body| - 1] == StopApp)
            && (stops == 0 ==> StopApp !in body)
  {
    CountAppend([Exec(DumpCommand(db, pod))], Repeat(StopApp, stops), StopApp);
    CountRepeat(StopApp, stops);
  }
}

/**
 * The Kubernetes status helpers: `cli -m csv -c 'app kubernetes status'`
 * prints a CSV header and a status line; the status is the first field of
 * the second line. Each run of the command is an input.
 */
module KubeStatus {
  import opened Wrappers
  import opened Strings

  /** The outcome of one `run_command`: its output, or its error text. */
  datatype CmdResult = Success(output: string) | Failure(error: string)

  /**
   * `output.split('\n')[1].split(',')[0]`; `None` where the indexing raises
   * `IndexError`, that is when the output has no second line.
   */
  function StatusOf(output: string): (r: Option<string>)
    ensures r.Some? <==> |Split(output, '\n')| >= 2
    ensures r.Some? ==> var line := Split(output, '\n')[1];
                        r.value <= line && (|r.value| == |line| || line[|r.value|] == ',')
                        && ',' !in r.value && '\n' !in r.value
  {
    var lines := Split(output, '\n');
    if |lines| < 2 then None
    else
      SplitFirst(lines[1], ',');
      var status := Split(lines[1], ',')[0];
      assert '\n' !in lines[1];
      assert forall k :: 0 <= k < |status| ==> status[k] == lines[1][k];
      Some(status)
  }

  /** The status a check reports, if the command succeeded and its output parses. */
  function Reported(result: CmdResult): Option<string> {
    match result
    case Success(output) => StatusOf(output)
    case Failure(_) => None
  }

  /**
   * `checkKubernetesStatus`: False for `STOPPED` or `FAILED`, True for any
   * other status; a failed command or an output without a status line is False.
   */
  function CheckKubernetesStatus(result: CmdResult): (up: bool)
    ensures up <==> Reported(result).Some? && Reported(result).value != "STOPPED" && Reported(result).value != "FAILED"
    ensures result.Failure? ==> !up
  {
    match Reported(result)
    case None => false
    case Some(status) => !(status in ["STOPPED", "FAILED"])
  }

  /** A check that reports `RUNNING`. */
  predicate Running(result: CmdResult) {
    Reported(result) == Some("RUNNING")
  }

  /** A running cluster also passes `checkKubernetesStatus`. */
  lemma RunningIsUp(result: CmdResult)
    requires Running(result)
    ensures CheckKubernetesStatus(result)
  {
  }

  /** After the check at `elapsed` seconds, the timeout (when enabled) has passed. */
  predicate TimedOut(timeout: Option<int>, elapsed: int) {
    timeout.Some? && elapsed > timeout.value
  }

  /**
   * `waitForKubernetes`: check, stop with True on `RUNNING`, otherwise stop
   * with False once the timeout is enabled and exceeded, otherwise wait and
   * check again. `check(k)` is the k-th check and `elapsed(k)` the time
   * since the start when it completes. The loop is followed for at most
   * `limit` checks; `None` means it is still waiting then.
   */
  method WaitForKubernetes(check: nat -> CmdResult, elapsed: nat -> int, timeout: Option<int>, limit: nat)
    returns (r: Option<bool>, checks: nat)
    ensures checks <= limit
    ensures forall j :: 0 <= j < checks - 1 ==> !Running(check(j)) && !TimedOut(timeout, elapsed(j))
    ensures r == Some(true) <==> checks >= 1 && Running(check(checks - 1))
    ensures r == Some(false) <==> checks >= 1 && !Running(check(checks - 1)) && TimedOut(timeout, elapsed(checks - 1))
    ensures r.None? ==> checks == limit && (limit >= 1 ==> !Running(check(limit - 1)) && !TimedOut(timeout, elapsed(limit - 1)))
  {
    checks := 0;
    while checks < limit
      invariant checks <= limit
      invariant forall j :: 0 <= j < checks ==> !Running(check(j)) && !TimedOut(timeout, elapsed(j))
      decreases limit - checks
    {
      var result := check(checks);
      checks := checks + 1;
      if Reported(result) == Some("RUNNING") {
        return Some(true), checks;
      }
      if timeout.Some? && elapsed(checks - 1) > timeout.value {
        return Some(false), checks;
      }
    }
    r := None;
  }
}

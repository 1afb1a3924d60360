/**
 * `check_job_status`: polling the middleware for a job's state, at most
 * 50 times. `poll(k)` is the answer to the k-th `core.get_jobs` query.
 */
module CheckJob {
  import opened Wrappers
  import opened Json

  const MaxRetries := 50

  /** The answer to one query: the job list, or the exception it raised. */
  datatype Poll = Listed(jobs: seq<Value>) | PollRaised(message: string)

  datatype JobState = Succeeded | Failed | Pending

  /**
   * What one poll shows: `job_details[0]['state']` when it is `SUCCESS` or
   * `FAILED`. An empty list, another state, and a first entry that is not a
   * dict or has no `state` (the `KeyError` or `TypeError` is caught) are
   * all pending, as is a raised query.
   */
  function Observed(p: Poll): (s: JobState)
    ensures s == Succeeded <==> p.Listed? && p.jobs != [] && Get(p.jobs[0], "state") == Some(Str("SUCCESS"))
    ensures s == Failed <==> p.Listed? && p.jobs != [] && Get(p.jobs[0], "state") == Some(Str("FAILED"))
  {
    match p
    case PollRaised(_) => Pending
    case Listed(jobs) =>
      if jobs == [] then Pending
      else
        match Get(jobs[0], "state")
        case Some(Str(state)) =>
          if state == "SUCCESS" then Succeeded else if state == "FAILED" then Failed else Pending
        case _ => Pending
  }

  /**
   * The loop: stop at the first terminal state, True for `SUCCESS`; after
   * 50 pending polls, False. `polls` is the number of queries made.
   */
  method CheckJobStatus(poll: nat -> Poll) returns (ok: bool, polls: nat)
    ensures 1 <= polls <= MaxRetries
    ensures forall j :: 0 <= j < polls - 1 ==> Observed(poll(j)) == Pending
    ensures Observed(poll(polls - 1)) != Pending || polls == MaxRetries
    ensures ok <==> Observed(poll(polls - 1)) == Succeeded
  {
    var retryCount := 0;
    while retryCount < MaxRetries
      invariant 0 <= retryCount <= MaxRetries
      invariant forall j :: 0 <= j < retryCount ==> Observed(poll(j)) == Pending
    {
      var state := Observed(poll(retryCount));
      if state == Succeeded {
        return true, retryCount + 1;
      } else if state == Failed {
        return false, retryCount + 1;
      }
      retryCount := retryCount + 1;
    }
    return false, MaxRetries;
  }

  /** The job outcome as a reference definition: the first terminal state among polls `k..49`. */
  function Outcome(poll: nat -> Poll, k: nat): bool
    decreases MaxRetries - k
  {
    if k >= MaxRetries then false
    else
      match Observed(poll(k))
      case Succeeded => true
      case Failed => false
      case Pending => Outcome(poll, k + 1)
  }

  /** What each poll shows, by its index. */
  function Seen(poll: nat -> Poll): nat -> JobState {
    (i: nat) => Observed(poll(i))
  }

  /** Some state from `k` on, before the 50th, is `Succeeded` after only pending ones. */
  predicate FirstSuccess(seen: nat -> JobState, k: nat) {
    exists i :: k <= i < MaxRetries && seen(i) == Succeeded && forall j :: k <= j < i ==> seen(j) == Pending
  }

  /** The result is True exactly when the first terminal state among the first 50 polls is `SUCCESS`. */
  lemma {:induction false} OutcomeFirstTerminal(poll: nat -> Poll, k: nat)
    requires k <= MaxRetries
    ensures Outcome(poll, k) <==> FirstSuccess(Seen(poll), k)
    decreases MaxRetries - k
  {
    if k < MaxRetries {
      OutcomeFirstTerminal(poll, k + 1);
      FirstSuccessStep(Seen(poll), k);
      assert Seen(poll)(k) == Observed(poll(k));
    }
  }

  lemma FirstSuccessStep(seen: nat -> JobState, k: nat)
    requires k < MaxRetries
    ensures FirstSuccess(seen, k) <==> seen(k) == Succeeded || (seen(k) == Pending && FirstSuccess(seen, k + 1))
  {
    if seen(k) == Succeeded {
      assert k <= k < MaxRetries && seen(k) == Succeeded;
    } else if seen(k) == Pending && FirstSuccess(seen, k + 1) {
      var i :| k + 1 <= i < MaxRetries && seen(i) == Succeeded && forall j :: k + 1 <= j < i ==> seen(j) == Pending;
      assert forall j :: k <= j < i ==> seen(j) == Pending;
    }
    if FirstSuccess(seen, k) && seen(k) != Succeeded {
      var i :| k <= i < MaxRetries && seen(i) == Succeeded && forall j :: k <= j < i ==> seen(j) == Pending;
      assert i > k;
    }
  }

  /** The loop computes the reference outcome. */
  lemma CheckJobStatusOutcome(poll: nat -> Poll, ok: bool, polls: nat)
    requires 1 <= polls <= MaxRetries
    requires forall j :: 0 <= j < polls - 1 ==> Observed(poll(j)) == Pending
    requires Observed(poll(polls - 1)) != Pending || polls == MaxRetries
    requires ok <==> Observed(poll(polls - 1)) == Succeeded
    ensures ok == Outcome(poll, 0)
  {
    OutcomeSkip(poll, 0, polls - 1);
  }

  /** Pending polls are passed over: the outcome from `k` is the outcome from `n`. */
  lemma {:induction false} OutcomeSkip(poll: nat -> Poll, k: nat, n: nat)
    requires k <= n < MaxRetries && forall j :: k <= j < n ==> Observed(poll(j)) == Pending
    ensures Outcome(poll, k) == Outcome(poll, n)
    decreases n - k
  {
    if k < n {
      OutcomeSkip(poll, k + 1, n);
    }
  }
}

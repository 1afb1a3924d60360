/**
 * The failure ledger both the backup and the restore keep: a
 * `defaultdict(list)` from app name to its error messages. It is modelled as
 * the log of `(app, message)` appends in the order they happen; the dict's
 * keys are the apps in order of their first append, and an app's list is
 * its messages in append order.
 */
module Ledger {
  import Sorting

  type Log = seq<(string, string)>

  /** `failures[app].extend(messages)`. */
  function Record(log: Log, app: string, messages: seq<string>): (r: Log)
    ensures |r| == |log| + |messages|
    ensures r[..|log|] == log
    decreases |messages|
  {
    if messages == [] then log
    else Record(log + [(app, messages[0])], app, messages[1..])
  }

  /** The log entries `failures[app].extend(messages)` adds, in order. */
  function Entries(app: string, messages: seq<string>): (r: Log)
    ensures |r| == |messages| && forall k :: 0 <= k < |r| ==> r[k] == (app, messages[k])
  {
    seq(|messages|, k requires 0 <= k < |messages| => (app, messages[k]))
  }

  /** Extending an app's list appends one entry per message. */
  lemma {:induction false} RecordAppends(log: Log, app: string, messages: seq<string>)
    ensures Record(log, app, messages) == log + Entries(app, messages)
    decreases |messages|
  {
    if messages != [] {
      RecordAppends(log + [(app, messages[0])], app, messages[1..]);
      assert [(app, messages[0])] + Entries(app, messages[1..]) == Entries(app, messages);
    }
  }

  /** `failures[app]`: the messages of one app, in order. */
  function ErrorsOf(log: Log, app: string): (r: seq<string>)
    ensures |r| <= |log|
    decreases |log|
  {
    if log == [] then []
    else ErrorsOf(log[..|log| - 1], app) + (if log[|log| - 1].0 == app then [log[|log| - 1].1] else [])
  }

  /** `failures.keys()`: the apps with at least one message, in order of their first message. */
  function Apps(log: Log): (r: seq<string>)
    ensures forall a :: a in r <==> exists k :: 0 <= k < |log| && log[k].0 == a
    ensures Sorting.Distinct(r)
    decreases |log|
  {
    if log == [] then []
    else
      var init := log[..|log| - 1];
      var rest := Apps(init);
      assert forall k :: 0 <= k < |init| ==> init[k] == log[k];
      if log[|log| - 1].0 in rest then rest
      else
        var r := rest + [log[|log| - 1].0];
        assert forall i :: 0 <= i < |rest| ==> r[i] == rest[i] && r[i] in rest;
        r
  }

  lemma {:induction false} ErrorsOfAppend(log: Log, app: string, m: string, b: string)
    ensures ErrorsOf(log + [(app, m)], b) == ErrorsOf(log, b) + (if b == app then [m] else [])
  {
    assert (log + [(app, m)])[..|log|] == log;
  }

  /** Recording messages for an app appends them to that app's list and leaves every other list as it was. */
  lemma {:induction false} RecordErrors(log: Log, app: string, messages: seq<string>, b: string)
    ensures ErrorsOf(Record(log, app, messages), b) == ErrorsOf(log, b) + (if b == app then messages else [])
    decreases |messages|
  {
    if messages != [] {
      ErrorsOfAppend(log, app, messages[0], b);
      RecordErrors(log + [(app, messages[0])], app, messages[1..], b);
      assert [messages[0]] + messages[1..] == messages;
    }
  }

  /** An app has a key in the dict iff it has a message. */
  lemma {:induction false} AppsIffErrors(log: Log, app: string)
    ensures app in Apps(log) <==> ErrorsOf(log, app) != []
    decreases |log|
  {
    if log != [] {
      var init := log[..|log| - 1];
      AppsIffErrors(init, app);
      assert forall k :: 0 <= k < |init| ==> init[k] == log[k];
      if log[|log| - 1].0 != app && app in Apps(log) {
        var k :| 0 <= k < |log| && log[k].0 == app;
        assert k < |init| && init[k].0 == app;
      }
    }
  }

  /** The records of an app whose messages are empty add no key. */
  lemma RecordNothing(log: Log, app: string)
    ensures Record(log, app, []) == log
  {
  }

  /** The summary lines of `_log_failures`: the success line iff nothing was recorded, else each app and its messages. */
  function Summary(log: Log, success: string, failure: string): (r: seq<string>)
    ensures log == [] <==> r == [success]
    ensures log != [] ==> |r| >= 1 && r[0] == failure
  {
    if log == [] then [success]
    else [failure] + AppLines(log, Apps(log))
  }

  function AppLines(log: Log, apps: seq<string>): seq<string>
    decreases |apps|
  {
    if apps == [] then []
    else [apps[0] + ":"] + Indented(ErrorsOf(log, apps[0])) + AppLines(log, apps[1..])
  }

  function Indented(messages: seq<string>): (r: seq<string>)
    ensures |r| == |messages|
    ensures forall k :: 0 <= k < |r| ==> r[k] == "  " + messages[k]
  {
    seq(|messages|, k requires 0 <= k < |messages| => "  " + messages[k])
  }
}

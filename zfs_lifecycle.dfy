/**
 * `ZFSLifecycleManager`: existence checks, creation and deletion of datasets
 * against the shared cache. The `zfs` tool is an oracle `zfsOk` that tells
 * whether the command with the given text succeeds; the cache is updated only
 * after a command succeeded.
 */
module ZfsLifecycle {
  import opened Strings
  import opened ZfsCache
  import Sorting

  /** The name in double quotes, as every command line of the program passes it. */
  function Quoted(name: string): string { "\"" + name + "\"" }

  /** One option flag, ` -o key=value`. */
  function OptionFlag(key: string, value: string): string { " -o " + key + "=" + value }

  /** ` -o key=value` for each option, in the order of the options mapping. */
  function OptionFlags(options: seq<(string, string)>): (r: string)
    ensures options == [] ==> r == ""
    decreases |options|
  {
    if options == [] then ""
    else OptionFlag(options[0].0, options[0].1) + OptionFlags(options[1..])
  }

  /** The loop of `create_dataset` appends one ` -o key=value` per option to the flags built so far. */
  lemma {:induction false} OptionFlagsSnoc(options: seq<(string, string)>, key: string, value: string)
    ensures OptionFlags(options + [(key, value)]) == OptionFlags(options) + OptionFlag(key, value)
    decreases |options|
  {
    if options == [] {
      assert [(key, value)][1..] == [];
    } else {
      var head := OptionFlag(options[0].0, options[0].1);
      assert (options + [(key, value)])[1..] == options[1..] + [(key, value)];
      OptionFlagsSnoc(options[1..], key, value);
      assert head + (OptionFlags(options[1..]) + OptionFlag(key, value))
          == (head + OptionFlags(options[1..])) + OptionFlag(key, value);
    }
  }

  /** `create_dataset`'s command: `zfs create -p`, the option flags in order, and the quoted dataset. */
  function CreateCommand(dataset: string, options: seq<(string, string)>): (r: string)
    ensures r == "/sbin/zfs create -p" + OptionFlags(options) + " " + Quoted(dataset)
    ensures StartsWith(r, "/sbin/zfs create -p")
    ensures EndsWith(r, " " + Quoted(dataset))
  {
    var head := "/sbin/zfs create -p" + OptionFlags(options);
    var tail := " " + Quoted(dataset);
    assert (head + tail)[..|"/sbin/zfs create -p"|] == "/sbin/zfs create -p";
    assert (head + tail)[|head + tail| - |tail|..] == tail;
    head + tail
  }

  function DestroyCommand(name: string): string { "/sbin/zfs destroy " + Quoted(name) }

  function DestroyRecursiveCommand(dataset: string): string { "/sbin/zfs destroy -r " + Quoted(dataset) }

  /** Distinct names give distinct destroy commands, so the oracle answers each snapshot separately. */
  lemma DestroyCommandInjective(a: string, b: string)
    requires DestroyCommand(a) == DestroyCommand(b)
    ensures a == b
  {
    var p := "/sbin/zfs destroy \"";
    assert DestroyCommand(a) == p + a + "\"";
    assert DestroyCommand(b) == p + b + "\"";
    assert a == DestroyCommand(a)[|p|..|DestroyCommand(a)| - 1];
  }

  /** The recursive destroy of a dataset is never the plain destroy of a name. */
  lemma RecursiveIsNotPlain(dataset: string, name: string)
    ensures DestroyRecursiveCommand(dataset) != DestroyCommand(name)
  {
    assert DestroyRecursiveCommand(dataset)[18] == '-';
    assert DestroyCommand(name)[18] == '"';
  }

  class LifecycleManager {
    const cache: Cache

    constructor (cache: Cache)
      ensures this.cache == cache
    {
      this.cache := cache;
    }

    /** `dataset_exists`: cache membership only; no command is run. */
    function DatasetExists(dataset: string): bool
      reads cache
    {
      dataset in cache.datasets
    }

    /**
     * `create_dataset`: refuses an existing dataset without running anything;
     * otherwise runs the create command and caches the dataset on success.
     * `issued` lists the commands run.
     */
    method CreateDataset(dataset: string, options: seq<(string, string)>, zfsOk: string -> bool)
      returns (ok: bool, issued: seq<string>)
      modifies cache
      ensures old(DatasetExists(dataset)) ==> !ok && issued == []
      ensures !old(DatasetExists(dataset)) ==>
                issued == [CreateCommand(dataset, options)] && ok == zfsOk(CreateCommand(dataset, options))
      ensures cache.datasets == if ok then old(cache.datasets) + {dataset} else old(cache.datasets)
      ensures cache.snapshots == old(cache.snapshots)
      ensures ok ==> DatasetExists(dataset)
    {
      if DatasetExists(dataset) {
        return false, [];
      }
      var command := CreateCommand(dataset, options);
      issued := [command];
      ok := zfsOk(command);
      if ok {
        cache.AddDataset(dataset);
      }
    }

    /**
     * `delete_dataset`: refuses an absent dataset; destroys the dataset's own
     * snapshots one by one (in an unspecified order) and stops at the first
     * failure; then destroys the dataset recursively and uncaches only the
     * dataset itself. `destroyed` is the set of snapshots destroyed on the way.
     */
    method DeleteDataset(dataset: string, zfsOk: string -> bool)
      returns (ok: bool, issued: seq<string>, ghost destroyed: set<string>)
      modifies cache
      ensures !old(DatasetExists(dataset)) ==> !ok && issued == [] && destroyed == {}
      ensures destroyed <= old(cache.SnapshotsOf(dataset))
      ensures forall s :: s in destroyed ==> zfsOk(DestroyCommand(s))
      ensures old(DatasetExists(dataset)) && destroyed != old(cache.SnapshotsOf(dataset)) ==>
                !ok && DestroyRecursiveCommand(dataset) !in issued
                && exists s :: s in old(cache.SnapshotsOf(dataset)) && s !in destroyed && !zfsOk(DestroyCommand(s))
      ensures ok <==> old(DatasetExists(dataset))
                      && (forall s :: s in old(cache.SnapshotsOf(dataset)) ==> zfsOk(DestroyCommand(s)))
                      && zfsOk(DestroyRecursiveCommand(dataset))
      ensures cache.snapshots == old(cache.snapshots) - destroyed
      ensures cache.datasets == if ok then old(cache.datasets) - {dataset} else old(cache.datasets)
      ensures ok ==> !DatasetExists(dataset)
    {
      destroyed := {};
      issued := [];
      if !DatasetExists(dataset) {
        return false, [], {};
      }
      var toDelete := cache.SnapshotsOf(dataset);
      var remaining := toDelete;
      while remaining != {}
        invariant remaining <= toDelete && destroyed == toDelete - remaining
        invariant forall s :: s in destroyed ==> zfsOk(DestroyCommand(s))
        invariant cache.snapshots == old(cache.snapshots) - destroyed
        invariant cache.datasets == old(cache.datasets)
        invariant forall c :: c in issued ==> exists s :: s in destroyed && c == DestroyCommand(s)
        decreases remaining
      {
        var s :| s in remaining;
        issued := issued + [DestroyCommand(s)];
        if !zfsOk(DestroyCommand(s)) {
          assert s in toDelete && s !in destroyed;
          assert forall c :: c in issued ==> exists t :: (t in destroyed || t == s) && c == DestroyCommand(t);
          forall t ensures DestroyRecursiveCommand(dataset) != DestroyCommand(t) {
            RecursiveIsNotPlain(dataset, t);
          }
          return false, issued, destroyed;
        }
        cache.RemoveSnapshot(s);
        remaining := remaining - {s};
        destroyed := destroyed + {s};
      }
      var command := DestroyRecursiveCommand(dataset);
      issued := issued + [command];
      ok := zfsOk(command);
      if ok {
        cache.RemoveDataset(dataset);
      }
    }

    /** The `datasets` property: a list holding each cached dataset once, in an unspecified order. */
    method Datasets() returns (r: seq<string>)
      ensures forall x :: x in r <==> x in cache.datasets
      ensures |r| == |cache.datasets|
    {
      r := Sorting.Enumerate(cache.datasets);
    }
  }
}

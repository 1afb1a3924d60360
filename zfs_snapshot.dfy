/**
 * `ZFSSnapshotManager`: snapshot creation with retention cleanup, deletion by
 * name, and rollbacks, against the shared cache. `zfsOk` tells whether the
 * command with the given text succeeds and `zfsErr` gives its error output.
 */
module ZfsSnapshot {
  import opened Wrappers
  import opened Strings
  import opened ZfsCache
  import Sorting
  import Timestamps
  import opened ZfsLifecycle

  function SnapshotCommand(snapshot: string): string { "/sbin/zfs snapshot " + Quoted(snapshot) }

  function RollbackCommand(snapshot: string): string { "/sbin/zfs rollback -r -f " + Quoted(snapshot) }

  function MissingDataset(path: string): string { "Dataset " + path + " does not exist." }

  function DeleteFailed(snapshot: string, err: string): string {
    "Failed to delete snapshot " + snapshot + ": " + err
  }

  function CreateFailed(snapshot: string, err: string): string {
    "Failed to create snapshot for " + snapshot + ": " + err
  }

  /** The snapshots the retention rule considers for a dataset path. */
  function Candidates(snapshots: set<string>, path: string): (r: set<string>)
    ensures r <= snapshots
    ensures forall s :: s in r <==> s in snapshots && StartsWith(s, path + "@" + Timestamps.Prefix)
  {
    set s | s in snapshots && StartsWith(s, path + "@" + Timestamps.Prefix)
  }

  /** The sort key order: by the embedded timestamp (a name without one only arises when the sort raises). */
  predicate SnapLe(a: string, b: string) {
    match (Timestamps.EmbeddedTimestamp(a), Timestamps.EmbeddedTimestamp(b))
    case (Some(x), Some(y)) => Timestamps.Le(x, y)
    case (None, _) => true
    case (Some(_), None) => false
  }

  lemma SnapLeOrder()
    ensures Sorting.TotalPreorder(SnapLe)
  {
    Timestamps.LeOrder();
  }

  /** The per-name failure lines of a destroy loop over `targets`, in loop order. */
  function DestroyErrors(targets: seq<string>, zfsOk: string -> bool, zfsErr: string -> string): (r: seq<string>)
    ensures |r| <= |targets|
    decreases |targets|
  {
    if targets == [] then []
    else
      var s := targets[|targets| - 1];
      var rest := DestroyErrors(targets[..|targets| - 1], zfsOk, zfsErr);
      if zfsOk(DestroyCommand(s)) then rest else rest + [DeleteFailed(s, zfsErr(DestroyCommand(s)))]
  }

  /** The names among `targets` whose destroy succeeds. */
  function Destroyed(targets: seq<string>, zfsOk: string -> bool): (r: set<string>)
    decreases |targets|
  {
    if targets == [] then {}
    else
      var s := targets[|targets| - 1];
      Destroyed(targets[..|targets| - 1], zfsOk) + (if zfsOk(DestroyCommand(s)) then {s} else {})
  }

  lemma {:induction false} DestroyedMembers(targets: seq<string>, zfsOk: string -> bool)
    ensures forall s :: s in Destroyed(targets, zfsOk) <==> s in targets && zfsOk(DestroyCommand(s))
    decreases |targets|
  {
    if targets != [] {
      var init := targets[..|targets| - 1];
      DestroyedMembers(init, zfsOk);
      assert forall x :: x in targets <==> x in init || x == targets[|targets| - 1];
    }
  }

  /** One more target of the destroy loop: its error line or its removal. */
  lemma DestroyNext(targets: seq<string>, i: nat, zfsOk: string -> bool, zfsErr: string -> string)
    requires i < |targets|
    ensures var s := targets[i];
            DestroyErrors(targets[..i + 1], zfsOk, zfsErr)
              == DestroyErrors(targets[..i], zfsOk, zfsErr) + (if zfsOk(DestroyCommand(s)) then [] else [DeleteFailed(s, zfsErr(DestroyCommand(s)))])
            && Destroyed(targets[..i + 1], zfsOk) == Destroyed(targets[..i], zfsOk) + (if zfsOk(DestroyCommand(s)) then {s} else {})
  {
    assert targets[..i + 1][..i] == targets[..i];
  }

  /** The targets whose destroy fails. */
  function FailedTargets(targets: seq<string>, zfsOk: string -> bool): set<string> {
    set s | s in targets && !zfsOk(DestroyCommand(s))
  }

  lemma FailedTargetsSnoc(init: seq<string>, last: string, zfsOk: string -> bool)
    ensures FailedTargets(init + [last], zfsOk)
            == FailedTargets(init, zfsOk) + (if zfsOk(DestroyCommand(last)) then {} else {last})
  {
    assert forall x :: x in init + [last] <==> x in init || x == last;
  }

  /** Over distinct targets there is exactly one error line per failed destroy. */
  lemma {:induction false} DestroyErrorsCount(targets: seq<string>, zfsOk: string -> bool, zfsErr: string -> string)
    requires forall i, j :: 0 <= i < j < |targets| ==> targets[i] != targets[j]
    ensures |DestroyErrors(targets, zfsOk, zfsErr)| == |set s | s in targets && !zfsOk(DestroyCommand(s))|
    ensures forall s :: s in targets && !zfsOk(DestroyCommand(s)) ==>
              DeleteFailed(s, zfsErr(DestroyCommand(s))) in DestroyErrors(targets, zfsOk, zfsErr)
    decreases |targets|
  {
    if targets != [] {
      var init := targets[..|targets| - 1];
      var last := targets[|targets| - 1];
      assert init + [last] == targets;
      DestroyErrorsCount(init, zfsOk, zfsErr);
      assert last !in init;
      FailedTargetsSnoc(init, last, zfsOk);
      assert last !in FailedTargets(init, zfsOk);
      DestroyErrorsListed(targets, zfsOk, zfsErr);
    }
  }

  lemma {:induction false} DestroyErrorsListed(targets: seq<string>, zfsOk: string -> bool, zfsErr: string -> string)
    ensures forall s :: s in targets && !zfsOk(DestroyCommand(s)) ==>
              DeleteFailed(s, zfsErr(DestroyCommand(s))) in DestroyErrors(targets, zfsOk, zfsErr)
    decreases |targets|
  {
    if targets != [] {
      var init := targets[..|targets| - 1];
      DestroyErrorsListed(init, zfsOk, zfsErr);
      assert forall x :: x in targets ==> x in init || x == targets[|targets| - 1];
    }
  }

  /** The snapshot names `path@name` of the cached paths whose snapshot command succeeds, in input order. */
  function CreatedSnapshots(paths: seq<string>, datasets: set<string>, name: string, zfsOk: string -> bool): (r: seq<string>)
    ensures |r| <= |paths|
    decreases |paths|
  {
    if paths == [] then []
    else
      var p := paths[|paths| - 1];
      var rest := CreatedSnapshots(paths[..|paths| - 1], datasets, name, zfsOk);
      if p in datasets && zfsOk(SnapshotCommand(p + "@" + name)) then rest + [p + "@" + name] else rest
  }

  lemma {:induction false} CreatedSnapshotsMembers(paths: seq<string>, datasets: set<string>, name: string, zfsOk: string -> bool)
    ensures forall s :: s in CreatedSnapshots(paths, datasets, name, zfsOk) <==>
              exists p :: p in paths && p in datasets && s == p + "@" + name && zfsOk(SnapshotCommand(s))
    decreases |paths|
  {
    if paths != [] {
      var init := paths[..|paths| - 1];
      CreatedSnapshotsMembers(init, datasets, name, zfsOk);
      assert forall q :: q in paths <==> q in init || q == paths[|paths| - 1];
    }
  }

  /** The error lines of the creation loop, in input order. */
  function CreateErrors(paths: seq<string>, datasets: set<string>, name: string,
                        zfsOk: string -> bool, zfsErr: string -> string): (r: seq<string>)
    ensures |r| + |CreatedSnapshots(paths, datasets, name, zfsOk)| == |paths|
    decreases |paths|
  {
    if paths == [] then []
    else
      var p := paths[|paths| - 1];
      var rest := CreateErrors(paths[..|paths| - 1], datasets, name, zfsOk, zfsErr);
      var full := p + "@" + name;
      if p !in datasets then rest + [MissingDataset(p)]
      else if zfsOk(SnapshotCommand(full)) then rest
      else rest + [CreateFailed(full, zfsErr(SnapshotCommand(full)))]
  }

  datatype CreateResult = CreateResult(success: bool, message: string, errors: seq<string>, snapshots: seq<string>)

  /** What the retention cleanup has left so far: the error lines and the cached snapshots. */
  datatype Cleaned = Cleaned(errors: seq<string>, snapshots: set<string>)

  /** `ordered` lists the candidates, each once, sorted by embedded timestamp. */
  ghost predicate SortedListing(ordered: seq<string>, candidates: set<string>) {
    && (forall s :: s in ordered <==> s in candidates)
    && |ordered| == |candidates|
    && Sorting.SortedBy(ordered, SnapLe)
  }

  /**
   * `_cleanup_snapshots` over `paths`, path by path, when the `k`-th path's
   * candidates are sorted (ties in set order) as `orders[k]`: an uncached
   * path adds its error line; a cached one destroys the retention slice of
   * its sorted candidates and adds the failures' lines.
   */
  function Cleanup(datasets: set<string>, snapshots: set<string>, paths: seq<string>, orders: seq<seq<string>>,
                   retention: int, zfsOk: string -> bool, zfsErr: string -> string): (r: Cleaned)
    requires |orders| == |paths|
    ensures r.snapshots <= snapshots
    decreases |paths|
  {
    if paths == [] then Cleaned([], snapshots)
    else
      var n := |paths| - 1;
      var c := Cleanup(datasets, snapshots, paths[..n], orders[..n], retention, zfsOk, zfsErr);
      if paths[n] !in datasets then Cleaned(c.errors + [MissingDataset(paths[n])], c.snapshots)
      else
        var targets := Sorting.RetentionSlice(orders[n], retention);
        Cleaned(c.errors + DestroyErrors(targets, zfsOk, zfsErr), c.snapshots - Destroyed(targets, zfsOk))
  }

  /**
   * Each cached path's order sorts the candidates the cache holds when the
   * cleanup reaches that path.
   */
  ghost predicate SortedOrders(datasets: set<string>, snapshots: set<string>, paths: seq<string>, orders: seq<seq<string>>,
                               retention: int, zfsOk: string -> bool, zfsErr: string -> string)
    requires |orders| == |paths|
    decreases |paths|
  {
    paths != [] ==>
      var n := |paths| - 1;
      && SortedOrders(datasets, snapshots, paths[..n], orders[..n], retention, zfsOk, zfsErr)
      && (paths[n] in datasets ==>
            SortedListing(orders[n], Candidates(Cleanup(datasets, snapshots, paths[..n], orders[..n], retention, zfsOk, zfsErr).snapshots, paths[n])))
  }

  /** One more path of the cleanup fold, and the sorted orders extended by its own. */
  lemma CleanupStep(datasets: set<string>, snapshots: set<string>, paths: seq<string>, orders: seq<seq<string>>,
                    ordered: seq<string>, i: nat, retention: int, zfsOk: string -> bool, zfsErr: string -> string)
    requires i < |paths| && |orders| == i
    ensures var c := Cleanup(datasets, snapshots, paths[..i], orders, retention, zfsOk, zfsErr);
            var targets := Sorting.RetentionSlice(ordered, retention);
            && Cleanup(datasets, snapshots, paths[..i + 1], orders + [ordered], retention, zfsOk, zfsErr)
               == (if paths[i] !in datasets then Cleaned(c.errors + [MissingDataset(paths[i])], c.snapshots)
                   else Cleaned(c.errors + DestroyErrors(targets, zfsOk, zfsErr), c.snapshots - Destroyed(targets, zfsOk)))
            && (SortedOrders(datasets, snapshots, paths[..i], orders, retention, zfsOk, zfsErr)
                && (paths[i] in datasets ==> SortedListing(ordered, Candidates(c.snapshots, paths[i])))
                ==> SortedOrders(datasets, snapshots, paths[..i + 1], orders + [ordered], retention, zfsOk, zfsErr))
  {
    var longer, more := paths[..i + 1], orders + [ordered];
    assert longer[..i] == paths[..i] && more[..i] == orders;
  }

  const AllCreated := "All snapshots created and cleaned up successfully."
  const SomeFailed := "Some errors occurred during snapshot creation or cleanup."

  /** A PV manifest as read from a `-pv.yaml` file: the pool and volume handle, or why reading it raised. */
  datatype PvDocument = PvVolume(poolName: string, volumeHandle: string) | PvUnreadable(reason: string)

  datatype PvFile = PvFile(path: string, document: PvDocument)

  datatype RollbackResult = RollbackResult(success: bool, message: string)

  class SnapshotManager {
    const cache: Cache

    constructor (cache: Cache)
      ensures this.cache == cache
    {
      this.cache := cache;
    }

    /** The destroy loop shared by cleanup and deletion: targets in order, each success uncached. */
    method DestroyInOrder(targets: seq<string>, zfsOk: string -> bool, zfsErr: string -> string)
      returns (errors: seq<string>)
      modifies cache
      ensures errors == DestroyErrors(targets, zfsOk, zfsErr)
      ensures cache.snapshots == old(cache.snapshots) - Destroyed(targets, zfsOk)
      ensures cache.datasets == old(cache.datasets)
    {
      errors := [];
      var i := 0;
      while i < |targets|
        invariant 0 <= i <= |targets|
        invariant errors == DestroyErrors(targets[..i], zfsOk, zfsErr)
        invariant cache.snapshots == old(cache.snapshots) - Destroyed(targets[..i], zfsOk)
        invariant cache.datasets == old(cache.datasets)
      {
        var s := targets[i];
        DestroyNext(targets, i, zfsOk, zfsErr);
        if zfsOk(DestroyCommand(s)) {
          cache.RemoveSnapshot(s);
        } else {
          errors := errors + [DeleteFailed(s, zfsErr(DestroyCommand(s)))];
        }
        i := i + 1;
      }
      assert targets[..i] == targets;
    }

    /**
     * One dataset path of `_cleanup_snapshots`. An uncached path yields one
     * error and runs nothing. Otherwise the candidates are listed (in set
     * order) and sorted by their embedded timestamp, which raises, before any
     * destroy, when a candidate has none; the retention slice of the sorted
     * list is destroyed in order. `ordered` is the sorted candidate list.
     */
    method CleanupPath(path: string, retention: int, zfsOk: string -> bool, zfsErr: string -> string)
      returns (res: Result<seq<string>>, ghost ordered: seq<string>)
      modifies cache
      ensures cache.datasets == old(cache.datasets)
      ensures path !in old(cache.datasets) ==> res == Ok([MissingDataset(path)]) && cache.snapshots == old(cache.snapshots)
      ensures res.Err? ==> cache.snapshots == old(cache.snapshots)
                           && exists s :: s in old(Candidates(cache.snapshots, path)) && Timestamps.EmbeddedTimestamp(s).None?
      ensures path in old(cache.datasets) && res.Ok? ==>
                (forall s :: s in ordered <==> s in old(Candidates(cache.snapshots, path)))
                && |ordered| == |old(Candidates(cache.snapshots, path))|
                && Sorting.SortedBy(ordered, SnapLe)
                && res.value == DestroyErrors(Sorting.RetentionSlice(ordered, retention), zfsOk, zfsErr)
                && cache.snapshots == old(cache.snapshots) - Destroyed(Sorting.RetentionSlice(ordered, retention), zfsOk)
    {
      ordered := [];
      if path !in cache.datasets {
        return Ok([MissingDataset(path)]), [];
      }
      var candidates := Candidates(cache.snapshots, path);
      var listed := Sorting.Enumerate(candidates);
      if exists k | 0 <= k < |listed| :: Timestamps.EmbeddedTimestamp(listed[k]).None? {
        return Err("a snapshot name has no HeavyScript timestamp"), [];
      }
      SnapLeOrder();
      Sorting.SortBySorted(listed, SnapLe);
      var sorted := Sorting.SortBy(listed, SnapLe);
      ordered := sorted;
      assert forall s :: s in sorted <==> s in multiset(sorted);
      assert forall s :: s in listed <==> s in multiset(listed);
      var targets := Sorting.RetentionSlice(sorted, retention);
      var errors := DestroyInOrder(targets, zfsOk, zfsErr);
      res := Ok(errors);
    }

    /**
     * `_cleanup_snapshots` over all paths: errors are accumulated path by
     * path, and the cache moves as `Cleanup` says, with `orders` the sorted
     * candidate lists; a path whose candidates cannot be sorted raises and
     * ends the whole cleanup, which then holds the paths before it. Only
     * destroyed candidates leave the cache.
     */
    method CleanupSnapshots(paths: seq<string>, retention: int, zfsOk: string -> bool, zfsErr: string -> string)
      returns (res: Result<seq<string>>, ghost orders: seq<seq<string>>)
      modifies cache
      ensures cache.datasets == old(cache.datasets)
      ensures cache.snapshots <= old(cache.snapshots)
      ensures forall s :: s in old(cache.snapshots) - cache.snapshots ==>
                zfsOk(DestroyCommand(s)) && exists p :: p in paths && s in Candidates(old(cache.snapshots), p)
      ensures res.Ok? ==> forall p :: p in paths && p !in cache.datasets ==> MissingDataset(p) in res.value
      ensures res.Ok? && retention == 0 ==> cache.snapshots == old(cache.snapshots)
      ensures res.Ok? ==>
                && |orders| == |paths|
                && SortedOrders(old(cache.datasets), old(cache.snapshots), paths, orders, retention, zfsOk, zfsErr)
                && Cleanup(old(cache.datasets), old(cache.snapshots), paths, orders, retention, zfsOk, zfsErr)
                   == Cleaned(res.value, cache.snapshots)
      ensures res.Err? ==>
                && |orders| < |paths|
                && SortedOrders(old(cache.datasets), old(cache.snapshots), paths[..|orders|], orders, retention, zfsOk, zfsErr)
                && var c := Cleanup(old(cache.datasets), old(cache.snapshots), paths[..|orders|], orders, retention, zfsOk, zfsErr);
                   && cache.snapshots == c.snapshots
                   && paths[|orders|] in old(cache.datasets)
                   && exists s :: s in Candidates(c.snapshots, paths[|orders|]) && Timestamps.EmbeddedTimestamp(s).None?
    {
      var errors := [];
      orders := [];
      var i := 0;
      while i < |paths|
        invariant 0 <= i <= |paths| && |orders| == i
        invariant cache.datasets == old(cache.datasets)
        invariant cache.snapshots <= old(cache.snapshots)
        invariant forall s :: s in old(cache.snapshots) - cache.snapshots ==>
                    zfsOk(DestroyCommand(s)) && exists p :: p in paths[..i] && s in Candidates(old(cache.snapshots), p)
        invariant forall p :: p in paths[..i] && p !in cache.datasets ==> MissingDataset(p) in errors
        invariant retention == 0 ==> cache.snapshots == old(cache.snapshots)
        invariant SortedOrders(old(cache.datasets), old(cache.snapshots), paths[..i], orders, retention, zfsOk, zfsErr)
        invariant Cleanup(old(cache.datasets), old(cache.snapshots), paths[..i], orders, retention, zfsOk, zfsErr)
                  == Cleaned(errors, cache.snapshots)
      {
        var r, ordered := CleanupNext(old(cache.datasets), old(cache.snapshots), paths, orders, errors, i, retention, zfsOk, zfsErr);
        if r.Err? {
          forall s | s in old(cache.snapshots) - cache.snapshots
            ensures exists p :: p in paths && s in Candidates(old(cache.snapshots), p)
          {
            var p :| p in paths[..i] && s in Candidates(old(cache.snapshots), p);
          }
          return Err(r.error), orders;
        }
        assert forall p :: p in paths[..i + 1] <==> p in paths[..i] || p == paths[i];
        errors := errors + r.value;
        orders := orders + [ordered];
        i := i + 1;
      }
      assert paths[..i] == paths;
      res := Ok(errors);
    }

    /** The cleanup of the `i`-th path as one more step of `Cleanup`. */
    method CleanupNext(ghost datasets: set<string>, ghost snapshots: set<string>, paths: seq<string>,
                       ghost orders: seq<seq<string>>, ghost errors: seq<string>, i: nat,
                       retention: int, zfsOk: string -> bool, zfsErr: string -> string)
      returns (r: Result<seq<string>>, ghost ordered: seq<string>)
      requires i < |paths| && |orders| == i
      requires cache.datasets == datasets && cache.snapshots <= snapshots
      requires Cleanup(datasets, snapshots, paths[..i], orders, retention, zfsOk, zfsErr) == Cleaned(errors, cache.snapshots)
      modifies cache
      ensures cache.datasets == datasets && cache.snapshots <= old(cache.snapshots)
      ensures forall s :: s in old(cache.snapshots) - cache.snapshots ==>
                zfsOk(DestroyCommand(s)) && s in Candidates(snapshots, paths[i])
      ensures r.Err? ==> cache.snapshots == old(cache.snapshots) && paths[i] in datasets
                         && exists s :: s in Candidates(old(cache.snapshots), paths[i]) && Timestamps.EmbeddedTimestamp(s).None?
      ensures r.Ok? && paths[i] !in datasets ==> MissingDataset(paths[i]) in r.value
      ensures r.Ok? ==> Cleanup(datasets, snapshots, paths[..i + 1], orders + [ordered], retention, zfsOk, zfsErr)
                        == Cleaned(errors + r.value, cache.snapshots)
      ensures r.Ok? && SortedOrders(datasets, snapshots, paths[..i], orders, retention, zfsOk, zfsErr)
              ==> SortedOrders(datasets, snapshots, paths[..i + 1], orders + [ordered], retention, zfsOk, zfsErr)
      ensures r.Ok? && retention == 0 ==> cache.snapshots == old(cache.snapshots)
    {
      r, ordered := CleanupPath(paths[i], retention, zfsOk, zfsErr);
      if r.Ok? {
        forall s | s in old(cache.snapshots) - cache.snapshots
          ensures zfsOk(DestroyCommand(s)) && s in Candidates(snapshots, paths[i])
        {
          DestroyedMembers(Sorting.RetentionSlice(ordered, retention), zfsOk);
          assert s in Sorting.RetentionSlice(ordered, retention);
          assert s in ordered;
        }
      }
      CleanupStep(datasets, snapshots, paths, orders, ordered, i, retention, zfsOk, zfsErr);
    }

    /**
     * `create_snapshots`: `path@name` for every cached path (in input order),
     * errors for uncached paths and failed commands, then the retention cleanup
     * over the same paths, in the cache the creation left. The errors are the
     * creation's followed by the cleanup's, and success is reported iff there
     * is none.
     */
    method CreateSnapshots(name: string, paths: seq<string>, retention: int,
                           zfsOk: string -> bool, zfsErr: string -> string)
      returns (res: Result<CreateResult>, ghost orders: seq<seq<string>>)
      modifies cache
      ensures cache.datasets == old(cache.datasets)
      ensures res.Ok? ==>
                res.value.snapshots == CreatedSnapshots(paths, old(cache.datasets), name, zfsOk)
                && CreateErrors(paths, old(cache.datasets), name, zfsOk, zfsErr) <= res.value.errors
                && (res.value.success <==> res.value.errors == [])
                && res.value.message == (if res.value.success then AllCreated else SomeFailed)
      ensures res.Ok? ==>
                && |orders| == |paths|
                && var created := old(cache.snapshots) + set s | s in CreatedSnapshots(paths, old(cache.datasets), name, zfsOk);
                   var c := Cleanup(old(cache.datasets), created, paths, orders, retention, zfsOk, zfsErr);
                   && SortedOrders(old(cache.datasets), created, paths, orders, retention, zfsOk, zfsErr)
                   && res.value.errors == CreateErrors(paths, old(cache.datasets), name, zfsOk, zfsErr) + c.errors
                   && cache.snapshots == c.snapshots
                   && (res.value.success <==> CreateErrors(paths, old(cache.datasets), name, zfsOk, zfsErr) == [] && c.errors == [])
      ensures forall s :: s in CreatedSnapshots(paths, old(cache.datasets), name, zfsOk) ==>
                s in cache.snapshots || zfsOk(DestroyCommand(s))
    {
      var created := [];
      var errors := [];
      var i := 0;
      while i < |paths|
        invariant 0 <= i <= |paths|
        invariant cache.datasets == old(cache.datasets)
        invariant created == CreatedSnapshots(paths[..i], old(cache.datasets), name, zfsOk)
        invariant errors == CreateErrors(paths[..i], old(cache.datasets), name, zfsOk, zfsErr)
        invariant cache.snapshots == old(cache.snapshots) + set s | s in created
      {
        var p := paths[i];
        assert paths[..i + 1][..i] == paths[..i];
        if p !in cache.datasets {
          errors := errors + [MissingDataset(p)];
        } else {
          var full := p + "@" + name;
          if zfsOk(SnapshotCommand(full)) {
            cache.AddSnapshot(full);
            created := created + [full];
          } else {
            errors := errors + [CreateFailed(full, zfsErr(SnapshotCommand(full)))];
          }
        }
        i := i + 1;
      }
      assert paths[..i] == paths;
      ghost var afterCreate := cache.snapshots;
      var cleanup;
      cleanup, orders := CleanupSnapshots(paths, retention, zfsOk, zfsErr);
      if cleanup.Err? {
        return Err(cleanup.error), orders;
      }
      var all := errors + cleanup.value;
      var success := all == [];
      res := Ok(CreateResult(success, if success then AllCreated else SomeFailed, all, created));
    }

    /**
     * `delete_snapshots`: destroys every cached snapshot named `...@name` (in
     * set order); each success is uncached, each failure gives one error line.
     */
    method DeleteSnapshots(name: string, zfsOk: string -> bool, zfsErr: string -> string)
      returns (errors: seq<string>)
      modifies cache
      ensures cache.datasets == old(cache.datasets)
      ensures cache.snapshots == old(cache.snapshots)
                - set s | s in old(cache.snapshots) && EndsWith(s, "@" + name) && zfsOk(DestroyCommand(s))
      ensures |errors| == |set s | s in old(cache.snapshots) && EndsWith(s, "@" + name) && !zfsOk(DestroyCommand(s))|
      ensures forall s :: s in old(cache.snapshots) && EndsWith(s, "@" + name) && !zfsOk(DestroyCommand(s)) ==>
                DeleteFailed(s, zfsErr(DestroyCommand(s))) in errors
    {
      var matching := set s | s in cache.snapshots && EndsWith(s, "@" + name);
      var listed := Sorting.Enumerate(matching);
      errors := DestroyInOrder(listed, zfsOk, zfsErr);
      DestroyedMembers(listed, zfsOk);
      DestroyErrorsCount(listed, zfsOk, zfsErr);
      assert (set s | s in listed && !zfsOk(DestroyCommand(s)))
          == set s | s in old(cache.snapshots) && EndsWith(s, "@" + name) && !zfsOk(DestroyCommand(s));
    }

    /**
     * `rollback_persistent_volume`: the dataset `pool/volumeHandle` of the PV
     * manifest is rolled back to `snapshotName` when it is cached. Reads the
     * cache only.
     */
    method RollbackPersistentVolume(snapshotName: string, pv: PvFile, zfsOk: string -> bool, zfsErr: string -> string)
      returns (r: RollbackResult, issued: seq<string>)
      ensures pv.document.PvUnreadable? ==>
                !r.success && r.message == "Failed to process PV file " + pv.path + ": " + pv.document.reason && issued == []
      ensures pv.document.PvVolume? ==>
                var dataset := pv.document.poolName + "/" + pv.document.volumeHandle;
                var command := RollbackCommand(dataset + "@" + snapshotName);
                if dataset !in cache.datasets then
                  !r.success && issued == []
                  && r.message == "Dataset " + dataset + " does not exist. Cannot restore snapshot."
                else
                  issued == [command] && r.success == zfsOk(command)
                  && r.message == (if r.success then "Successfully rolled back " + dataset + " to snapshot " + snapshotName + "."
                                   else "Failed to rollback " + dataset + " to snapshot " + snapshotName + ": " + zfsErr(command))
    {
      match pv.document
      case PvUnreadable(reason) =>
        return RollbackResult(false, "Failed to process PV file " + pv.path + ": " + reason), [];
      case PvVolume(pool, handle) =>
        var dataset := pool + "/" + handle;
        if dataset !in cache.datasets {
          return RollbackResult(false, "Dataset " + dataset + " does not exist. Cannot restore snapshot."), [];
        }
        var command := RollbackCommand(dataset + "@" + snapshotName);
        issued := [command];
        if zfsOk(command) {
          r := RollbackResult(true, "Successfully rolled back " + dataset + " to snapshot " + snapshotName + ".");
        } else {
          r := RollbackResult(false, "Failed to rollback " + dataset + " to snapshot " + snapshotName + ": " + zfsErr(command));
        }
    }

    /** The snapshots `rollback_all_snapshots` selects: plain string prefix `datasetPath` and suffix `@name`. */
    function RollbackTargets(name: string, datasetPath: string): (r: set<string>)
      reads cache
      ensures r <= cache.snapshots
    {
      set s | s in cache.snapshots && StartsWith(s, datasetPath) && EndsWith(s, "@" + name)
    }

    /**
     * `rollback_all_snapshots`: nothing for an uncached dataset; otherwise one
     * rollback per selected snapshot, in set order, with failures only logged.
     * The cache is not changed.
     */
    method RollbackAllSnapshots(name: string, datasetPath: string) returns (issued: seq<string>)
      ensures datasetPath !in cache.datasets ==> issued == []
      ensures datasetPath in cache.datasets ==>
                |issued| == |RollbackTargets(name, datasetPath)|
                && forall c :: c in issued <==> exists s :: s in RollbackTargets(name, datasetPath) && c == RollbackCommand(s)
    {
      issued := [];
      if datasetPath !in cache.datasets {
        return;
      }
      var listed := Sorting.Enumerate(RollbackTargets(name, datasetPath));
      var i := 0;
      while i < |listed|
        invariant 0 <= i <= |listed|
        invariant |issued| == i
        invariant forall k :: 0 <= k < i ==> issued[k] == RollbackCommand(listed[k])
      {
        issued := issued + [RollbackCommand(listed[i])];
        i := i + 1;
      }
      forall c | c in issued ensures exists s :: s in RollbackTargets(name, datasetPath) && c == RollbackCommand(s) {
        var k :| 0 <= k < |issued| && issued[k] == c;
        assert listed[k] in RollbackTargets(name, datasetPath);
      }
      forall s | s in RollbackTargets(name, datasetPath) ensures RollbackCommand(s) in issued {
        var k :| 0 <= k < |listed| && listed[k] == s;
        assert issued[k] == RollbackCommand(s);
      }
    }
  }

  /** The plain prefix also selects a sibling dataset's snapshot: `tank/a` matches `tank/ab@name`. */
  lemma SiblingSelected(m: SnapshotManager)
    requires "tank/ab@snap" in m.cache.snapshots
    ensures "tank/ab@snap" in m.RollbackTargets("snap", "tank/a")
  {
    assert StartsWith("tank/ab@snap", "tank/a");
    assert EndsWith("tank/ab@snap", "@snap");
  }
}

/**
 * `BaseManager`: where the backups live and how they are listed and chosen.
 * Full backups are datasets `parent/HeavyScript--<timestamp>`; exports are
 * directories `Export--<timestamp>` beside them. Both lists are ordered
 * newest first; a prompt answer selects an entry by its 1-based number.
 */
module BaseManager {
  import opened Wrappers
  import opened Strings
  import opened Paths
  import Sorting
  import opened Timestamps
  import ZfsCache
  import ZfsLifecycle

  /** `_derive_dataset_parent`: every `/mnt/` in the absolute path is removed, not only the leading one. */
  function DeriveParent(absPath: string): string {
    ReplaceAll(absPath, "/mnt/", "")
  }

  /** A path under `/mnt/` with no further `/mnt/` maps to the dataset name after it. */
  lemma DeriveParentOfMount(p: string)
    requires !Contains(p, "/mnt/")
    ensures DeriveParent("/mnt/" + p) == p
  {
    var s := "/mnt/" + p;
    assert s[..5] == "/mnt/" && s[5..] == p;
    ReplaceAbsent(p, "/mnt/", "");
  }

  /** An inner `/mnt/` is removed too: `/mnt/<a>/mnt/<b>` maps to `<a><b>`. */
  lemma DeriveParentInner(a: string, b: string)
    requires '/' !in a && '/' !in b
    ensures DeriveParent("/mnt/" + a + "/mnt/" + b) == a + b
  {
    var m := "/mnt/";
    assert m + a + m + b == m + (a + (m + b));
    ReplaceHit(a + (m + b), m, "");
    ReplaceSkipAll(a, m + b, m, "");
    ReplaceHit(b, m, "");
    AbsentHead(b, m);
    ReplaceAbsent(b, m, "");
  }

  const FullPrefix := "HeavyScript--"
  const ExportPrefix := "Export--"

  /** The timestamp a full backup is sorted by: its name without `HeavyScript--`, as `strptime` reads it. */
  function FullStamp(dataset: string): Option<Timestamp> {
    Parse(ReplaceAll(BaseName(dataset), FullPrefix, ""))
  }

  /** The timestamp an export is sorted by: its directory name without `Export--`. */
  function ExportStamp(name: string): Option<Timestamp> {
    Parse(ReplaceAll(name, ExportPrefix, ""))
  }

  const Epoch := Timestamp(0, 0, 0, 0, 0, 0)

  function Or(t: Option<Timestamp>): Timestamp {
    if t.Some? then t.value else Epoch
  }

  /** The `reverse=True` comparison: `a` may come before `b` when it is no older. */
  function NewerFirst(stamp: string -> Timestamp): (string, string) -> bool {
    (a: string, b: string) => Le(stamp(b), stamp(a))
  }

  lemma NewerFirstOrder(stamp: string -> Timestamp)
    ensures Sorting.TotalPreorder(NewerFirst(stamp))
  {
    LeOrder();
  }

  function FullKey(dataset: string): Timestamp { Or(FullStamp(dataset)) }

  function ExportKey(name: string): Timestamp { Or(ExportStamp(name)) }

  /** The datasets `list_backups` considers full backups of `parent`. */
  function FullCandidates(parent: string, datasets: seq<string>): seq<string> {
    Sorting.Filter(datasets, ds => StartsWith(ds, parent + "/" + FullPrefix))
  }

  /** The directory entries `list_backups` considers exports: directories named `Export--...`. */
  function ExportCandidates(entries: seq<(string, bool)>): (r: seq<string>)
    ensures forall n :: n in r <==> (n, true) in entries && StartsWith(n, ExportPrefix)
    decreases |entries|
  {
    if entries == [] then []
    else
      assert entries == [entries[0]] + entries[1..];
      (if entries[0].1 && StartsWith(entries[0].0, ExportPrefix) then [entries[0].0] else [])
      + ExportCandidates(entries[1..])
  }

  predicate AllStamped(items: seq<string>, stamp: string -> Option<Timestamp>) {
    forall k :: 0 <= k < |items| ==> stamp(items[k]).Some?
  }

  /**
   * The full-backup half of `list_backups`: the candidates sorted newest first;
   * an error when some name does not parse (`strptime` raises).
   */
  function ListFull(parent: string, datasets: seq<string>): (r: Result<seq<string>>)
    ensures r.Ok? <==> AllStamped(FullCandidates(parent, datasets), FullStamp)
    ensures r.Ok? ==> multiset(r.value) == multiset(FullCandidates(parent, datasets))
  {
    var c := FullCandidates(parent, datasets);
    if AllStamped(c, FullStamp) then Ok(Sorting.SortBy(c, NewerFirst(FullKey)))
    else Err("time data does not match format '%Y-%m-%d_%H:%M:%S'")
  }

  /** The export half of `list_backups`. */
  function ListExports(entries: seq<(string, bool)>): (r: Result<seq<string>>)
    ensures r.Ok? <==> AllStamped(ExportCandidates(entries), ExportStamp)
    ensures r.Ok? ==> multiset(r.value) == multiset(ExportCandidates(entries))
  {
    var c := ExportCandidates(entries);
    if AllStamped(c, ExportStamp) then Ok(Sorting.SortBy(c, NewerFirst(ExportKey)))
    else Err("time data does not match format '%Y-%m-%d_%H:%M:%S'")
  }

  /** The full backups listed are exactly the datasets named `parent/HeavyScript--...`, newest first. */
  lemma ListFullMeans(parent: string, datasets: seq<string>)
    requires ListFull(parent, datasets).Ok?
    ensures var r := ListFull(parent, datasets).value;
            (forall ds :: ds in r <==> ds in datasets && StartsWith(ds, parent + "/" + FullPrefix))
            && AllStamped(r, FullStamp)
            && (forall i, j :: 0 <= i < j < |r| ==> Le(FullKey(r[j]), FullKey(r[i])))
  {
    var c := FullCandidates(parent, datasets);
    var r := ListFull(parent, datasets).value;
    NewerFirstOrder(FullKey);
    Sorting.SortBySorted(c, NewerFirst(FullKey));
    forall ds ensures ds in r <==> ds in c {
      assert ds in r <==> ds in multiset(r);
    }
    forall i | 0 <= i < |r| ensures FullStamp(r[i]).Some? {
      StampedMember(c, r, FullStamp, i);
    }
    forall i, j | 0 <= i < j < |r| ensures Le(FullKey(r[j]), FullKey(r[i])) {
      assert NewerFirst(FullKey)(r[i], r[j]);
    }
  }

  /** The exports listed are exactly the `Export--...` directories, newest first. */
  lemma ListExportsMeans(entries: seq<(string, bool)>)
    requires ListExports(entries).Ok?
    ensures var r := ListExports(entries).value;
            (forall n :: n in r <==> (n, true) in entries && StartsWith(n, ExportPrefix))
            && AllStamped(r, ExportStamp)
            && (forall i, j :: 0 <= i < j < |r| ==> Le(ExportKey(r[j]), ExportKey(r[i])))
  {
    var c := ExportCandidates(entries);
    var r := ListExports(entries).value;
    NewerFirstOrder(ExportKey);
    Sorting.SortBySorted(c, NewerFirst(ExportKey));
    forall n ensures n in r <==> n in c {
      assert n in r <==> n in multiset(r);
    }
    forall i | 0 <= i < |r| ensures ExportStamp(r[i]).Some? {
      StampedMember(c, r, ExportStamp, i);
    }
    forall i, j | 0 <= i < j < |r| ensures Le(ExportKey(r[j]), ExportKey(r[i])) {
      assert NewerFirst(ExportKey)(r[i], r[j]);
    }
  }

  lemma StampedMember(c: seq<string>, r: seq<string>, stamp: string -> Option<Timestamp>, i: int)
    requires AllStamped(c, stamp) && multiset(r) == multiset(c) && 0 <= i < |r|
    ensures stamp(r[i]).Some?
  {
    assert r[i] in multiset(c);
    var k :| 0 <= k < |c| && c[k] == r[i];
  }

  /** `list_backups`: both lists, or the error of the first one that raises. */
  function ListBackups(parent: string, datasets: seq<string>, entries: seq<(string, bool)>)
    : (r: Result<(seq<string>, seq<string>)>)
    ensures r.Ok? <==> ListFull(parent, datasets).Ok? && ListExports(entries).Ok?
    ensures r.Ok? ==> r.value == (ListFull(parent, datasets).value, ListExports(entries).value)
  {
    match ListFull(parent, datasets)
    case Err(e) => Err(e)
    case Ok(full) =>
      match ListExports(entries)
      case Err(e) => Err(e)
      case Ok(exports) => Ok((full, exports))
  }

  // ---------------------------------------------------------------- selection by number

  /** `int(answer.strip()) - 1`; `None` where `int` raises `ValueError`. */
  function ChosenIndex(answer: string): Option<int> {
    match IntLiteral(Strip(answer))
    case None => None
    case Some(n) => Some(n - 1)
  }

  /** The entry a 1-based answer selects; out of range or not a number gives `None`. */
  function SelectNumbered(items: seq<string>, answer: string): (r: Option<string>)
    ensures r.Some? ==> r.value in items
  {
    match ChosenIndex(answer)
    case None => None
    case Some(i) => if 0 <= i < |items| then Some(items[i]) else None
  }

  lemma StripDigits(n: nat)
    ensures Strip(NatToString(n)) == NatToString(n)
  {
    var s := NatToString(n);
    assert !IsSpace(s[0]) && !IsSpace(s[|s| - 1]);
    assert TrimLeft(s) == s;
  }

  /** Entering the number `n` selects the `n`-th entry exactly when `1 <= n <= |items|`. */
  lemma SelectByNumber(items: seq<string>, n: nat)
    ensures SelectNumbered(items, NatToString(n)) == if 1 <= n <= |items| then Some(items[n - 1]) else None
  {
    ChosenNumber(n);
  }

  /** The answer `str(n)` is read back as the index `n - 1`. */
  lemma ChosenNumber(n: nat)
    ensures ChosenIndex(NatToString(n)) == Some(n - 1)
  {
    var s := NatToString(n);
    StripDigits(n);
    DigitsOfNat(n);
    DigitsLiteral(s);
  }

  /** `int` rejects a word, so no entry is selected. */
  lemma SelectRejectsWord(items: seq<string>)
    ensures SelectNumbered(items, "one") == None
  {
    assert Strip("one") == "one" by {
      assert !IsSpace('o') && !IsSpace('e');
    }
    assert !IsDigit('o');
  }

  /** The list `interactive_select_backup` offers for a backup type: full, export, or both (any other type). */
  function Offered(kind: string, full: seq<string>, exports: seq<string>): seq<string> {
    if kind == "full" then full else if kind == "export" then exports else full + exports
  }

  /** `interactive_select_backup`: nothing when the list is empty, otherwise the entry the answer numbers. */
  function SelectBackup(kind: string, full: seq<string>, exports: seq<string>, answer: string): (r: Option<string>)
    ensures r.Some? ==> r.value in Offered(kind, full, exports)
  {
    var offered := Offered(kind, full, exports);
    if offered == [] then None else SelectNumbered(offered, answer)
  }

  /** The numbers shown beside the entries: full backups `1..n`, then exports `n+1..n+m`. */
  function Numbered(entries: seq<string>): (r: seq<(nat, string)>)
    ensures |r| == |entries|
    ensures forall k :: 0 <= k < |r| ==> r[k] == (k + 1, BaseName(entries[k]))
  {
    seq(|entries|, k requires 0 <= k < |entries| => (k + 1, BaseName(entries[k])))
  }

  /** Display numbering and selection agree: the number shown beside an entry selects that entry. */
  lemma ShownNumberSelects(kind: string, full: seq<string>, exports: seq<string>, k: nat)
    requires k < |Offered(kind, full, exports)|
    ensures var offered := Offered(kind, full, exports);
            SelectBackup(kind, full, exports, NatToString(Numbered(offered)[k].0)) == Some(offered[k])
  {
    var offered := Offered(kind, full, exports);
    assert Numbered(offered)[k].0 == k + 1;
    SelectByNumber(offered, k + 1);
  }

  /** In the combined listing, exports are numbered after all full backups. */
  lemma ExportsNumberedAfterFull(full: seq<string>, exports: seq<string>, k: nat)
    requires k < |exports|
    ensures Numbered(full + exports)[|full| + k] == (|full| + k + 1, BaseName(exports[k]))
  {
  }

  // ---------------------------------------------------------------- the parent dataset

  class Manager {
    const absPath: string
    const parent: string
    const lifecycle: ZfsLifecycle.LifecycleManager

    /** The constructor creates the parent dataset (without options) only when it is not cached. */
    constructor (absPath: string, lifecycle: ZfsLifecycle.LifecycleManager, zfsOk: string -> bool)
      modifies lifecycle.cache
      ensures this.absPath == absPath && this.parent == DeriveParent(absPath) && this.lifecycle == lifecycle
      ensures lifecycle.cache.snapshots == old(lifecycle.cache.snapshots)
      ensures DeriveParent(absPath) in old(lifecycle.cache.datasets) ==>
                lifecycle.cache.datasets == old(lifecycle.cache.datasets)
      ensures DeriveParent(absPath) !in old(lifecycle.cache.datasets) ==>
                lifecycle.cache.datasets ==
                  if zfsOk(ZfsLifecycle.CreateCommand(DeriveParent(absPath), []))
                  then old(lifecycle.cache.datasets) + {DeriveParent(absPath)}
                  else old(lifecycle.cache.datasets)
    {
      this.absPath := absPath;
      this.parent := DeriveParent(absPath);
      this.lifecycle := lifecycle;
      new;
      if !lifecycle.DatasetExists(parent) {
        var ok, issued := lifecycle.CreateDataset(parent, [], zfsOk);
      }
    }
  }
}

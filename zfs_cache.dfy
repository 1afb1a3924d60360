/**
 * The process-wide cache of ZFS dataset and snapshot names (`ZFSCache`).
 * It is loaded from `zfs list` output and afterwards kept up to date by the
 * managers, which add or discard one name after each command that succeeds.
 */
module ZfsCache {
  import opened Wrappers
  import opened Strings

  /**
   * The names a `zfs list -H -o name` listing yields: `None` is a failed
   * command and gives the empty set; otherwise the output is stripped (as
   * `run_command` does) and split on newlines.
   */
  function ParseListing(output: Option<string>): (r: set<string>)
  {
    match output
    case None => {}
    case Some(text) => set line | line in Split(Strip(text), '\n')
  }

  /** Names the `zfs` tool prints: non-empty and without white space. */
  predicate PlainName(n: string) {
    n != [] && forall k :: 0 <= k < |n| ==> !IsSpace(n[k])
  }

  lemma TrimLeftNoSpace(s: string)
    requires s != [] && !IsSpace(s[0])
    ensures TrimLeft(s) == s
  {
  }

  lemma {:induction false} JoinStartsWith(names: seq<string>, c: char)
    requires |names| >= 1 && names[0] != []
    ensures Join(names, c) != [] && Join(names, c)[0] == names[0][0]
  {
  }

  lemma {:induction false} JoinEndsWith(names: seq<string>, c: char)
    requires |names| >= 1 && names[|names| - 1] != []
    ensures Join(names, c) != [] && Join(names, c)[|Join(names, c)| - 1] == names[|names| - 1][|names[|names| - 1]| - 1]
    decreases |names|
  {
    if |names| > 1 {
      JoinEndsWith(names[1..], c);
    }
  }

  /** The listing of names `n1\nn2\n...\nnk\n` (one per line, as `zfs list` prints them) is read back as exactly those names. */
  lemma ListingRoundTrip(names: seq<string>)
    requires |names| >= 1
    requires forall k :: 0 <= k < |names| ==> PlainName(names[k])
    ensures ParseListing(Some(Join(names, '\n') + "\n")) == set k | 0 <= k < |names| :: names[k]
  {
    var j := Join(names, '\n');
    JoinStartsWith(names, '\n');
    JoinEndsWith(names, '\n');
    forall k | 0 <= k < |names| ensures '\n' !in names[k] {
      assert IsSpace('\n');
    }
    var text := j + "\n";
    assert text[0] == j[0];
    TrimLeftNoSpace(text);
    assert IsSpace(text[|text| - 1]) && text[..|text| - 1] == j;
    var last := names[|names| - 1];
    assert !IsSpace(last[|last| - 1]);
    assert TrimRight(j) == j;
    assert Strip(text) == j;
    SplitJoin(names, '\n');
    assert Split(j, '\n') == names;
  }

  /** An empty successful listing is one empty name, not an empty set. */
  lemma EmptyListing()
    ensures ParseListing(Some("")) == {""}
  {
    assert Split(Strip(""), '\n') == [""];
  }

  lemma FailedListing()
    ensures ParseListing(None) == {}
  {
  }

  class Cache {
    var datasets: set<string>
    var snapshots: set<string>

    /** The first construction of the singleton runs `hard_refresh`. */
    constructor (datasetListing: Option<string>, snapshotListing: Option<string>)
      ensures datasets == ParseListing(datasetListing)
      ensures snapshots == ParseListing(snapshotListing)
    {
      datasets := ParseListing(datasetListing);
      snapshots := ParseListing(snapshotListing);
    }

    /** `hard_refresh`: both sets are replaced by fresh listings; a failed listing clears its set. */
    method HardRefresh(datasetListing: Option<string>, snapshotListing: Option<string>)
      modifies this
      ensures datasets == ParseListing(datasetListing)
      ensures snapshots == ParseListing(snapshotListing)
    {
      datasets, snapshots := ParseListing(datasetListing), ParseListing(snapshotListing);
    }

    /** `get_snapshots_for_dataset`: the cached snapshots named `dataset@...`. */
    function SnapshotsOf(dataset: string): (r: set<string>)
      reads this
      ensures r <= snapshots
      ensures forall s :: s in r <==> s in snapshots && StartsWith(s, dataset + "@")
    {
      set s | s in snapshots && StartsWith(s, dataset + "@")
    }

    method AddDataset(dataset: string)
      modifies this
      ensures datasets == old(datasets) + {dataset}
      ensures snapshots == old(snapshots)
    {
      datasets := datasets + {dataset};
    }

    /** `discard`: removing an absent name is a no-op. */
    method RemoveDataset(dataset: string)
      modifies this
      ensures datasets == old(datasets) - {dataset}
      ensures snapshots == old(snapshots)
    {
      datasets := datasets - {dataset};
    }

    method AddSnapshot(snapshot: string)
      modifies this
      ensures snapshots == old(snapshots) + {snapshot}
      ensures datasets == old(datasets)
    {
      snapshots := snapshots + {snapshot};
    }

    method RemoveSnapshot(snapshot: string)
      modifies this
      ensures snapshots == old(snapshots) - {snapshot}
      ensures datasets == old(datasets)
    {
      snapshots := snapshots - {snapshot};
    }
  }

  /** The dataset part of a snapshot name: everything before its first `@`. */
  function DatasetOf(snapshot: string): (r: Option<string>)
    ensures r.Some? ==> '@' !in r.value && StartsWith(snapshot, r.value + "@")
    ensures r.None? <==> '@' !in snapshot
    decreases |snapshot|
  {
    if snapshot == [] then None
    else if snapshot[0] == '@' then Some("")
    else match DatasetOf(snapshot[1..])
      case None => None
      case Some(d) => Some([snapshot[0]] + d)
  }

  /**
   * For a dataset name without `@`, the prefix rule `dataset@` selects exactly
   * the snapshots of that dataset: a child's snapshot `dataset/child@x` or a
   * sibling's `datasetX@y` is not selected.
   */
  lemma {:induction false} PrefixSelectsOwnSnapshots(dataset: string, snapshot: string)
    requires '@' !in dataset
    ensures StartsWith(snapshot, dataset + "@") <==> DatasetOf(snapshot) == Some(dataset)
    decreases |dataset|
  {
    if dataset == [] {
      assert StartsWith(snapshot, "@") <==> snapshot != [] && snapshot[0] == '@';
    } else if snapshot != [] && snapshot[0] == dataset[0] {
      assert '@' !in dataset[1..];
      PrefixSelectsOwnSnapshots(dataset[1..], snapshot[1..]);
      assert (dataset + "@")[1..] == dataset[1..] + "@";
      assert StartsWith(snapshot, dataset + "@") <==> StartsWith(snapshot[1..], dataset[1..] + "@");
      if DatasetOf(snapshot) == Some(dataset) {
        assert DatasetOf(snapshot[1..]) == Some(dataset[1..]);
      }
      if DatasetOf(snapshot[1..]) == Some(dataset[1..]) {
        assert [snapshot[0]] + dataset[1..] == dataset;
      }
    }
  }
}

/**
 * `YAMLCleaner`: the pruning applied to Kubernetes manifests before they are
 * stored. The four passes walk the loaded document and drop keys and list
 * items; here each pass is a function from the document to the pruned
 * document (the source prunes in place).
 *
 * The walks over dict entries and list items take a ghost `parent`, the
 * value the entries belong to, so that termination follows the structure of
 * the document.
 */
module YamlCleaner {
  import opened Wrappers
  import opened Strings
  import opened Json
  import Sorting

  const DefaultGlobals: set<string> := {"uid", "resourceVersion", "creationTimestamp", "status"}

  const DefaultStatics: set<seq<string>> := {
    ["spec", "nodeAffinity"],
    ["metadata", "labels", "kubernetes.io/nodename"],
    ["spec", "csi", "volumeAttributes", "storage.kubernetes.io/csiProvisionerIdentity"]
  }

  /** The removal sets a cleaner works with. */
  datatype Cleaner = Cleaner(globals: set<string>, statics: set<seq<string>>)

  /** The constructor: each set defaults when it is not given. */
  function NewCleaner(globals: Option<set<string>>, statics: Option<set<seq<string>>>): (c: Cleaner)
    ensures c.globals == if globals.Some? then globals.value else DefaultGlobals
    ensures c.statics == if statics.Some? then statics.value else DefaultStatics
  {
    Cleaner(if globals.Some? then globals.value else DefaultGlobals,
            if statics.Some? then statics.value else DefaultStatics)
  }

  // ---------------------------------------------------------------- clean_globals

  /** `clean_globals`: the removal keys are dropped from every dict reachable through dicts and lists. */
  function Globals(v: Value, keys: set<string>): Value
    decreases v, 1
  {
    match v
    case Obj(entries) => Obj(GlobalsEntries(v, entries, keys))
    case Arr(items) => Arr(GlobalsItems(v, items, keys))
    case _ => v
  }

  function GlobalsEntries(ghost parent: Value, entries: seq<(string, Value)>, keys: set<string>): seq<(string, Value)>
    requires forall i :: 0 <= i < |entries| ==> entries[i].1 < parent
    decreases parent, 0, |entries|
  {
    if entries == [] then []
    else
      (if entries[0].0 in keys then [] else [(entries[0].0, Globals(entries[0].1, keys))])
      + GlobalsEntries(parent, entries[1..], keys)
  }

  function GlobalsItems(ghost parent: Value, items: seq<Value>, keys: set<string>): (r: seq<Value>)
    requires forall i :: 0 <= i < |items| ==> items[i] < parent
    ensures |r| == |items|
    decreases parent, 0, |items|
  {
    if items == [] then [] else [Globals(items[0], keys)] + GlobalsItems(parent, items[1..], keys)
  }

  /** No dict reachable through dicts and lists holds one of `keys`. */
  predicate Free(v: Value, keys: set<string>)
    decreases v
  {
    match v
    case Obj(entries) => forall i :: 0 <= i < |entries| ==> entries[i].0 !in keys && Free(entries[i].1, keys)
    case Arr(items) => forall i :: 0 <= i < |items| ==> Free(items[i], keys)
    case _ => true
  }

  /** The entries of a dict that is `Free`. */
  predicate EntriesFree(entries: seq<(string, Value)>, keys: set<string>) {
    forall i :: 0 <= i < |entries| ==> entries[i].0 !in keys && Free(entries[i].1, keys)
  }

  /** The items of a list that is `Free`. */
  predicate ItemsFree(items: seq<Value>, keys: set<string>) {
    forall i :: 0 <= i < |items| ==> Free(items[i], keys)
  }

  /** After `clean_globals` no reachable dict holds a removal key. */
  lemma GlobalsFree(v: Value, keys: set<string>)
    ensures Free(Globals(v, keys), keys)
    decreases v, 1
  {
    match v
    case Obj(entries) => GlobalsEntriesFree(v, entries, keys);
    case Arr(items) => GlobalsItemsFree(v, items, keys);
    case _ =>
  }

  lemma GlobalsEntriesFree(parent: Value, entries: seq<(string, Value)>, keys: set<string>)
    requires forall i :: 0 <= i < |entries| ==> entries[i].1 < parent
    ensures EntriesFree(GlobalsEntries(parent, entries, keys), keys)
    decreases parent, 0, |entries|
  {
    if entries != [] {
      assert entries[0] in entries;
      GlobalsFree(entries[0].1, keys);
      GlobalsEntriesFree(parent, entries[1..], keys);
    }
  }

  lemma GlobalsItemsFree(parent: Value, items: seq<Value>, keys: set<string>)
    requires forall i :: 0 <= i < |items| ==> items[i] < parent
    ensures ItemsFree(GlobalsItems(parent, items, keys), keys)
    decreases parent, 0, |items|
  {
    if items != [] {
      assert items[0] in items;
      GlobalsFree(items[0], keys);
      GlobalsItemsFree(parent, items[1..], keys);
    }
  }

  /** A document already free of the keys is left as it is. */
  lemma GlobalsOfFree(v: Value, keys: set<string>)
    requires Free(v, keys)
    ensures Globals(v, keys) == v
    decreases v, 1
  {
    match v
    case Obj(entries) => GlobalsEntriesOfFree(v, entries, keys);
    case Arr(items) => GlobalsItemsOfFree(v, items, keys);
    case _ =>
  }

  lemma GlobalsEntriesOfFree(parent: Value, entries: seq<(string, Value)>, keys: set<string>)
    requires forall i :: 0 <= i < |entries| ==> entries[i].1 < parent
    requires EntriesFree(entries, keys)
    ensures GlobalsEntries(parent, entries, keys) == entries
    decreases parent, 0, |entries|
  {
    if entries != [] {
      assert entries[0] in entries;
      GlobalsOfFree(entries[0].1, keys);
      GlobalsEntriesOfFree(parent, entries[1..], keys);
      assert [entries[0]] + entries[1..] == entries;
    }
  }

  lemma GlobalsItemsOfFree(parent: Value, items: seq<Value>, keys: set<string>)
    requires forall i :: 0 <= i < |items| ==> items[i] < parent
    requires ItemsFree(items, keys)
    ensures GlobalsItems(parent, items, keys) == items
    decreases parent, 0, |items|
  {
    if items != [] {
      assert items[0] in items;
      GlobalsOfFree(items[0], keys);
      GlobalsItemsOfFree(parent, items[1..], keys);
      assert [items[0]] + items[1..] == items;
    }
  }

  /** Applying `clean_globals` twice equals applying it once. */
  lemma GlobalsIdempotent(v: Value, keys: set<string>)
    ensures Globals(Globals(v, keys), keys) == Globals(v, keys)
  {
    GlobalsFree(v, keys);
    GlobalsOfFree(Globals(v, keys), keys);
  }

  /** A key that is not a removal key keeps its (cleaned) value. */
  lemma {:induction false} GlobalsKeepsOthers(parent: Value, entries: seq<(string, Value)>, keys: set<string>, k: string)
    requires forall i :: 0 <= i < |entries| ==> entries[i].1 < parent
    requires k !in keys && Lookup(entries, k).Some?
    ensures Lookup(GlobalsEntries(parent, entries, keys), k) == Some(Globals(Lookup(entries, k).value, keys))
    decreases |entries|
  {
    if entries[0].0 != k {
      GlobalsKeepsOthers(parent, entries[1..], keys, k);
      var r := GlobalsEntries(parent, entries, keys);
      if entries[0].0 !in keys {
        assert r[0].0 != k && r[1..] == GlobalsEntries(parent, entries[1..], keys);
      } else {
        assert r == GlobalsEntries(parent, entries[1..], keys);
      }
    }
  }

  // ---------------------------------------------------------------- clean_statics

  /**
   * `clean_statics`: a dict key is dropped when the key path from the root to
   * it is a static path; list items keep their parent's path; a dropped
   * subtree is not visited.
   */
  function Statics(v: Value, path: seq<string>, statics: set<seq<string>>): Value
    decreases v, 1
  {
    match v
    case Obj(entries) => Obj(StaticsEntries(v, entries, path, statics))
    case Arr(items) => Arr(StaticsItems(v, items, path, statics))
    case _ => v
  }

  function StaticsEntries(ghost parent: Value, entries: seq<(string, Value)>, path: seq<string>,
                          statics: set<seq<string>>): seq<(string, Value)>
    requires forall i :: 0 <= i < |entries| ==> entries[i].1 < parent
    decreases parent, 0, |entries|
  {
    if entries == [] then []
    else
      var p := path + [entries[0].0];
      (if p in statics then [] else [(entries[0].0, Statics(entries[0].1, p, statics))])
      + StaticsEntries(parent, entries[1..], path, statics)
  }

  function StaticsItems(ghost parent: Value, items: seq<Value>, path: seq<string>,
                        statics: set<seq<string>>): seq<Value>
    requires forall i :: 0 <= i < |items| ==> items[i] < parent
    decreases parent, 0, |items|
  {
    if items == [] then [] else [Statics(items[0], path, statics)] + StaticsItems(parent, items[1..], path, statics)
  }

  /** No dict key below `path` sits at a static path. */
  predicate NoStatics(v: Value, path: seq<string>, statics: set<seq<string>>)
    decreases v
  {
    match v
    case Obj(entries) =>
      forall i :: 0 <= i < |entries| ==>
        path + [entries[i].0] !in statics && NoStatics(entries[i].1, path + [entries[i].0], statics)
    case Arr(items) => forall i :: 0 <= i < |items| ==> NoStatics(items[i], path, statics)
    case _ => true
  }

  /** The entries of a dict at `path` that has `NoStatics`. */
  predicate EntriesNoStatics(entries: seq<(string, Value)>, path: seq<string>, statics: set<seq<string>>) {
    forall i :: 0 <= i < |entries| ==>
      path + [entries[i].0] !in statics && NoStatics(entries[i].1, path + [entries[i].0], statics)
  }

  /** The items of a list at `path` that has `NoStatics`. */
  predicate ItemsNoStatics(items: seq<Value>, path: seq<string>, statics: set<seq<string>>) {
    forall i :: 0 <= i < |items| ==> NoStatics(items[i], path, statics)
  }

  /** After `clean_statics` no key remains at a static path. */
  lemma StaticsRemoved(v: Value, path: seq<string>, statics: set<seq<string>>)
    ensures NoStatics(Statics(v, path, statics), path, statics)
    decreases v, 1
  {
    match v
    case Obj(entries) => StaticsEntriesRemoved(v, entries, path, statics);
    case Arr(items) => StaticsItemsRemoved(v, items, path, statics);
    case _ =>
  }

  lemma StaticsEntriesRemoved(parent: Value, entries: seq<(string, Value)>, path: seq<string>, statics: set<seq<string>>)
    requires forall i :: 0 <= i < |entries| ==> entries[i].1 < parent
    ensures EntriesNoStatics(StaticsEntries(parent, entries, path, statics), path, statics)
    decreases parent, 0, |entries|
  {
    if entries != [] {
      assert entries[0] in entries;
      StaticsRemoved(entries[0].1, path + [entries[0].0], statics);
      StaticsEntriesRemoved(parent, entries[1..], path, statics);
    }
  }

  lemma StaticsItemsRemoved(parent: Value, items: seq<Value>, path: seq<string>, statics: set<seq<string>>)
    requires forall i :: 0 <= i < |items| ==> items[i] < parent
    ensures ItemsNoStatics(StaticsItems(parent, items, path, statics), path, statics)
    decreases parent, 0, |items|
  {
    if items != [] {
      assert items[0] in items;
      StaticsRemoved(items[0], path, statics);
      StaticsItemsRemoved(parent, items[1..], path, statics);
    }
  }

  /** `clean_statics` drops dict entries only: it keeps every document free of the global keys that was free. */
  lemma StaticsKeepsFree(v: Value, path: seq<string>, statics: set<seq<string>>, keys: set<string>)
    requires Free(v, keys)
    ensures Free(Statics(v, path, statics), keys)
    decreases v, 1
  {
    match v
    case Obj(entries) => StaticsEntriesKeepFree(v, entries, path, statics, keys);
    case Arr(items) => StaticsItemsKeepFree(v, items, path, statics, keys);
    case _ =>
  }

  lemma StaticsEntriesKeepFree(parent: Value, entries: seq<(string, Value)>, path: seq<string>,
                               statics: set<seq<string>>, keys: set<string>)
    requires forall i :: 0 <= i < |entries| ==> entries[i].1 < parent
    requires EntriesFree(entries, keys)
    ensures EntriesFree(StaticsEntries(parent, entries, path, statics), keys)
    decreases parent, 0, |entries|
  {
    if entries != [] {
      assert entries[0] in entries;
      StaticsKeepsFree(entries[0].1, path + [entries[0].0], statics, keys);
      StaticsEntriesKeepFree(parent, entries[1..], path, statics, keys);
    }
  }

  lemma StaticsItemsKeepFree(parent: Value, items: seq<Value>, path: seq<string>,
                             statics: set<seq<string>>, keys: set<string>)
    requires forall i :: 0 <= i < |items| ==> items[i] < parent
    requires ItemsFree(items, keys)
    ensures ItemsFree(StaticsItems(parent, items, path, statics), keys)
    decreases parent, 0, |items|
  {
    if items != [] {
      assert items[0] in items;
      StaticsKeepsFree(items[0], path, statics, keys);
      StaticsItemsKeepFree(parent, items[1..], path, statics, keys);
    }
  }

  /** List items inherit their parent's path: `spec.nodeAffinity` is dropped inside a list under `spec` too. */
  lemma StaticsThroughList()
    ensures Statics(Obj([("spec", Arr([Obj([("nodeAffinity", Int(1)), ("x", Int(2))])]))]), [], DefaultStatics)
            == Obj([("spec", Arr([Obj([("x", Int(2))])]))])
  {
    var inner := Obj([("nodeAffinity", Int(1)), ("x", Int(2))]);
    assert ["spec", "nodeAffinity"] in DefaultStatics;
    assert ["spec"] !in DefaultStatics;
    assert ["spec", "x"] !in DefaultStatics;
    var e := [("nodeAffinity", Int(1)), ("x", Int(2))];
    assert e[1..] == [("x", Int(2))];
    assert ["spec"] + ["x"] == ["spec", "x"];
    assert ["spec"] + ["nodeAffinity"] == ["spec", "nodeAffinity"];
    assert [] + ["spec"] == ["spec"];
    assert StaticsEntries(inner, e[1..], ["spec"], DefaultStatics) == [("x", Int(2))];
    assert StaticsEntries(inner, e, ["spec"], DefaultStatics) == [("x", Int(2))];
    assert Statics(inner, ["spec"], DefaultStatics) == Obj([("x", Int(2))]);
    var list := Arr([inner]);
    assert StaticsItems(list, [inner], ["spec"], DefaultStatics) == [Obj([("x", Int(2))])];
    assert Statics(list, ["spec"], DefaultStatics) == Arr([Obj([("x", Int(2))])]);
    var top := Obj([("spec", list)]);
    assert StaticsEntries(top, [("spec", list)], [], DefaultStatics) == [("spec", Arr([Obj([("x", Int(2))])]))];
  }

  // ---------------------------------------------------------------- filter_cnpg_resources

  /** `item.get('metadata', {})` on an item known to be a dict. */
  function Metadata(item: Value): Value { GetOr(item, "metadata", Obj([])) }

  /** `....get('ownerReferences', [])` on metadata known to be a dict. */
  function OwnerRefs(item: Value): Value { GetOr(Metadata(item), "ownerReferences", Arr([])) }

  /** `....get('name', "")` on metadata known to be a dict. */
  function NameField(item: Value): Value { GetOr(Metadata(item), "name", Str("")) }

  /** `owner.get('kind') == 'Cluster'`. */
  predicate ClusterOwner(owner: Value) { Get(owner, "kind") == Some(Str("Cluster")) }

  predicate AllDicts(xs: seq<Value>) {
    forall k :: 0 <= k < |xs| ==> xs[k].Obj?
  }

  /**
   * `any(owner.get('kind') == 'Cluster' for owner in owners)`: the first
   * `Cluster` owner ends the scan; an owner reached before one that is not a
   * dict raises.
   */
  function ScanOwners(owners: seq<Value>): (r: Result<bool>)
    ensures r == Ok(false) <==> forall k :: 0 <= k < |owners| ==> owners[k].Obj? && !ClusterOwner(owners[k])
    ensures r.Err? ==> r.error == NoGetError
    decreases |owners|
  {
    if owners == [] then Ok(false)
    else if !owners[0].Obj? then Err(NoGetError)
    else if ClusterOwner(owners[0]) then Ok(true)
    else
      assert forall k :: 0 < k < |owners| ==> owners[k] == owners[1..][k - 1];
      ScanOwners(owners[1..])
  }

  /** A `Cluster` owner reached past dicts only ends the scan with `True`. */
  lemma {:induction false} ScanOwnersFinds(owners: seq<Value>, k: nat)
    requires k < |owners| && ClusterOwner(owners[k]) && forall j :: 0 <= j < k ==> owners[j].Obj?
    ensures ScanOwners(owners) == Ok(true)
    decreases k
  {
    if k > 0 && !ClusterOwner(owners[0]) {
      assert owners[1..][k - 1] == owners[k];
      assert forall j :: 0 <= j < k - 1 ==> owners[1..][j] == owners[j + 1];
      ScanOwnersFinds(owners[1..], k - 1);
    }
  }

  /** The scan says `True` only at a `Cluster` owner reached past dicts only. */
  lemma {:induction false} ScanOwnersTrue(owners: seq<Value>) returns (k: nat)
    requires ScanOwners(owners) == Ok(true)
    ensures k < |owners| && ClusterOwner(owners[k]) && forall j :: 0 <= j < k ==> owners[j].Obj?
    decreases |owners|
  {
    if ClusterOwner(owners[0]) {
      k := 0;
    } else {
      var t := ScanOwnersTrue(owners[1..]);
      k := t + 1;
      assert forall j :: 1 <= j < k ==> owners[j] == owners[1..][j - 1];
    }
  }

  /**
   * `"-cnpg-main-" in name`: a substring test on a string, a membership test
   * on a list or a dict's keys; any other value raises `TypeError`.
   */
  function InName(name: Value): (r: Result<bool>)
    ensures r.Err? <==> !(name.Str? || name.Arr? || name.Obj?)
    ensures name.Str? ==> r == Ok(Contains(name.s, "-cnpg-main-"))
  {
    match name
    case Str(s) => Ok(Contains(s, "-cnpg-main-"))
    case Arr(items) => Ok(Str("-cnpg-main-") in items)
    case Obj(entries) => Ok(Lookup(entries, "-cnpg-main-").Some?)
    case _ => Err(NotIterableError)
  }

  /**
   * The test of one item, an item managed by the CNPG operator: the item and
   * its metadata must be dicts; the owner references are iterated as Python
   * does; the name is read only when no `Cluster` owner was found.
   */
  function CnpgManaged(item: Value): (r: Result<bool>)
    ensures !item.Obj? || !Metadata(item).Obj? ==> r == Err(NoGetError)
    ensures r == Ok(false) ==> Iterated(OwnerRefs(item)).Ok?
                               && forall k :: 0 <= k < |Iterated(OwnerRefs(item)).value| ==>
                                    !ClusterOwner(Iterated(OwnerRefs(item)).value[k])
  {
    if !item.Obj? || !Metadata(item).Obj? then Err(NoGetError)
    else
      match Iterated(OwnerRefs(item))
      case Err(e) => Err(e)
      case Ok(owners) =>
        match ScanOwners(owners)
        case Err(e) => Err(e)
        case Ok(found) => if found then Ok(true) else InName(NameField(item))
  }

  /**
   * For a well-typed item (dict metadata, a list of dicts as owner references,
   * a string name) the test is the plain one: a `Cluster` owner, or a name
   * containing `-cnpg-main-`.
   */
  lemma CnpgManagedWellTyped(item: Value)
    requires item.Obj? && Metadata(item).Obj? && OwnerRefs(item).Arr? && AllDicts(OwnerRefs(item).items)
    requires NameField(item).Str?
    ensures CnpgManaged(item) == Ok((exists k :: 0 <= k < |OwnerRefs(item).items| && ClusterOwner(OwnerRefs(item).items[k]))
                                    || Contains(NameField(item).s, "-cnpg-main-"))
  {
    var owners := OwnerRefs(item).items;
    if exists k :: 0 <= k < |owners| && ClusterOwner(owners[k]) {
      var k :| 0 <= k < |owners| && ClusterOwner(owners[k]);
      ScanOwnersFinds(owners, k);
    }
  }

  function Unmanaged(): Value -> bool {
    item => CnpgManaged(item) == Ok(false)
  }

  /**
   * The list comprehension: every item is tested in order and the first
   * test that raises ends it; otherwise the unmanaged items, in order.
   */
  function FilterItems(items: seq<Value>): (r: Result<seq<Value>>)
    ensures r.Ok? <==> forall k :: 0 <= k < |items| ==> CnpgManaged(items[k]).Ok?
    ensures r.Ok? ==> r.value == Sorting.Filter(items, Unmanaged())
    decreases |items|
  {
    if items == [] then Ok([])
    else
      assert forall k :: 0 < k < |items| ==> items[k] == items[1..][k - 1];
      match CnpgManaged(items[0])
      case Err(e) => Err(e)
      case Ok(managed) =>
        match FilterItems(items[1..])
        case Err(e) => Err(e)
        case Ok(kept) => Ok((if managed then [] else [items[0]]) + kept)
  }

  /** A failure of the comprehension is the error of the first item whose test raises. */
  lemma {:induction false} FilterItemsFirstError(items: seq<Value>) returns (k: nat)
    requires FilterItems(items).Err?
    ensures k < |items| && CnpgManaged(items[k]) == Err(FilterItems(items).error)
    ensures forall j :: 0 <= j < k ==> CnpgManaged(items[j]).Ok?
    decreases |items|
  {
    if CnpgManaged(items[0]).Err? {
      k := 0;
    } else {
      var t := FilterItemsFirstError(items[1..]);
      k := t + 1;
      assert forall j :: 1 <= j < k ==> items[j] == items[1..][j - 1];
    }
  }

  /** `data.get('items', [])` on a document known to be a dict. */
  function Items(data: Value): Value { GetOr(data, "items", Arr([])) }

  /**
   * `filter_cnpg_resources`: `items` becomes the unmanaged items, in order
   * (set to `[]` when the key is absent or iterates to nothing). A document
   * that is not a dict, an `items` that cannot be iterated, or an item whose
   * test raises makes the pass raise.
   */
  function FilterCnpg(data: Value): (r: Result<Value>)
    ensures !data.Obj? ==> r == Err(NoGetError)
    ensures data.Obj? ==> (r.Ok? <==> Iterated(Items(data)).Ok?
                                      && forall k :: 0 <= k < |Iterated(Items(data)).value| ==>
                                           CnpgManaged(Iterated(Items(data)).value[k]).Ok?)
    ensures r.Ok? ==> r.value.Obj?
                      && Lookup(r.value.entries, "items")
                         == Some(Arr(Sorting.Filter(Iterated(Items(data)).value, Unmanaged())))
  {
    if !data.Obj? then Err(NoGetError)
    else
      match Iterated(Items(data))
      case Err(e) => Err(e)
      case Ok(items) =>
        match FilterItems(items)
        case Err(e) => Err(e)
        case Ok(kept) =>
          SetReads(data.entries, "items", Arr(kept));
          Ok(Obj(Set(data.entries, "items", Arr(kept))))
  }

  /** Every other key of the document keeps its value. */
  lemma FilterCnpgKeepsOthers(data: Value, k: string)
    requires FilterCnpg(data).Ok? && k != "items"
    ensures Lookup(FilterCnpg(data).value.entries, k) == Lookup(data.entries, k)
  {
    var kept := Sorting.Filter(Iterated(Items(data)).value, Unmanaged());
    SetKeepsOthers(data.entries, "items", Arr(kept), k);
  }

  /** An item with a `Cluster` owner reference is dropped. */
  lemma ClusterOwnedDropped(data: Value, item: Value)
    requires FilterCnpg(data).Ok? && item in Iterated(Items(data)).value
    requires item.Obj? && Metadata(item).Obj? && OwnerRefs(item).Arr?
    requires exists k :: 0 <= k < |OwnerRefs(item).items| && ClusterOwner(OwnerRefs(item).items[k])
    ensures item !in Lookup(FilterCnpg(data).value.entries, "items").value.items
  {
    var items := Iterated(Items(data)).value;
    var i :| 0 <= i < |items| && items[i] == item;
    assert CnpgManaged(item).Ok?;
    var k :| 0 <= k < |OwnerRefs(item).items| && ClusterOwner(OwnerRefs(item).items[k]);
    assert Iterated(OwnerRefs(item)).value == OwnerRefs(item).items;
    assert CnpgManaged(item) != Ok(false);
    assert !Unmanaged()(item);
    assert Lookup(FilterCnpg(data).value.entries, "items").value.items == Sorting.Filter(items, Unmanaged());
  }

  /** `metadata: null` raises at the `.get` of the owner references. */
  lemma NullMetadataRaises()
    ensures FilterCnpg(Obj([("items", Arr([Obj([("metadata", Null)])]))])) == Err(NoGetError)
  {
    assert CnpgManaged(Obj([("metadata", Null)])) == Err(NoGetError);
  }

  /** `name: null` raises at the `in` test when no `Cluster` owner decided it first. */
  lemma NullNameRaises()
    ensures FilterCnpg(Obj([("items", Arr([Obj([("metadata", Obj([("name", Null)]))])]))])) == Err(NotIterableError)
  {
    var item := Obj([("metadata", Obj([("name", Null)]))]);
    assert OwnerRefs(item) == Arr([]);
    assert NameField(item) == Null;
    assert CnpgManaged(item) == Err(NotIterableError);
  }

  /** A `Cluster` owner decides the test without reading the name, so `name: null` does not raise there. */
  lemma ClusterOwnerDecides()
    ensures FilterCnpg(Obj([("items", Arr([Obj([("metadata", Obj([("ownerReferences", Arr([Obj([("kind", Str("Cluster"))])])),
                                                               ("name", Null)]))])]))]))
            == Ok(Obj([("items", Arr([]))]))
  {
    var owner := Obj([("kind", Str("Cluster"))]);
    var meta := Obj([("ownerReferences", Arr([owner])), ("name", Null)]);
    var item := Obj([("metadata", meta)]);
    assert Metadata(item) == meta;
    assert OwnerRefs(item) == Arr([owner]);
    assert ScanOwners([owner]) == Ok(true);
    assert CnpgManaged(item) == Ok(true);
    assert FilterItems([item]) == Ok([]);
    var entries := [("items", Arr([item]))];
    assert Items(Obj(entries)) == Arr([item]);
    assert Set(entries, "items", Arr([])) == [("items", Arr([]))];
  }

  /** `items: {}` and `items: ""` iterate to nothing, so the pass leaves `items: []`. */
  lemma FalsyItemsIterateToNothing()
    ensures FilterCnpg(Obj([("items", Obj([]))])) == Ok(Obj([("items", Arr([]))]))
    ensures FilterCnpg(Obj([("items", Str(""))])) == Ok(Obj([("items", Arr([]))]))
  {
    assert Iterated(Obj([])).value == [];
    assert Iterated(Str("")).value == [];
    assert FilterItems([]) == Ok([]);
    assert Items(Obj([("items", Obj([]))])) == Obj([]);
    assert Items(Obj([("items", Str(""))])) == Str("");
    assert Set([("items", Obj([]))], "items", Arr([])) == [("items", Arr([]))];
    assert Set([("items", Str(""))], "items", Arr([])) == [("items", Arr([]))];
  }

  /** A non-empty dict under `items` yields its keys, strings, whose `.get` raises; a number is not iterable. */
  lemma IllTypedItemsRaise()
    ensures FilterCnpg(Obj([("items", Obj([("a", Null)]))])) == Err(NoGetError)
    ensures FilterCnpg(Obj([("items", Int(1))])) == Err(NotIterableError)
  {
    var keys := Iterated(Obj([("a", Null)])).value;
    assert |keys| == 1 && keys[0] == Str("a");
    assert keys == [Str("a")];
    assert CnpgManaged(Str("a")) == Err(NoGetError);
    assert FilterItems([Str("a")]) == Err(NoGetError);
  }

  // ---------------------------------------------------------------- remove_empty_containers

  predicate EmptyContainer(v: Value) {
    (v.Obj? && v.entries == []) || (v.Arr? && v.items == [])
  }

  /**
   * `remove_empty_containers`: in a dict, entries whose value is an empty dict
   * or list (at visit time) are dropped before recursing; in a list, every
   * falsy item is dropped before recursing.
   */
  function RemoveEmpty(v: Value): Value
    decreases v, 1
  {
    match v
    case Obj(entries) => Obj(RemoveEmptyEntries(v, entries))
    case Arr(items) => Arr(RemoveEmptyItems(v, items))
    case _ => v
  }

  function RemoveEmptyEntries(ghost parent: Value, entries: seq<(string, Value)>): (r: seq<(string, Value)>)
    requires forall i :: 0 <= i < |entries| ==> entries[i].1 < parent
    decreases parent, 0, |entries|
  {
    if entries == [] then []
    else
      (if EmptyContainer(entries[0].1) then [] else [(entries[0].0, RemoveEmpty(entries[0].1))])
      + RemoveEmptyEntries(parent, entries[1..])
  }

  function RemoveEmptyItems(ghost parent: Value, items: seq<Value>): (r: seq<Value>)
    requires forall i :: 0 <= i < |items| ==> items[i] < parent
    decreases parent, 0, |items|
  {
    if items == [] then []
    else
      (if Truthy(items[0]) then [RemoveEmpty(items[0])] else []) + RemoveEmptyItems(parent, items[1..])
  }

  function TruthyTest(): Value -> bool {
    x => Truthy(x)
  }

  /** A dict keeps exactly the keys whose value is not an empty container at visit time. */
  lemma {:induction false} RemoveEmptyKeys(parent: Value, entries: seq<(string, Value)>, k: string)
    requires forall i :: 0 <= i < |entries| ==> entries[i].1 < parent
    ensures k in Keys(RemoveEmptyEntries(parent, entries))
            <==> exists i :: 0 <= i < |entries| && entries[i].0 == k && !EmptyContainer(entries[i].1)
    decreases |entries|
  {
    if entries != [] {
      RemoveEmptyKeys(parent, entries[1..], k);
      var r := RemoveEmptyEntries(parent, entries);
      var t := RemoveEmptyEntries(parent, entries[1..]);
      if EmptyContainer(entries[0].1) {
        assert r == t;
      } else {
        assert r == [(entries[0].0, RemoveEmpty(entries[0].1))] + t;
        assert Keys(r) == [entries[0].0] + Keys(t);
      }
      if exists i :: 0 <= i < |entries| && entries[i].0 == k && !EmptyContainer(entries[i].1) {
        var i :| 0 <= i < |entries| && entries[i].0 == k && !EmptyContainer(entries[i].1);
        if i > 0 {
          assert entries[1..][i - 1] == entries[i];
        }
      }
    }
  }

  /** Each value of a list passed through `remove_empty_containers`. */
  function CleanedEach(xs: seq<Value>): (r: seq<Value>)
    ensures |r| == |xs|
  {
    seq(|xs|, i requires 0 <= i < |xs| => RemoveEmpty(xs[i]))
  }

  /** A list keeps exactly its truthy items, in order, each cleaned in turn. */
  lemma {:induction false} RemoveEmptyItemsTruthy(parent: Value, items: seq<Value>)
    requires forall i :: 0 <= i < |items| ==> items[i] < parent
    ensures RemoveEmptyItems(parent, items) == CleanedEach(Sorting.Filter(items, TruthyTest()))
    decreases |items|
  {
    if items != [] {
      RemoveEmptyItemsTruthy(parent, items[1..]);
      var rest := Sorting.Filter(items[1..], TruthyTest());
      if Truthy(items[0]) {
        assert Sorting.Filter(items, TruthyTest()) == [items[0]] + rest;
        assert CleanedEach([items[0]] + rest) == [RemoveEmpty(items[0])] + CleanedEach(rest);
      } else {
        assert Sorting.Filter(items, TruthyTest()) == rest;
      }
    }
  }

  /** Falsy list items of every kind are dropped. */
  lemma FalsyItemsDropped()
    ensures RemoveEmpty(Arr([Null, Int(0), Str(""), Arr([]), Int(1)])) == Arr([Int(1)])
  {
    var xs := [Null, Int(0), Str(""), Arr([]), Int(1)];
    var v := Arr(xs);
    assert RemoveEmptyItems(v, xs[4..]) == [Int(1)];
    assert xs[3..][1..] == xs[4..];
    assert RemoveEmptyItems(v, xs[3..]) == [Int(1)];
    assert xs[2..][1..] == xs[3..];
    assert RemoveEmptyItems(v, xs[2..]) == [Int(1)];
    assert xs[1..][1..] == xs[2..];
    assert RemoveEmptyItems(v, xs[1..]) == [Int(1)];
  }

  /** A dict that becomes empty only through the recursion is kept, so the pass is not idempotent. */
  lemma EmptiedLaterKept()
    ensures RemoveEmpty(Obj([("x", Obj([("a", Obj([]))]))])) == Obj([("x", Obj([]))])
    ensures RemoveEmpty(RemoveEmpty(Obj([("x", Obj([("a", Obj([]))]))]))) == Obj([])
  {
    assert RemoveEmpty(Obj([("a", Obj([]))])) == Obj([]);
  }

  /** Dropping entries and items keeps a document free of the global keys. */
  lemma RemoveEmptyKeepsFree(v: Value, keys: set<string>)
    requires Free(v, keys)
    ensures Free(RemoveEmpty(v), keys)
    decreases v, 1
  {
    match v
    case Obj(entries) => RemoveEmptyEntriesKeepFree(v, entries, keys);
    case Arr(items) => RemoveEmptyItemsKeepFree(v, items, keys);
    case _ =>
  }

  lemma RemoveEmptyEntriesKeepFree(parent: Value, entries: seq<(string, Value)>, keys: set<string>)
    requires forall i :: 0 <= i < |entries| ==> entries[i].1 < parent
    requires EntriesFree(entries, keys)
    ensures EntriesFree(RemoveEmptyEntries(parent, entries), keys)
    decreases parent, 0, |entries|
  {
    if entries != [] {
      assert entries[0] in entries;
      RemoveEmptyKeepsFree(entries[0].1, keys);
      RemoveEmptyEntriesKeepFree(parent, entries[1..], keys);
    }
  }

  lemma RemoveEmptyItemsKeepFree(parent: Value, items: seq<Value>, keys: set<string>)
    requires forall i :: 0 <= i < |items| ==> items[i] < parent
    requires ItemsFree(items, keys)
    ensures ItemsFree(RemoveEmptyItems(parent, items), keys)
    decreases parent, 0, |items|
  {
    if items != [] {
      assert items[0] in items;
      RemoveEmptyKeepsFree(items[0], keys);
      RemoveEmptyItemsKeepFree(parent, items[1..], keys);
    }
  }

  // ---------------------------------------------------------------- clean_yaml

  /** `clean_yaml` on the loaded document: globals, then statics, then the CNPG filter, then empty removal. */
  function CleanYaml(c: Cleaner, data: Value): (r: Result<Value>)
    ensures r.Ok? <==> FilterCnpg(Statics(Globals(data, c.globals), [], c.statics)).Ok?
  {
    match FilterCnpg(Statics(Globals(data, c.globals), [], c.statics))
    case Err(e) => Err(e)
    case Ok(filtered) => Ok(RemoveEmpty(filtered))
  }

  /**
   * The cleaned document holds no global removal key anywhere: with the
   * default cleaner, or any other whose removal keys do not include `items`.
   */
  lemma CleanYamlFree(c: Cleaner, data: Value)
    requires "items" !in c.globals
    requires CleanYaml(c, data).Ok?
    ensures Free(CleanYaml(c, data).value, c.globals)
  {
    var g := Globals(data, c.globals);
    GlobalsFree(data, c.globals);
    var s := Statics(g, [], c.statics);
    StaticsKeepsFree(g, [], c.statics, c.globals);
    var f := FilterCnpg(s).value;
    FilterKeepsFree(s, c.globals);
    RemoveEmptyKeepsFree(f, c.globals);
  }

  /** The same for the cleaner built with no arguments. */
  lemma DefaultCleanYamlFree(data: Value)
    requires CleanYaml(NewCleaner(None, None), data).Ok?
    ensures Free(CleanYaml(NewCleaner(None, None), data).value, DefaultGlobals)
  {
    var c := NewCleaner(None, None);
    ItemsNotGlobal();
    CleanYamlFree(c, data);
  }

  /** `items` is not one of the default global removal keys. */
  lemma ItemsNotGlobal()
    ensures "items" !in DefaultGlobals
  {
    assert forall k :: k in DefaultGlobals ==> k[0] != 'i';
  }

  lemma FilterKeepsFree(data: Value, keys: set<string>)
    requires "items" !in keys && Free(data, keys) && FilterCnpg(data).Ok?
    ensures Free(FilterCnpg(data).value, keys)
  {
    var items := Items(data);
    var kept := Sorting.Filter(Iterated(items).value, Unmanaged());
    if Lookup(data.entries, "items").Some? {
      assert (("items", items)) in data.entries;
      var j :| 0 <= j < |data.entries| && data.entries[j] == ("items", items);
      assert Free(items, keys);
    }
    forall k | 0 <= k < |kept| ensures Free(kept[k], keys) {
      assert kept[k] in Iterated(items).value;
      if items.Arr? {
        assert kept[k] in items.items;
      }
    }
    SetFree(data.entries, Arr(kept), keys);
  }

  lemma {:induction false} SetFree(entries: seq<(string, Value)>, value: Value, keys: set<string>)
    requires "items" !in keys && Free(value, keys)
    requires EntriesFree(entries, keys)
    ensures EntriesFree(Set(entries, "items", value), keys)
    decreases |entries|
  {
    if entries != [] && entries[0].0 != "items" {
      SetFree(entries[1..], value, keys);
    }
  }
}

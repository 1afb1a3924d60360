/**
 * `KubePVCFetcher`: the record of every PVC in the cluster, keyed by the
 * name of its volume (`None` for a PVC not bound to one), and the queries
 * over it. The PVC and PV listings are inputs; a failing listing raises and
 * is not part of this model.
 */
module PvcFetch {
  import opened Wrappers
  import Sorting

  /**
   * The fields of a PVC the record reads. `volumeName` is `None` for a PVC not
   * yet bound to a volume, and `labels` is `None` for a PVC without labels.
   */
  datatype Pvc = Pvc(volumeName: Option<string>, labels: Option<map<string, string>>, name: string, namespace: string,
                     storage: Option<string>, storageClass: string, volumeMode: string, phase: string,
                     ownerKinds: seq<string>)

  /** A PV's CSI source; its `volume_attributes` may be `None`. */
  datatype Csi = Csi(attributes: Option<map<string, string>>)

  /** A PV's spec: its CSI source, if it has one. */
  datatype PvSpec = PvSpec(csi: Option<Csi>, reclaimPolicy: string, storageClass: string)

  datatype Pv = Pv(name: string, spec: Option<PvSpec>)

  /** The record `_extract_pvc_info` builds. */
  datatype PvcInfo = PvcInfo(appName: string, pvcName: string, namespace: string, datasetPath: Option<string>,
                             storageRequest: string, storageClass: string, volumeMode: string, phase: string,
                             reclaimPolicy: string, pvStorageClass: string, cnpg: bool)

  const Unknown := "Unknown"
  const PoolAttribute := "openebs.io/poolname"
  const ReleaseLabel := "release"

  /** The `AttributeError` of calling `.get` on `None`. */
  const NoneGet := "'NoneType' object has no attribute 'get'"

  /** The `TypeError` the `type_check` decorator raises for a `None` volume name. */
  const VolumeNotString := "Argument 'volume_name' must be <class 'str'>, got NoneType"

  // ---------------------------------------------------------------- the PV index

  /** `{pv.metadata.name: pv for pv in ...}`: a later PV of the same name replaces an earlier one. */
  function PvIndex(pvs: seq<Pv>): (r: map<string, Pv>)
    ensures forall n :: n in r <==> exists k :: 0 <= k < |pvs| && pvs[k].name == n
    decreases |pvs|
  {
    if pvs == [] then map[]
    else
      var init := PvIndex(pvs[..|pvs| - 1]);
      var last := pvs[|pvs| - 1];
      assert forall k :: 0 <= k < |pvs| - 1 ==> pvs[..|pvs| - 1][k] == pvs[k];
      init[last.name := last]
  }

  /** The PV of a name is the last one listed under it. */
  lemma {:induction false} PvIndexLast(pvs: seq<Pv>, k: nat)
    requires k < |pvs| && forall j :: k < j < |pvs| ==> pvs[j].name != pvs[k].name
    ensures PvIndex(pvs)[pvs[k].name] == pvs[k]
    decreases |pvs|
  {
    if k < |pvs| - 1 {
      var init := pvs[..|pvs| - 1];
      assert init[k] == pvs[k];
      PvIndexLast(init, k);
    }
  }

  // ---------------------------------------------------------------- _extract_pvc_info

  /** `pvs.get(volume_name, None)`: an unbound PVC finds no PV. */
  function PvOf(pvc: Pvc, pvs: map<string, Pv>): (r: Option<Pv>)
    ensures r.Some? <==> pvc.volumeName.Some? && pvc.volumeName.value in pvs
  {
    if pvc.volumeName.Some? && pvc.volumeName.value in pvs then Some(pvs[pvc.volumeName.value]) else None
  }

  /** The PV of a PVC has a spec with a CSI source. */
  predicate HasCsi(pvc: Pvc, pvs: map<string, Pv>) {
    PvOf(pvc, pvs).Some? && PvOf(pvc, pvs).value.spec.Some? && PvOf(pvc, pvs).value.spec.value.csi.Some?
  }

  /** The CSI `volume_attributes` of the PVC's PV. */
  function Attributes(pvc: Pvc, pvs: map<string, Pv>): Option<map<string, string>>
    requires HasCsi(pvc, pvs)
  {
    PvOf(pvc, pvs).value.spec.value.csi.value.attributes
  }

  /**
   * `_extract_pvc_info` raises: `volume_attributes.get` on a CSI source whose
   * attributes are `None`, or `labels.get` on a PVC without labels.
   */
  predicate Unreadable(pvc: Pvc, pvs: map<string, Pv>) {
    (HasCsi(pvc, pvs) && Attributes(pvc, pvs).None?) || pvc.labels.None?
  }

  /** The pool named in the CSI attributes, `Unknown` when there is none. */
  function Pool(attributes: map<string, string>): string {
    if PoolAttribute in attributes then attributes[PoolAttribute] else Unknown
  }

  predicate Owned(pvc: Pvc) {
    exists k :: 0 <= k < |pvc.ownerKinds| && pvc.ownerKinds[k] == "Cluster"
  }

  function ExtractPvcInfo(pvc: Pvc, pvs: map<string, Pv>): (r: Result<PvcInfo>)
    ensures r.Err? <==> Unreadable(pvc, pvs)
    ensures r.Err? ==> r.error == NoneGet
    ensures r.Ok? ==> (r.value.datasetPath.Some? <==> HasCsi(pvc, pvs))
    ensures r.Ok? && HasCsi(pvc, pvs) ==>
              r.value.datasetPath.value == Pool(Attributes(pvc, pvs).value) + "/" + pvc.volumeName.value
    ensures r.Ok? ==> (r.value.cnpg <==> "Cluster" in pvc.ownerKinds)
    ensures r.Ok? ==> r.value.appName == (if ReleaseLabel in pvc.labels.value then pvc.labels.value[ReleaseLabel] else Unknown)
    ensures r.Ok? ==> r.value.pvcName == pvc.name && r.value.namespace == pvc.namespace
    ensures r.Ok? && !(PvOf(pvc, pvs).Some? && PvOf(pvc, pvs).value.spec.Some?) ==>
              r.value.reclaimPolicy == Unknown && r.value.pvStorageClass == Unknown
  {
    var pv := PvOf(pvc, pvs);
    var spec := if pv.Some? then pv.value.spec else None;
    if HasCsi(pvc, pvs) && Attributes(pvc, pvs).None? then Err(NoneGet)
    else
      var datasetPath := if HasCsi(pvc, pvs) then Some(Pool(Attributes(pvc, pvs).value) + "/" + pvc.volumeName.value) else None;
      match pvc.labels
      case None => Err(NoneGet)
      case Some(labels) =>
        Ok(PvcInfo(if ReleaseLabel in labels then labels[ReleaseLabel] else Unknown,
                   pvc.name,
                   pvc.namespace,
                   datasetPath,
                   if pvc.storage.Some? then pvc.storage.value else Unknown,
                   pvc.storageClass,
                   pvc.volumeMode,
                   pvc.phase,
                   if spec.Some? then spec.value.reclaimPolicy else Unknown,
                   if spec.Some? then spec.value.storageClass else Unknown,
                   Owned(pvc)))
  }

  // ---------------------------------------------------------------- _fetch_pvc_data

  /** The `pvc_data` dict: its keys in insertion order and its values. An unbound PVC's key is `None`. */
  datatype PvcData = PvcData(keys: seq<Option<string>>, info: map<Option<string>, PvcInfo>)

  /** A dict's keys are distinct and are exactly its domain. */
  predicate Valid(d: PvcData) {
    Sorting.Distinct(d.keys) && (forall v :: v in d.keys ==> v in d.info) && (forall v :: v in d.info ==> v in d.keys)
  }

  /**
   * The dict `_fetch_pvc_data` builds from the PVC listing, one assignment per
   * PVC; the first PVC `_extract_pvc_info` raises on ends the fetch.
   */
  function PvcMapping(pvcs: seq<Pvc>, pvs: map<string, Pv>): (r: Result<PvcData>)
    decreases |pvcs|
  {
    if pvcs == [] then Ok(PvcData([], map[]))
    else
      match PvcMapping(pvcs[..|pvcs| - 1], pvs)
      case Err(e) => Err(e)
      case Ok(d) =>
        var last := pvcs[|pvcs| - 1];
        match ExtractPvcInfo(last, pvs)
        case Err(e) => Err(e)
        case Ok(info) =>
          Ok(PvcData(if last.volumeName in d.info then d.keys else d.keys + [last.volumeName],
                     d.info[last.volumeName := info]))
  }

  /** Some listed PVC is unreadable. */
  predicate AnyUnreadable(pvcs: seq<Pvc>, pvs: map<string, Pv>) {
    exists k :: 0 <= k < |pvcs| && Unreadable(pvcs[k], pvs)
  }

  lemma AnyUnreadableSnoc(init: seq<Pvc>, last: Pvc, pvs: map<string, Pv>)
    ensures AnyUnreadable(init + [last], pvs) <==> AnyUnreadable(init, pvs) || Unreadable(last, pvs)
  {
    var pvcs := init + [last];
    if AnyUnreadable(init, pvs) {
      var k :| 0 <= k < |init| && Unreadable(init[k], pvs);
      assert pvcs[k] == init[k];
    }
    if Unreadable(last, pvs) {
      assert pvcs[|init|] == last;
    }
    if AnyUnreadable(pvcs, pvs) {
      var k :| 0 <= k < |pvcs| && Unreadable(pvcs[k], pvs);
      if k < |init| {
        assert init[k] == pvcs[k];
      }
    }
  }

  /** The fetch raises `AttributeError` iff some listed PVC is unreadable. */
  lemma {:induction false} PvcMappingFails(pvcs: seq<Pvc>, pvs: map<string, Pv>)
    ensures PvcMapping(pvcs, pvs).Err? <==> AnyUnreadable(pvcs, pvs)
    ensures PvcMapping(pvcs, pvs).Err? ==> PvcMapping(pvcs, pvs).error == NoneGet
    decreases |pvcs|
  {
    if pvcs != [] {
      var init := pvcs[..|pvcs| - 1];
      var last := pvcs[|pvcs| - 1];
      PvcMappingFails(init, pvs);
      assert pvcs == init + [last];
      AnyUnreadableSnoc(init, last, pvs);
    }
  }

  /** The dict is well formed: each volume is a key once. */
  lemma {:induction false} PvcMappingValid(pvcs: seq<Pvc>, pvs: map<string, Pv>)
    requires PvcMapping(pvcs, pvs).Ok?
    ensures Valid(PvcMapping(pvcs, pvs).value)
    decreases |pvcs|
  {
    if pvcs != [] {
      var init := pvcs[..|pvcs| - 1];
      PvcMappingValid(init, pvs);
      var d := PvcMapping(init, pvs).value;
      var v := pvcs[|pvcs| - 1].volumeName;
      if v !in d.info {
        assert v !in d.keys;
        var keys := d.keys + [v];
        assert forall i :: 0 <= i < |d.keys| ==> keys[i] == d.keys[i] && keys[i] != v;
      }
    }
  }

  /** The dict holds a key for exactly the volumes some PVC names, `None` for an unbound one. */
  lemma {:induction false} PvcMappingKeys(pvcs: seq<Pvc>, pvs: map<string, Pv>)
    requires PvcMapping(pvcs, pvs).Ok?
    ensures forall v :: v in PvcMapping(pvcs, pvs).value.info <==> NamedByPvc(pvcs, v)
    decreases |pvcs|
  {
    if pvcs != [] {
      var init := pvcs[..|pvcs| - 1];
      var last := pvcs[|pvcs| - 1];
      var before := PvcMapping(init, pvs).value.info;
      var after := PvcMapping(pvcs, pvs).value.info;
      assert after == before[last.volumeName := ExtractPvcInfo(last, pvs).value];
      PvcMappingKeys(init, pvs);
      forall w ensures w in after <==> NamedByPvc(pvcs, w) {
        PvcMappingKeysStep(init, last, pvcs, w, w in before);
      }
    }
  }

  /** Some PVC of the list names the volume `v`. */
  predicate NamedByPvc(pvcs: seq<Pvc>, v: Option<string>) {
    exists k :: 0 <= k < |pvcs| && pvcs[k].volumeName == v
  }

  lemma PvcMappingKeysStep(init: seq<Pvc>, last: Pvc, pvcs: seq<Pvc>, w: Option<string>, before: bool)
    requires pvcs == init + [last]
    requires before <==> NamedByPvc(init, w)
    ensures before || w == last.volumeName <==> NamedByPvc(pvcs, w)
  {
    if before {
      var k :| 0 <= k < |init| && init[k].volumeName == w;
      assert pvcs[k] == init[k];
    }
    if w == last.volumeName {
      assert pvcs[|init|] == last;
    }
    if exists k :: 0 <= k < |pvcs| && pvcs[k].volumeName == w {
      var k :| 0 <= k < |pvcs| && pvcs[k].volumeName == w;
      if k < |init| {
        assert init[k] == pvcs[k];
      }
    }
  }

  /** A later PVC of the same volume overwrites an earlier one. */
  lemma {:induction false} PvcMappingLast(pvcs: seq<Pvc>, pvs: map<string, Pv>, k: nat)
    requires PvcMapping(pvcs, pvs).Ok?
    requires k < |pvcs| && forall j :: k < j < |pvcs| ==> pvcs[j].volumeName != pvcs[k].volumeName
    ensures ExtractPvcInfo(pvcs[k], pvs).Ok?
    ensures pvcs[k].volumeName in PvcMapping(pvcs, pvs).value.info
    ensures PvcMapping(pvcs, pvs).value.info[pvcs[k].volumeName] == ExtractPvcInfo(pvcs[k], pvs).value
    decreases |pvcs|
  {
    if k < |pvcs| - 1 {
      var init := pvcs[..|pvcs| - 1];
      assert init[k] == pvcs[k];
      PvcMappingLast(init, pvs, k);
    }
  }

  /** `_fetch_pvc_data`: the PV index, then one assignment per PVC in listing order; an unreadable PVC raises. */
  method FetchPvcData(pvcs: seq<Pvc>, pvs: seq<Pv>) returns (r: Result<PvcData>)
    ensures r == PvcMapping(pvcs, PvIndex(pvs))
    ensures r.Err? <==> AnyUnreadable(pvcs, PvIndex(pvs))
    ensures r.Ok? ==> Valid(r.value)
  {
    var index := PvIndex(pvs);
    var d := PvcData([], map[]);
    for i := 0 to |pvcs|
      invariant PvcMapping(pvcs[..i], index) == Ok(d)
    {
      var pvc := pvcs[i];
      assert pvcs[..i + 1][..i] == pvcs[..i];
      var info := ExtractPvcInfo(pvc, index);
      if info.Err? {
        UnreadableFails(pvcs, index, i);
        return Err(NoneGet);
      }
      if pvc.volumeName !in d.info {
        d := d.(keys := d.keys + [pvc.volumeName]);
      }
      d := d.(info := d.info[pvc.volumeName := info.value]);
    }
    assert pvcs[..|pvcs|] == pvcs;
    PvcMappingValid(pvcs, index);
    PvcMappingFails(pvcs, index);
    r := Ok(d);
  }

  /** An unreadable PVC makes the whole fetch raise. */
  lemma UnreadableFails(pvcs: seq<Pvc>, pvs: map<string, Pv>, i: nat)
    requires i < |pvcs| && Unreadable(pvcs[i], pvs)
    ensures PvcMapping(pvcs, pvs) == Err(NoneGet) && AnyUnreadable(pvcs, pvs)
  {
    PvcMappingFails(pvcs, pvs);
  }

  // ---------------------------------------------------------------- queries

  /** `has_pvc`: some record's `app_name` is `app`. */
  predicate HasPvc(d: PvcData, app: string) {
    exists v :: v in d.info && d.info[v].appName == app
  }

  /** A recorded app is the release label of some listed PVC, or `Unknown` for one without that label. */
  lemma HasPvcFromListing(pvcs: seq<Pvc>, pvs: map<string, Pv>, app: string)
    requires PvcMapping(pvcs, pvs).Ok? && HasPvc(PvcMapping(pvcs, pvs).value, app)
    ensures exists k :: 0 <= k < |pvcs| && ExtractPvcInfo(pvcs[k], pvs).Ok? && ExtractPvcInfo(pvcs[k], pvs).value.appName == app
  {
    PvcMappingValues(pvcs, pvs);
  }

  /** Conversely, the app of the last listed PVC of a volume is recorded. */
  lemma HasPvcOfListing(pvcs: seq<Pvc>, pvs: map<string, Pv>, k: nat, app: string)
    requires PvcMapping(pvcs, pvs).Ok?
    requires k < |pvcs| && forall j :: k < j < |pvcs| ==> pvcs[j].volumeName != pvcs[k].volumeName
    requires pvcs[k].labels.Some?
    requires (if ReleaseLabel in pvcs[k].labels.value then pvcs[k].labels.value[ReleaseLabel] else Unknown) == app
    ensures HasPvc(PvcMapping(pvcs, pvs).value, app)
  {
    PvcMappingLast(pvcs, pvs, k);
  }

  lemma {:induction false} PvcMappingValues(pvcs: seq<Pvc>, pvs: map<string, Pv>)
    requires PvcMapping(pvcs, pvs).Ok?
    ensures forall v :: v in PvcMapping(pvcs, pvs).value.info ==>
              exists k :: 0 <= k < |pvcs| && ExtractPvcInfo(pvcs[k], pvs) == Ok(PvcMapping(pvcs, pvs).value.info[v])
    decreases |pvcs|
  {
    if pvcs != [] {
      var init := pvcs[..|pvcs| - 1];
      PvcMappingValues(init, pvs);
      var d := PvcMapping(init, pvs).value;
      var last := pvcs[|pvcs| - 1];
      var after := PvcMapping(pvcs, pvs).value.info;
      forall v | v in after
        ensures exists k :: 0 <= k < |pvcs| && ExtractPvcInfo(pvcs[k], pvs) == Ok(after[v])
      {
        if v == last.volumeName {
          assert ExtractPvcInfo(pvcs[|pvcs| - 1], pvs) == Ok(after[v]);
        } else {
          var k :| 0 <= k < |init| && ExtractPvcInfo(init[k], pvs) == Ok(d.info[v]);
          assert init[k] == pvcs[k];
        }
      }
    }
  }

  /** The test `info['namespace'] == namespace` on a key of the dict. */
  function InNamespace(d: PvcData, namespace: string): Option<string> -> bool {
    v => v in d.info && d.info[v].namespace == namespace
  }

  /** `get_pv_names_by_namespace`: the keys whose record is in the namespace, in insertion order, `None` included. */
  function PvNamesByNamespace(d: PvcData, namespace: string): (r: seq<Option<string>>)
    ensures forall v :: v in r <==> v in d.keys && v in d.info && d.info[v].namespace == namespace
  {
    Sorting.Filter(d.keys, InNamespace(d, namespace))
  }

  /**
   * An unbound PVC in the namespace, the last one listed without a volume,
   * puts the key `None` among the namespace's volumes.
   */
  lemma UnboundListed(pvcs: seq<Pvc>, pvs: map<string, Pv>, k: nat)
    requires PvcMapping(pvcs, pvs).Ok? && Valid(PvcMapping(pvcs, pvs).value)
    requires k < |pvcs| && pvcs[k].volumeName.None? && forall j :: k < j < |pvcs| ==> pvcs[j].volumeName.Some?
    ensures None in PvNamesByNamespace(PvcMapping(pvcs, pvs).value, pvcs[k].namespace)
  {
    PvcMappingLast(pvcs, pvs, k);
  }

  /** `get_volume_paths_by_namespace`: the dataset path of each of those records, in the same order. */
  function VolumePathsByNamespace(d: PvcData, namespace: string): (r: seq<Option<string>>)
    ensures |r| == |PvNamesByNamespace(d, namespace)|
    ensures forall k :: 0 <= k < |r| ==>
              PvNamesByNamespace(d, namespace)[k] in d.info && r[k] == d.info[PvNamesByNamespace(d, namespace)[k]].datasetPath
  {
    var names := PvNamesByNamespace(d, namespace);
    seq(|names|, k requires 0 <= k < |names| => d.info[names[k]].datasetPath)
  }

  /** `get_pvc_name_by_volume_name`: the PVC's name, `Unknown` for a volume with no record. */
  function PvcNameByVolume(d: PvcData, volume: string): (r: string)
    ensures Some(volume) in d.info ==> r == d.info[Some(volume)].pvcName
    ensures Some(volume) !in d.info ==> r == Unknown
  {
    if Some(volume) in d.info then d.info[Some(volume)].pvcName else Unknown
  }

  /**
   * `is_cnpg`: the `type_check` decorator raises `TypeError` for a `None`
   * volume; otherwise the volume's PVC is owned by a `Cluster`, false for a
   * volume with no record.
   */
  function IsCnpg(d: PvcData, volume: Option<string>): (r: Result<bool>)
    ensures r.Err? <==> volume.None?
    ensures r.Err? ==> r.error == VolumeNotString
    ensures r.Ok? ==> (r.value <==> volume in d.info && d.info[volume].cnpg)
  {
    if volume.None? then Err(VolumeNotString) else Ok(volume in d.info && d.info[volume].cnpg)
  }

  /** In a fetched record, the CNPG flag of a bound volume is whether its last PVC is owned by a `Cluster`. */
  lemma IsCnpgOfListing(pvcs: seq<Pvc>, pvs: seq<Pv>, k: nat, volume: string)
    requires PvcMapping(pvcs, PvIndex(pvs)).Ok?
    requires k < |pvcs| && pvcs[k].volumeName == Some(volume)
    requires forall j :: k < j < |pvcs| ==> pvcs[j].volumeName != pvcs[k].volumeName
    ensures IsCnpg(PvcMapping(pvcs, PvIndex(pvs)).value, Some(volume)) == Ok("Cluster" in pvcs[k].ownerKinds)
    ensures PvcNameByVolume(PvcMapping(pvcs, PvIndex(pvs)).value, volume) == pvcs[k].name
  {
    PvcMappingLast(pvcs, PvIndex(pvs), k);
  }
}

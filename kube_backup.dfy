/**
 * `KubeBackupResources`: saving an app's secrets, PV and ZFS volume
 * manifests, namespace and CRDs under its backup directory. The middleware
 * query, each `kubectl get`, each export and each file write are inputs;
 * a fetched manifest is given as the document it loads as.
 */
module KubeBackup {
  import opened Wrappers
  import opened Strings
  import Sorting
  import opened Json
  import opened Paths
  import Cnpg
  import YamlCleaner
  import PvcFetch

  /** The fields the constructor derives: the app, its backup directory and its namespace. */
  datatype Resources = Resources(app: string, backupDir: string)

  /** `self.namespace`. */
  function ResourcesNamespace(r: Resources): (ns: string)
    ensures ns == "ix-" + r.app
  {
    Cnpg.Namespace(r.app)
  }

  /** The outcome of one `kubectl get ... -o yaml`: the loaded output, or the error text. */
  datatype Fetched = Fetched(doc: Value) | FetchFailed(error: string)

  const CnpgApi := "postgresql.cnpg.io/v1"
  const NoAttribute := "object has no attribute 'get'"
  const NotIterable := "object is not iterable"
  const NotSubscriptable := "object is not subscriptable"

  // ---------------------------------------------------------------- backup_secrets

  /** Some owner reference in `owners` carries the CNPG `apiVersion`. */
  predicate CnpgOwned(owners: seq<Value>) {
    exists k :: 0 <= k < |owners| && Get(owners[k], "apiVersion") == Some(Str(CnpgApi))
  }

  predicate AllObjects(owners: seq<Value>) {
    forall k :: 0 <= k < |owners| ==> owners[k].Obj?
  }

  /**
   * The loop over the owner references: the first CNPG owner excludes the
   * secret (the log line reads `metadata.name`, which raises when missing);
   * an owner that is not a dict raises.
   */
  function ScanOwners(owners: seq<Value>, meta: Value): (r: Result<bool>)
    ensures r == Ok(true) ==> CnpgOwned(owners)
    ensures AllObjects(owners) && HasKey(meta, "name") ==> r == Ok(CnpgOwned(owners))
    decreases |owners|
  {
    if owners == [] then Ok(false)
    else if !owners[0].Obj? then Err(NoAttribute)
    else if Get(owners[0], "apiVersion") == Some(Str(CnpgApi)) then
      if HasKey(meta, "name") then Ok(true) else Err("'name'")
    else
      var rest := ScanOwners(owners[1..], meta);
      assert forall k :: 1 <= k < |owners| ==> owners[k] == owners[1..][k - 1];
      assert CnpgOwned(owners[1..]) ==> CnpgOwned(owners);
      assert CnpgOwned(owners) ==> CnpgOwned(owners[1..]);
      rest
  }

  /** `secret.get('metadata', {})`. */
  function Meta(secret: Value): Value {
    GetOr(secret, "metadata", Obj([]))
  }

  /** `....get('ownerReferences', [])` on the metadata. */
  function OwnerRefs(secret: Value): Value {
    GetOr(Meta(secret), "ownerReferences", Arr([]))
  }

  /**
   * `_should_exclude_secret`: the owner references are read with defaults
   * (`metadata` as `{}`, `ownerReferences` as `[]`); iterating an empty
   * dict or string finds nothing, any other non-list raises. For a secret
   * whose metadata is a dict with a name and whose owner references are a
   * list of dicts, it is excluded exactly when some owner reference has the
   * CNPG `apiVersion`.
   */
  function ShouldExcludeSecret(secret: Value): (r: Result<bool>)
    ensures secret.Obj? && !HasKey(secret, "metadata") ==> r == Ok(false)
    ensures secret.Obj? && Meta(secret).Obj? && HasKey(Meta(secret), "name")
            && OwnerRefs(secret).Arr? && AllObjects(OwnerRefs(secret).items) ==>
              r == Ok(CnpgOwned(OwnerRefs(secret).items))
    ensures r == Ok(true) ==> OwnerRefs(secret).Arr? && CnpgOwned(OwnerRefs(secret).items)
  {
    if !secret.Obj? then Err(NoAttribute)
    else
      var meta := Meta(secret);
      if !meta.Obj? then Err(NoAttribute)
      else
        match OwnerRefs(secret)
        case Arr(owners) => ScanOwners(owners, meta)
        case Obj(entries) => if entries == [] then Ok(false) else Err(NoAttribute)
        case Str(s) => if s == [] then Ok(false) else Err(NoAttribute)
        case _ => Err(NotIterable)
  }

  /** The filter of `backup_secrets`: non-empty `data`, and then not excluded (the `and` short-circuits). */
  function KeepSecret(secret: Value): (r: Result<bool>)
    ensures r == Ok(true) <==> secret.Obj? && Truthy(GetOr(secret, "data", Null)) && ShouldExcludeSecret(secret) == Ok(false)
    ensures secret.Obj? && !Truthy(GetOr(secret, "data", Null)) ==> r == Ok(false)
  {
    if !secret.Obj? then Err(NoAttribute)
    else if !Truthy(GetOr(secret, "data", Null)) then Ok(false)
    else
      match ShouldExcludeSecret(secret)
      case Ok(excluded) => Ok(!excluded)
      case Err(e) => Err(e)
  }

  /** `filter(...)` materialised: the kept secrets in order, or the first error raised. */
  function KeptSecrets(secrets: seq<Value>): (r: Result<seq<Value>>)
    ensures r.Ok? <==> forall k :: 0 <= k < |secrets| ==> KeepSecret(secrets[k]).Ok?
    ensures r.Ok? ==> forall s :: s in r.value <==> s in secrets && KeepSecret(s) == Ok(true)
    decreases |secrets|
  {
    if secrets == [] then Ok([])
    else
      var rest := KeptSecrets(secrets[1..]);
      assert forall k :: 1 <= k < |secrets| ==> secrets[k] == secrets[1..][k - 1];
      assert secrets == [secrets[0]] + secrets[1..];
      match KeepSecret(secrets[0])
      case Err(e) => Err(e)
      case Ok(keep) =>
        if rest.Err? then rest
        else Ok((if keep then [secrets[0]] else []) + rest.value)
  }

  /** `d['metadata']['name']`, the sort key and file name; a missing or non-string name raises. */
  function SecretName(secret: Value): Result<string> {
    match Get(secret, "metadata")
    case None => Err("'metadata'")
    case Some(meta) =>
      if !meta.Obj? then Err(NotSubscriptable)
      else
        match Get(meta, "name")
        case Some(Str(name)) => Ok(name)
        case Some(_) => Err("'<' not supported between instances")
        case None => Err("'name'")
  }

  function NameOf(secret: Value): string {
    match SecretName(secret)
    case Ok(name) => name
    case Err(_) => ""
  }

  /** The sort order: by name, as Python compares strings. */
  function ByName(): (Value, Value) -> bool {
    (a: Value, b: Value) => Sorting.StrLe(NameOf(a), NameOf(b))
  }

  lemma ByNameOrder()
    ensures Sorting.TotalPreorder(ByName())
  {
    Sorting.StrLeOrder();
  }

  predicate AllNamed(secrets: seq<Value>) {
    forall k :: 0 <= k < |secrets| ==> SecretName(secrets[k]).Ok?
  }

  /** The secrets `backup_secrets` writes, in the order it writes them; an error when the filter or the sort raises. */
  function SelectSecrets(secrets: seq<Value>): (r: Result<seq<Value>>)
    ensures r.Ok? <==> KeptSecrets(secrets).Ok? && AllNamed(KeptSecrets(secrets).value)
    ensures r.Ok? ==> multiset(r.value) == multiset(KeptSecrets(secrets).value)
  {
    match KeptSecrets(secrets)
    case Err(e) => Err(e)
    case Ok(kept) =>
      if AllNamed(kept) then Ok(Sorting.SortBy(kept, ByName())) else Err("'name'")
  }

  /**
   * The selection is exactly the secrets with non-empty data that are not
   * excluded, every one of them named, sorted by name.
   */
  lemma SelectSecretsMeans(secrets: seq<Value>)
    requires SelectSecrets(secrets).Ok?
    ensures var r := SelectSecrets(secrets).value;
            (forall s :: s in r <==> s in secrets && KeepSecret(s) == Ok(true))
            && (forall k :: 0 <= k < |r| ==> SecretName(r[k]).Ok?)
            && (forall i, j :: 0 <= i < j < |r| ==> Sorting.StrLe(NameOf(r[i]), NameOf(r[j])))
  {
    var kept := KeptSecrets(secrets).value;
    var r := SelectSecrets(secrets).value;
    ByNameOrder();
    Sorting.SortBySorted(kept, ByName());
    forall s ensures s in r <==> s in kept {
      assert s in r <==> s in multiset(r);
    }
    forall k | 0 <= k < |r| ensures SecretName(r[k]).Ok? {
      assert r[k] in multiset(r);
      var j :| 0 <= j < |kept| && kept[j] == r[k];
    }
    forall i, j | 0 <= i < j < |r| ensures Sorting.StrLe(NameOf(r[i]), NameOf(r[j])) {
      assert ByName()(r[i], r[j]);
    }
  }

  /** `secrets_dir / f"{name}.yaml"`. */
  function SecretFile(backupDir: string, secret: Value): string {
    backupDir + "/secrets/" + NameOf(secret) + ".yaml"
  }

  /** The files `backup_secrets` means to write: one per selected secret, with its export. */
  function SecretFiles(backupDir: string, selected: seq<Value>, exportYaml: Value -> Option<string>): (r: seq<(string, string)>)
    ensures |r| == |selected|
    ensures forall k :: 0 <= k < |r| ==>
              r[k].0 == SecretFile(backupDir, selected[k])
              && (exportYaml(selected[k]).Some? ==> Some(r[k].1) == exportYaml(selected[k]))
  {
    seq(|selected|, k requires 0 <= k < |selected| =>
      (SecretFile(backupDir, selected[k]), match exportYaml(selected[k]) case Some(y) => y case None => ""))
  }

  /** Every selected secret exports and its file is written. */
  predicate AllSaved(backupDir: string, selected: seq<Value>, exportYaml: Value -> Option<string>, writeOk: string -> bool) {
    forall k :: 0 <= k < |selected| ==> exportYaml(selected[k]).Some? && writeOk(SecretFile(backupDir, selected[k]))
  }

  /**
   * `backup_secrets`: the query (absent when the middleware call raises),
   * the selection, then one exportYaml and one write per secret. Any exception
   * ends the backup with False, leaving the files already written.
   */
  method BackupSecrets(backupDir: string, query: Option<seq<Value>>, exportYaml: Value -> Option<string>,
                       writeOk: string -> bool)
    returns (ok: bool, written: seq<(string, string)>)
    ensures ok <==> query.Some? && SelectSecrets(query.value).Ok?
                    && AllSaved(backupDir, SelectSecrets(query.value).value, exportYaml, writeOk)
    ensures query.Some? && SelectSecrets(query.value).Ok? ==>
              written <= SecretFiles(backupDir, SelectSecrets(query.value).value, exportYaml)
    ensures ok ==> written == SecretFiles(backupDir, SelectSecrets(query.value).value, exportYaml)
    ensures !(query.Some? && SelectSecrets(query.value).Ok?) ==> written == []
  {
    if query.None? {
      return false, [];
    }
    var selection := SelectSecrets(query.value);
    if selection.Err? {
      return false, [];
    }
    ok, written := SaveSecrets(backupDir, selection.value, exportYaml, writeOk);
  }

  /** The loop of `backup_secrets`: export and write each selected secret, stopping at the first failure. */
  method SaveSecrets(backupDir: string, selected: seq<Value>, exportYaml: Value -> Option<string>,
                     writeOk: string -> bool)
    returns (ok: bool, written: seq<(string, string)>)
    ensures ok <==> AllSaved(backupDir, selected, exportYaml, writeOk)
    ensures written <= SecretFiles(backupDir, selected, exportYaml)
    ensures ok ==> written == SecretFiles(backupDir, selected, exportYaml)
  {
    written := [];
    ghost var files := SecretFiles(backupDir, selected, exportYaml);
    for i := 0 to |selected|
      invariant written == files[..i]
      invariant forall k :: 0 <= k < i ==> exportYaml(selected[k]).Some? && writeOk(SecretFile(backupDir, selected[k]))
    {
      var secret := selected[i];
      var yaml := exportYaml(secret);
      if yaml.None? {
        return false, written;
      }
      var file := SecretFile(backupDir, secret);
      if !writeOk(file) {
        return false, written;
      }
      assert files[i] == (file, yaml.value);
      written := written + [(file, yaml.value)];
      assert files[..i + 1] == files[..i] + [files[i]];
    }
    assert files[..|selected|] == files;
    ok := true;
  }

  // ---------------------------------------------------------------- backup_pvcs

  const NoPvcs := "No PVCs found for backup."

  /** The files of one volume: what was written and the errors recorded, or the exception that escapes. */
  datatype VolumeBackup = VolumeBackup(files: seq<(string, Value)>, errors: seq<string>, raised: Option<string>)

  function PvFileName(backupDir: string, pvc: string): string {
    backupDir + "/pv_zfs_volumes/" + pvc + "-pv.yaml"
  }

  function ZfsFileName(backupDir: string, pvc: string): string {
    backupDir + "/pv_zfs_volumes/" + pvc + "-zfsvolume.yaml"
  }

  /** The ZFS manifest never overwrites the PV manifest of the same claim. */
  lemma FileNamesDiffer(backupDir: string, pvc: string)
    ensures PvFileName(backupDir, pvc) != ZfsFileName(backupDir, pvc)
  {
    assert |PvFileName(backupDir, pvc)| != |ZfsFileName(backupDir, pvc)|;
  }

  /**
   * The ZFS half of one volume: `zfs_volume_data['items']` must exist
   * (a `KeyError` is recorded), the first item is saved when the list is
   * non-empty, a falsy value is recorded as a missing volume.
   */
  function ZfsPart(backupDir: string, pv: string, pvc: string, zfs: Fetched): (r: VolumeBackup)
    ensures r.raised.None? ==> |r.files| + |r.errors| == 1
    ensures |r.files| <= 1
    ensures r.files != [] ==> r.files[0].0 == ZfsFileName(backupDir, pvc)
    ensures zfs.FetchFailed? ==> r == VolumeBackup([], ["Error retrieving ZFS volume data for " + pv + ": " + zfs.error], None)
  {
    match zfs
    case FetchFailed(e) => VolumeBackup([], ["Error retrieving ZFS volume data for " + pv + ": " + e], None)
    case Fetched(data) =>
      if !data.Obj? then VolumeBackup([], [], Some(NotSubscriptable))
      else
        match Get(data, "items")
        case None => VolumeBackup([], ["Error processing PV " + pv + ": 'items'"], None)
        case Some(items) =>
          if !Truthy(items) then VolumeBackup([], ["No ZFS volume found for PV " + pv + "."], None)
          else
            match items
            case Arr(xs) => VolumeBackup([(ZfsFileName(backupDir, pvc), xs[0])], [], None)
            case Str(s) => VolumeBackup([(ZfsFileName(backupDir, pvc), Str([s[0]]))], [], None)
            case Obj(_) => VolumeBackup([], ["Error processing PV " + pv + ": 0"], None)
            case _ => VolumeBackup([], [], Some(NotSubscriptable))
  }

  /** The PV half of one volume: the cleaned manifest saved as `<pvc>-pv.yaml`, or the fetch error recorded. */
  function PvPart(backupDir: string, pv: string, pvc: string, fetched: Fetched): (r: VolumeBackup)
    ensures r.raised.None? ==> |r.files| + |r.errors| == 1
    ensures |r.files| <= 1
    ensures r.files != [] ==> r.files[0].0 == PvFileName(backupDir, pvc)
                              && YamlCleaner.Free(r.files[0].1, YamlCleaner.DefaultGlobals)
    ensures fetched.FetchFailed? ==> r == VolumeBackup([], ["Error retrieving PV data for " + pv + ": " + fetched.error], None)
  {
    match fetched
    case FetchFailed(e) => VolumeBackup([], ["Error retrieving PV data for " + pv + ": " + e], None)
    case Fetched(doc) =>
      var c := YamlCleaner.NewCleaner(None, None);
      match YamlCleaner.CleanYaml(c, doc)
      case Err(e) => VolumeBackup([], [], Some(e))
      case Ok(cleaned) =>
        YamlCleaner.DefaultCleanYamlFree(doc);
        VolumeBackup([(PvFileName(backupDir, pvc), cleaned)], [], None)
  }

  /** The file `f` is one of the two a volume whose PVC is `pvc` saves, and a PV manifest in it is cleaned. */
  predicate NamedFor(backupDir: string, pvc: string, f: (string, Value)) {
    (f.0 == PvFileName(backupDir, pvc) || f.0 == ZfsFileName(backupDir, pvc))
    && (f.0 == PvFileName(backupDir, pvc) ==> YamlCleaner.Free(f.1, YamlCleaner.DefaultGlobals))
  }

  /**
   * One iteration of the `backup_pvcs` loop. The `None` key of an unbound PVC
   * makes `is_cnpg` raise `TypeError`, which the loop's `except KeyError` does
   * not catch. A CNPG volume is skipped. The PV manifest is cleaned and saved
   * as `<pvc>-pv.yaml` or its fetch error recorded; a cleaning error escapes.
   * Then the ZFS volume part.
   */
  function VolumePart(d: PvcFetch.PvcData, backupDir: string, pv: Option<string>, pvGet: string -> Fetched,
                      zfsGet: string -> Fetched): (r: VolumeBackup)
    ensures pv.None? ==> r == VolumeBackup([], [], Some(PvcFetch.VolumeNotString))
    ensures PvcFetch.IsCnpg(d, pv) == Ok(true) ==> r == VolumeBackup([], [], None)
    ensures PvcFetch.IsCnpg(d, pv) == Ok(false) && r.raised.None? ==> |r.files| + |r.errors| == 2
    ensures forall k :: 0 <= k < |r.files| ==> pv.Some? && NamedFor(backupDir, PvcFetch.PvcNameByVolume(d, pv.value), r.files[k])
  {
    match PvcFetch.IsCnpg(d, pv)
    case Err(e) => VolumeBackup([], [], Some(e))
    case Ok(cnpg) => if cnpg then VolumeBackup([], [], None) else BoundVolumePart(d, backupDir, pv.value, pvGet, zfsGet)
  }

  /** A bound, non-CNPG volume: its PV part, then, unless that raised, its ZFS volume part. */
  function BoundVolumePart(d: PvcFetch.PvcData, backupDir: string, pv: string, pvGet: string -> Fetched,
                           zfsGet: string -> Fetched): (r: VolumeBackup)
    ensures r.raised.None? ==> |r.files| + |r.errors| == 2
    ensures forall k :: 0 <= k < |r.files| ==> NamedFor(backupDir, PvcFetch.PvcNameByVolume(d, pv), r.files[k])
  {
    var pvc := PvcFetch.PvcNameByVolume(d, pv);
    var first := PvPart(backupDir, pv, pvc, pvGet(pv));
    if first.raised.Some? then first
    else
      var second := ZfsPart(backupDir, pv, pvc, zfsGet(pv));
      FileNamesDiffer(backupDir, pvc);
      NamedJoin(backupDir, pvc, first.files, second.files);
      VolumeBackup(first.files + second.files, first.errors + second.errors, second.raised)
  }

  /** The files of the PV part and of the ZFS part, one after the other, are all named for the PVC. */
  lemma NamedJoin(backupDir: string, pvc: string, pvFiles: seq<(string, Value)>, zfsFiles: seq<(string, Value)>)
    requires |pvFiles| <= 1 && (pvFiles != [] ==> pvFiles[0].0 == PvFileName(backupDir, pvc)
                                                  && YamlCleaner.Free(pvFiles[0].1, YamlCleaner.DefaultGlobals))
    requires |zfsFiles| <= 1 && (zfsFiles != [] ==> zfsFiles[0].0 == ZfsFileName(backupDir, pvc))
    ensures forall k :: 0 <= k < |pvFiles + zfsFiles| ==> NamedFor(backupDir, pvc, (pvFiles + zfsFiles)[k])
  {
    FileNamesDiffer(backupDir, pvc);
  }

  /** The outcome of the volumes `pvs`, in order; the first exception stops the loop. */
  function PvcsBackup(d: PvcFetch.PvcData, backupDir: string, pvs: seq<Option<string>>, pvGet: string -> Fetched,
                      zfsGet: string -> Fetched): VolumeBackup
    decreases |pvs|
  {
    if pvs == [] then VolumeBackup([], [], None)
    else
      var prev := PvcsBackup(d, backupDir, pvs[..|pvs| - 1], pvGet, zfsGet);
      if prev.raised.Some? then prev
      else
        var step := VolumePart(d, backupDir, pvs[|pvs| - 1], pvGet, zfsGet);
        VolumeBackup(prev.files + step.files, prev.errors + step.errors, step.raised)
  }

  /**
   * `backup_pvcs`: the volumes of the app's namespace; none is reported as
   * the one error `No PVCs found for backup.`; otherwise each volume in turn.
   */
  method BackupPvcs(res: Resources, d: PvcFetch.PvcData, pvGet: string -> Fetched, zfsGet: string -> Fetched)
    returns (errors: seq<string>, files: seq<(string, Value)>, raised: Option<string>)
    ensures var pvs := PvcFetch.PvNamesByNamespace(d, ResourcesNamespace(res));
            && (pvs == [] ==> errors == [NoPvcs] && files == [] && raised.None?)
            && (pvs != [] ==> VolumeBackup(files, errors, raised) == PvcsBackup(d, res.backupDir, pvs, pvGet, zfsGet))
  {
    var pvs := PvcFetch.PvNamesByNamespace(d, ResourcesNamespace(res));
    if pvs == [] {
      return [NoPvcs], [], None;
    }
    errors, files, raised := [], [], None;
    for i := 0 to |pvs|
      invariant VolumeBackup(files, errors, None) == PvcsBackup(d, res.backupDir, pvs[..i], pvGet, zfsGet)
    {
      var step := VolumePart(d, res.backupDir, pvs[i], pvGet, zfsGet);
      PvcsBackupNext(d, res.backupDir, pvs, i, pvGet, zfsGet);
      files := files + step.files;
      errors := errors + step.errors;
      if step.raised.Some? {
        raised := step.raised;
        PvcsBackupStops(d, res.backupDir, pvs, i + 1, pvGet, zfsGet);
        return;
      }
    }
    assert pvs[..|pvs|] == pvs;
  }

  /** One more volume, after volumes that did not raise, adds that volume's part. */
  lemma PvcsBackupNext(d: PvcFetch.PvcData, backupDir: string, pvs: seq<Option<string>>, i: nat,
                       pvGet: string -> Fetched, zfsGet: string -> Fetched)
    requires i < |pvs| && PvcsBackup(d, backupDir, pvs[..i], pvGet, zfsGet).raised.None?
    ensures var prev := PvcsBackup(d, backupDir, pvs[..i], pvGet, zfsGet);
            var step := VolumePart(d, backupDir, pvs[i], pvGet, zfsGet);
            PvcsBackup(d, backupDir, pvs[..i + 1], pvGet, zfsGet)
              == VolumeBackup(prev.files + step.files, prev.errors + step.errors, step.raised)
  {
    assert pvs[..i + 1][..i] == pvs[..i];
  }

  /** Once a volume raises, the later volumes change nothing. */
  lemma {:induction false} PvcsBackupStops(d: PvcFetch.PvcData, backupDir: string, pvs: seq<Option<string>>, n: nat,
                                           pvGet: string -> Fetched, zfsGet: string -> Fetched)
    requires n <= |pvs| && PvcsBackup(d, backupDir, pvs[..n], pvGet, zfsGet).raised.Some?
    ensures PvcsBackup(d, backupDir, pvs, pvGet, zfsGet) == PvcsBackup(d, backupDir, pvs[..n], pvGet, zfsGet)
    decreases |pvs| - n
  {
    if n < |pvs| {
      assert pvs[..n + 1][..n] == pvs[..n];
      PvcsBackupStops(d, backupDir, pvs, n + 1, pvGet, zfsGet);
    } else {
      assert pvs[..n] == pvs;
    }
  }

  /**
   * Every file `backup_pvcs` saves belongs to a non-CNPG volume of the list
   * and is named after that volume's PVC; every saved PV manifest is cleaned.
   */
  lemma {:induction false} PvcsBackupFiles(d: PvcFetch.PvcData, backupDir: string, pvs: seq<Option<string>>,
                                           pvGet: string -> Fetched, zfsGet: string -> Fetched)
    ensures VolumesSaved(d, backupDir, pvs, PvcsBackup(d, backupDir, pvs, pvGet, zfsGet).files)
    decreases |pvs|
  {
    if pvs != [] {
      var init := pvs[..|pvs| - 1];
      var pv := pvs[|pvs| - 1];
      PvcsBackupFiles(d, backupDir, init, pvGet, zfsGet);
      var prev := PvcsBackup(d, backupDir, init, pvGet, zfsGet);
      var step := VolumePart(d, backupDir, pv, pvGet, zfsGet);
      forall k | 0 <= k < |prev.files| ensures Saved(d, backupDir, pvs, prev.files[k]) {
        assert Saved(d, backupDir, init, prev.files[k]);
        var j :| 0 <= j < |init| && SavedBy(d, backupDir, init[j], prev.files[k]);
        assert init[j] == pvs[j];
      }
      forall k | 0 <= k < |step.files| ensures Saved(d, backupDir, pvs, step.files[k]) {
        assert SavedBy(d, backupDir, pvs[|pvs| - 1], step.files[k]);
      }
    }
  }

  predicate VolumesSaved(d: PvcFetch.PvcData, backupDir: string, pvs: seq<Option<string>>, files: seq<(string, Value)>) {
    forall k :: 0 <= k < |files| ==> Saved(d, backupDir, pvs, files[k])
  }

  /** The file `f` is one of the two the non-CNPG volume `pv` saves. */
  predicate SavedBy(d: PvcFetch.PvcData, backupDir: string, pv: Option<string>, f: (string, Value)) {
    pv.Some? && PvcFetch.IsCnpg(d, pv) == Ok(false) && NamedFor(backupDir, PvcFetch.PvcNameByVolume(d, pv.value), f)
  }

  predicate Saved(d: PvcFetch.PvcData, backupDir: string, pvs: seq<Option<string>>, f: (string, Value)) {
    exists j :: 0 <= j < |pvs| && SavedBy(d, backupDir, pvs[j], f)
  }

  /** Without an exception every volume of the list adds at most two entries, a non-CNPG one exactly two. */
  lemma {:induction false} PvcsBackupCount(d: PvcFetch.PvcData, backupDir: string, pvs: seq<Option<string>>,
                                           pvGet: string -> Fetched, zfsGet: string -> Fetched)
    ensures var r := PvcsBackup(d, backupDir, pvs, pvGet, zfsGet);
            r.raised.None? ==> |r.files| + |r.errors| == 2 * Uncnpg(d, pvs)
    decreases |pvs|
  {
    if pvs != [] {
      PvcsBackupCount(d, backupDir, pvs[..|pvs| - 1], pvGet, zfsGet);
    }
  }

  /** The number of non-CNPG volumes in `pvs`. */
  function Uncnpg(d: PvcFetch.PvcData, pvs: seq<Option<string>>): (n: nat)
    ensures n <= |pvs|
    decreases |pvs|
  {
    if pvs == [] then 0
    else Uncnpg(d, pvs[..|pvs| - 1]) + (if PvcFetch.IsCnpg(d, pvs[|pvs| - 1]) == Ok(false) then 1 else 0)
  }

  /** A `None` volume among the namespace's volumes makes `backup_pvcs` raise. */
  lemma {:induction false} UnboundVolumeRaises(d: PvcFetch.PvcData, backupDir: string, pvs: seq<Option<string>>,
                                               pvGet: string -> Fetched, zfsGet: string -> Fetched)
    requires None in pvs
    ensures PvcsBackup(d, backupDir, pvs, pvGet, zfsGet).raised.Some?
    decreases |pvs|
  {
    var init := pvs[..|pvs| - 1];
    assert pvs == init + [pvs[|pvs| - 1]];
    if pvs[|pvs| - 1] != None {
      UnboundVolumeRaises(d, backupDir, init, pvGet, zfsGet);
    }
  }

  // ---------------------------------------------------------------- backup_namespace

  function NamespaceFile(backupDir: string): string {
    backupDir + "/namespace/namespace.yaml"
  }

  /**
   * `backup_namespace`: a failed `kubectl get namespace` returns False
   * (`Ok(None)`); otherwise the manifest is cleaned and saved, returning
   * True (`Ok(Some(doc))`); a cleaning error escapes (`Err`).
   */
  function BackupNamespace(fetched: Fetched): (r: Result<Option<Value>>)
    ensures r == Ok(None) <==> fetched.FetchFailed?
    ensures r.Err? <==> fetched.Fetched? && YamlCleaner.CleanYaml(YamlCleaner.NewCleaner(None, None), fetched.doc).Err?
    ensures r.Ok? && r.value.Some? ==> YamlCleaner.Free(r.value.value, YamlCleaner.DefaultGlobals)
  {
    match fetched
    case FetchFailed(_) => Ok(None)
    case Fetched(doc) =>
      var c := YamlCleaner.NewCleaner(None, None);
      match YamlCleaner.CleanYaml(c, doc)
      case Err(e) => Err(e)
      case Ok(cleaned) => YamlCleaner.DefaultCleanYamlFree(doc); Ok(Some(cleaned))
  }

  // ---------------------------------------------------------------- backup_crd

  /** `crd_dir.glob('*.yaml')` on the directory's entry names. */
  function YamlName(): string -> bool {
    name => EndsWith(name, ".yaml")
  }

  /** The copy of one CRD file: its path and its destination `crds/<stem>`. */
  function CrdCopy(backupDir: string, crdDir: string, name: string): (string, string) {
    (crdDir + "/" + name, backupDir + "/crds/" + Stem(name))
  }

  function CrdCopies(backupDir: string, crdDir: string, names: seq<string>): (r: seq<(string, string)>)
    ensures |r| == |names| && forall k :: 0 <= k < |r| ==> r[k] == CrdCopy(backupDir, crdDir, names[k])
  {
    seq(|names|, k requires 0 <= k < |names| => CrdCopy(backupDir, crdDir, names[k]))
  }

  /** A `<x>.yaml` file is copied to `crds/<x>`: only the extension is dropped. */
  lemma CrdDestination(backupDir: string, crdDir: string, name: string)
    requires EndsWith(name, ".yaml") && |name| > 5
    ensures CrdCopy(backupDir, crdDir, name).1 == backupDir + "/crds/" + name[..|name| - 5]
  {
    StemYaml(name);
  }

  lemma CrdCopiesSnoc(backupDir: string, crdDir: string, names: seq<string>, name: string)
    ensures CrdCopies(backupDir, crdDir, names + [name]) == CrdCopies(backupDir, crdDir, names) + [CrdCopy(backupDir, crdDir, name)]
  {
  }

  predicate AllCopied(copies: seq<(string, string)>, copyOk: (string, string) -> bool) {
    forall k :: 0 <= k < |copies| ==> copyOk(copies[k].0, copies[k].1)
  }

  lemma AllCopiedSnoc(copies: seq<(string, string)>, copy: (string, string), copyOk: (string, string) -> bool)
    ensures AllCopied(copies + [copy], copyOk) <==> AllCopied(copies, copyOk) && copyOk(copy.0, copy.1)
  {
    assert forall k :: 0 <= k < |copies| ==> (copies + [copy])[k] == copies[k];
    assert (copies + [copy])[|copies|] == copy;
  }

  /** The loop of `backup_crd` over the matched names: every copy is tried, failures only clear the flag. */
  method CopyCrds(backupDir: string, crdDir: string, names: seq<string>, copyOk: (string, string) -> bool)
    returns (success: bool, copies: seq<(string, string)>)
    ensures copies == CrdCopies(backupDir, crdDir, names)
    ensures success <==> AllCopied(copies, copyOk)
  {
    success := true;
    copies := [];
    for i := 0 to |names|
      invariant copies == CrdCopies(backupDir, crdDir, names[..i])
      invariant success <==> AllCopied(copies, copyOk)
    {
      var copy := CrdCopy(backupDir, crdDir, names[i]);
      assert names[..i + 1] == names[..i] + [names[i]];
      CrdCopiesSnoc(backupDir, crdDir, names[..i], names[i]);
      AllCopiedSnoc(copies, copy, copyOk);
      copies := copies + [copy];
      if !copyOk(copy.0, copy.1) {
        success := false;
      }
    }
    assert names[..|names|] == names;
  }

  /**
   * `backup_crd`: one copy per `*.yaml` entry, in listing order; the result
   * is True exactly when every copy succeeded (a failure does not stop the loop).
   */
  method BackupCrd(res: Resources, crdDir: string, entries: seq<string>, copyOk: (string, string) -> bool)
    returns (success: bool, copies: seq<(string, string)>)
    ensures copies == CrdCopies(res.backupDir, crdDir, Sorting.Filter(entries, YamlName()))
    ensures success <==> AllCopied(copies, copyOk)
  {
    success, copies := CopyCrds(res.backupDir, crdDir, Sorting.Filter(entries, YamlName()), copyOk);
  }
}

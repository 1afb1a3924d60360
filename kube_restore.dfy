/**
 * `KubeRestoreResources`: applying the backed-up volumes, namespace,
 * secrets and CRDs with `kubectl apply`. What each file reads as, whether
 * each write succeeds and whether each apply succeeds are inputs; an apply of
 * a cleaned document (written to a temporary file first) is decided by the
 * document, an apply of a file in place by its command.
 */
module KubeRestore {
  import opened Wrappers
  import opened Strings
  import Sorting
  import opened Json
  import opened Paths
  import YamlCleaner

  const ZfsVolumeSuffix := "-zfsvolume.yaml"
  const NoVolumeFiles := "No PV or ZFS volume files provided"
  const LastApplied := "kubectl.kubernetes.io/last-applied-configuration"

  /** The cleaner `KubeRestoreResources` holds: the default removals. */
  function DefaultCleaner(): (c: YamlCleaner.Cleaner)
    ensures "items" !in c.globals
  {
    YamlCleaner.NewCleaner(None, None)
  }

  /** The `kubectl apply` of a file in place. */
  function ApplyCommand(path: string): string {
    "k3s kubectl apply -f \"" + path + "\" --validate=false"
  }

  // ---------------------------------------------------------------- restore_pv_zfs_volumes

  predicate IsZfsVolume(path: string) {
    Contains(BaseName(path), ZfsVolumeSuffix)
  }

  function ZfsFile(): string -> bool {
    p => IsZfsVolume(p)
  }

  function PvFile(): string -> bool {
    p => !IsZfsVolume(p)
  }

  /**
   * `sorted(volume_files, key=lambda f: '-zfsvolume.yaml' in f.name)`: the
   * same files, every PV file before every ZFS volume file, each group in
   * its original order (the sort is stable).
   */
  function VolumeOrder(files: seq<string>): (r: seq<string>)
    ensures multiset(r) == multiset(files)
  {
    Sorting.FilterPartition(files, PvFile(), ZfsFile());
    Sorting.Filter(files, PvFile()) + Sorting.Filter(files, ZfsFile())
  }

  /** After the sort no PV file comes after a ZFS volume file. */
  lemma VolumeOrderGrouped(files: seq<string>, i: int, j: int)
    requires 0 <= i < j < |VolumeOrder(files)| && IsZfsVolume(VolumeOrder(files)[i])
    ensures IsZfsVolume(VolumeOrder(files)[j])
  {
    var pv := Sorting.Filter(files, PvFile());
    var zfs := Sorting.Filter(files, ZfsFile());
    var r := VolumeOrder(files);
    assert r == pv + zfs;
    assert forall k :: 0 <= k < |pv| ==> r[k] == pv[k] && pv[k] in pv;
    assert i >= |pv|;
    assert r[j] == zfs[j - |pv|];
    assert r[j] in zfs;
    assert ZfsFile()(r[j]);
  }

  /** What a file restores: its document cleaned by the default cleaner, or the error that raises. */
  function Cleaned(read: string -> Option<Value>, path: string): Result<Value> {
    match read(path)
    case None => Err("unreadable")
    case Some(doc) => YamlCleaner.CleanYaml(DefaultCleaner(), doc)
  }

  function CleanedDoc(read: string -> Option<Value>, path: string): Value {
    match Cleaned(read, path)
    case Ok(doc) => doc
    case Err(_) => Null
  }

  function CleanOk(read: string -> Option<Value>): string -> bool {
    p => Cleaned(read, p).Ok?
  }

  /** A document file fails when reading or cleaning it raises or its apply fails. */
  function DocFails(read: string -> Option<Value>, applyOk: Value -> bool): string -> bool {
    p => Cleaned(read, p).Err? || !applyOk(CleanedDoc(read, p))
  }

  /** The cleaned documents of some files, in order. */
  function Docs(read: string -> Option<Value>, paths: seq<string>): (r: seq<Value>)
    ensures |r| == |paths| && forall k :: 0 <= k < |r| ==> r[k] == CleanedDoc(read, paths[k])
  {
    seq(|paths|, k requires 0 <= k < |paths| => CleanedDoc(read, paths[k]))
  }

  /** One more file processed: its document is appended exactly when it cleaned. */
  lemma DocsStep(read: string -> Option<Value>, files: seq<string>, i: nat, applied: seq<Value>, doc: Option<Value>)
    requires i < |files|
    requires applied == Docs(read, Sorting.Filter(files[..i], CleanOk(read)))
    requires doc.Some? == CleanOk(read)(files[i]) && (doc.Some? ==> doc.value == CleanedDoc(read, files[i]))
    ensures (if doc.Some? then applied + [doc.value] else applied) == Docs(read, Sorting.Filter(files[..i + 1], CleanOk(read)))
  {
    var done, file := files[..i], files[i];
    assert files[..i + 1] == done + [file];
    Sorting.FilterSnoc(done, file, CleanOk(read));
    var before := Sorting.Filter(done, CleanOk(read));
    if doc.Some? {
      assert Sorting.Filter(done + [file], CleanOk(read)) == before + [file];
      DocsSnoc(read, before, file);
    } else {
      assert Sorting.Filter(done + [file], CleanOk(read)) == before;
    }
  }

  lemma DocsSnoc(read: string -> Option<Value>, paths: seq<string>, p: string)
    ensures Docs(read, paths + [p]) == Docs(read, paths) + [CleanedDoc(read, p)]
  {
  }

  /** One more file processed: its name is appended exactly when it failed. */
  lemma NamesStep(files: seq<string>, i: nat, failures: seq<string>, fails: string -> bool, failed: bool)
    requires i < |files|
    requires failures == Names(Sorting.Filter(files[..i], fails)) && failed == fails(files[i])
    ensures (if failed then failures + [BaseName(files[i])] else failures) == Names(Sorting.Filter(files[..i + 1], fails))
  {
    var done, file := files[..i], files[i];
    assert files[..i + 1] == done + [file];
    Sorting.FilterSnoc(done, file, fails);
    NamesSnoc(Sorting.Filter(done, fails), file);
  }

  /**
   * The body of the `try` for one volume file: the file fails when
   * cleaning raises or its apply fails; the document applied, if any.
   */
  method RestoreVolume(file: string, read: string -> Option<Value>, applyOk: Value -> bool)
    returns (failed: bool, applied: Option<Value>)
    ensures failed == DocFails(read, applyOk)(file)
    ensures applied.Some? == CleanOk(read)(file)
    ensures applied.Some? ==> applied.value == CleanedDoc(read, file)
  {
    match Cleaned(read, file)
    case Err(_) =>
      return true, None;
    case Ok(doc) =>
      assert CleanedDoc(read, file) == doc;
      return !applyOk(doc), Some(doc);
  }

  /**
   * `restore_pv_zfs_volumes`: no files is itself reported as a failure;
   * otherwise the names of the files that failed, in processing order, and
   * the cleaned documents handed to `kubectl apply`.
   */
  method RestorePvZfsVolumes(files: seq<string>, read: string -> Option<Value>, applyOk: Value -> bool)
    returns (failures: seq<string>, applied: seq<Value>)
    ensures files == [] ==> failures == [NoVolumeFiles] && applied == []
    ensures files != [] ==> failures == Names(Sorting.Filter(VolumeOrder(files), DocFails(read, applyOk)))
    ensures files != [] ==> applied == Docs(read, Sorting.Filter(VolumeOrder(files), CleanOk(read)))
  {
    if files == [] {
      return [NoVolumeFiles], [];
    }
    var ordered := VolumeOrder(files);
    failures := [];
    applied := [];
    for i := 0 to |ordered|
      invariant failures == Names(Sorting.Filter(ordered[..i], DocFails(read, applyOk)))
      invariant applied == Docs(read, Sorting.Filter(ordered[..i], CleanOk(read)))
    {
      var file := ordered[i];
      var failed, doc := RestoreVolume(file, read, applyOk);
      DocsStep(read, ordered, i, applied, doc);
      NamesStep(ordered, i, failures, DocFails(read, applyOk), failed);
      if doc.Some? {
        applied := applied + [doc.value];
      }
      if failed {
        failures := failures + [BaseName(file)];
      }
    }
    assert ordered[..|ordered|] == ordered;
  }

  /** Every document applied holds none of the default global removal keys, at any depth. */
  lemma AppliedFree(read: string -> Option<Value>, files: seq<string>)
    ensures forall d :: d in Docs(read, Sorting.Filter(files, CleanOk(read))) ==> YamlCleaner.Free(d, YamlCleaner.DefaultGlobals)
  {
    var paths := Sorting.Filter(files, CleanOk(read));
    forall d | d in Docs(read, paths) ensures YamlCleaner.Free(d, YamlCleaner.DefaultGlobals) {
      var k :| 0 <= k < |paths| && Docs(read, paths)[k] == d;
      assert paths[k] in paths && CleanOk(read)(paths[k]);
      var doc := read(paths[k]).value;
      YamlCleaner.CleanYamlFree(DefaultCleaner(), doc);
    }
  }

  // ---------------------------------------------------------------- restore_namespace

  /** `restore_namespace`: the namespace file restores by the same rule as one volume file. */
  function RestoreNamespace(path: string, read: string -> Option<Value>, applyOk: Value -> bool): (r: bool)
    ensures r <==> !DocFails(read, applyOk)(path)
    ensures r ==> Cleaned(read, path).Ok? && applyOk(Cleaned(read, path).value)
  {
    match Cleaned(read, path)
    case Err(_) => false
    case Ok(doc) => assert CleanedDoc(read, path) == doc; applyOk(doc)
  }

  // ---------------------------------------------------------------- restore_secrets

  /** A secret's metadata, `{}` when it has none that is a dict. */
  function MetaOf(v: Value): Value {
    GetOr(v, "metadata", Obj([]))
  }

  /** The annotations of a secret's metadata, `{}` when there are none. */
  function AnnotationsOf(v: Value): Value {
    GetOr(MetaOf(v), "annotations", Obj([]))
  }

  /** The metadata fields `restore_secrets` drops. */
  const Stripped: set<string> := {"resourceVersion", "uid"}

  /** The secret as it stands when it is dumped into its own annotation: stripped, annotations present. */
  function Dumped(body: Value): Value
    requires body.Obj? && MetaOf(body).Obj? && AnnotationsOf(body).Obj?
  {
    var meta := KeepEntries(MetaOf(body).entries, Stripped);
    Obj(Set(body.entries, "metadata", Obj(Set(meta, "annotations", AnnotationsOf(body)))))
  }

  /**
   * The steps `restore_secrets` applies to a loaded secret before writing it
   * back: `resourceVersion` and `uid` dropped from the metadata, the
   * annotations dict created if missing, and the last-applied annotation set
   * to the dump of the secret at that point. A document that is not a dict,
   * or whose metadata or annotations are missing or not dicts, raises.
   */
  function PrepareSecret(body: Option<Value>, dump: Value -> string): (r: Result<Value>)
    ensures r.Ok? <==> body.Some? && body.value.Obj? && HasKey(body.value, "metadata")
                       && MetaOf(body.value).Obj? && AnnotationsOf(body.value).Obj?
  {
    if body.None? || !body.value.Obj? then Err("TypeError")
    else if !HasKey(body.value, "metadata") then Err("'metadata'")
    else if !MetaOf(body.value).Obj? || !AnnotationsOf(body.value).Obj? then Err("TypeError")
    else
      var b := body.value;
      var meta := KeepEntries(MetaOf(b).entries, Stripped);
      var annotations := Obj(Set(AnnotationsOf(b).entries, LastApplied, Str(dump(Dumped(b)))));
      Ok(Obj(Set(b.entries, "metadata", Obj(Set(meta, "annotations", annotations)))))
  }

  /** What the rewritten secret reads as, field by field. */
  lemma PreparedSecret(body: Value, dump: Value -> string, key: string)
    requires PrepareSecret(Some(body), dump).Ok?
    ensures var r := PrepareSecret(Some(body), dump).value;
            && Get(MetaOf(r), "resourceVersion").None? && Get(MetaOf(r), "uid").None?
            && Get(AnnotationsOf(r), LastApplied) == Some(Str(dump(Dumped(body))))
            && (key != LastApplied ==> Get(AnnotationsOf(r), key) == Get(AnnotationsOf(body), key))
            && (key !in Stripped && key != "annotations" ==> Get(MetaOf(r), key) == Get(MetaOf(body), key))
            && (key != "metadata" ==> Get(r, key) == Get(body, key))
  {
    var r := PrepareSecret(Some(body), dump).value;
    var meta := KeepEntries(MetaOf(body).entries, Stripped);
    var annotations := Obj(Set(AnnotationsOf(body).entries, LastApplied, Str(dump(Dumped(body)))));
    var meta' := Set(meta, "annotations", annotations);
    SetReads(body.entries, "metadata", Obj(meta'));
    assert MetaOf(r) == Obj(meta');
    SetReads(meta, "annotations", annotations);
    assert AnnotationsOf(r) == annotations;
    SetReads(AnnotationsOf(body).entries, LastApplied, Str(dump(Dumped(body))));
    SetKeepsOthers(meta, "annotations", annotations, "resourceVersion");
    SetKeepsOthers(meta, "annotations", annotations, "uid");
    KeepEntriesLookup(MetaOf(body).entries, Stripped, "resourceVersion");
    KeepEntriesLookup(MetaOf(body).entries, Stripped, "uid");
    if key != LastApplied {
      SetKeepsOthers(AnnotationsOf(body).entries, LastApplied, Str(dump(Dumped(body))), key);
    }
    if key !in Stripped && key != "annotations" {
      SetKeepsOthers(meta, "annotations", annotations, key);
      KeepEntriesLookup(MetaOf(body).entries, Stripped, key);
    }
    if key != "metadata" {
      SetKeepsOthers(body.entries, "metadata", Obj(meta'), key);
    }
  }

  function SecretFails(read: string -> Option<Value>, dump: Value -> string, writeOk: string -> bool,
                       applyOk: string -> bool): string -> bool {
    p => PrepareSecret(read(p), dump).Err? || !writeOk(p) || !applyOk(ApplyCommand(p))
  }

  function SecretWritten(read: string -> Option<Value>, dump: Value -> string, writeOk: string -> bool): string -> bool {
    p => PrepareSecret(read(p), dump).Ok? && writeOk(p)
  }

  /** The rewritten content of a secret file (`null` when it cannot be prepared). */
  function Prepared(read: string -> Option<Value>, dump: Value -> string, p: string): Value {
    match PrepareSecret(read(p), dump)
    case Ok(v) => v
    case Err(_) => Null
  }

  /** The rewritten secrets of some files, as (file, document) pairs in order. */
  function SecretDocs(read: string -> Option<Value>, dump: Value -> string, paths: seq<string>): (r: seq<(string, Value)>)
    ensures |r| == |paths| && forall k :: 0 <= k < |r| ==> r[k] == (paths[k], Prepared(read, dump, paths[k]))
  {
    seq(|paths|, k requires 0 <= k < |paths| => (paths[k], Prepared(read, dump, paths[k])))
  }

  lemma SecretDocsSnoc(read: string -> Option<Value>, dump: Value -> string, paths: seq<string>, p: string)
    ensures SecretDocs(read, dump, paths + [p]) == SecretDocs(read, dump, paths) + [(p, Prepared(read, dump, p))]
  {
  }

  /** One more secret processed: it is appended to the written files exactly when it was written. */
  lemma SecretDocsStep(read: string -> Option<Value>, dump: Value -> string, writeOk: string -> bool,
                       files: seq<string>, i: nat, written: seq<(string, Value)>, wrote: Option<Value>)
    requires i < |files|
    requires written == SecretDocs(read, dump, Sorting.Filter(files[..i], SecretWritten(read, dump, writeOk)))
    requires wrote.Some? == SecretWritten(read, dump, writeOk)(files[i])
    requires wrote.Some? ==> wrote.value == Prepared(read, dump, files[i])
    ensures (if wrote.Some? then written + [(files[i], wrote.value)] else written)
            == SecretDocs(read, dump, Sorting.Filter(files[..i + 1], SecretWritten(read, dump, writeOk)))
  {
    var done, file := files[..i], files[i];
    assert files[..i + 1] == done + [file];
    Sorting.FilterSnoc(done, file, SecretWritten(read, dump, writeOk));
    var before := Sorting.Filter(done, SecretWritten(read, dump, writeOk));
    if wrote.Some? {
      assert Sorting.Filter(done + [file], SecretWritten(read, dump, writeOk)) == before + [file];
      SecretDocsSnoc(read, dump, before, file);
    } else {
      assert Sorting.Filter(done + [file], SecretWritten(read, dump, writeOk)) == before;
    }
  }

  /**
   * The body of the `try` for one secret file: load and prepare it, write
   * it back, apply it in place. The file fails when any step does; the
   * content written, if it was.
   */
  method RestoreSecret(file: string, read: string -> Option<Value>, dump: Value -> string,
                       writeOk: string -> bool, applyOk: string -> bool)
    returns (failed: bool, wrote: Option<Value>)
    ensures failed == SecretFails(read, dump, writeOk, applyOk)(file)
    ensures wrote.Some? == SecretWritten(read, dump, writeOk)(file)
    ensures wrote.Some? ==> wrote.value == Prepared(read, dump, file)
  {
    match PrepareSecret(read(file), dump)
    case Err(_) =>
      return true, None;
    case Ok(secret) =>
      if !writeOk(file) {
        return true, None;
      }
      return !applyOk(ApplyCommand(file)), Some(secret);
  }

  /**
   * `restore_secrets`: each secret file is loaded, prepared, written back
   * and applied in place; the names of the files for which any step failed,
   * in order, and the files rewritten with their new content.
   */
  method RestoreSecrets(files: seq<string>, read: string -> Option<Value>, dump: Value -> string,
                        writeOk: string -> bool, applyOk: string -> bool)
    returns (failures: seq<string>, written: seq<(string, Value)>)
    ensures files == [] ==> failures == [] && written == []
    ensures failures == Names(Sorting.Filter(files, SecretFails(read, dump, writeOk, applyOk)))
    ensures written == SecretDocs(read, dump, Sorting.Filter(files, SecretWritten(read, dump, writeOk)))
  {
    failures := [];
    written := [];
    if files == [] {
      return;
    }
    for i := 0 to |files|
      invariant failures == Names(Sorting.Filter(files[..i], SecretFails(read, dump, writeOk, applyOk)))
      invariant written == SecretDocs(read, dump, Sorting.Filter(files[..i], SecretWritten(read, dump, writeOk)))
    {
      var failed, wrote := RestoreSecret(files[i], read, dump, writeOk, applyOk);
      SecretDocsStep(read, dump, writeOk, files, i, written, wrote);
      NamesStep(files, i, failures, SecretFails(read, dump, writeOk, applyOk), failed);
      if wrote.Some? {
        written := written + [(files[i], wrote.value)];
      }
      if failed {
        failures := failures + [BaseName(files[i])];
      }
    }
    assert files[..|files|] == files;
  }

  // ---------------------------------------------------------------- restore_crd

  function CrdFails(applyOk: string -> bool): string -> bool {
    p => !applyOk(ApplyCommand(p))
  }

  function Commands(paths: seq<string>): (r: seq<string>)
    ensures |r| == |paths| && forall k :: 0 <= k < |r| ==> r[k] == ApplyCommand(paths[k])
  {
    seq(|paths|, k requires 0 <= k < |paths| => ApplyCommand(paths[k]))
  }

  /** `restore_crd`: one apply per file, in order, and the names of the files whose apply failed. */
  method RestoreCrd(files: seq<string>, applyOk: string -> bool) returns (failures: seq<string>, commands: seq<string>)
    ensures files == [] ==> failures == []
    ensures failures == Names(Sorting.Filter(files, CrdFails(applyOk)))
    ensures commands == Commands(files)
  {
    failures := [];
    commands := [];
    if files == [] {
      return;
    }
    for i := 0 to |files|
      invariant failures == Names(Sorting.Filter(files[..i], CrdFails(applyOk)))
      invariant commands == Commands(files[..i])
    {
      var file := files[i];
      NamesStep(files, i, failures, CrdFails(applyOk), !applyOk(ApplyCommand(file)));
      assert files[..i + 1] == files[..i] + [file];
      commands := commands + [ApplyCommand(file)];
      if !applyOk(ApplyCommand(file)) {
        failures := failures + [BaseName(file)];
      }
    }
    assert files[..|files|] == files;
  }

  /**
   * What a failure list built from `Names(Filter(files, fails))` says: every
   * failing file is named in it, and it is empty exactly when no file failed.
   * This reads the results of `RestorePvZfsVolumes`, `RestoreSecrets` and
   * `RestoreCrd` alike.
   */
  lemma FailuresExact(files: seq<string>, fails: string -> bool)
    ensures forall f :: f in files && fails(f) ==> BaseName(f) in Names(Sorting.Filter(files, fails))
    ensures Names(Sorting.Filter(files, fails)) == [] <==> forall f :: f in files ==> !fails(f)
  {
    var failed := Sorting.Filter(files, fails);
    forall f | f in files && fails(f) ensures BaseName(f) in Names(failed) {
      assert f in failed;
      var k :| 0 <= k < |failed| && failed[k] == f;
      assert Names(failed)[k] == BaseName(f);
    }
    if failed != [] {
      assert failed[0] in files && fails(failed[0]);
    }
  }
}

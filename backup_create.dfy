/**
 * `ChartBackupManager` and `ChartCreationManager`: the metadata record and
 * values written for a backup, the cleaning of `ix` keys from exported
 * values, and the creation of a chart release from a backup with its retry
 * rules. File writes and reads are inputs and outputs; the middleware call
 * `chart.release.create` is an oracle giving the outcome of the n-th call.
 */
module BackupCreate {
  import opened Wrappers
  import opened Strings
  import opened Json

  // ---------------------------------------------------------------- backup_metadata / backup_values

  /** The metadata record `backup_metadata` writes to `metadata.json`. */
  function MetadataRecord(app: string, chart: string, catalog: string, train: string, version: string): (r: Value)
    ensures r.Obj? && |r.entries| == 5 && DistinctKeys(r.entries)
  {
    Obj([("chart_name", Str(chart)), ("catalog", Str(catalog)), ("train", Str(train)),
         ("version", Str(version)), ("release_name", Str(app))])
  }

  /** Each field of the record reads back its argument; `release_name` is the app name. */
  lemma MetadataFields(app: string, chart: string, catalog: string, train: string, version: string)
    ensures var r := MetadataRecord(app, chart, catalog, train, version);
            Get(r, "chart_name") == Some(Str(chart)) && Get(r, "catalog") == Some(Str(catalog))
            && Get(r, "train") == Some(Str(train)) && Get(r, "version") == Some(Str(version))
            && Get(r, "release_name") == Some(Str(app))
  {
    var e := MetadataRecord(app, chart, catalog, train, version).entries;
    assert Lookup(e[4..], "release_name") == Some(Str(app));
    assert e[3..][1..] == e[4..];
    assert Lookup(e[3..], "release_name") == Some(Str(app));
    assert Lookup(e[3..], "version") == Some(Str(version));
    assert e[2..][1..] == e[3..];
    assert Lookup(e[2..], "release_name") == Some(Str(app));
    assert Lookup(e[2..], "version") == Some(Str(version));
    assert e[1..][1..] == e[2..];
    assert Lookup(e[1..], "release_name") == Some(Str(app));
    assert Lookup(e[1..], "version") == Some(Str(version));
    assert Lookup(e[1..], "train") == Some(Str(train));
  }

  const IxKeys: set<string> := {
    "ixCertificateAuthorities", "ixCertificates", "ixChartContext",
    "ixExternalInterfacesConfiguration", "ixExternalInterfacesConfigurationNames", "ixVolumes"
  }

  /**
   * `_clean_config`: the `ix` keys are dropped from the dict and, recursively,
   * from the dicts it holds as values. Anything that is not a dict, lists
   * included, is returned unchanged.
   */
  function CleanConfig(v: Value): Value
    decreases v, 1
  {
    if v.Obj? then Obj(CleanEntries(v, v.entries)) else v
  }

  function CleanEntries(ghost parent: Value, entries: seq<(string, Value)>): seq<(string, Value)>
    requires forall i :: 0 <= i < |entries| ==> entries[i].1 < parent
    decreases parent, 0, |entries|
  {
    if entries == [] then []
    else
      (if entries[0].0 in IxKeys then [] else [(entries[0].0, CleanConfig(entries[0].1))])
      + CleanEntries(parent, entries[1..])
  }

  /** No dict reachable through dicts holds an `ix` key. */
  predicate NoIxKeys(v: Value)
    decreases v
  {
    v.Obj? ==> forall i :: 0 <= i < |v.entries| ==> v.entries[i].0 !in IxKeys && NoIxKeys(v.entries[i].1)
  }

  predicate EntriesNoIx(entries: seq<(string, Value)>) {
    forall i :: 0 <= i < |entries| ==> entries[i].0 !in IxKeys && NoIxKeys(entries[i].1)
  }

  /** After `_clean_config` no dict reachable through dicts holds an `ix` key. */
  lemma CleanConfigRemovesIx(v: Value)
    ensures NoIxKeys(CleanConfig(v))
    decreases v, 1
  {
    if v.Obj? {
      CleanEntriesRemoveIx(v, v.entries);
    }
  }

  lemma CleanEntriesRemoveIx(parent: Value, entries: seq<(string, Value)>)
    requires forall i :: 0 <= i < |entries| ==> entries[i].1 < parent
    ensures EntriesNoIx(CleanEntries(parent, entries))
    decreases parent, 0, |entries|
  {
    if entries != [] {
      CleanConfigRemovesIx(entries[0].1);
      CleanEntriesRemoveIx(parent, entries[1..]);
    }
  }

  /** A value already free of `ix` keys is left as it is, so cleaning twice equals cleaning once. */
  lemma CleanConfigOfClean(v: Value)
    requires NoIxKeys(v)
    ensures CleanConfig(v) == v
    decreases v, 1
  {
    if v.Obj? {
      CleanEntriesOfClean(v, v.entries);
    }
  }

  lemma CleanEntriesOfClean(parent: Value, entries: seq<(string, Value)>)
    requires forall i :: 0 <= i < |entries| ==> entries[i].1 < parent
    requires EntriesNoIx(entries)
    ensures CleanEntries(parent, entries) == entries
    decreases parent, 0, |entries|
  {
    if entries != [] {
      CleanConfigOfClean(entries[0].1);
      CleanEntriesOfClean(parent, entries[1..]);
      assert [entries[0]] + entries[1..] == entries;
    }
  }

  lemma CleanConfigIdempotent(v: Value)
    ensures CleanConfig(CleanConfig(v)) == CleanConfig(v)
  {
    CleanConfigRemovesIx(v);
    CleanConfigOfClean(CleanConfig(v));
  }

  /** Any other key keeps its (cleaned) value. */
  lemma {:induction false} CleanKeepsOthers(parent: Value, entries: seq<(string, Value)>, k: string)
    requires forall i :: 0 <= i < |entries| ==> entries[i].1 < parent
    requires k !in IxKeys && Lookup(entries, k).Some?
    ensures Lookup(CleanEntries(parent, entries), k) == Some(CleanConfig(Lookup(entries, k).value))
    decreases |entries|
  {
    if entries[0].0 != k {
      CleanKeepsOthers(parent, entries[1..], k);
      var r := CleanEntries(parent, entries);
      if entries[0].0 !in IxKeys {
        assert r[0].0 != k && r[1..] == CleanEntries(parent, entries[1..]);
      } else {
        assert r == CleanEntries(parent, entries[1..]);
      }
    }
  }

  /** Dicts inside lists are not cleaned. */
  lemma ListsNotCleaned()
    ensures CleanConfig(Obj([("a", Arr([Obj([("ixVolumes", Int(1))])]))]))
            == Obj([("a", Arr([Obj([("ixVolumes", Int(1))])]))])
  {
    var v := Obj([("a", Arr([Obj([("ixVolumes", Int(1))])]))]);
    assert CleanEntries(v, v.entries[1..]) == [];
  }

  /** `backup_values`: the values written to `values.json`, cleaned only when asked. */
  function WrittenValues(config: Value, clean: bool): (r: Value)
    ensures !clean ==> r == config
    ensures clean ==> NoIxKeys(r)
  {
    CleanConfigRemovesIx(config);
    if clean then CleanConfig(config) else config
  }

  // ---------------------------------------------------------------- _stop_values_false

  /**
   * `_stop_values_false`: `global` and `global.ixChartContext` are created when
   * missing, then `global.ixChartContext.isStopped` and `global.stopAll` are
   * set to false. Indexing into something that is not a dict raises.
   */
  function StopValuesFalse(config: Value): (r: Result<Value>)
    ensures r.Ok? <==> config.Obj? && GetOr(config, "global", Obj([])).Obj?
                       && GetOr(GetOr(config, "global", Obj([])), "ixChartContext", Obj([])).Obj?
  {
    if !config.Obj? then Err("TypeError")
    else
      var global := GetOr(config, "global", Obj([]));
      if !global.Obj? then Err("TypeError")
      else
        var context := GetOr(global, "ixChartContext", Obj([]));
        if !context.Obj? then Err("TypeError")
        else
          var context' := Obj(Set(context.entries, "isStopped", Bool(false)));
          var global' := Obj(Set(Set(global.entries, "ixChartContext", context'), "stopAll", Bool(false)));
          Ok(Obj(Set(config.entries, "global", global')))
  }

  /** Both stop flags read false afterwards. */
  lemma StopFlagsFalse(config: Value)
    requires StopValuesFalse(config).Ok?
    ensures var g := Get(StopValuesFalse(config).value, "global");
            g.Some? && Get(g.value, "stopAll") == Some(Bool(false))
            && Get(g.value, "ixChartContext").Some?
            && Get(Get(g.value, "ixChartContext").value, "isStopped") == Some(Bool(false))
  {
    var global := GetOr(config, "global", Obj([]));
    var context := GetOr(global, "ixChartContext", Obj([]));
    var context' := Obj(Set(context.entries, "isStopped", Bool(false)));
    var inner := Set(global.entries, "ixChartContext", context');
    SetReads(context.entries, "isStopped", Bool(false));
    SetReads(inner, "stopAll", Bool(false));
    SetReads(global.entries, "ixChartContext", context');
    SetKeepsOthers(inner, "stopAll", Bool(false), "ixChartContext");
    SetReads(config.entries, "global", Obj(Set(inner, "stopAll", Bool(false))));
  }

  /** Every other key keeps its value: at the top level, in `global` and in `global.ixChartContext`. */
  lemma StopKeepsOthers(config: Value, k: string)
    requires StopValuesFalse(config).Ok?
    ensures k != "global" ==> Get(StopValuesFalse(config).value, k) == Get(config, k)
    ensures var g := GetOr(config, "global", Obj([]));
            var g' := GetOr(StopValuesFalse(config).value, "global", Null);
            k != "stopAll" && k != "ixChartContext" ==> Get(g', k) == Get(g, k)
    ensures var c := GetOr(GetOr(config, "global", Obj([])), "ixChartContext", Obj([]));
            var c' := GetOr(GetOr(StopValuesFalse(config).value, "global", Null), "ixChartContext", Null);
            k != "isStopped" ==> Get(c', k) == Get(c, k)
  {
    StopFlagsFalse(config);
    var global := GetOr(config, "global", Obj([]));
    var context := GetOr(global, "ixChartContext", Obj([]));
    var context' := Obj(Set(context.entries, "isStopped", Bool(false)));
    var inner := Set(global.entries, "ixChartContext", context');
    var global' := Obj(Set(inner, "stopAll", Bool(false)));
    SetReads(config.entries, "global", global');
    SetReads(inner, "stopAll", Bool(false));
    SetReads(global.entries, "ixChartContext", context');
    SetKeepsOthers(inner, "stopAll", Bool(false), "ixChartContext");
    if k != "global" {
      SetKeepsOthers(config.entries, "global", global', k);
    }
    if k != "stopAll" && k != "ixChartContext" {
      SetKeepsOthers(inner, "stopAll", Bool(false), k);
      SetKeepsOthers(global.entries, "ixChartContext", context', k);
      if Lookup(global.entries, k).Some? {
        assert global.Obj?;
      }
    }
    if k != "isStopped" {
      SetKeepsOthers(context.entries, "isStopped", Bool(false), k);
    }
  }

  // ---------------------------------------------------------------- create

  const VersionMissing := "[ENOENT] Unable to locate"
  const NamespaceBusy := "[EFAULT] Unable delete namespace"

  /** The outcome of one `chart.release.create` call. */
  datatype Outcome = Done | ClientError(msg: string) | OtherError(msg: string)

  /** The result dict `create` returns. */
  datatype CreateResult = CreateResult(success: bool, message: string, retry: bool)

  /** The payloads sent, in order, and the result; `None` when `create` itself raises. */
  datatype Creation = Creation(result: Option<CreateResult>, payloads: seq<Value>)

  /** `metadata[key]`: a missing key raises `KeyError`, whose text is the quoted key. */
  function Field(metadata: Value, key: string): (r: Result<Value>)
    ensures r.Ok? <==> Get(metadata, key).Some?
    ensures r.Ok? ==> r.value == Get(metadata, key).value
  {
    if !metadata.Obj? then Err("TypeError")
    else match Lookup(metadata.entries, key)
      case Some(x) => Ok(x)
      case None => Err("'" + key + "'")
  }

  /** `f"{value}"` for the scalars a release name can be. */
  function Text(v: Value): string {
    match v
    case Str(s) => s
    case Int(i) => IntToString(i)
    case Bool(b) => if b then "True" else "False"
    case Null => "None"
    case _ => "<container>"
  }

  /** The payload of `chart.release.create`, built from the metadata fields. */
  function Payload(values: Value, catalog: Value, chart: Value, release: Value, train: Value, version: Value): (r: Value)
    ensures r.Obj? && |r.entries| == 6 && DistinctKeys(r.entries)
  {
    Obj([("values", values), ("catalog", catalog), ("item", chart), ("release_name", release),
         ("train", train), ("version", version)])
  }

  /** `del data['version']`. */
  function WithoutVersion(data: Value): (r: Value)
    requires data.Obj?
    ensures r.Obj? && Lookup(r.entries, "version").None?
    ensures forall k :: k != "version" ==> Lookup(r.entries, k) == Lookup(data.entries, k)
  {
    forall k ensures Lookup(KeepEntries(data.entries, {"version"}), k) == if k in {"version"} then None else Lookup(data.entries, k) {
      KeepEntriesLookup(data.entries, {"version"}, k);
    }
    Obj(KeepEntries(data.entries, {"version"}))
  }

  /** `_handle_creation_error`: the error text, and `retry` iff it names the missing version. */
  function Failed(msg: string): CreateResult {
    CreateResult(false, msg, Contains(msg, VersionMissing))
  }

  /** The outer `except ClientException` handler: one more call when the namespace was busy. */
  function OuterClient(data: Value, release: Value, msg: string, call: nat, outcome: nat -> Outcome): (c: Creation)
    ensures Contains(msg, NamespaceBusy) ==> c.payloads == [data]
    ensures !Contains(msg, NamespaceBusy) ==> c == Creation(Some(Failed(msg)), [])
  {
    if Contains(msg, NamespaceBusy) then
      match outcome(call)
      case Done =>
        Creation(Some(CreateResult(true, "Chart release created successfully for " + Text(release) + " after retry", false)), [data])
      case ClientError(m) => Creation(Some(CreateResult(false, m, false)), [data])
      case OtherError(m) => Creation(Some(CreateResult(false, m, false)), [data])
    else Creation(Some(Failed(msg)), [])
  }

  /** The calls made once the payload is built. */
  function Calls(data: Value, release: Value, outcome: nat -> Outcome): (c: Creation)
    requires data.Obj?
    ensures c.result.Some? && 1 <= |c.payloads| <= 3 && c.payloads[0] == data
    ensures c.result.value.success <==> outcome(|c.payloads| - 1) == Done
    ensures c.result.value.retry ==> !c.result.value.success && Contains(c.result.value.message, VersionMissing)
  {
    match outcome(0)
    case Done =>
      Creation(Some(CreateResult(true, "Chart release created successfully for " + Text(release), false)), [data])
    case OtherError(m) => Creation(Some(Failed(m)), [data])
    case ClientError(m) =>
      if Contains(m, VersionMissing) then
        var data' := WithoutVersion(data);
        match outcome(1)
        case Done =>
          Creation(Some(CreateResult(true, "Chart release created successfully for " + Text(release) + " without specific version", false)),
                   [data, data'])
        case OtherError(m2) => Creation(Some(Failed(m2)), [data, data'])
        case ClientError(m2) =>
          var rest := OuterClient(data', release, m2, 2, outcome);
          Creation(rest.result, [data, data'] + rest.payloads)
      else
        var rest := OuterClient(data, release, m, 1, outcome);
        Creation(rest.result, [data] + rest.payloads)
  }

  /**
   * Loading the values, stopping them and building the payload: the payload
   * and the release name, or the text of the error raised on the way.
   */
  function Prepare(metadata: Value, values: Result<Value>): (r: Result<(Value, Value)>)
    ensures r.Ok? ==> r.value.0.Obj?
  {
    if values.Err? then Err(values.error)
    else match StopValuesFalse(values.value)
      case Err(e) => Err(e)
      case Ok(stopped) =>
        match Field(metadata, "catalog")
        case Err(e) => Err(e)
        case Ok(catalog) =>
          match Field(metadata, "chart_name")
          case Err(e) => Err(e)
          case Ok(chart) =>
            match Field(metadata, "release_name")
            case Err(e) => Err(e)
            case Ok(release) =>
              match Field(metadata, "train")
              case Err(e) => Err(e)
              case Ok(train) =>
                match Field(metadata, "version")
                case Err(e) => Err(e)
                case Ok(version) => Ok((Payload(stopped, catalog, chart, release, train, version), release))
  }

  /**
   * `_handle_creation_error` reads `metadata['release_name']` after the test
   * `metadata and 'release_name' in metadata`. For a dict that is safe. A
   * non-zero number or `true` makes the `in` test raise `TypeError`. A
   * string holding `release_name`, or a list holding that string, passes
   * the test and then cannot be indexed by a string, which raises `TypeError`
   * too.
   */
  predicate HandlerRaises(metadata: Value) {
    match metadata
    case Null => false
    case Bool(b) => b
    case Int(n) => n != 0
    case Str(t) => Contains(t, "release_name")
    case Arr(items) => Str("release_name") in items
    case Obj(_) => false
  }

  /**
   * The body of `create` after `metadata.json` has been read. A failure
   * before the first call goes to the generic handler, which itself raises
   * on some metadata that is not a dict.
   */
  function CreateFrom(metadata: Value, values: Result<Value>, outcome: nat -> Outcome): (c: Creation)
    ensures c.result.None? <==> HandlerRaises(metadata)
    ensures c.result.None? ==> c.payloads == []
    ensures c.result.Some? ==>
              (c.result.value.success <==> |c.payloads| > 0 && outcome(|c.payloads| - 1) == Done)
    ensures c.result.Some? && c.result.value.retry ==>
              !c.result.value.success && Contains(c.result.value.message, VersionMissing)
  {
    match Prepare(metadata, values)
    case Err(e) => if HandlerRaises(metadata) then Creation(None, []) else Creation(Some(Failed(e)), [])
    case Ok((data, release)) => Calls(data, release, outcome)
  }

  /**
   * `create` as written: when `metadata.json` cannot be read, the handler
   * refers to the unbound `metadata`, and when it holds one of the values
   * `HandlerRaises` names, the handler's own test raises; either way
   * `create` raises instead of returning a result.
   */
  function Create(metadata: Result<Value>, values: Result<Value>, outcome: nat -> Outcome): (c: Creation)
    ensures c.result.None? <==> metadata.Err? || HandlerRaises(metadata.value)
  {
    if metadata.Err? then Creation(None, []) else CreateFrom(metadata.value, values, outcome)
  }

  /**
   * `create` as evidently intended: an unreadable metadata file is a failed
   * result like any other error, and the handler only reports.
   */
  function CreateChecked(metadata: Result<Value>, values: Result<Value>, outcome: nat -> Outcome): (c: Creation)
    ensures c.result.Some?
    ensures metadata.Ok? && !HandlerRaises(metadata.value) ==> c == Create(metadata, values, outcome)
    ensures metadata.Ok? && HandlerRaises(metadata.value) ==>
              c == Creation(Some(Failed(Prepare(metadata.value, values).error)), [])
    ensures metadata.Err? ==> c == Creation(Some(Failed(metadata.error)), [])
  {
    if metadata.Err? then Creation(Some(Failed(metadata.error)), [])
    else if HandlerRaises(metadata.value) then
      NotDictUnprepared(metadata.value, values);
      Creation(Some(Failed(Prepare(metadata.value, values).error)), [])
    else CreateFrom(metadata.value, values, outcome)
  }

  /** Metadata the handler chokes on is never a dict, so building the payload has already failed. */
  lemma NotDictUnprepared(metadata: Value, values: Result<Value>)
    requires HandlerRaises(metadata)
    ensures Prepare(metadata, values).Err?
  {
    if values.Ok? && StopValuesFalse(values.value).Ok? {
      assert Field(metadata, "catalog").Err?;
    }
  }

  /**
   * Scalar metadata reaches the handler: `5` and `true` raise in the `in`
   * test, the string `"release_name"` when indexed; `0` and `"x"` give a
   * failed result.
   */
  lemma HandlerRaisesOnScalars(values: Result<Value>, outcome: nat -> Outcome)
    ensures Create(Ok(Int(5)), values, outcome).result.None?
    ensures Create(Ok(Bool(true)), values, outcome).result.None?
    ensures Create(Ok(Str("release_name")), values, outcome).result.None?
    ensures Create(Ok(Arr([Str("release_name")])), values, outcome).result.None?
    ensures Create(Ok(Int(0)), values, outcome).result.Some?
    ensures Create(Ok(Str("x")), values, outcome).result.Some?
  {
    assert OccursAt("release_name", "release_name", 0);
    assert !Contains("x", "release_name");
  }

  /** An unreadable metadata file makes `create` raise as written. */
  lemma UnreadableMetadataRaises(values: Result<Value>, outcome: nat -> Outcome)
    ensures Create(Err("No such file"), values, outcome).result.None?
    ensures CreateChecked(Err("No such file"), values, outcome).result == Some(CreateResult(false, "No such file", false))
  {
  }

  /** A backup's metadata record feeds the payload: the same chart, catalog, train, version and release name. */
  lemma PayloadFromRecord(app: string, chart: string, catalog: string, train: string, version: string,
                          values: Value, outcome: nat -> Outcome)
    requires StopValuesFalse(values).Ok?
    ensures var c := Create(Ok(MetadataRecord(app, chart, catalog, train, version)), Ok(values), outcome);
            |c.payloads| >= 1
            && c.payloads[0] == Payload(StopValuesFalse(values).value, Str(catalog), Str(chart), Str(app), Str(train), Str(version))
  {
    MetadataFields(app, chart, catalog, train, version);
  }

  /** A missing version is retried once without `version`; on success the result says so. */
  lemma VersionRetriedWithout(data: Value, release: Value, m: string, outcome: nat -> Outcome)
    requires data.Obj? && outcome(0) == ClientError(m) && Contains(m, VersionMissing) && outcome(1) == Done
    ensures var c := Calls(data, release, outcome);
            c.payloads == [data, WithoutVersion(data)] && c.result.value.success
            && Lookup(c.payloads[1].entries, "version").None?
  {
  }

  /** A busy namespace is retried once with the same payload; a second failure does not ask for a retry. */
  lemma NamespaceRetriedOnce(data: Value, release: Value, m: string, outcome: nat -> Outcome)
    requires data.Obj? && outcome(0) == ClientError(m) && !Contains(m, VersionMissing) && Contains(m, NamespaceBusy)
    ensures var c := Calls(data, release, outcome);
            c.payloads == [data, data]
            && (outcome(1) != Done ==> c.result.value == CreateResult(false, outcome(1).msg, false))
  {
  }

  /** Any other first error fails at once, with `retry` iff the text names the missing version. */
  lemma OtherErrorFails(data: Value, release: Value, outcome: nat -> Outcome)
    requires data.Obj? && outcome(0) != Done
    requires !(outcome(0).ClientError? && (Contains(outcome(0).msg, VersionMissing) || Contains(outcome(0).msg, NamespaceBusy)))
    ensures var c := Calls(data, release, outcome);
            c.payloads == [data] && c.result.value == CreateResult(false, outcome(0).msg, Contains(outcome(0).msg, VersionMissing))
  {
  }
}

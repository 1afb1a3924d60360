/**
 * The live chart releases as the middleware reports them: `ChartCache` holds
 * the last `chart.release.query` result keyed by release id and a list of
 * observers; `APIChartFetcher` holds the record of one release and
 * `APIChartCollection` the list of all of them. Their properties are read
 * off the records (JSON dicts).
 */
module ApiFetch {
  import opened Wrappers
  import opened Json
  import opened ChartConfig
  import Sorting
  import BackupCreate

  function StrOf(v: Value): string {
    if v.Str? then v.s else ""
  }

  /** `if self.chart`: the record is present and non-empty. */
  predicate Present(chart: Option<Value>) {
    chart.Some? && Truthy(chart.value)
  }

  /** A string field two levels down, `chart.get(outer, {}).get(key, '')`, or `''` when the record is absent or empty. */
  function NestedString(chart: Option<Value>, outer: string, key: string): (r: string)
    ensures !Present(chart) ==> r == ""
  {
    if Present(chart) then StrOf(GetOr(GetOr(chart.value, outer, Obj([])), key, Str(""))) else ""
  }

  /** A string field, `chart.get(key, '')`, or `''` when the record is absent or empty. */
  function TopString(chart: Option<Value>, key: string): (r: string)
    ensures !Present(chart) ==> r == ""
  {
    if Present(chart) then StrOf(GetOr(chart.value, key, Str(""))) else ""
  }

  function ChartName(chart: Option<Value>): string { NestedString(chart, "chart_metadata", "name") }

  function Version(chart: Option<Value>): string { NestedString(chart, "chart_metadata", "version") }

  function Catalog(chart: Option<Value>): string { TopString(chart, "catalog") }

  function Train(chart: Option<Value>): string { TopString(chart, "catalog_train") }

  function Status(chart: Option<Value>): string { TopString(chart, "status") }

  /** The string getters read `''` for an absent or empty record. */
  lemma GettersOfAbsent(chart: Option<Value>)
    requires chart.None? || chart == Some(Obj([]))
    ensures ChartName(chart) == "" && Version(chart) == "" && Catalog(chart) == ""
    ensures Train(chart) == "" && Status(chart) == ""
  {
  }

  /** `chart.get('config', {})` on a record known to be a dict. */
  function ConfigIn(c: Value): Value { GetOr(c, "config", Obj([])) }

  /** `....get('global', {})` on a `config` known to be a dict. */
  function GlobalIn(c: Value): Value { GetOr(ConfigIn(c), "global", Obj([])) }

  /** `....get('ixChartContext', {})` on a `global` known to be a dict. */
  function ContextIn(c: Value): Value { GetOr(GlobalIn(c), "ixChartContext", Obj([])) }

  /**
   * `stop_all`: `chart.get('config', {}).get('global', {}).get('stopAll', False)`
   * read without a guard. An absent record, or a record, `config` or
   * `global` that is not a dict, raises `AttributeError`; otherwise the
   * value found is returned as it is.
   */
  function StopAll(chart: Option<Value>): (r: Result<Value>)
    ensures r.Ok? <==> chart.Some? && chart.value.Obj? && ConfigIn(chart.value).Obj? && GlobalIn(chart.value).Obj?
    ensures r.Ok? ==> r.value == GetOr(GlobalIn(chart.value), "stopAll", Bool(false))
    ensures r.Err? ==> r.error == NoGetError
  {
    match chart
    case None => Err(NoGetError)
    case Some(c) =>
      match GetIn(c, "config", Obj([]))
      case Err(e) => Err(e)
      case Ok(config) =>
        match GetIn(config, "global", Obj([]))
        case Err(e) => Err(e)
        case Ok(global) => GetIn(global, "stopAll", Bool(false))
  }

  /**
   * `is_stopped`: the same chain one level further down, through
   * `ixChartContext`, to `isStopped`; a link that is not a dict raises.
   */
  function IsStopped(chart: Option<Value>): (r: Result<Value>)
    ensures r.Ok? <==> chart.Some? && chart.value.Obj? && ConfigIn(chart.value).Obj? && GlobalIn(chart.value).Obj?
                       && ContextIn(chart.value).Obj?
    ensures r.Ok? ==> r.value == GetOr(ContextIn(chart.value), "isStopped", Bool(false))
    ensures r.Err? ==> r.error == NoGetError
  {
    match chart
    case None => Err(NoGetError)
    case Some(c) =>
      match GetIn(c, "config", Obj([]))
      case Err(e) => Err(e)
      case Ok(config) =>
        match GetIn(config, "global", Obj([]))
        case Err(e) => Err(e)
        case Ok(global) =>
          match GetIn(global, "ixChartContext", Obj([]))
          case Err(e) => Err(e)
          case Ok(context) => GetIn(context, "isStopped", Bool(false))
  }

  /** A `null` link raises, where a missing one reads as `{}` and the flag as `False`. */
  lemma StopFlagsOfLinks()
    ensures StopAll(Some(Obj([("config", Null)]))).Err? && IsStopped(Some(Obj([("config", Null)]))).Err?
    ensures IsStopped(Some(Obj([("config", Obj([("global", Obj([("ixChartContext", Str("x"))]))]))]))).Err?
    ensures StopAll(Some(Obj([]))) == Ok(Bool(false)) && IsStopped(Some(Obj([]))) == Ok(Bool(false))
    ensures StopAll(Some(Arr([]))).Err? && StopAll(None).Err?
  {
    assert ContextIn(Obj([("config", Obj([("global", Obj([("ixChartContext", Str("x"))]))]))])) == Str("x");
  }

  /** A release whose values went through `_stop_values_false` reads both stop flags back as `False`. */
  lemma StopFlagsOfClearedValues(config: Value)
    requires BackupCreate.StopValuesFalse(config).Ok?
    ensures StopAll(Some(Obj([("config", BackupCreate.StopValuesFalse(config).value)]))) == Ok(Bool(false))
    ensures IsStopped(Some(Obj([("config", BackupCreate.StopValuesFalse(config).value)]))) == Ok(Bool(false))
  {
    var v := BackupCreate.StopValuesFalse(config).value;
    BackupCreate.StopFlagsFalse(config);
    var c := Obj([("config", v)]);
    assert ConfigIn(c) == v;
  }

  /** `is_valid`: a non-empty dict that has `chart_metadata`. */
  predicate IsValid(chart: Option<Value>) {
    Present(chart) && chart.value.Obj? && HasKey(chart.value, "chart_metadata")
  }

  lemma IsValidMeans(chart: Option<Value>)
    ensures IsValid(chart) <==> chart.Some? && chart.value.Obj? && chart.value.entries != []
                                && exists k :: 0 <= k < |chart.value.entries| && chart.value.entries[k].0 == "chart_metadata"
  {
  }

  /** `chart_config`: the `config` dict, or `{}` for an absent or empty record. */
  function Config(chart: Option<Value>): Value {
    if Present(chart) then GetOr(chart.value, "config", Obj([])) else Obj([])
  }

  /** `is_cnpg` of a record; a non-empty record or a `config` that is not a dict raises. */
  function IsCnpgRecord(chart: Option<Value>): (r: Result<bool>)
    ensures !Present(chart) ==> r == Ok(false)
    ensures Present(chart) && !chart.value.Obj? ==> r == Err(NoGetError)
    ensures r == Ok(true) ==> Present(chart) && chart.value.Obj?
  {
    if Present(chart) && !chart.value.Obj? then Err(NoGetError)
    else
      var cfg := Config(chart);
      if cfg.Obj? then IsCnpg(cfg) else Err(NoGetError)
  }

  /** `has_pvc` of a record; a non-empty record or a `config` that is not a dict raises. */
  function HasPvcRecord(chart: Option<Value>): (r: Result<bool>)
    ensures !Present(chart) ==> r == Ok(false)
    ensures Present(chart) && !chart.value.Obj? ==> r == Err(NoGetError)
  {
    if Present(chart) && !chart.value.Obj? then Err(NoGetError)
    else
      var cfg := Config(chart);
      if cfg.Obj? then HasPvc(cfg) else Err(NoGetError)
  }

  /** `pod.get('metadata', {})` on a pod known to be a dict. */
  function PodMeta(pod: Value): Value { GetOr(pod, "metadata", Obj([])) }

  /** `....get('labels', {})` on metadata known to be a dict. */
  function PodLabels(pod: Value): Value { GetOr(PodMeta(pod), "labels", Obj([])) }

  /**
   * `labels.get('cnpg.io/instanceRole') == 'primary'` for one pod: the pod,
   * its metadata and its labels must be dicts, or the `.get` raises.
   */
  function PrimaryTest(pod: Value): (r: Result<bool>)
    ensures r.Ok? <==> pod.Obj? && PodMeta(pod).Obj? && PodLabels(pod).Obj?
    ensures r == Ok(true) <==> r.Ok? && Get(PodLabels(pod), "cnpg.io/instanceRole") == Some(Str("primary"))
    ensures r.Err? ==> r.error == NoGetError
  {
    match GetIn(pod, "metadata", Obj([]))
    case Err(e) => Err(e)
    case Ok(meta) =>
      match GetIn(meta, "labels", Obj([]))
      case Err(e) => Err(e)
      case Ok(labels) =>
        match GetIn(labels, "cnpg.io/instanceRole", Null)
        case Err(e) => Err(e)
        case Ok(role) => Ok(Get(labels, "cnpg.io/instanceRole").Some? && role == Str("primary"))
  }

  /** The name of a primary pod, `pod.get('metadata', {}).get('name', '')`, as it is. */
  function PodName(pod: Value): Value {
    GetOr(PodMeta(pod), "name", Str(""))
  }

  /** `self.chart.get('resources', {}).get('pods', [])`, iterated; a link that is not a dict raises. */
  function Pods(chart: Value): (r: Result<seq<Value>>)
    ensures r.Ok? <==> chart.Obj? && GetOr(chart, "resources", Obj([])).Obj?
                       && Iterated(GetOr(GetOr(chart, "resources", Obj([])), "pods", Arr([]))).Ok?
    ensures r.Ok? ==> r == Iterated(GetOr(GetOr(chart, "resources", Obj([])), "pods", Arr([])))
  {
    match GetIn(chart, "resources", Obj([]))
    case Err(e) => Err(e)
    case Ok(resources) =>
      match GetIn(resources, "pods", Arr([]))
      case Err(e) => Err(e)
      case Ok(pods) => Iterated(pods)
  }

  /**
   * The search from position `i`: the first pod whose test says primary, or
   * none; a test that raises before one is found ends the search.
   */
  function FirstPrimary(pods: seq<Value>, i: nat): (r: Result<Option<nat>>)
    requires i <= |pods|
    ensures r.Ok? && r.value.Some? ==> i <= r.value.value < |pods| && PrimaryTest(pods[r.value.value]) == Ok(true)
                                       && forall j :: i <= j < r.value.value ==> PrimaryTest(pods[j]) == Ok(false)
    ensures r == Ok(None) <==> forall j :: i <= j < |pods| ==> PrimaryTest(pods[j]) == Ok(false)
    ensures r.Err? ==> exists k :: i <= k < |pods| && PrimaryTest(pods[k]) == Err(r.error)
                                   && forall j :: i <= j < k ==> PrimaryTest(pods[j]) == Ok(false)
    decreases |pods| - i
  {
    if i == |pods| then Ok(None)
    else
      match PrimaryTest(pods[i])
      case Err(e) => Err(e)
      case Ok(primary) =>
        if primary then Ok(Some(i))
        else
          var rest := FirstPrimary(pods, i + 1);
          if rest.Err? then
            var k :| i + 1 <= k < |pods| && PrimaryTest(pods[k]) == Err(rest.error)
                     && forall j :: i + 1 <= j < k ==> PrimaryTest(pods[j]) == Ok(false);
            assert forall j :: i <= j < k ==> PrimaryTest(pods[j]) == Ok(false);
            rest
          else rest
  }

  /**
   * `primary_cnpg_pod`: `''` unless the record is a CNPG app; otherwise the
   * name of the first pod labelled as the primary instance, or `''`. Any
   * `.get` on a value that is not a dict on the way raises.
   */
  function PrimaryPodOf(chart: Option<Value>): (r: Result<Value>)
    ensures IsCnpgRecord(chart).Err? ==> r == Err(IsCnpgRecord(chart).error)
    ensures IsCnpgRecord(chart) == Ok(false) ==> r == Ok(Str(""))
    ensures IsCnpgRecord(chart) == Ok(true) ==>
              (r.Err? <==> Pods(chart.value).Err? || FirstPrimary(Pods(chart.value).value, 0).Err?)
    ensures IsCnpgRecord(chart) == Ok(true) && Pods(chart.value).Ok?
            && (forall k :: 0 <= k < |Pods(chart.value).value| ==> PrimaryTest(Pods(chart.value).value[k]) == Ok(false)) ==>
              r == Ok(Str(""))
    ensures IsCnpgRecord(chart) == Ok(true) && r.Ok? && r != Ok(Str("")) ==>
              var pods := Pods(chart.value).value;
              exists k :: 0 <= k < |pods| && PrimaryTest(pods[k]) == Ok(true) && r == Ok(PodName(pods[k]))
                && forall j :: 0 <= j < k ==> PrimaryTest(pods[j]) == Ok(false)
  {
    match IsCnpgRecord(chart)
    case Err(e) => Err(e)
    case Ok(cnpg) =>
      if !cnpg then Ok(Str(""))
      else
        match Pods(chart.value)
        case Err(e) => Err(e)
        case Ok(pods) =>
          match FirstPrimary(pods, 0)
          case Err(e) => Err(e)
          case Ok(found) => if found.None? then Ok(Str("")) else Ok(PodName(pods[found.value]))
  }

  /** The release id a record is keyed by. */
  function IdOf(chart: Value): string { StrOf(GetOr(chart, "id", Str(""))) }

  /** `{chart['id']: chart for chart in charts}`: later records with the same id replace earlier ones in place. */
  function Keyed(charts: seq<Value>): (r: seq<(string, Value)>)
    decreases |charts|
  {
    if charts == [] then []
    else
      var last := charts[|charts| - 1];
      Set(Keyed(charts[..|charts| - 1]), IdOf(last), last)
  }

  /** The last record with the given id. */
  function LastWithId(charts: seq<Value>, id: string): (r: Option<Value>)
    ensures r.Some? ==> r.value in charts && IdOf(r.value) == id
    ensures r.None? <==> forall k :: 0 <= k < |charts| ==> IdOf(charts[k]) != id
    decreases |charts|
  {
    if charts == [] then None
    else
      var last := charts[|charts| - 1];
      var init := charts[..|charts| - 1];
      assert forall k :: 0 <= k < |init| ==> init[k] == charts[k];
      if IdOf(last) == id then Some(last) else LastWithId(init, id)
  }

  /** Looking up an id in the keyed dict finds the last record with that id. */
  lemma {:induction false} KeyedLookup(charts: seq<Value>, id: string)
    ensures Lookup(Keyed(charts), id) == LastWithId(charts, id)
    decreases |charts|
  {
    if charts != [] {
      var last := charts[|charts| - 1];
      var init := charts[..|charts| - 1];
      KeyedLookup(init, id);
      if IdOf(last) == id {
        SetReads(Keyed(init), id, last);
      } else {
        SetKeepsOthers(Keyed(init), IdOf(last), last, id);
      }
    }
  }

  /** `_fetch_all_charts`: a failed or empty query gives `{}`. */
  function FetchAll(result: Option<seq<Value>>): (r: seq<(string, Value)>)
    ensures result.None? || result == Some([]) ==> r == []
  {
    match result
    case None => []
    case Some(charts) => Keyed(charts)
  }

  function Values(entries: seq<(string, Value)>): (r: seq<Value>)
    ensures |r| == |entries|
    ensures forall k :: 0 <= k < |r| ==> r[k] == entries[k].1
  {
    seq(|entries|, k requires 0 <= k < |entries| => entries[k].1)
  }

  /** `list.remove(x)`: the first occurrence goes; `None` stands for the `ValueError` of an absent element. */
  function RemoveFirst<T(==)>(s: seq<T>, x: T): (r: Option<seq<T>>)
    ensures r.None? <==> x !in s
    decreases |s|
  {
    if s == [] then None
    else if s[0] == x then Some(s[1..])
    else match RemoveFirst(s[1..], x)
      case None => None
      case Some(t) => Some([s[0]] + t)
  }

  /** The removal cuts out exactly the first occurrence. */
  lemma {:induction false} RemoveFirstCuts<T>(s: seq<T>, x: T, i: nat)
    requires i < |s| && s[i] == x
    requires forall j :: 0 <= j < i ==> s[j] != x
    ensures RemoveFirst(s, x) == Some(s[..i] + s[i + 1..])
    decreases i
  {
    if i == 0 {
      assert s[..0] + s[0 + 1..] == s[1..];
    } else {
      var t := s[1..];
      assert t[i - 1] == x;
      assert forall j :: 0 <= j < i - 1 ==> t[j] != x by {
        forall j | 0 <= j < i - 1 ensures t[j] != x { assert t[j] == s[j + 1]; }
      }
      RemoveFirstCuts(t, x, i - 1);
      var a, b := t[..i - 1], t[i..];
      assert RemoveFirst(s, x) == Some([s[0]] + (a + b));
      assert s[..i] == [s[0]] + a;
      assert s[i + 1..] == b;
      assert [s[0]] + (a + b) == ([s[0]] + a) + b;
    }
  }

  /** Removing an observer just added, when it was not registered before, restores the list. */
  lemma {:induction false} RemoveAfterAdd<T>(s: seq<T>, x: T)
    requires x !in s
    ensures RemoveFirst(s + [x], x) == Some(s)
    decreases |s|
  {
    var u := s + [x];
    if s != [] {
      assert u[0] == s[0] != x;
      assert u[1..] == s[1..] + [x];
      RemoveAfterAdd(s[1..], x);
      assert RemoveFirst(u, x) == Some([s[0]] + s[1..]);
      assert [s[0]] + s[1..] == s;
    } else {
      assert u[0] == x && u[1..] == [];
    }
  }

  /** With a duplicate registration, removal takes the earlier copy and the later one stays at the end. */
  lemma {:induction false} DuplicateStays<T>(s: seq<T>, x: T, y: T)
    requires x in s
    ensures RemoveFirst(s + [y], x) == Some(RemoveFirst(s, x).value + [y])
    decreases |s|
  {
    assert (s + [y])[1..] == s[1..] + [y];
    if s[0] != x {
      assert x in s[1..] by { var k :| 0 <= k < |s| && s[k] == x; assert s[1..][k - 1] == x; }
      DuplicateStays(s[1..], x, y);
      var t := RemoveFirst(s[1..], x).value;
      assert RemoveFirst(s + [y], x) == Some([s[0]] + (t + [y]));
      assert RemoveFirst(s, x) == Some([s[0]] + t);
      assert [s[0]] + (t + [y]) == ([s[0]] + t) + [y];
    } else {
      assert (s + [y])[0] == x;
      assert RemoveFirst(s + [y], x) == Some((s + [y])[1..]);
    }
  }

  class ChartCache {
    var charts: seq<(string, Value)>
    var observers: seq<object>

    /** The first construction fetches all releases. */
    constructor (result: Option<seq<Value>>)
      ensures charts == FetchAll(result) && observers == []
    {
      charts := FetchAll(result);
      observers := [];
    }

    /** `refresh`: the cache is replaced wholesale, by `{}` too when the query fails or is empty. */
    method Refresh(result: Option<seq<Value>>)
      modifies this
      ensures charts == FetchAll(result)
      ensures observers == old(observers)
    {
      charts := FetchAll(result);
    }

    /** `get_chart(app)`: the record keyed by that id, or `None`. */
    function GetChart(app: string): Option<Value>
      reads this
    {
      Lookup(charts, app)
    }

    /** `get_all_charts`: the records in key order. */
    function AllCharts(): seq<Value>
      reads this
    {
      Values(charts)
    }

    method AddObserver(o: object)
      modifies this
      ensures observers == old(observers) + [o]
      ensures charts == old(charts)
    {
      observers := observers + [o];
    }

    /** `remove_observer`: `ok` is false for the `ValueError` of an unregistered observer, which leaves the list as it was. */
    method RemoveObserver(o: object) returns (ok: bool)
      modifies this
      ensures ok <==> o in old(observers)
      ensures ok ==> observers == RemoveFirst(old(observers), o).value
      ensures !ok ==> observers == old(observers)
      ensures charts == old(charts)
    {
      match RemoveFirst(observers, o)
      case None => ok := false;
      case Some(rest) => observers := rest; ok := true;
    }
  }

  /** After a refresh, a release's record is the last record the query returned for its id. */
  lemma RefreshedRecord(result: seq<Value>, app: string)
    ensures Lookup(FetchAll(Some(result)), app) == LastWithId(result, app)
  {
    KeyedLookup(result, app);
  }

  class APIChartFetcher {
    const appName: string
    const refreshOnUpdate: bool
    const cache: ChartCache
    var chartData: Option<Value>

    /** Registers itself with the cache and reads its release's record. */
    constructor (appName: string, refreshOnUpdate: bool, cache: ChartCache)
      modifies cache
      ensures this.appName == appName && this.refreshOnUpdate == refreshOnUpdate && this.cache == cache
      ensures chartData == old(cache.GetChart(appName))
      ensures cache.observers == old(cache.observers) + [this]
      ensures cache.charts == old(cache.charts)
    {
      this.appName := appName;
      this.refreshOnUpdate := refreshOnUpdate;
      this.cache := cache;
      chartData := cache.GetChart(appName);
      new;
      cache.AddObserver(this);
    }

    /** `update`: re-reads the record only when both flags are set. */
    method Update(forceRefresh: bool)
      modifies this
      ensures refreshOnUpdate && forceRefresh ==> chartData == cache.GetChart(appName)
      ensures !(refreshOnUpdate && forceRefresh) ==> chartData == old(chartData)
    {
      if refreshOnUpdate && forceRefresh {
        chartData := cache.GetChart(appName);
      }
    }

    /** `primary_cnpg_pod`: the search loop over the pods, stopping at the first primary. */
    method PrimaryCnpgPod() returns (r: Result<Value>)
      ensures r == PrimaryPodOf(chartData)
    {
      var cnpg := IsCnpgRecord(chartData);
      if cnpg.Err? {
        return Err(cnpg.error);
      }
      if !cnpg.value {
        return Ok(Str(""));
      }
      var fetched := Pods(chartData.value);
      if fetched.Err? {
        return Err(fetched.error);
      }
      var pods := fetched.value;
      var primary := Str("");
      var i := 0;
      while i < |pods|
        invariant 0 <= i <= |pods|
        invariant FirstPrimary(pods, 0) == FirstPrimary(pods, i)
      {
        var test := PrimaryTest(pods[i]);
        if test.Err? {
          return Err(test.error);
        }
        if test.value {
          primary := PodName(pods[i]);
          break;
        }
        i := i + 1;
      }
      return Ok(primary);
    }
  }

  /** The names of the records that carry `key`, each read by `name`. */
  function NamesWhere(charts: seq<Value>, has: Value -> bool, name: Value -> string): (r: seq<string>)
    ensures forall x :: x in r <==> exists k :: 0 <= k < |charts| && has(charts[k]) && name(charts[k]) == x
    decreases |charts|
  {
    if charts == [] then []
    else
      var rest := NamesWhere(charts[1..], has, name);
      assert forall k :: 0 < k < |charts| ==> charts[k] == charts[1..][k - 1];
      (if has(charts[0]) then [name(charts[0])] else []) + rest
  }

  function ReleaseName(chart: Value): string { StrOf(GetOr(chart, "name", Str(""))) }

  function MetadataName(chart: Value): string { StrOf(GetOr(GetOr(chart, "chart_metadata", Obj([])), "name", Str(""))) }

  predicate HasMetadata(chart: Value) { HasKey(chart, "chart_metadata") }

  predicate HasName(chart: Value) { HasKey(chart, "name") }

  /** `all_chart_names`: the sorted chart names of the records that have `chart_metadata`, duplicates kept. */
  function AllChartNames(charts: seq<Value>): (r: seq<string>)
    ensures Sorting.SortedBy(r, Sorting.StrLe)
    ensures multiset(r) == multiset(NamesWhere(charts, HasMetadata, MetadataName))
    ensures forall x :: x in r <==> exists k :: 0 <= k < |charts| && HasKey(charts[k], "chart_metadata") && MetadataName(charts[k]) == x
  {
    var names := NamesWhere(charts, HasMetadata, MetadataName);
    var r := Sorting.SortStrings(names);
    assert forall x :: x in r <==> x in multiset(r);
    assert forall x :: x in names <==> x in multiset(names);
    r
  }

  /** `all_release_names`: the sorted release names of the records that have `name`, duplicates kept. */
  function AllReleaseNames(charts: seq<Value>): (r: seq<string>)
    ensures Sorting.SortedBy(r, Sorting.StrLe)
    ensures multiset(r) == multiset(NamesWhere(charts, HasName, ReleaseName))
    ensures forall x :: x in r <==> exists k :: 0 <= k < |charts| && HasKey(charts[k], "name") && ReleaseName(charts[k]) == x
  {
    var names := NamesWhere(charts, HasName, ReleaseName);
    var r := Sorting.SortStrings(names);
    assert forall x :: x in r <==> x in multiset(r);
    assert forall x :: x in names <==> x in multiset(names);
    r
  }

  /** `'config' in chart and 'cnpg' in chart['config']`. */
  predicate DeclaresCnpg(chart: Value) {
    HasKey(chart, "config") && HasKey(GetOr(chart, "config", Obj([])), "cnpg")
  }

  /** The `KeyError` of `chart['name']` on a record without a `name` key. */
  const MissingNameError := "KeyError: 'name'"

  /** `chart['name']` on a record: its release name, or the `KeyError` when it has none. */
  function NameOf(chart: Value): (r: Result<string>)
    ensures r.Ok? <==> HasName(chart)
    ensures r.Ok? ==> r.value == ReleaseName(chart)
    ensures r.Err? ==> r.error == MissingNameError
  {
    if HasName(chart) then Ok(ReleaseName(chart)) else Err(MissingNameError)
  }

  /**
   * `all_cnpg_apps`: the release names, in record order, of the records whose
   * config has a `cnpg` key; such a record without a `name` raises.
   */
  function AllCnpgApps(charts: seq<Value>): (r: Result<seq<string>>)
    ensures r.Ok? <==> forall k :: 0 <= k < |charts| && DeclaresCnpg(charts[k]) ==> HasName(charts[k])
    ensures r.Ok? ==> r.value == NamesWhere(charts, DeclaresCnpg, ReleaseName)
    ensures r.Err? ==> r.error == MissingNameError
    decreases |charts|
  {
    if charts == [] then Ok([])
    else
      assert forall k :: 0 < k < |charts| ==> charts[k] == charts[1..][k - 1];
      var head := if DeclaresCnpg(charts[0]) then NameOf(charts[0]) else Ok("");
      match head
      case Err(e) => Err(e)
      case Ok(name) =>
        match AllCnpgApps(charts[1..])
        case Err(e) => Err(e)
        case Ok(rest) => Ok((if DeclaresCnpg(charts[0]) then [name] else []) + rest)
  }

  /** A listed release is one whose record declares `cnpg`. */
  lemma AllCnpgAppsMembers(charts: seq<Value>, x: string)
    requires AllCnpgApps(charts).Ok?
    ensures x in AllCnpgApps(charts).value <==>
              exists k :: 0 <= k < |charts| && DeclaresCnpg(charts[k]) && ReleaseName(charts[k]) == x
  {
  }

  /**
   * `all_cnpg_apps` over-approximates `is_cnpg`: a record that `is_cnpg`
   * accepts always has a `cnpg` key, but a `cnpg` key whose entries are all
   * disabled is listed too.
   */
  lemma CnpgAppsSuperset(charts: seq<Value>, k: nat)
    requires k < |charts| && IsCnpgRecord(Some(charts[k])) == Ok(true)
    ensures AllCnpgApps(charts).Ok? ==> ReleaseName(charts[k]) in AllCnpgApps(charts).value
  {
    var c := charts[k];
    assert Present(Some(c));
    assert HasKey(c, "config");
    if AllCnpgApps(charts).Ok? {
      AllCnpgAppsMembers(charts, ReleaseName(c));
    }
  }

  lemma CnpgAppsStrictlyLarger()
    ensures var c := Obj([("name", Str("app")), ("config", Obj([("cnpg", Obj([]))]))]);
            AllCnpgApps([c]) == Ok(["app"]) && IsCnpgRecord(Some(c)) == Ok(false)
  {
    var c := Obj([("name", Str("app")), ("config", Obj([("cnpg", Obj([]))]))]);
    assert DeclaresCnpg(c);
    assert HasName(c);
    assert ReleaseName(c) == "app";
    assert NameOf(c) == Ok("app");
    assert [c][1..] == [] && [c][0] == c;
    assert NamesWhere([c], DeclaresCnpg, ReleaseName) == ["app"];
    assert AllCnpgApps([c]).Ok?;
  }

  /** Whether a record has a PVC persistence entry, as `all_apps_with_pvcs` asks it. */
  function PvcRecord(chart: Value): Result<bool> {
    if !chart.Obj? then Err(NoGetError)
    else
      var cfg := GetOr(chart, "config", Obj([]));
      if cfg.Obj? then HasPvc(cfg) else Err(NoGetError)
  }

  /** A record that `all_apps_with_pvcs` lists. */
  predicate PvcListed(chart: Value) {
    PvcRecord(chart) == Ok(true)
  }

  /**
   * `all_apps_with_pvcs`: the release names, in record order, of the records
   * with PVC persistence. A record or config that is not a dict raises at
   * `.get`, and a listed record without a `name` raises the `KeyError`.
   */
  function AllAppsWithPvcs(charts: seq<Value>): (r: Result<seq<string>>)
    ensures r.Ok? <==> forall k :: 0 <= k < |charts| ==>
                         PvcRecord(charts[k]).Ok? && (PvcListed(charts[k]) ==> HasName(charts[k]))
    ensures r.Ok? ==> r.value == NamesWhere(charts, PvcListed, ReleaseName)
    ensures r.Ok? ==> forall x :: x in r.value <==> exists k :: 0 <= k < |charts| && PvcRecord(charts[k]) == Ok(true) && ReleaseName(charts[k]) == x
    decreases |charts|
  {
    if charts == [] then Ok([])
    else
      assert forall k :: 0 < k < |charts| ==> charts[k] == charts[1..][k - 1];
      match PvcRecord(charts[0])
      case Err(e) => Err(e)
      case Ok(b) =>
        var head := if b then NameOf(charts[0]) else Ok("");
        match head
        case Err(e) => Err(e)
        case Ok(name) =>
          match AllAppsWithPvcs(charts[1..])
          case Err(e) => Err(e)
          case Ok(rest) => Ok((if b then [name] else []) + rest)
  }

  /** A record that would be listed but has no `name` makes both lists raise the `KeyError`. */
  lemma MissingNameRaises()
    ensures var pvc := Obj([("config", Obj([("persistence", Obj([("data", Obj([("type", Str("pvc"))]))]))]))]);
            AllAppsWithPvcs([pvc]) == Err(MissingNameError)
    ensures AllCnpgApps([Obj([("config", Obj([("cnpg", Obj([]))]))])]) == Err(MissingNameError)
  {
    var entry := Obj([("type", Str("pvc"))]);
    var persistence := Obj([("data", entry)]);
    var cfg := Obj([("persistence", persistence)]);
    var pvc := Obj([("config", cfg)]);
    assert GetOr(pvc, "config", Obj([])) == cfg;
    assert AnyPvc(persistence.entries) by {
      assert persistence.entries[0] == ("data", entry);
    }
    assert PvcRecord(pvc) == Ok(true);
    assert !HasName(pvc);
    var cnpg := Obj([("config", Obj([("cnpg", Obj([]))]))]);
    assert DeclaresCnpg(cnpg) && !HasName(cnpg);
  }

  /** For a non-empty record, `has_pvc` of the fetcher and the collection's test agree. */
  lemma HasPvcAgrees(chart: Value)
    requires Truthy(chart)
    ensures HasPvcRecord(Some(chart)) == PvcRecord(chart)
  {
  }

  class APIChartCollection {
    const refreshOnUpdate: bool
    const cache: ChartCache
    var chartsData: seq<Value>

    constructor (refreshOnUpdate: bool, cache: ChartCache)
      modifies cache
      ensures this.refreshOnUpdate == refreshOnUpdate && this.cache == cache
      ensures chartsData == old(cache.AllCharts())
      ensures cache.observers == old(cache.observers) + [this]
      ensures cache.charts == old(cache.charts)
    {
      this.refreshOnUpdate := refreshOnUpdate;
      this.cache := cache;
      chartsData := cache.AllCharts();
      new;
      cache.AddObserver(this);
    }

    /** `update`: re-reads all records only when both flags are set. */
    method Update(forceRefresh: bool)
      modifies this
      ensures refreshOnUpdate && forceRefresh ==> chartsData == cache.AllCharts()
      ensures !(refreshOnUpdate && forceRefresh) ==> chartsData == old(chartsData)
    {
      if refreshOnUpdate && forceRefresh {
        chartsData := cache.AllCharts();
      }
    }
  }
}

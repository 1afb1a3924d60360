/**
 * `BackupChartFetcher`: the index of the charts stored in one backup. Each
 * chart directory contributes one record, keyed by the directory's stem,
 * holding its metadata, its `ixVolumes` configuration and the paths of its
 * backed-up files. The restore removes an app from the index when the app
 * fails critically, and every list the restore iterates is derived from the
 * index afresh.
 */
module BackupFetch {
  import opened Wrappers
  import opened Strings
  import opened Json
  import opened ChartConfig
  import Sorting
  import opened Paths

  /** One chart record (`charts_info[app]`). */
  datatype ChartInfo = ChartInfo(
    chartName: string, version: string, train: string, catalog: string, dataset: string,
    isCnpg: bool,
    ixVolumes: Value,
    database: Option<string>, namespace: Option<string>, metadataFile: Option<string>,
    valuesFile: Option<string>, chartVersion: Option<string>, cnpgPvcsToDelete: Option<string>,
    secrets: seq<string>, crds: seq<string>, pvZfsVolumes: seq<string>, snapshots: seq<string>)

  /**
   * What the file system shows of one entry of the charts directory. A JSON
   * file that is absent or cannot be decoded is `None`. The listings are the
   * file names of a sub-directory in iteration order (empty when it is
   * absent); `versionEntries` is `None` when `chart_versions` is absent.
   */
  datatype ChartDir = ChartDir(
    name: string, isDir: bool,
    metadata: Option<Value>, values: Option<Value>,
    databaseFiles: set<string>, hasNamespace: bool, hasCnpgPvcs: bool,
    versionEntries: Option<seq<string>>,
    secrets: seq<string>, crds: seq<string>, pvZfsVolumes: seq<string>, snapshots: seq<string>)

  /** `charts_info`: app names in insertion order and their records. */
  datatype Charts = Charts(order: seq<string>, info: map<string, ChartInfo>)

  /** A dict's keys are distinct and are exactly its entries. */
  predicate Valid(c: Charts) {
    Sorting.Distinct(c.order) && (forall a :: a in c.order ==> a in c.info) && (forall a :: a in c.info ==> a in c.order)
  }

  // ---------------------------------------------------------------------
  // Parsing one chart directory

  /** A JSON file as `_parse_json_file` returns it: `{}` for an absent or unreadable file. */
  function ReadJson(file: Option<Value>): Value {
    match file
    case None => Obj([])
    case Some(v) => v
  }

  /** `_get_database_file`: `<app>.sql` is preferred over `<app>.sql.gz`. */
  function DatabaseFile(dir: string, files: set<string>, app: string): (r: Option<string>)
    ensures app + ".sql" in files ==> r == Some(dir + "/" + app + ".sql")
    ensures app + ".sql" !in files && app + ".sql.gz" in files ==> r == Some(dir + "/" + app + ".sql.gz")
    ensures r.None? <==> app + ".sql" !in files && app + ".sql.gz" !in files
  {
    if app + ".sql" in files then Some(dir + "/" + app + ".sql")
    else if app + ".sql.gz" in files then Some(dir + "/" + app + ".sql.gz")
    else None
  }

  /** `_get_chart_version_file`: the first entry whose suffix is `.gz`; iterating an absent directory raises. */
  function ChartVersionFile(dir: string, entries: Option<seq<string>>): (r: Result<Option<string>>)
    ensures r.Err? <==> entries.None?
    ensures r.Ok? && r.value.Some? ==>
              exists k :: 0 <= k < |entries.value| && GzSuffix(entries.value[k]) && r.value.value == dir + "/" + entries.value[k]
                && forall j :: 0 <= j < k ==> !GzSuffix(entries.value[j])
    ensures r.Ok? && r.value.None? ==> forall k :: 0 <= k < |entries.value| ==> !GzSuffix(entries.value[k])
  {
    match entries
    case None => Err("chart_versions directory does not exist")
    case Some(names) =>
      match FirstGz(names)
      case None => Ok(None)
      case Some(k) => Ok(Some(dir + "/" + names[k]))
  }

  function FirstGz(names: seq<string>): (r: Option<nat>)
    ensures r.Some? ==> r.value < |names| && GzSuffix(names[r.value]) && forall j :: 0 <= j < r.value ==> !GzSuffix(names[j])
    ensures r.None? ==> forall k :: 0 <= k < |names| ==> !GzSuffix(names[k])
    decreases |names|
  {
    if names == [] then None
    else if GzSuffix(names[0]) then Some(0)
    else match FirstGz(names[1..])
      case None => None
      case Some(k) => Some(k + 1)
  }

  function Under(dir: string, names: seq<string>): (r: seq<string>)
    ensures |r| == |names|
    ensures forall k :: 0 <= k < |r| ==> r[k] == dir + "/" + names[k]
  {
    seq(|names|, k requires 0 <= k < |names| => dir + "/" + names[k])
  }

  /**
   * `_parse_chart`: `Ok(None)` when metadata or values is not a non-empty
   * value (the `{}` result that makes the app be skipped); an error when a
   * non-empty one is not a dict, when the `cnpg` entry is not a dict, or when
   * `chart_versions` is missing.
   */
  function ParseChart(base: string, d: ChartDir, app: string): (r: Result<Option<ChartInfo>>)
    ensures !(Truthy(ReadJson(d.metadata)) && Truthy(ReadJson(d.values))) ==> r == Ok(None)
    ensures r.Ok? && r.value.Some? ==>
              Truthy(ReadJson(d.metadata)) && Truthy(ReadJson(d.values))
              && ReadJson(d.metadata).Obj? && ReadJson(d.values).Obj?
              && r.value.value.chartName == GetString(ReadJson(d.metadata), "chart_name")
              && r.value.value.version == GetString(ReadJson(d.metadata), "version")
              && IsCnpg(ReadJson(d.values)).Ok? && r.value.value.isCnpg == IsCnpg(ReadJson(d.values)).value
              && r.value.value.crds == Under(base + "/" + d.name + "/kubernetes_objects" + "/crds", d.crds)
              && r.value.value.metadataFile.Some? && r.value.value.valuesFile.Some?
    ensures Truthy(ReadJson(d.metadata)) && Truthy(ReadJson(d.values)) && d.versionEntries.None? ==> r.Err?
  {
    var md := ReadJson(d.metadata);
    var cfg := ReadJson(d.values);
    var dir := base + "/" + d.name;
    if !(Truthy(md) && Truthy(cfg)) then Ok(None)
    else if !md.Obj? || !cfg.Obj? then Err("metadata or values is not a mapping")
    else match IsCnpg(cfg)
      case Err(e) => Err(e)
      case Ok(cnpg) =>
        match ChartVersionFile(dir + "/chart_versions", d.versionEntries)
        case Err(e) => Err(e)
        case Ok(version) =>
          var objects := dir + "/kubernetes_objects";
          Ok(Some(ChartInfo(
            GetString(md, "chart_name"), GetString(md, "version"), GetString(md, "train"),
            GetString(md, "catalog"), GetString(md, "dataset"),
            cnpg,
            match Lookup(cfg.entries, "ixVolumes") case None => Arr([]) case Some(v) => v,
            DatabaseFile(dir + "/database", d.databaseFiles, app),
            if d.hasNamespace then Some(objects + "/namespace/namespace.yaml") else None,
            Some(dir + "/chart_info/metadata.json"),
            Some(dir + "/chart_info/values.json"),
            version,
            if d.hasCnpgPvcs then Some(objects + "/cnpg_pvcs_to_delete.txt") else None,
            Under(objects + "/secrets", d.secrets),
            Under(objects + "/crds", d.crds),
            Under(objects + "/pv_zfs_volumes", d.pvZfsVolumes),
            Under(dir + "/snapshots", d.snapshots))))
  }

  // ---------------------------------------------------------------------
  // The index

  /** `charts_info[app] = info`: a new key is appended, an existing one keeps its place. */
  function Put(c: Charts, app: string, ci: ChartInfo): (r: Charts)
    ensures Valid(c) ==> Valid(r)
    ensures r.info == c.info[app := ci]
  {
    if app in c.info then Charts(c.order, c.info[app := ci])
    else
      var r := Charts(c.order + [app], c.info[app := ci]);
      assert Valid(c) ==> Sorting.Distinct(r.order) by {
        if Valid(c) {
          forall i, j | 0 <= i < j < |r.order| ensures r.order[i] != r.order[j] {
            if j == |c.order| { assert r.order[i] == c.order[i] && c.order[i] in c.order; }
          }
        }
      }
      r
  }

  /** The index after the first `dirs` entries of the charts directory (`_parse_all_charts`). */
  function IndexOf(base: string, dirs: seq<ChartDir>): (r: Result<Charts>)
    ensures r.Ok? ==> Valid(r.value)
    decreases |dirs|
  {
    if dirs == [] then Ok(Charts([], map[]))
    else match IndexOf(base, dirs[..|dirs| - 1])
      case Err(e) => Err(e)
      case Ok(c) =>
        var d := dirs[|dirs| - 1];
        if !d.isDir then Ok(c)
        else match ParseChart(base, d, Stem(d.name))
          case Err(e) => Err(e)
          case Ok(None) => Ok(c)
          case Ok(Some(ci)) => Ok(Put(c, Stem(d.name), ci))
  }

  /** A directory whose chart parses. */
  predicate Indexed(base: string, d: ChartDir) {
    d.isDir && ParseChart(base, d, Stem(d.name)).Ok? && ParseChart(base, d, Stem(d.name)).value.Some?
  }

  /** One step of the index: the last entry either adds its record or changes nothing. */
  lemma IndexStep(base: string, dirs: seq<ChartDir>)
    requires dirs != [] && IndexOf(base, dirs).Ok?
    ensures IndexOf(base, dirs[..|dirs| - 1]).Ok?
    ensures var d := dirs[|dirs| - 1];
            IndexOf(base, dirs).value.info ==
              if Indexed(base, d) then IndexOf(base, dirs[..|dirs| - 1]).value.info[Stem(d.name) := ParseChart(base, d, Stem(d.name)).value.value]
              else IndexOf(base, dirs[..|dirs| - 1]).value.info
  {
  }

  /** Every record of the index points at its metadata and its values file. */
  predicate Filed(c: Charts) {
    forall a :: a in c.info ==> c.info[a].metadataFile.Some? && c.info[a].valuesFile.Some?
  }

  /** The index `parse_all_charts` builds holds only records with both files. */
  lemma {:induction false} IndexFiled(base: string, dirs: seq<ChartDir>)
    requires IndexOf(base, dirs).Ok?
    ensures Filed(IndexOf(base, dirs).value)
    decreases |dirs|
  {
    if dirs != [] {
      IndexStep(base, dirs);
      IndexFiled(base, dirs[..|dirs| - 1]);
    }
  }

  /** The test a directory passes when it has the stem `app` and parses to a record. */
  function IndexesApp(base: string, app: string): ChartDir -> bool {
    d => Indexed(base, d) && Stem(d.name) == app
  }

  /** Some chart directory of the list has the stem `app` and parses to a record. */
  predicate IndexedAs(base: string, dirs: seq<ChartDir>, app: string) {
    exists k :: 0 <= k < |dirs| && IndexesApp(base, app)(dirs[k])
  }

  /** An app is in the index iff some chart directory with that stem parses to a record. */
  lemma {:induction false} IndexMembers(base: string, dirs: seq<ChartDir>, app: string)
    requires IndexOf(base, dirs).Ok?
    ensures app in IndexOf(base, dirs).value.info <==> IndexedAs(base, dirs, app)
    decreases |dirs|
  {
    if dirs != [] {
      var init := dirs[..|dirs| - 1];
      var d := dirs[|dirs| - 1];
      assert init + [d] == dirs;
      IndexStep(base, dirs);
      IndexMembers(base, init, app);
      assert app in IndexOf(base, dirs).value.info
        <==> app in IndexOf(base, init).value.info || IndexesApp(base, app)(d);
      Sorting.AnySnoc(init, d, IndexesApp(base, app));
    }
  }

  /** The record of an indexed app is the one parsed from the last directory with that stem. */
  lemma {:induction false} IndexLastWins(base: string, dirs: seq<ChartDir>, app: string, k: nat)
    requires IndexOf(base, dirs).Ok?
    requires k < |dirs| && Indexed(base, dirs[k]) && Stem(dirs[k].name) == app
    requires forall j :: k < j < |dirs| ==> !(Indexed(base, dirs[j]) && Stem(dirs[j].name) == app)
    ensures app in IndexOf(base, dirs).value.info
    ensures IndexOf(base, dirs).value.info[app] == ParseChart(base, dirs[k], app).value.value
    decreases |dirs|
  {
    var init := dirs[..|dirs| - 1];
    var d := dirs[|dirs| - 1];
    var c := IndexOf(base, init).value;
    if k == |dirs| - 1 {
      assert IndexOf(base, dirs).value.info == c.info[app := ParseChart(base, d, app).value.value];
    } else {
      assert forall j :: 0 <= j < |init| ==> init[j] == dirs[j];
      IndexLastWins(base, init, app, k);
      if Indexed(base, d) {
        assert Stem(d.name) != app;
        assert IndexOf(base, dirs).value.info == c.info[Stem(d.name) := ParseChart(base, d, Stem(d.name)).value.value];
      } else {
        assert IndexOf(base, dirs).value == c;
      }
    }
  }

  /** A non-directory entry, or a directory whose metadata or values is empty, adds nothing. */
  lemma SkippedEntry(base: string, dirs: seq<ChartDir>, d: ChartDir)
    requires IndexOf(base, dirs).Ok?
    requires !d.isDir || !(Truthy(ReadJson(d.metadata)) && Truthy(ReadJson(d.values)))
    ensures IndexOf(base, dirs + [d]) == IndexOf(base, dirs)
  {
    assert (dirs + [d])[..|dirs|] == dirs;
  }

  // ---------------------------------------------------------------------
  // Derived lists

  /** The chart name of an app; `''` for an unknown app. */
  function GetChartName(c: Charts, app: string): (r: string)
    ensures app !in c.info ==> r == ""
    ensures app in c.info ==> r == c.info[app].chartName
  {
    if app in c.info then c.info[app].chartName else ""
  }

  function GetVersion(c: Charts, app: string): (r: string)
    ensures app !in c.info ==> r == ""
    ensures app in c.info ==> r == c.info[app].version
  {
    if app in c.info then c.info[app].version else ""
  }

  function GetCatalog(c: Charts, app: string): (r: string)
    ensures app !in c.info ==> r == ""
    ensures app in c.info ==> r == c.info[app].catalog
  {
    if app in c.info then c.info[app].catalog else ""
  }

  function GetTrain(c: Charts, app: string): (r: string)
    ensures app !in c.info ==> r == ""
    ensures app in c.info ==> r == c.info[app].train
  {
    if app in c.info then c.info[app].train else ""
  }

  function GetDataset(c: Charts, app: string): (r: string)
    ensures app !in c.info ==> r == ""
    ensures app in c.info ==> r == c.info[app].dataset
  {
    if app in c.info then c.info[app].dataset else ""
  }

  /** The file kinds `get_file` is asked for. */
  datatype FileKind = Database | Namespace | MetadataFile | ValuesFile | ChartVersion | CnpgPvcsToDelete
                    | Secrets | Crds | PvZfsVolumes | Snapshots

  /** What `get_file` returns: `None`, one path, or a list of paths. */
  datatype FileRef = NoFile | OnePath(path: string) | Paths(paths: seq<string>)

  function OneOrNone(p: Option<string>): FileRef {
    match p
    case None => NoFile
    case Some(x) => OnePath(x)
  }

  /** `get_file(app, kind)`: `None` for an unknown app. */
  function GetFile(c: Charts, app: string, kind: FileKind): (r: FileRef)
    ensures app !in c.info ==> r == NoFile
    ensures app in c.info && kind == Crds ==> r == Paths(c.info[app].crds)
    ensures app in c.info && kind == Database ==> r == OneOrNone(c.info[app].database)
  {
    if app !in c.info then NoFile
    else
      var ci := c.info[app];
      match kind
      case Database => OneOrNone(ci.database)
      case Namespace => OneOrNone(ci.namespace)
      case MetadataFile => OneOrNone(ci.metadataFile)
      case ValuesFile => OneOrNone(ci.valuesFile)
      case ChartVersion => OneOrNone(ci.chartVersion)
      case CnpgPvcsToDelete => OneOrNone(ci.cnpgPvcsToDelete)
      case Secrets => Paths(ci.secrets)
      case Crds => Paths(ci.crds)
      case PvZfsVolumes => Paths(ci.pvZfsVolumes)
      case Snapshots => Paths(ci.snapshots)
  }

  predicate IsCnpgApp(c: Charts, app: string) { app in c.info && c.info[app].isCnpg }

  predicate HasCrds(c: Charts, app: string) { app in c.info && c.info[app].crds != [] }

  /** `cnpg_apps`: the CNPG apps in insertion order. */
  function CnpgApps(c: Charts): (r: seq<string>)
    ensures forall a :: a in r <==> a in c.order && IsCnpgApp(c, a)
  {
    Sorting.Filter(c.order, a => IsCnpgApp(c, a))
  }

  /** `apps_with_crds`: the apps that have CRD files, in insertion order. */
  function AppsWithCrds(c: Charts): (r: seq<string>)
    ensures forall a :: a in r <==> a in c.order && HasCrds(c, a)
  {
    Sorting.Filter(c.order, a => HasCrds(c, a))
  }

  /** `chart_names`: one chart name per app, in insertion order. */
  function ChartNames(c: Charts): (r: seq<string>)
    ensures |r| == |c.order|
    ensures forall k :: 0 <= k < |r| ==> r[k] == GetChartName(c, c.order[k])
  {
    seq(|c.order|, k requires 0 <= k < |c.order| => GetChartName(c, c.order[k]))
  }

  const PriorityList: seq<string> := ["prometheus-operator", "openebs", "cloudnative-pg", "cert-manager", "metallb", "traefik"]

  /** `priority_list.index(chart_name)`. */
  function IndexIn(s: seq<string>, x: string): (r: Option<nat>)
    ensures r.Some? ==> r.value < |s| && s[r.value] == x && forall j :: 0 <= j < r.value ==> s[j] != x
    ensures r.None? <==> x !in s
    decreases |s|
  {
    if s == [] then None
    else if s[0] == x then Some(0)
    else match IndexIn(s[1..], x)
      case None => None
      case Some(k) => Some(k + 1)
  }

  /** The first component of the `all_releases` sort key: 0 priority charts, 1 other apps, 2 CNPG apps. */
  function Group(c: Charts, app: string): (r: nat)
    ensures r == 0 <==> GetChartName(c, app) in PriorityList
    ensures r == 2 <==> GetChartName(c, app) !in PriorityList && IsCnpgApp(c, app)
    ensures r <= 2
  {
    if IndexIn(PriorityList, GetChartName(c, app)).Some? then 0
    else if IsCnpgApp(c, app) then 2
    else 1
  }

  function Rank(c: Charts, app: string): nat {
    match IndexIn(PriorityList, GetChartName(c, app))
    case Some(k) => k
    case None => 0
  }

  /** The `all_releases` key order: group, then priority position in group 0 and name in groups 1 and 2. */
  predicate ReleaseLe(c: Charts, a: string, b: string) {
    Group(c, a) < Group(c, b)
    || (Group(c, a) == Group(c, b) && (if Group(c, a) == 0 then Rank(c, a) <= Rank(c, b) else Sorting.StrLe(a, b)))
  }

  lemma ReleaseLeOrder(c: Charts)
    ensures Sorting.TotalPreorder((a, b) => ReleaseLe(c, a, b))
  {
    Sorting.StrLeOrder();
  }

  /** `all_releases`: `sorted(charts_info.keys(), key=sort_key)`. */
  function AllReleases(c: Charts): (r: seq<string>)
    ensures multiset(r) == multiset(c.order)
  {
    Sorting.SortBy(c.order, (a, b) => ReleaseLe(c, a, b))
  }

  /**
   * `all_releases` lists every app once: first the apps whose chart is in the
   * priority list, in priority-list order; then the other non-CNPG apps by
   * name; then the CNPG apps by name.
   */
  lemma AllReleasesOrdered(c: Charts)
    ensures forall a :: a in AllReleases(c) <==> a in c.order
    ensures forall i, j :: 0 <= i < j < |AllReleases(c)| ==>
              var a, b := AllReleases(c)[i], AllReleases(c)[j];
              Group(c, a) <= Group(c, b)
              && (Group(c, a) == Group(c, b) == 0 ==> Rank(c, a) <= Rank(c, b))
              && (Group(c, a) == Group(c, b) != 0 ==> Sorting.StrLe(a, b))
  {
    var le := (a, b) => ReleaseLe(c, a, b);
    ReleaseLeOrder(c);
    Sorting.SortBySorted(c.order, le);
    var r := AllReleases(c);
    assert forall a :: a in r <==> a in multiset(r);
    assert forall a :: a in c.order <==> a in multiset(c.order);
    forall i, j | 0 <= i < j < |r|
      ensures Group(c, r[i]) <= Group(c, r[j])
      ensures Group(c, r[i]) == Group(c, r[j]) == 0 ==> Rank(c, r[i]) <= Rank(c, r[j])
      ensures Group(c, r[i]) == Group(c, r[j]) != 0 ==> Sorting.StrLe(r[i], r[j])
    {
      assert le(r[i], r[j]);
    }
  }

  /**
   * `sorted` is stable: releases with equal sort keys (two apps of the same
   * priority chart) keep the order in which the backup index lists them.
   */
  lemma AllReleasesStable(c: Charts, app: string)
    ensures var ties := Sorting.Ties((a, b) => ReleaseLe(c, a, b), app);
            Sorting.Filter(AllReleases(c), ties) == Sorting.Filter(c.order, ties)
  {
    ReleaseLeOrder(c);
    Sorting.SortByStable(c.order, (a, b) => ReleaseLe(c, a, b), app);
  }

  /** Two releases tie exactly when they are in the same group and, in the priority group, have the same rank. */
  lemma ReleaseTies(c: Charts, a: string, b: string)
    ensures Sorting.Ties((x, y) => ReleaseLe(c, x, y), a)(b) <==>
            Group(c, a) == Group(c, b) && (Group(c, a) == 0 ==> Rank(c, a) == Rank(c, b)) && (Group(c, a) != 0 ==> a == b)
  {
    if Group(c, a) == Group(c, b) != 0 && Sorting.StrLe(a, b) && Sorting.StrLe(b, a) {
      Sorting.StrLeAntisym(a, b);
    }
    if a == b {
      Sorting.StrLeTotal(a, a);
    }
  }

  /** The priority charts come out in the priority list's own order. */
  lemma PriorityBeforeOthers(c: Charts, a: string, b: string)
    requires a in c.info && b in c.info
    requires c.info[a].chartName == "prometheus-operator" && c.info[b].chartName == "traefik"
    ensures ReleaseLe(c, a, b) && !ReleaseLe(c, b, a)
  {
    assert IndexIn(PriorityList, "prometheus-operator") == Some(0);
    assert PriorityList[5] == "traefik";
    assert IndexIn(PriorityList, "traefik").Some?;
    assert Rank(c, b) == 5;
  }

  /** The position of the first app in insertion order whose chart name is `chartName`. */
  function FirstWithChart(c: Charts, chartName: string): (r: Option<nat>)
    ensures r.Some? ==> r.value < |c.order| && GetChartName(c, c.order[r.value]) == chartName
    ensures r.Some? ==> forall j :: 0 <= j < r.value ==> GetChartName(c, c.order[j]) != chartName
    ensures r.None? ==> forall j :: 0 <= j < |c.order| ==> GetChartName(c, c.order[j]) != chartName
  {
    FirstFrom(c, chartName, 0)
  }

  function FirstFrom(c: Charts, chartName: string, i: nat): (r: Option<nat>)
    requires i <= |c.order|
    ensures r.Some? ==> i <= r.value < |c.order| && GetChartName(c, c.order[r.value]) == chartName
    ensures r.Some? ==> forall j :: i <= j < r.value ==> GetChartName(c, c.order[j]) != chartName
    ensures r.None? ==> forall j :: i <= j < |c.order| ==> GetChartName(c, c.order[j]) != chartName
    decreases |c.order| - i
  {
    if i == |c.order| then None
    else if GetChartName(c, c.order[i]) == chartName then Some(i)
    else FirstFrom(c, chartName, i + 1)
  }

  /** `get_release_name(chart_name)`: the first app in insertion order with that chart, else `''`. */
  function GetReleaseName(c: Charts, chartName: string): (r: string)
    ensures Valid(c) && r != "" ==> r in c.info && c.info[r].chartName == chartName
    ensures Valid(c) && (forall a :: a in c.info ==> c.info[a].chartName != chartName) ==> r == ""
  {
    match FirstWithChart(c, chartName)
    case None => ""
    case Some(k) => c.order[k]
  }

  // ---------------------------------------------------------------------
  // The ixVolumes dataset

  /** `Path(p).parent` for a POSIX path: the path minus its last component; `.` or `/` when there is none. */
  function Parent(p: string): (r: string) {
    var root := if p != [] && p[0] == '/' then "/" else "";
    var parts := Sorting.Filter(Split(p, '/'), x => x != "" && x != ".");
    if |parts| <= 1 then (if root == "" then "." else "/")
    else root + Join(parts[..|parts| - 1], '/')
  }

  /** A path component as the `zfs` dataset tree has them. */
  predicate PlainComponent(x: string) { x != "" && x != "." && '/' !in x }

  lemma {:induction false} FilterKeepsAll(s: seq<string>)
    requires forall k :: 0 <= k < |s| ==> PlainComponent(s[k])
    ensures Sorting.Filter(s, x => x != "" && x != ".") == s
    decreases |s|
  {
    if s != [] {
      FilterKeepsAll(s[1..]);
      assert [s[0]] + s[1..] == s;
    }
  }

  lemma {:induction false} JoinStartsWithComponent(parts: seq<string>)
    requires |parts| >= 1 && parts[0] != []
    ensures Join(parts, '/') != [] && Join(parts, '/')[0] == parts[0][0]
  {
  }

  /** The parent of `a/b/.../y/z` is `a/b/.../y`. */
  lemma ParentOfRelative(parts: seq<string>)
    requires |parts| >= 2
    requires forall k :: 0 <= k < |parts| ==> PlainComponent(parts[k])
    ensures Parent(Join(parts, '/')) == Join(parts[..|parts| - 1], '/')
  {
    SplitJoin(parts, '/');
    FilterKeepsAll(parts);
    JoinStartsWithComponent(parts);
    assert parts[0][0] != '/' by { assert parts[0][0] in parts[0]; }
  }

  /** `hostPath` with one leading `/mnt/` removed. */
  function DropMnt(hostPath: string): (r: string)
    ensures StartsWith(hostPath, "/mnt/") ==> hostPath == "/mnt/" + r
    ensures !StartsWith(hostPath, "/mnt/") ==> r == hostPath
  {
    if StartsWith(hostPath, "/mnt/") then hostPath[5..] else hostPath
  }

  /**
   * `get_ix_volumes_dataset`: the parent directory of the first ixVolumes
   * `hostPath`, with a leading `/mnt/` removed; `None` when there are no
   * ixVolumes or the first has no non-empty `hostPath`. A non-list
   * `ixVolumes`, a first entry that is not a dict, or a non-string
   * `hostPath` raises.
   */
  function GetIxVolumesDataset(c: Charts, app: string): (r: Result<Option<string>>)
    ensures app !in c.info ==> r == Ok(None)
    ensures app in c.info && !Truthy(c.info[app].ixVolumes) ==> r == Ok(None)
    ensures app in c.info && c.info[app].ixVolumes.Arr? && c.info[app].ixVolumes.items != []
            && c.info[app].ixVolumes.items[0].Obj? ==>
              match Get(c.info[app].ixVolumes.items[0], "hostPath")
              case Some(Str(p)) => r == (if p == "" then Ok(None) else Ok(Some(Parent(DropMnt(p)))))
              case None => r == Ok(None)
              case Some(v) => r == (if Truthy(v) then Err("hostPath is not a string") else Ok(None))
  {
    if app !in c.info then Ok(None)
    else
      var vols := c.info[app].ixVolumes;
      if !Truthy(vols) then Ok(None)
      else if !vols.Arr? || !vols.items[0].Obj? then Err("ixVolumes entry is not a mapping")
      else match Get(vols.items[0], "hostPath")
        case None => Ok(None)
        case Some(Str(p)) => if p == "" then Ok(None) else Ok(Some(Parent(DropMnt(p))))
        case Some(v) => if Truthy(v) then Err("hostPath is not a string") else Ok(None)
  }

  /** For the usual `hostPath` `/mnt/pool/ix-applications/app/volume`, the dataset is `pool/ix-applications/app`. */
  lemma IxVolumesDatasetOfMnt(parts: seq<string>)
    requires |parts| >= 2
    requires forall k :: 0 <= k < |parts| ==> PlainComponent(parts[k])
    ensures DropMnt("/mnt/" + Join(parts, '/')) == Join(parts, '/')
    ensures Parent(DropMnt("/mnt/" + Join(parts, '/'))) == Join(parts[..|parts| - 1], '/')
  {
    var p := "/mnt/" + Join(parts, '/');
    assert p[..5] == "/mnt/";
    assert p[5..] == Join(parts, '/');
    ParentOfRelative(parts);
  }

  // ---------------------------------------------------------------------
  // Critical failures

  /** The index once `app` has been deleted from `charts_info`. */
  function Removed(c: Charts, app: string): (r: Charts)
    ensures Valid(c) ==> Valid(r)
    ensures r.info == c.info - {app}
    ensures forall a :: a in r.order <==> a in c.order && a != app
  {
    WithoutKeepsDistinct(c, app);
    Charts(Sorting.Without(c.order, app), c.info - {app})
  }

  lemma WithoutKeepsDistinct(c: Charts, app: string)
    ensures Valid(c) ==> Sorting.Distinct(Sorting.Without(c.order, app))
  {
    if Valid(c) { Sorting.WithoutDistinct(c.order, app); }
  }

  /** Deleting an app twice is deleting it once. */
  lemma RemovedIdempotent(c: Charts, app: string)
    ensures Removed(Removed(c, app), app) == Removed(c, app)
  {
    Sorting.WithoutAbsent(Removed(c, app).order, app);
    assert Removed(c, app).info - {app} == Removed(c, app).info;
  }

  /**
   * After the deletion the app is in none of the derived lists, every other
   * app keeps its record and its place in them, and the chart names lose one
   * entry exactly when the app was indexed.
   */
  lemma RemovedFromDerived(c: Charts, app: string)
    requires Valid(c)
    ensures app !in AllReleases(Removed(c, app))
    ensures app !in CnpgApps(Removed(c, app))
    ensures app !in AppsWithCrds(Removed(c, app))
    ensures forall a :: a != app ==> (a in AllReleases(Removed(c, app)) <==> a in AllReleases(c))
    ensures forall a :: a != app ==> (a in CnpgApps(Removed(c, app)) <==> a in CnpgApps(c))
    ensures forall a :: a != app && a in c.info ==> Removed(c, app).info[a] == c.info[a]
    ensures |ChartNames(Removed(c, app))| == if app in c.info then |ChartNames(c)| - 1 else |ChartNames(c)|
  {
    var r := Removed(c, app);
    AllReleasesOrdered(r);
    AllReleasesOrdered(c);
    RemovedLength(c, app);
  }

  lemma RemovedLength(c: Charts, app: string)
    requires Valid(c)
    ensures |Removed(c, app).order| == if app in c.info then |c.order| - 1 else |c.order|
  {
    if app in c.info {
      var k :| 0 <= k < |c.order| && c.order[k] == app;
      WithoutOnce(c.order, app, k);
    } else {
      Sorting.WithoutAbsent(c.order, app);
    }
  }

  lemma {:induction false} WithoutOnce(s: seq<string>, x: string, k: nat)
    requires Sorting.Distinct(s) && k < |s| && s[k] == x
    ensures |Sorting.Without(s, x)| == |s| - 1
    decreases |s|
  {
    if k == 0 {
      assert x !in s[1..] by {
        forall j | 0 <= j < |s[1..]| ensures s[1..][j] != x { assert s[1..][j] == s[j + 1]; }
      }
      Sorting.WithoutAbsent(s[1..], x);
    } else {
      assert s[0] != x;
      assert Sorting.Distinct(s[1..]) by {
        forall i, j | 0 <= i < j < |s[1..]| ensures s[1..][i] != s[1..][j] {
          assert s[1..][i] == s[i + 1] && s[1..][j] == s[j + 1];
        }
      }
      WithoutOnce(s[1..], x, k - 1);
    }
  }

  class BackupChartFetcher {
    const base: string
    var charts: Charts

    /** The index starts empty; `ParseAllCharts` fills it. */
    constructor (base: string)
      ensures this.base == base && charts == Charts([], map[])
    {
      this.base := base;
      charts := Charts([], map[]);
    }

    /**
     * `_parse_all_charts` over the entries of the charts directory in
     * iteration order. `error` is the exception that ends the construction.
     */
    method ParseAllCharts(dirs: seq<ChartDir>) returns (error: Option<string>)
      requires charts == Charts([], map[])
      modifies this
      ensures error.None? <==> IndexOf(base, dirs).Ok?
      ensures error.None? ==> charts == IndexOf(base, dirs).value
    {
      var i := 0;
      while i < |dirs|
        invariant 0 <= i <= |dirs|
        invariant IndexOf(base, dirs[..i]) == Ok(charts)
      {
        var d := dirs[i];
        assert dirs[..i + 1][..i] == dirs[..i];
        if d.isDir {
          var app := Stem(d.name);
          match ParseChart(base, d, app)
          case Err(e) =>
            PrefixError(base, dirs, i + 1);
            return Some(e);
          case Ok(None) =>
          case Ok(Some(ci)) =>
            charts := Put(charts, app, ci);
        }
        i := i + 1;
      }
      assert dirs[..i] == dirs;
      return None;
    }

    /**
     * `handle_critical_failure`: only the app's own entry is deleted; a second
     * call changes nothing. The removals from the computed lists act on fresh
     * copies and change nothing.
     */
    method HandleCriticalFailure(app: string)
      modifies this
      ensures charts == Removed(old(charts), app)
    {
      charts := Removed(charts, app);
    }
  }

  /** Once a prefix of the entries raises, so does the whole directory. */
  lemma {:induction false} PrefixError(base: string, dirs: seq<ChartDir>, n: nat)
    requires n <= |dirs| && IndexOf(base, dirs[..n]).Err?
    ensures IndexOf(base, dirs).Err?
    decreases |dirs| - n
  {
    if n < |dirs| {
      assert dirs[..n + 1][..n] == dirs[..n];
      PrefixError(base, dirs, n + 1);
    } else {
      assert dirs[..n] == dirs;
    }
  }
}

# heavy_script backup and restore, modelled in Dafny

This project models the backup and restore core of heavy_script, the
TrueNAS SCALE app maintenance tool: how it backs up the applications of a
Kubernetes-based app host to ZFS snapshots and exports, and how it
restores them.

The model covers:

- the ZFS dataset and snapshot cache and its lifecycle and snapshot managers;
- the backup index built from a backup directory and its selection rules;
- listing, pruning and deleting backups and exports, and the backup loop that
  accumulates failures per app;
- the restore orchestration, a class holding the failure ledger, the critical
  list, the create list and the job handles, driven through the fixed phases
  of a full restore and a single-app restore;
- the pure transforms: the YAML cleaner, chart-config cleaning and the
  stop-flag reset, the immich dump rewrite, the log truncator, the
  `config.ini` merge, Kubernetes status-line parsing, the `.tar.gz` name
  stripping, and the chart and PVC record derivations;
- the bounded retry and poll loops: job polling, the database restore with
  its deadlock retry, the chart-create retry, and the Kubernetes resource
  apply loops.

Every call into `zfs`, `kubectl`, the TrueNAS middleware or the Kubernetes
client is a parameter: an oracle that gives the outcome of a command (keyed
by the exact command text where the command's format matters), or a sequence
of observations for a retry or poll loop. The answers to interactive prompts,
the contents of files and directories, and the current time are parameters
too. State the source mutates in place (the ZFS cache, the chart cache, the
backup index, the restore ledger) is held in classes whose methods are
proved equal to specification functions of the old state; the properties
are then proved as lemmas about those functions.

## Model

| member | source | states |
|---|---|---|
| ApiFetch.GettersOfAbsent | functions/backup_restore/charts/api_fetch.py:68-125 | `chart_name`, `version`, `catalog`, `train` and `status` are all `''` when the record is missing or an empty dict |
| ApiFetch.NestedString | functions/backup_restore/charts/api_fetch.py:68-77 | a field two dicts down reads `''` when the record is missing or empty |
| ApiFetch.TopString | functions/backup_restore/charts/api_fetch.py:80-125 | a top-level field reads `''` when the record is missing or empty |
| ApiFetch.StopAll | functions/backup_restore/charts/api_fetch.py:128-137 | `stop_all` is read without a guard: it fails, with the `AttributeError`, exactly when the record is absent or the record, its `config` or its `global` is present but not a dict; otherwise it is the `stopAll` value as found, `False` when missing |
| ApiFetch.IsStopped | functions/backup_restore/charts/api_fetch.py:140-149 | `is_stopped` fails exactly when the record is absent or one of the record, `config`, `global` and `ixChartContext` is present but not a dict; otherwise it is the `isStopped` value as found, `False` when missing |
| ApiFetch.StopFlagsOfLinks | functions/backup_restore/charts/api_fetch.py:135-147 | a `null` `config` or a string `ixChartContext` raises, as does a record that is not a dict or is absent; a record without `config` reads both flags as `False` |
| ApiFetch.StopFlagsOfClearedValues | functions/backup_restore/charts/api_fetch.py:135-147 | a release whose values went through `_stop_values_false` reads both stop flags back as `False` |
| ApiFetch.IsValidMeans | functions/backup_restore/charts/api_fetch.py:152-161 | a record is valid iff it is a non-empty dict with a `chart_metadata` key |
| ApiFetch.IsCnpgRecord | functions/backup_restore/charts/api_fetch.py:186-208 | a missing or empty record is not a CNPG app; a non-empty record that is not a dict raises; a CNPG app's record is a non-empty dict |
| ApiFetch.HasPvcRecord | functions/backup_restore/charts/api_fetch.py:186-221 | a missing or empty record has no PVCs; a non-empty record that is not a dict raises |
| ApiFetch.PrimaryTest | functions/backup_restore/charts/api_fetch.py:178-179 | the test of one pod succeeds iff the pod, its metadata and its labels are dicts, and says primary iff the role label is `primary` |
| ApiFetch.Pods | functions/backup_restore/charts/api_fetch.py:176-177 | the pods read succeeds iff the record and its `resources` are dicts and `pods` can be iterated, and then yields what iterating `pods` yields |
| ApiFetch.FirstPrimary | functions/backup_restore/charts/api_fetch.py:177-181 | the index found is a pod whose test says primary, with only non-primary pods before it; no index means every test says not primary; a failure is the error of a pod test reached before any primary |
| ApiFetch.PrimaryPodOf | functions/backup_restore/charts/api_fetch.py:164-183 | `''` for a non-CNPG app or when no pod is primary; otherwise the name, as found, of the first pod labelled primary; fails with `is_cnpg`'s error, or iff the pods read or a pod test reached before the primary fails |
| ApiFetch.APIChartFetcher.PrimaryCnpgPod | functions/backup_restore/charts/api_fetch.py:164-183 | the pod search loop returns exactly `PrimaryPodOf` of the fetcher's record |
| ApiFetch.LastWithId | functions/backup_restore/charts/api_fetch.py:371 | the record found has the id asked for; none is found iff no record has it |
| ApiFetch.KeyedLookup | functions/backup_restore/charts/api_fetch.py:371 | in the dict keyed by `id`, an id maps to the last record that carries it |
| ApiFetch.FetchAll | functions/backup_restore/charts/api_fetch.py:360-376 | a failed or empty query gives `{}` |
| ApiFetch.RefreshedRecord | functions/backup_restore/charts/api_fetch.py:360-376 | after a successful query, a release's record is the last one the query returned for its id |
| ApiFetch.ChartCache.constructor | functions/backup_restore/charts/api_fetch.py:348-356 | the first construction fetches all releases and starts with no observers |
| ApiFetch.ChartCache.Refresh | functions/backup_restore/charts/api_fetch.py:379-385 | the cache is replaced wholesale by the query's result, by `{}` too; the observers stay |
| ApiFetch.ChartCache.AddObserver | functions/backup_restore/charts/api_fetch.py:433-440 | the observer is appended, duplicates included; the cache is untouched |
| ApiFetch.ChartCache.RemoveObserver | functions/backup_restore/charts/api_fetch.py:443-450 | succeeds iff the observer is registered, then removes its first occurrence; otherwise (the `ValueError`) nothing changes |
| ApiFetch.RemoveFirst | functions/backup_restore/charts/api_fetch.py:450 | `list.remove` fails iff the element is absent |
| ApiFetch.RemoveFirstCuts | functions/backup_restore/charts/api_fetch.py:450 | the removal cuts out exactly the first occurrence |
| ApiFetch.RemoveAfterAdd | functions/backup_restore/charts/api_fetch.py:433-450 | removing an observer just added (and not registered before) restores the list |
| ApiFetch.DuplicateStays | functions/backup_restore/charts/api_fetch.py:433-450 | with a duplicate registration the earlier copy is removed and the later one stays |
| ApiFetch.APIChartFetcher.constructor | functions/backup_restore/charts/api_fetch.py:21-35 | registers itself with the cache and reads its release's record from it |
| ApiFetch.APIChartFetcher.Update | functions/backup_restore/charts/api_fetch.py:38-47 | the record is re-read iff `refresh_on_update` and `force_refresh` are both set; otherwise it stays |
| ApiFetch.APIChartCollection.constructor | functions/backup_restore/charts/api_fetch.py:225-237 | registers itself with the cache and reads all the cached records |
| ApiFetch.APIChartCollection.Update | functions/backup_restore/charts/api_fetch.py:240-250 | all records are re-read iff both flags are set; otherwise they stay |
| ApiFetch.NamesWhere | functions/backup_restore/charts/api_fetch.py:287 | a name is listed iff some record carrying the key has that name |
| ApiFetch.AllChartNames | functions/backup_restore/charts/api_fetch.py:280-289 | sorted, and a permutation of the chart names of the records with `chart_metadata` in record order, duplicates kept; so a name is listed iff some such record has it |
| ApiFetch.AllReleaseNames | functions/backup_restore/charts/api_fetch.py:292-301 | sorted, and a permutation of the release names of the records with a `name` key in record order, duplicates kept; so a name is listed iff some such record has it |
| ApiFetch.NameOf | functions/backup_restore/charts/api_fetch.py:315 | `chart['name']` is the record's string name when it has one, and a `KeyError` otherwise |
| ApiFetch.AllCnpgApps | functions/backup_restore/charts/api_fetch.py:320-329 | raises `KeyError: 'name'` iff some record whose config has a `cnpg` key has no name; otherwise the names of exactly those records, in record order and with repeats, as `NamesWhere` lists them |
| ApiFetch.AllCnpgAppsMembers | functions/backup_restore/charts/api_fetch.py:327 | when the comprehension goes through, a name is listed iff some record with a `cnpg` key in its config carries it |
| ApiFetch.CnpgAppsSuperset | functions/backup_restore/charts/api_fetch.py:205-327 | every record that `is_cnpg` accepts is listed by `all_cnpg_apps` whenever that does not raise |
| ApiFetch.CnpgAppsStrictlyLarger | functions/backup_restore/charts/api_fetch.py:205-327 | a record whose `cnpg` section is empty is listed by `all_cnpg_apps` but is not `is_cnpg` |
| ApiFetch.AllAppsWithPvcs | functions/backup_restore/charts/api_fetch.py:304-317 | fails iff some record cannot be read for persistence (a record or a config that is not a dict) or a record with a PVC persistence entry has no name; otherwise the names of exactly the records with a PVC entry, in record order |
| ApiFetch.MissingNameRaises | functions/backup_restore/charts/api_fetch.py:315-327 | a PVC record, and a CNPG record, without a `name` make the listing raise `KeyError: 'name'` rather than list an empty name |
| ApiFetch.HasPvcAgrees | functions/backup_restore/charts/api_fetch.py:218-315 | for a non-empty record, the fetcher's `has_pvc` and the collection's test agree |
| ChartConfig.AnyEnabled | functions/backup_restore/charts/api_fetch.py:206 | true iff some dict-valued entry has a truthy `enabled` |
| ChartConfig.IsCnpg | functions/backup_restore/charts/backup_fetch.py:169-170 | fails iff the `cnpg` section is not a dict; otherwise true iff some dict-valued entry under it is enabled |
| ChartConfig.AnyPvc | functions/backup_restore/charts/api_fetch.py:219 | true iff some dict-valued entry has `type == 'pvc'` |
| ChartConfig.HasPvc | functions/backup_restore/charts/api_fetch.py:218-219 | fails iff `persistence` is not a dict; otherwise true iff one of its dict-valued entries is a PVC |
| Paths.Stem | functions/backup_restore/charts/backup_fetch.py:31 | `Path.stem` is a prefix of the name: the name without the suffix that starts at the last dot, unless that dot is the first or last character |
| Paths.StemExamples | functions/backup_restore/charts/backup_fetch.py:31 | a plain name, a name with a suffix, and a hidden file name have the stems pathlib gives |
| Paths.GzSuffixIsSuffix | functions/backup_restore/charts/backup_fetch.py:228 | the `.gz` test is exactly `Path.suffix == '.gz'` |
| BackupFetch.DatabaseFile | functions/backup_restore/charts/backup_fetch.py:198-215 | `<app>.sql` is preferred over `<app>.sql.gz`; no file iff neither exists |
| BackupFetch.ChartVersionFile | functions/backup_restore/charts/backup_fetch.py:217-230 | a missing directory raises; otherwise the first entry with suffix `.gz`, or none iff there is no such entry |
| BackupFetch.FirstGz | functions/backup_restore/charts/backup_fetch.py:227-230 | the index found is the first `.gz` entry; none iff no entry is `.gz` |
| BackupFetch.Under | functions/backup_restore/charts/backup_fetch.py:184-196 | each listed file becomes `dir/name`, in order |
| BackupFetch.ParseChart | functions/backup_restore/charts/backup_fetch.py:40-157 | unless `metadata.json` and `values.json` both parse to non-empty values the app is omitted, so a record always has both files; otherwise the record carries the metadata fields read with `''` defaults, and a missing `chart_versions` directory raises |
| BackupFetch.Put | functions/backup_restore/charts/backup_fetch.py:34 | storing a record keeps the dict well formed and maps the app to it |
| BackupFetch.IndexOf | functions/backup_restore/charts/backup_fetch.py:25-34 | the charts dict built from the backup's directories is well formed |
| BackupFetch.IndexStep | functions/backup_restore/charts/backup_fetch.py:29-34 | one directory more either adds its stem's record or leaves the dict as it was |
| BackupFetch.IndexFiled | functions/backup_restore/charts/backup_fetch.py:25-34 | every record of a parsed index has both a metadata and a values file |
| BackupFetch.IndexMembers | functions/backup_restore/charts/backup_fetch.py:25-34 | an app is indexed iff some directory with that stem has both JSON files non-empty |
| BackupFetch.IndexLastWins | functions/backup_restore/charts/backup_fetch.py:34 | when two directories share a stem, the later one's record is kept |
| BackupFetch.SkippedEntry | functions/backup_restore/charts/backup_fetch.py:30-33 | a plain file or an app without both JSON files changes nothing |
| BackupFetch.PrefixError | functions/backup_restore/charts/backup_fetch.py:29-34 | an error raised while indexing a prefix of the directories aborts the whole indexing |
| BackupFetch.BackupChartFetcher.constructor | functions/backup_restore/charts/backup_fetch.py:13-23 | starts with an empty charts dict for the given base directory |
| BackupFetch.BackupChartFetcher.ParseAllCharts | functions/backup_restore/charts/backup_fetch.py:25-34 | the loop succeeds iff the indexing succeeds, and then holds exactly `IndexOf` of the directories |
| BackupFetch.GetChartName | functions/backup_restore/charts/backup_fetch.py:295-305 | `''` for an unknown app, else its recorded chart name |
| BackupFetch.GetVersion | functions/backup_restore/charts/backup_fetch.py:307-317 | `''` for an unknown app, else its recorded version |
| BackupFetch.GetCatalog | functions/backup_restore/charts/backup_fetch.py:319-329 | `''` for an unknown app, else its recorded catalog |
| BackupFetch.GetTrain | functions/backup_restore/charts/backup_fetch.py:331-341 | `''` for an unknown app, else its recorded train |
| BackupFetch.GetDataset | functions/backup_restore/charts/backup_fetch.py:358-368 | `''` for an unknown app, else its recorded dataset |
| BackupFetch.GetFile | functions/backup_restore/charts/backup_fetch.py:282-293 | `None` for an unknown app; otherwise the recorded file or file list of the kind asked for |
| BackupFetch.CnpgApps | functions/backup_restore/charts/backup_fetch.py:233-240 | an app is listed iff it is indexed and recorded as a CNPG app |
| BackupFetch.AppsWithCrds | functions/backup_restore/charts/backup_fetch.py:253-260 | an app is listed iff it is indexed and has CRD files |
| BackupFetch.ChartNames | functions/backup_restore/charts/backup_fetch.py:243-250 | one chart name per indexed app, in insertion order |
| BackupFetch.IndexIn | functions/backup_restore/charts/backup_fetch.py:274-275 | the first position of an element; none iff it is absent |
| BackupFetch.Group | functions/backup_restore/charts/backup_fetch.py:272-278 | group 0 iff the chart is in the priority list, group 2 iff it is not but the app is a CNPG app, else group 1 |
| BackupFetch.ReleaseLeOrder | functions/backup_restore/charts/backup_fetch.py:272-280 | the sort key order is a total preorder |
| BackupFetch.AllReleases | functions/backup_restore/charts/backup_fetch.py:263-280 | the sorted releases are a permutation of the indexed apps |
| BackupFetch.AllReleasesOrdered | functions/backup_restore/charts/backup_fetch.py:263-280 | the releases come by group; priority charts in priority-list order, the rest by name |
| BackupFetch.AllReleasesStable | functions/backup_restore/charts/backup_fetch.py:263-280 | `sorted` is stable: releases with equal keys come out in the order the backup index lists them |
| BackupFetch.ReleaseTies | functions/backup_restore/charts/backup_fetch.py:263-280 | two releases tie exactly when they are in the same group with the same priority rank in group 0, and only when equal in the other groups |
| BackupFetch.PriorityBeforeOthers | functions/backup_restore/charts/backup_fetch.py:270 | a `prometheus-operator` app sorts strictly before a `traefik` app |
| BackupFetch.FirstWithChart | functions/backup_restore/charts/backup_fetch.py:353-356 | the index found is the first app in insertion order with that chart name; none iff there is none |
| BackupFetch.FirstFrom | functions/backup_restore/charts/backup_fetch.py:353-356 | the same search from a given position |
| BackupFetch.GetReleaseName | functions/backup_restore/charts/backup_fetch.py:343-356 | a non-empty result is an indexed app with that chart name; `''` when no app has it |
| BackupFetch.FilterKeepsAll | functions/backup_restore/charts/backup_fetch.py:386 | path normalisation keeps every plain component |
| BackupFetch.JoinStartsWithComponent | functions/backup_restore/charts/backup_fetch.py:386 | a relative path joined from components starts with its first component |
| BackupFetch.ParentOfRelative | functions/backup_restore/charts/backup_fetch.py:386 | `Path(p).parent` of a relative path of plain components drops its last component |
| BackupFetch.DropMnt | functions/backup_restore/charts/backup_fetch.py:383-384 | only a leading `/mnt/` is removed |
| BackupFetch.GetIxVolumesDataset | functions/backup_restore/charts/backup_fetch.py:371-388 | `None` for an unknown app, no ixVolumes, or a missing or empty `hostPath`; otherwise the parent of the first `hostPath` without its leading `/mnt/` |
| BackupFetch.IxVolumesDatasetOfMnt | functions/backup_restore/charts/backup_fetch.py:383-387 | for `/mnt/a/b/…/x` the dataset is `a/b/…` |
| BackupFetch.Removed | functions/backup_restore/charts/backup_fetch.py:397-398 | the app's entry and key go, everything else stays, and the dict stays well formed |
| BackupFetch.WithoutKeepsDistinct | functions/backup_restore/charts/backup_fetch.py:397-398 | removal keeps the keys distinct |
| BackupFetch.RemovedIdempotent | functions/backup_restore/charts/backup_fetch.py:390-405 | handling the same critical failure twice is the same as once |
| BackupFetch.RemovedFromDerived | functions/backup_restore/charts/backup_fetch.py:240-405 | after the removal the app is in none of the derived lists, other apps are listed as before, and `chart_names` loses exactly one entry |
| BackupFetch.RemovedLength | functions/backup_restore/charts/backup_fetch.py:397-398 | the key list loses one key iff the app was indexed |
| BackupFetch.WithoutOnce | functions/backup_restore/charts/backup_fetch.py:397-398 | removing a key held once shortens the key list by one |
| BackupFetch.BackupChartFetcher.HandleCriticalFailure | functions/backup_restore/charts/backup_fetch.py:390-405 | the charts dict becomes `Removed` of the old one |
| Backup.SizeStrToBytes | functions/backup_restore/backup/backup.py:225-234 | raises exactly for the empty string (the `IndexError` of `size_str[-1]`) and for an infinity spelling before a unit letter (the `OverflowError` of `int(float('inf') * unit)`, which the `except ValueError` does not catch) |
| Backup.SizeWithUnit | functions/backup_restore/backup/backup.py:226-229 | a count followed by `K`, `M`, `G` or `T` is that count times 1024, 1024², 1024³ or 1024⁴ |
| Backup.SizePlain | functions/backup_restore/backup/backup.py:230-231 | a plain decimal count is that many bytes |
| Backup.DefaultMaximum | functions/backup_restore/backup/backup.py:66-67 | the default `10G` is 10·1024³ bytes |
| Backup.LowerCaseUnitIsZero | functions/backup_restore/backup/backup.py:232-234 | `10k` hits the `ValueError` path and gives 0 |
| Backup.DigitsNotInfinity | functions/backup_restore/backup/backup.py:228-229 | a count that starts and ends with a digit is never read as an infinity |
| Backup.PaddedSize | functions/backup_restore/backup/backup.py:230-231 | ` 10` is 10 bytes: `int` skips the blank |
| Backup.GroupedSize | functions/backup_restore/backup/backup.py:228-229 | `1_0G` is 10·1024³ bytes: the underscore only groups digits |
| Backup.InfinityWithUnit | functions/backup_restore/backup/backup.py:228-234 | `infG` raises: the infinite product cannot become an integer and the error is not caught |
| Backup.InfinityWithoutUnit | functions/backup_restore/backup/backup.py:230-234 | `inf` without a unit is the `ValueError` path of `int` and gives 0 |
| Backup.SnapshotName | functions/backup_restore/backup/backup.py:40-41 | the snapshot name is 32 characters and starts with `HeavyScript--` |
| Backup.SnapshotNameTimestamp | functions/backup_restore/backup/backup.py:40-41 | the run's timestamp is read back from the snapshot name |
| Backup.EscapeIsFlat | functions/backup_restore/backup/backup.py:193 | the escaped snapshot name holds no `/`, so the stream file is one component |
| Backup.EscapeInverse | functions/backup_restore/backup/backup.py:193 | replacing `%%` by `/` undoes the escaping of a name without `%` |
| Backup.StreamFileInjective | functions/backup_restore/backup/backup.py:193 | two snapshots without `%` never share a stream file |
| Backup.PlatformDatasets | functions/backup_restore/backup/backup.py:274-276 | the selection is a subset of the cached datasets disjoint from the ignored ones |
| Backup.SiblingDatasetSelected | functions/backup_restore/backup/backup.py:276 | the prefix test is textual: `tank/ix-applications-old` is selected for `tank/ix-applications` |
| Backup.StreamStep | functions/backup_restore/backup/backup.py:184-218 | a stream is sent iff streams are on and the refer size is within the maximum, and then to the snapshot's stream file; at most one message |
| Backup.MissingDatasetNotSnapshotted | functions/backup_restore/backup/backup.py:168-172 | an uncached PVC dataset records `Dataset … does not exist.` and is not snapshotted |
| Backup.DatasetSendsStream | functions/backup_restore/backup/backup.py:168-199 | a PVC dataset's stream is sent iff it is cached, its snapshot succeeded and the stream gate passes |
| Backup.VolumesStep | functions/backup_restore/backup/backup.py:161-164 | the volume step raises iff some volume path is `None` |
| Backup.AppStep | functions/backup_restore/backup/backup.py:105-220 | an invalid chart record gives exactly `Failed to fetch chart data` and nothing else; a valid one raises iff the namespace backup raises, the PVC backup of an app with PVCs raises, the database backup of a CNPG app raises, or some volume path is `None` |
| Backup.RunCompletes | functions/backup_restore/backup/backup.py:105-220 | the app loop completes iff no app's iteration raises |
| Backup.RunCompletesWhen | functions/backup_restore/backup/backup.py:105-220 | the app loop completes iff no valid app's namespace, PVC or database backup raises and none of its volume paths is `None` |
| Backup.RunErrors | functions/backup_restore/backup/backup.py:103-220 | each app's failure list holds exactly the messages of its own iteration; apps not in the loop have none |
| Backup.InvalidChartRecordsFetchFailure | functions/backup_restore/backup/backup.py:110-114 | an invalid chart record puts exactly `Failed to fetch chart data` against that app |
| Backup.RunClean | functions/backup_restore/backup/backup.py:243-245 | the failures dict is empty (so the success line is logged) iff no app's iteration recorded a message |
| Backup.RunOpsGated | functions/backup_restore/backup/backup.py:161-219 | every snapshot the app loop takes is of a cached dataset and every stream it sends passed the gate |
| Backup.VolumesGated | functions/backup_restore/backup/backup.py:163-199 | the same for the PVC datasets of one app |
| Backup.PrefixRaises | functions/backup_restore/backup/backup.py:105-220 | once an iteration raises, the whole loop raises |
| Backup.SnapshotPlatformDatasets | functions/backup_restore/backup/backup.py:267-283 | one snapshot per selected dataset, each selected dataset snapshotted |
| Backup.BackupApps | functions/backup_restore/backup/backup.py:103-220 | the loop computes exactly `Run` over the releases |
| Backup.BackupAll | functions/backup_restore/backup/backup.py:84-223 | platform snapshots first; then the app loop's operations, one snapshot of the backup dataset, and the failure summary; no summary iff an iteration raises (a namespace, PVC or database backup that raises, or a `None` volume path) |
| BaseManager.DeriveParentOfMount | functions/backup_restore/base_manager.py:16-18 | a path `/mnt/<p>` without a further `/mnt/` maps to the dataset `<p>` |
| BaseManager.DeriveParentInner | functions/backup_restore/base_manager.py:18 | every `/mnt/` is removed, not only the leading one: `/mnt/<a>/mnt/<b>`, with no `/` in `a` or `b`, maps to `<a><b>` |
| BaseManager.NewerFirstOrder | functions/backup_restore/base_manager.py:22-32 | the `reverse=True` timestamp comparison is a total preorder |
| BaseManager.ExportCandidates | functions/backup_restore/base_manager.py:29 | an entry is a candidate iff it is a directory whose name starts with `Export--` |
| BaseManager.ListFull | functions/backup_restore/base_manager.py:22-26 | fails iff some candidate's name does not parse as a timestamp the way `strptime` reads it (unpadded fields accepted); otherwise a permutation of the candidates |
| BaseManager.ListExports | functions/backup_restore/base_manager.py:28-32 | fails iff some export name does not parse the way `strptime` reads it; otherwise a permutation of the candidates |
| BaseManager.ListFullMeans | functions/backup_restore/base_manager.py:22-26 | the full backups are exactly the datasets starting with `parent/HeavyScript--`, newest first |
| BaseManager.ListExportsMeans | functions/backup_restore/base_manager.py:28-32 | the exports are exactly the `Export--` directories, newest first |
| BaseManager.ListBackups | functions/backup_restore/base_manager.py:20-34 | both lists, or an error iff either sort raises |
| BaseManager.SelectNumbered | functions/backup_restore/base_manager.py:74-93 | whatever the answer selects is one of the entries |
| BaseManager.SelectByNumber | functions/backup_restore/base_manager.py:75-87 | the number `n` selects the `n`-th entry iff `1 <= n <= len`, else nothing |
| BaseManager.SelectRejectsWord | functions/backup_restore/base_manager.py:91-93 | a word is the `ValueError` path and selects nothing |
| BaseManager.SelectBackup | functions/backup_restore/base_manager.py:36-93 | the selection is one of the backups offered for the type (full, export, or both) |
| BaseManager.Numbered | functions/backup_restore/base_manager.py:59-72 | the listing numbers the entries from 1 and shows each entry's name |
| BaseManager.ShownNumberSelects | functions/backup_restore/base_manager.py:59-87 | the number shown beside an entry selects that entry |
| BaseManager.ExportsNumberedAfterFull | functions/backup_restore/base_manager.py:65-72 | in the combined listing the exports are numbered after all full backups |
| BaseManager.Manager.constructor | functions/backup_restore/base_manager.py:7-14 | the parent dataset is created (without options) only when it is not cached; snapshots are untouched |
| BackupManager.BackupAllSteps | functions/backup_restore/backup_manager.py:15-23 | the backup runs first, then the dangling-snapshot cleanup; old backups are pruned only when a retention is given |
| BackupManager.ExportChartInfoSteps | functions/backup_restore/backup_manager.py:25-32 | the export runs first; old exports are pruned only when a retention is given |
| BackupManager.Token | functions/backup_restore/backup_manager.py:92-97 | a matched token is 32 characters starting with `HeavyScript--` |
| BackupManager.CleanupDanglingSnapshots | functions/backup_restore/backup_manager.py:86-104 | the deleted snapshots are the listed ones, in order, that carry a timestamp token naming no listed full backup; snapshots without a token are kept |
| BackupManager.OwnSnapshotKept | functions/backup_restore/backup_manager.py:89-98 | a snapshot `dataset@HeavyScript--<t>` of a listed backup is not dangling |
| BackupManager.ForeignTokenDeleted | functions/backup_restore/backup_manager.py:95-100 | a snapshot whose token names no listed backup is deleted |
| BackupManager.SliceFrom | functions/backup_restore/backup_manager.py:111 | `items[i:]` is a suffix of the list |
| BackupManager.OldExportsKeepNewest | functions/backup_restore/backup_manager.py:109-111 | retention `r` keeps exactly the first (newest) `r` exports and removes the rest |
| BackupManager.RetentionZeroRemovesAll | functions/backup_restore/backup_manager.py:110-111 | retention 0 removes every export |
| BackupManager.DeleteOldExports | functions/backup_restore/backup_manager.py:106-114 | removes the old exports in order; a failed `rmtree` raises and stops the loop at that export |
| BackupManager.DeleteByIndexTarget | functions/backup_restore/backup_manager.py:43-56 | an index into full++exports names the backup to delete; an out-of-range index deletes nothing |
| BackupManager.InteractiveDeleteTarget | functions/backup_restore/backup_manager.py:58-64 | a name is deleted iff the prompt selects an entry, and it is the name of an entry of the combined listing |
| BackupManager.InteractiveMatchesIndex | functions/backup_restore/backup_manager.py:43-84 | answering with the number shown beside entry `k` deletes the same backup as deleting by index `k` |
| RestoreManager.RestoreIndex | functions/backup_restore/restore_manager.py:13-14 | the target is the first full backup (newest first) whose path ends with the name; none iff no backup does |
| RestoreManager.FirstEnding | functions/backup_restore/restore_manager.py:14 | the same search from a given position |
| RestoreManager.Newer | functions/backup_restore/restore_manager.py:20-21 | the newer backups are exactly those before the target; none when it is missing |
| RestoreManager.RemoveNewerBackups | functions/backup_restore/restore_manager.py:11-42 | returns True iff the target exists and, unless it is the newest, the answer is yes; then it processes exactly the newer backups; nothing is deleted otherwise; every newer backup whose `delete_dataset` goes through (cached, its own snapshots and then itself destroyed) leaves the cache with its own snapshots, every snapshot named `@<backup>` after a newer backup whose destroy succeeds is uncached, and nothing else is removed: no dataset but a processed backup, no snapshot but a successfully destroyed one of a processed backup |
| RestoreManager.RemoveAll | functions/backup_restore/restore_manager.py:35-40 | the deletion loop over the newer backups removes exactly what `RestoreManager.RemoveNewerBackups` states |
| RestoreManager.RemoveBackup | functions/backup_restore/restore_manager.py:36-39 | the backup's dataset leaves the cache iff its deletion goes through, and then its own snapshots go; every snapshot named after the backup whose destroy succeeds goes; any other removed snapshot was successfully destroyed and belongs to the backup |
| RestoreManager.RestoreAllGate | functions/backup_restore/restore_manager.py:44-57 | the full restore starts iff the first answer is yes and the removal of newer backups returns True; a first no deletes nothing |
| RestoreManager.DeclinedRestoreDoesNotRun | functions/backup_restore/restore_manager.py:47-50 | answering `no` never starts the restore |
| RestoreManager.NewestNeedsNoSecondAnswer | functions/backup_restore/restore_manager.py:20-42 | when the target is the newest backup nothing is newer and the deletion prompt is never asked |
| RestoreManager.DirNames | functions/backup_restore/restore_manager.py:101 | the directory names listed are exactly the entries that are directories |
| RestoreManager.SelectChart | functions/backup_restore/restore_manager.py:94-122 | a chart is chosen only when the charts directory exists, and it is one of its sub-directories |
| RestoreManager.SelectChartByNumber | functions/backup_restore/restore_manager.py:101-116 | answer `n` chooses the `n`-th sorted chart name iff `1 <= n <= len`, else nothing |
| RestoreManager.ChartTarget | functions/backup_restore/restore_manager.py:59-81 | a given app is used as it is; otherwise the prompt's choice, which is a chart directory of the backup, and nothing without a charts directory |
| RestoreManager.InteractiveRestore | functions/backup_restore/restore_manager.py:83-92 | a restore starts only for `restore_all` or `restore_single`, of the kind asked, and on the name of a full backup; it starts iff the prompt selects one |
| RestoreManager.InteractiveRestoreByNumber | functions/backup_restore/restore_manager.py:83-92 | the number shown beside full backup `k` starts the full restore of that backup |
| Export.ExportRootName | functions/backup_restore/backup/export_.py:30-34 | the export root is 27 characters starting with `Export--` |
| Export.ExportRootStamp | functions/backup_restore/backup/export_.py:30-78 | the time written into an export's name is the time it is later sorted by |
| Export.WrittenFor | functions/backup_restore/backup/export_.py:63-65 | the record written is for the app, and its values carry no `ix` key |
| Export.Exported | functions/backup_restore/backup/export_.py:51-65 | every written record is for a release whose chart is valid, and every such release is written |
| Export.ExportCharts | functions/backup_restore/backup/export_.py:51-66 | every release gets `charts/<app>`; the records written are exactly `Exported` |
| Export.ExportedRecord | functions/backup_restore/backup/export_.py:64 | the exported metadata names the app as the release and carries the chart's own name and version |
| Export.OlderFirstOrder | functions/backup_restore/backup/export_.py:75-78 | the ascending timestamp comparison is a total preorder |
| Export.CleanupTargets | functions/backup_restore/backup/export_.py:75-81 | fails iff some `Export--` name does not parse; every target is an `Export--` directory |
| Export.CleanupRemovesOldest | functions/backup_restore/backup/export_.py:75-81 | the targets are a prefix of the oldest-first list, no newer than any kept export, and exactly `N` are kept when there are more than `N` |
| Export.RetentionZeroContrast | functions/backup_restore/backup/export_.py:80-81 | with `N = 0` nothing is removed here (the empty `[:-0]`), while `delete_old_exports(0)` removes every export |
| Export.RemoveExports | functions/backup_restore/backup/export_.py:81-87 | every target is attempted: the removed and the failed ones split the targets between them |
| Export.CleanupOldExports | functions/backup_restore/backup/export_.py:71-87 | raises iff the sort raises, and then removes nothing; otherwise the targets split into removed and failed |
| YamlCleaner.NewCleaner | functions/backup_restore/utils/yaml_cleaner.py:10-24 | each removal set takes its default (the four global keys, the three static paths) exactly when it is not given |
| YamlCleaner.GlobalsItems | functions/backup_restore/utils/yaml_cleaner.py:40-42 | cleaning a list keeps its length |
| YamlCleaner.GlobalsFree | functions/backup_restore/utils/yaml_cleaner.py:26-43 | after `clean_globals` no dict reachable through dicts and lists holds a removal key |
| YamlCleaner.GlobalsEntriesFree | functions/backup_restore/utils/yaml_cleaner.py:34-39 | the same for the entries of one dict |
| YamlCleaner.GlobalsItemsFree | functions/backup_restore/utils/yaml_cleaner.py:40-42 | the same for the items of one list |
| YamlCleaner.GlobalsOfFree | functions/backup_restore/utils/yaml_cleaner.py:26-43 | a document already free of the keys is left as it is |
| YamlCleaner.GlobalsEntriesOfFree | functions/backup_restore/utils/yaml_cleaner.py:34-39 | the same for the entries of one dict |
| YamlCleaner.GlobalsItemsOfFree | functions/backup_restore/utils/yaml_cleaner.py:40-42 | the same for the items of one list |
| YamlCleaner.GlobalsIdempotent | functions/backup_restore/utils/yaml_cleaner.py:26-43 | applying `clean_globals` twice equals applying it once |
| YamlCleaner.GlobalsKeepsOthers | functions/backup_restore/utils/yaml_cleaner.py:35-39 | a key that is not a removal key stays, with its value cleaned |
| YamlCleaner.StaticsRemoved | functions/backup_restore/utils/yaml_cleaner.py:45-63 | after `clean_statics` no key remains at a static path from the root |
| YamlCleaner.StaticsEntriesRemoved | functions/backup_restore/utils/yaml_cleaner.py:53-59 | the same for the entries of one dict |
| YamlCleaner.StaticsItemsRemoved | functions/backup_restore/utils/yaml_cleaner.py:60-62 | the same for the items of one list, which keep their parent's path |
| YamlCleaner.StaticsKeepsFree | functions/backup_restore/utils/yaml_cleaner.py:45-63 | `clean_statics` only drops entries, so a document free of the global keys stays free |
| YamlCleaner.StaticsEntriesKeepFree | functions/backup_restore/utils/yaml_cleaner.py:53-59 | the same for the entries of one dict |
| YamlCleaner.StaticsItemsKeepFree | functions/backup_restore/utils/yaml_cleaner.py:60-62 | the same for the items of one list |
| YamlCleaner.StaticsThroughList | functions/backup_restore/utils/yaml_cleaner.py:60-62 | list items inherit the parent's path: `spec.nodeAffinity` is removed inside a list under `spec` |
| YamlCleaner.ScanOwners | functions/backup_restore/utils/yaml_cleaner.py:75 | the `any` over the owner references says `False` exactly when every owner is a dict and none is of kind `Cluster`; it fails only with the `.get` `AttributeError` |
| YamlCleaner.ScanOwnersFinds | functions/backup_restore/utils/yaml_cleaner.py:75 | a `Cluster` owner reached past dicts only ends the scan with `True`, whatever follows it |
| YamlCleaner.ScanOwnersTrue | functions/backup_restore/utils/yaml_cleaner.py:75 | a `True` scan has a `Cluster` owner with only dicts before it |
| YamlCleaner.InName | functions/backup_restore/utils/yaml_cleaner.py:76 | `"-cnpg-main-" in name` fails exactly when the name is not a string, list or dict, and on a string is the substring test |
| YamlCleaner.CnpgManaged | functions/backup_restore/utils/yaml_cleaner.py:74-77 | an item or metadata that is not a dict raises the `AttributeError`; a `False` test means the owner references iterate and none is of kind `Cluster` |
| YamlCleaner.CnpgManagedWellTyped | functions/backup_restore/utils/yaml_cleaner.py:74-77 | for dict metadata, a list of dict owners and a string name, the item is managed iff a `Cluster` owns it or its name contains `-cnpg-main-` |
| YamlCleaner.FilterItems | functions/backup_restore/utils/yaml_cleaner.py:73-78 | the comprehension succeeds iff every item's test does, and then keeps exactly the unmanaged items in order |
| YamlCleaner.FilterItemsFirstError | functions/backup_restore/utils/yaml_cleaner.py:73-78 | a failed comprehension carries the error of the first item whose test raises, every earlier test having succeeded |
| YamlCleaner.FilterCnpg | functions/backup_restore/utils/yaml_cleaner.py:65-79 | a document that is not a dict raises; otherwise it succeeds iff `items` (default `[]`) can be iterated and every item's test succeeds, and then `items` holds the unmanaged items in order |
| YamlCleaner.FilterCnpgKeepsOthers | functions/backup_restore/utils/yaml_cleaner.py:79 | every key other than `items` keeps its value |
| YamlCleaner.ClusterOwnedDropped | functions/backup_restore/utils/yaml_cleaner.py:75 | in a pass that succeeds, an item whose owner list holds an owner of kind `Cluster` is dropped |
| YamlCleaner.NullMetadataRaises | functions/backup_restore/utils/yaml_cleaner.py:75 | an item with `metadata: null` makes the pass raise |
| YamlCleaner.NullNameRaises | functions/backup_restore/utils/yaml_cleaner.py:76 | an item with `name: null` and no `Cluster` owner makes the pass raise |
| YamlCleaner.ClusterOwnerDecides | functions/backup_restore/utils/yaml_cleaner.py:75-76 | a `Cluster` owner drops the item without its name being read, so `name: null` does not raise there |
| YamlCleaner.FalsyItemsIterateToNothing | functions/backup_restore/utils/yaml_cleaner.py:72-73 | `items: {}` and `items: ""` iterate to nothing, so the pass succeeds and leaves `items: []` |
| YamlCleaner.IllTypedItemsRaise | functions/backup_restore/utils/yaml_cleaner.py:72-76 | a non-empty dict under `items` yields string keys whose `.get` raises, and a number under `items` is not iterable |
| YamlCleaner.RemoveEmptyKeys | functions/backup_restore/utils/yaml_cleaner.py:88-91 | a dict keeps exactly the keys whose value is not an empty dict or list when visited |
| YamlCleaner.CleanedEach | functions/backup_restore/utils/yaml_cleaner.py:96-97 | each kept list item is cleaned, one for one |
| YamlCleaner.RemoveEmptyItemsTruthy | functions/backup_restore/utils/yaml_cleaner.py:94-97 | a list keeps exactly its truthy items, in order, each cleaned |
| YamlCleaner.FalsyItemsDropped | functions/backup_restore/utils/yaml_cleaner.py:95 | `None`, `0`, `""` and `[]` are all dropped from a list |
| YamlCleaner.EmptiedLaterKept | functions/backup_restore/utils/yaml_cleaner.py:88-93 | a dict emptied only by the recursion is kept, so a second pass removes more |
| YamlCleaner.RemoveEmptyKeepsFree | functions/backup_restore/utils/yaml_cleaner.py:81-97 | removing empty containers keeps a document free of the global keys |
| YamlCleaner.RemoveEmptyEntriesKeepFree | functions/backup_restore/utils/yaml_cleaner.py:88-93 | the same for the entries of one dict |
| YamlCleaner.RemoveEmptyItemsKeepFree | functions/backup_restore/utils/yaml_cleaner.py:94-97 | the same for the items of one list |
| YamlCleaner.CleanYaml | functions/backup_restore/utils/yaml_cleaner.py:99-114 | the passes fail iff the CNPG filter fails on the globals- and statics-cleaned document |
| YamlCleaner.CleanYamlFree | functions/backup_restore/utils/yaml_cleaner.py:99-114 | the cleaned document holds no global removal key anywhere (for any removal set without `items`) |
| YamlCleaner.ItemsNotGlobal | functions/backup_restore/utils/yaml_cleaner.py:19 | `items` is not among the default global removal keys |
| YamlCleaner.DefaultCleanYamlFree | functions/backup_restore/utils/yaml_cleaner.py:99-114 | with the default cleaner the cleaned document holds no default global removal key |
| YamlCleaner.FilterKeepsFree | functions/backup_restore/utils/yaml_cleaner.py:72-79 | the CNPG filter keeps a document free of the global keys |
| YamlCleaner.SetFree | functions/backup_restore/utils/yaml_cleaner.py:79 | writing a free value under `items` keeps the dict's entries free |
| BackupCreate.MetadataRecord | functions/backup_restore/charts/backup_create.py:43-49 | the metadata record has exactly five distinct keys |
| BackupCreate.MetadataFields | functions/backup_restore/charts/backup_create.py:43-49 | `chart_name`, `catalog`, `train` and `version` read back their arguments and `release_name` is the app name |
| BackupCreate.CleanConfigRemovesIx | functions/backup_restore/charts/backup_create.py:98-112 | after `_clean_config` no dict reachable through dicts holds one of the six `ix` keys |
| BackupCreate.CleanEntriesRemoveIx | functions/backup_restore/charts/backup_create.py:110 | the same for the entries of one dict |
| BackupCreate.CleanConfigOfClean | functions/backup_restore/charts/backup_create.py:107-112 | a value already free of `ix` keys is returned unchanged |
| BackupCreate.CleanEntriesOfClean | functions/backup_restore/charts/backup_create.py:110 | the same for the entries of one dict |
| BackupCreate.CleanConfigIdempotent | functions/backup_restore/charts/backup_create.py:107-112 | cleaning twice equals cleaning once |
| BackupCreate.CleanKeepsOthers | functions/backup_restore/charts/backup_create.py:110 | every other key stays, with its value cleaned |
| BackupCreate.ListsNotCleaned | functions/backup_restore/charts/backup_create.py:108-109 | lists are returned unchanged, so dicts inside lists keep their `ix` keys |
| BackupCreate.WrittenValues | functions/backup_restore/charts/backup_create.py:74-80 | values are written as given unless `clean`, and then free of `ix` keys |
| BackupCreate.StopValuesFalse | functions/backup_restore/charts/backup_create.py:203-222 | fails iff the config, its `global` or its `ixChartContext` is present but not a dict |
| BackupCreate.StopFlagsFalse | functions/backup_restore/charts/backup_create.py:213-220 | afterwards `global.stopAll` and `global.ixChartContext.isStopped` both read false, the dicts created when missing |
| BackupCreate.StopKeepsOthers | functions/backup_restore/charts/backup_create.py:213-220 | every other key keeps its value at the top level, in `global` and in `ixChartContext` |
| BackupCreate.Field | functions/backup_restore/charts/backup_create.py:164-168 | `metadata[key]` fails (the `KeyError`) iff the key is missing, else reads its value |
| BackupCreate.Payload | functions/backup_restore/charts/backup_create.py:162-169 | the payload has six distinct keys |
| BackupCreate.WithoutVersion | functions/backup_restore/charts/backup_create.py:180 | `version` is gone and every other key reads as before |
| BackupCreate.OuterClient | functions/backup_restore/charts/backup_create.py:186-197 | a busy-namespace error makes exactly one more call with the same payload; any other error fails with no further call |
| BackupCreate.Calls | functions/backup_restore/charts/backup_create.py:173-199 | one to three calls, the first with the full payload; success iff the last call returned; `retry` only on failure with the ENOENT text |
| BackupCreate.Prepare | functions/backup_restore/charts/backup_create.py:156-169 | a prepared payload is a dict |
| BackupCreate.CreateFrom | functions/backup_restore/charts/backup_create.py:149-229 | once the metadata is read there is a result unless the error handler itself raises on that metadata (`BackupCreate.HandlerRaises`), and then no call was made; with a result, success iff some call was made and the last one returned |
| BackupCreate.Create | functions/backup_restore/charts/backup_create.py:128-229 | as written: `create` raises (no result) exactly when `metadata.json` cannot be read or is a value the error handler raises on |
| BackupCreate.CreateChecked | functions/backup_restore/charts/backup_create.py:128-229 | as intended: always a result; equal to `Create` when the metadata is read and the handler can inspect it, a plain failure with the error raised on the way otherwise |
| BackupCreate.NotDictUnprepared | functions/backup_restore/charts/backup_create.py:156-169 | metadata the handler raises on is not a dict, so building the payload has already failed before any call |
| BackupCreate.HandlerRaisesOnScalars | functions/backup_restore/charts/backup_create.py:224-229 | `create` raises for the metadata `5`, `true`, `"release_name"` and `["release_name"]`, and gives a result for `0` and `"x"` |
| BackupCreate.UnreadableMetadataRaises | functions/backup_restore/charts/backup_create.py:151-199 | an unreadable metadata file makes `create` raise as written, and gives a failed result in the corrected version |
| BackupCreate.PayloadFromRecord | functions/backup_restore/charts/backup_create.py:43-169 | a record written by `backup_metadata` feeds a payload with the same chart, catalog, train, version and release name |
| BackupCreate.VersionRetriedWithout | functions/backup_restore/charts/backup_create.py:177-183 | an ENOENT first error is retried once without `version`, and success is reported |
| BackupCreate.NamespaceRetriedOnce | functions/backup_restore/charts/backup_create.py:186-195 | an EFAULT namespace error is retried once with the same payload; a second failure does not ask for a retry |
| BackupCreate.OtherErrorFails | functions/backup_restore/charts/backup_create.py:196-229 | any other first error fails at once, with `retry` iff the text names the missing version |
| Cnpg.Namespace | functions/backup_restore/database/base.py:27 | the app's namespace is `ix-` followed by the app name, which it determines |
| Cnpg.Setup | functions/backup_restore/database/base.py:31-39 | immich gets neither a database name nor a user; every other chart keeps the fetched name and user secret |
| Cnpg.DatabaseUser | functions/backup_restore/database/base.py:37-39 | the user is the secret's user when that is non-empty, otherwise the database name |
| Cnpg.ExecHead | functions/backup_restore/database/restore.py:122-128 | a `k3s kubectl exec` into the `postgres` container of the given pod in the given namespace, with `-i` only when input is piped |
| Cnpg.Count | functions/backup_restore/database/restore.py:108-110 | an action occurs zero times exactly when it is absent from the trace |
| Cnpg.CountAppend | functions/backup_restore/database/restore.py:108-110 | occurrences of an action in a concatenated trace add up |
| DatabaseRestore.RestoreCommand | functions/backup_restore/database/restore.py:114-154 | immich restores by piping the dump into `psql` in text mode; every other chart into `pg_restore` in binary mode with the derived role and database and the clean/if-exists/no-owner/no-privileges/disable-triggers options |
| DatabaseRestore.DropCommand | functions/backup_restore/database/restore.py:168-200 | the drop runs `psql` against the app's database with the fixed drop-everything script, on the same pod |
| DatabaseRestore.DropResult | functions/backup_restore/database/restore.py:168-218 | the drop succeeds iff the app has a database name and the command exited with code 0; with no name (`None` in the arguments) it fails with the `TypeError` text before a process runs; otherwise a failure carries the stderr or the exception text |
| DatabaseRestore.ExecuteRestore | functions/backup_restore/database/restore.py:220-285 | as written, and exactly as `DatabaseRestore.Attempts` from the first attempt: attempts stop at the first success, non-deadlock failure or error, or after the retry budget; every attempt but the last deadlocked; a failed text-mode attempt raises because a bytes pattern is searched in text; API and IO errors give their own messages |
| DatabaseRestore.AttemptsUsed | functions/backup_restore/database/restore.py:220-285 | the attempts stop within the retry budget, after at least one attempt; every attempt but the last deadlocked, a text-mode restore makes one attempt only, and a failed binary attempt that stops early is not a deadlock |
| DatabaseRestore.AttemptsEnd | functions/backup_restore/database/restore.py:220-285 | the attempts succeed iff the last one exited 0, and raise iff the last one hit an unexpected exception or was a failed text-mode attempt |
| DatabaseRestore.AttemptsRaised | functions/backup_restore/database/restore.py:220-285 | a success carries `Database restored successfully.`; an unexpected exception is raised as it came; a failed text-mode attempt raises the bytes-in-str `TypeError` |
| DatabaseRestore.AttemptsMessages | functions/backup_restore/database/restore.py:220-285 | an API error or an I/O error ends with its own message, and every other failure that raises nothing ends with the retry note |
| DatabaseRestore.RestoreAttempts | functions/backup_restore/database/restore.py:231-285 | the attempt loop ends exactly as `DatabaseRestore.Attempts` from the first attempt |
| DatabaseRestore.TextModeDeadlockRaises | functions/backup_restore/database/restore.py:245 | a failed immich (text mode) restore raises on the first attempt instead of being checked for a deadlock |
| DatabaseRestore.ExecuteRestoreDecoded | functions/backup_restore/database/restore.py:220-285 | with the output compared in one type (`DatabaseRestore.Attempts` outside text mode), only an unexpected error raises; success iff the last attempt exited 0; all earlier attempts were deadlocks; retries are exhausted only by deadlocks |
| DatabaseRestore.RestoreDatabase | functions/backup_restore/database/restore.py:30-112 | a missing file does nothing; a stopped app is started once, first, and stopped once, last, when it was started (except after a failed drop); no pod means no command is run; success needs a pod, a successful drop, and a successful restore; an app without a database name never succeeds and runs no command; after a successful drop, success iff the restore attempts succeed and the app stops again, and the result and trace are those of `DatabaseRestore.AfterDrop` |
| DatabaseRestore.RestoreOnPod | functions/backup_restore/database/restore.py:84-112 | on a found pod the drop runs first and only the drop and restore commands are run; a failed drop returns at once without stopping the app; the app is stopped last only when it was stopped before; after a successful drop the result is `DatabaseRestore.AfterDrop` of the attempts' outcome: the retry message, `Failed to execute restore command: ...` for a raise inside the `try`, and a raise only from the final stop |
| DatabaseRestore.RestoreAfterDrop | functions/backup_restore/database/restore.py:92-112 | after the drop, the result and the trace (one restore command per attempt, then the stops) are `DatabaseRestore.AfterDrop` of the attempts' outcome |
| DatabaseRestore.ImmichNeverRestores | functions/backup_restore/database/restore.py:84-90 | as written an immich restore never succeeds and runs no command in the pod; past the pod lookup its message is the drop's `TypeError` text |
| DatabaseBackup.TempFile | functions/backup_restore/database/backup.py:25 | the temporary dump lies in the backup directory and ends in `.sql` |
| DatabaseBackup.OutputFile | functions/backup_restore/database/backup.py:24 | the compressed dump is the temporary file's name with `.gz` appended |
| DatabaseBackup.ImmichLine | functions/backup_restore/database/backup.py:36-39 | a line creating or dropping the `postgres` role is commented out; otherwise a line clearing the search path is replaced by one setting it to `public, pg_catalog`; any other line is kept |
| DatabaseBackup.ImmichLineSingle | functions/backup_restore/database/backup.py:36-39 | rewriting one line never introduces a line break |
| DatabaseBackup.Lines | functions/backup_restore/database/backup.py:34 | `splitlines` gives pieces without line breaks, and none exactly for the empty text |
| DatabaseBackup.LinesJoin | functions/backup_restore/database/backup.py:34-40 | joining the lines back gives the text, without its final line break when it had one |
| DatabaseBackup.Rewritten | functions/backup_restore/database/backup.py:35-40 | the rewrite maps every line on its own, in order |
| DatabaseBackup.ReadText | functions/backup_restore/database/backup.py:33-34 | reading in text mode leaves no `\r`, keeps a text without `\r` as it is, and keeps only the empty text empty |
| DatabaseBackup.ModifyDumpLines | functions/backup_restore/database/backup.py:27-43 | the modified dump has exactly one line per line of the dump as text mode reads it, each the rewritten line |
| DatabaseBackup.CarriageReturnsEndLines | functions/backup_restore/database/backup.py:33-40 | a `\r\n` and a lone `\r` in the dump end a line, and a final one leaves no empty line: `a\r\nb` and `a\rb\r` both become `a\nb` |
| DatabaseBackup.PlainLineKept | functions/backup_restore/database/backup.py:36-39 | a line without the role or search-path patterns passes unchanged |
| DatabaseBackup.DumpCommand | functions/backup_restore/database/backup.py:139-170 | immich dumps the whole cluster with `pg_dumpall --clean --if-exists`; other charts dump their database with `pg_dump --format=custom`, both without piped input |
| DatabaseBackup.ExecuteBackup | functions/backup_restore/database/backup.py:172-210 | success iff the dump exited 0, and then its output is what is written; a non-zero exit or an exception gives its own message |
| DatabaseBackup.BackupDatabase | functions/backup_restore/database/backup.py:66-137 | a stopped app is started once, first, and stopped once, last; a failed start does nothing more; no pod means no dump is run; success only with a found pod and a dump that exited 0, and always then unless stopping the app raises; the output is the compressed dump when the immich rewrite and compression went through, and otherwise success is still reported with `Failed to execute dump command: <error>` and no output |
| DatabaseBackup.DumpOnPod | functions/backup_restore/database/backup.py:108-137 | on a found pod only the dump command runs, first; a failed dump returns its message and leaves no file; a dump that exited 0 is reported a success even when the immich rewrite or compression then raises, with that error as message; the app is stopped last only when it was stopped before |
| DatabaseBackup.LateError | functions/backup_restore/database/backup.py:120-131 | no late error iff the immich rewrite (run for immich only) and the compression both went through; the rewrite's error comes first |
| DatabaseBackup.DumpOnPodChecked | functions/backup_restore/database/backup.py:108-137 | success iff the dump exited 0, the immich rewrite and compression went through and any stop succeeded; a late error gives failure with its message and no output |
| KubeBackup.ResourcesNamespace | functions/backup_restore/kube/resources_backup.py:29 | the resources of app `a` are read from namespace `ix-a` |
| KubeBackup.ScanOwners | functions/backup_restore/kube/resources_backup.py:88-91 | finds an owner with the CNPG `apiVersion` whenever it reports one; on well-formed owners it reports exactly whether one exists |
| KubeBackup.ShouldExcludeSecret | functions/backup_restore/kube/resources_backup.py:87-92 | a secret without metadata is kept; with well-formed owner references it is excluded iff some owner is a CNPG cluster; it is only ever excluded for such an owner |
| KubeBackup.KeepSecret | functions/backup_restore/kube/resources_backup.py:59 | a secret is kept iff its `data` is non-empty and it is not excluded; one without data is dropped without looking at its owners |
| KubeBackup.KeptSecrets | functions/backup_restore/kube/resources_backup.py:59 | the filter fails iff one of its tests raises; otherwise it holds exactly the secrets that are kept |
| KubeBackup.ByNameOrder | functions/backup_restore/kube/resources_backup.py:60 | ordering by name is a total preorder, so the sort is well defined |
| KubeBackup.SelectSecrets | functions/backup_restore/kube/resources_backup.py:58-61 | the selection fails iff the filter raises or a kept secret has no name; otherwise it is a permutation of the kept secrets |
| KubeBackup.SelectSecretsMeans | functions/backup_restore/kube/resources_backup.py:58-61 | the selection is exactly the secrets with data that are not CNPG-owned, each named, in ascending name order |
| KubeBackup.SecretFiles | functions/backup_restore/kube/resources_backup.py:64-67 | one `secrets/<name>.yaml` per selected secret, in order, holding that secret's export |
| KubeBackup.BackupSecrets | functions/backup_restore/kube/resources_backup.py:34-75 | True iff the query, the selection, every export and every write succeed, and then the files written are exactly the selection's; a partial run wrote a prefix of them; nothing is written when the query or the selection fails |
| KubeBackup.SaveSecrets | functions/backup_restore/kube/resources_backup.py:64-75 | True iff every selected secret exports and its file is written; the files written are a prefix of the intended files, all of them on success |
| KubeBackup.ZfsPart | functions/backup_restore/kube/resources_backup.py:131-145 | without an exception a volume saves its ZFS volume file or records exactly one error; a failed fetch records its message |
| KubeBackup.PvPart | functions/backup_restore/kube/resources_backup.py:121-130 | the PV manifest is saved as `<pvc>-pv.yaml` cleaned of the default keys, or exactly one error is recorded |
| KubeBackup.VolumePart | functions/backup_restore/kube/resources_backup.py:113-150 | a `None` volume raises the `TypeError` of `is_cnpg`, which the `KeyError` handler does not catch; a CNPG volume contributes nothing; any other contributes two entries (files or errors) unless it raises; every file is named after the volume's PVC |
| KubeBackup.BoundVolumePart | functions/backup_restore/kube/resources_backup.py:119-146 | a named non-CNPG volume saves its PV manifest and ZFS volume or records an error for each, unless it raises; its files are named after its PVC |
| KubeBackup.UnboundVolumeRaises | functions/backup_restore/kube/resources_backup.py:113-150 | when an unbound PVC puts `None` among the namespace's volumes, the PVC backup raises |
| KubeBackup.BackupPvcs | functions/backup_restore/kube/resources_backup.py:94-152 | no volume reports only `No PVCs found for backup.`; otherwise the outcome is the fold over the volumes in order |
| KubeBackup.PvcsBackupStops | functions/backup_restore/kube/resources_backup.py:113-150 | once a volume raises, later volumes change nothing |
| KubeBackup.PvcsBackupFiles | functions/backup_restore/kube/resources_backup.py:113-152 | every saved file belongs to a non-CNPG volume of the list, is named after its PVC, and a saved PV manifest is cleaned |
| KubeBackup.PvcsBackupCount | functions/backup_restore/kube/resources_backup.py:113-152 | without an exception the files plus errors number two per non-CNPG volume |
| KubeBackup.Uncnpg | functions/backup_restore/kube/resources_backup.py:115-117 | the non-CNPG volumes are at most all of them |
| KubeBackup.BackupNamespace | functions/backup_restore/kube/resources_backup.py:154-173 | False iff the namespace could not be read; a cleaning error escapes; the saved manifest is free of the default global keys |
| KubeBackup.CrdDestination | functions/backup_restore/kube/resources_backup.py:205-206 | a `<x>.yaml` CRD is copied to `crds/<x>`: only the extension is dropped |
| KubeBackup.CopyCrds | functions/backup_restore/kube/resources_backup.py:205-213 | every matched file is copied to its destination, failures included; True iff every copy succeeded |
| KubeBackup.BackupCrd | functions/backup_restore/kube/resources_backup.py:190-213 | one copy per `*.yaml` entry, in listing order; True iff all copies succeeded |
| KubeRestore.DefaultCleaner | functions/backup_restore/kube/resources_restore.py:16 | the restore cleaner is the default one, whose global removals do not include `items` |
| KubeRestore.VolumeOrder | functions/backup_restore/kube/resources_restore.py:32 | the sort keeps exactly the same files |
| KubeRestore.VolumeOrderGrouped | functions/backup_restore/kube/resources_restore.py:32 | after the sort every PV file precedes every ZFS volume file |
| KubeRestore.Docs | functions/backup_restore/kube/resources_restore.py:41-50 | the documents applied are the cleaned contents of the files, in order |
| KubeRestore.DocsStep | functions/backup_restore/kube/resources_restore.py:38-58 | one more volume file appends its cleaned document exactly when it cleans |
| KubeRestore.NamesStep | functions/backup_restore/kube/resources_restore.py:38-58 | one more file appends its name to the failures exactly when it failed |
| KubeRestore.RestoreVolume | functions/backup_restore/kube/resources_restore.py:40-58 | a volume file fails iff reading or cleaning it raises or its apply fails; a document is applied iff cleaning succeeded, and it is the cleaned one |
| KubeRestore.RestorePvZfsVolumes | functions/backup_restore/kube/resources_restore.py:20-59 | no files is reported as the one failure `No PV or ZFS volume files provided`; otherwise the failures are the names of the failing files, in sorted order, and the documents applied are those of the files that cleaned |
| KubeRestore.AppliedFree | functions/backup_restore/kube/resources_restore.py:43 | no applied document holds any default global removal key at any depth |
| KubeRestore.RestoreNamespace | functions/backup_restore/kube/resources_restore.py:62-93 | True iff the namespace file cleans and its apply succeeds |
| KubeRestore.PrepareSecret | functions/backup_restore/kube/resources_restore.py:117-121 | a secret can be prepared iff it loads as a mapping with a `metadata` mapping whose annotations, if present, are a mapping |
| KubeRestore.PreparedSecret | functions/backup_restore/kube/resources_restore.py:118-121 | the prepared secret has no `resourceVersion` or `uid`, its last-applied annotation is the dump of the stripped secret, and every other annotation and field is unchanged |
| KubeRestore.SecretDocs | functions/backup_restore/kube/resources_restore.py:122-123 | each rewritten secret file holds its prepared content, in order |
| KubeRestore.SecretDocsStep | functions/backup_restore/kube/resources_restore.py:113-132 | one more secret file appends its new content exactly when it was written |
| KubeRestore.RestoreSecret | functions/backup_restore/kube/resources_restore.py:115-132 | a secret fails iff loading, preparing, writing or applying fails; it is rewritten iff it was prepared and written, with the prepared content |
| KubeRestore.RestoreSecrets | functions/backup_restore/kube/resources_restore.py:96-133 | no files means no failures; the failures are the names of the failing secrets in order; the rewritten files are exactly those written, with their prepared content |
| KubeRestore.Commands | functions/backup_restore/kube/resources_restore.py:155 | every CRD file is applied in place with `--validate=false` |
| KubeRestore.RestoreCrd | functions/backup_restore/kube/resources_restore.py:136-161 | one apply per file, in order; the failures are exactly the names of the files whose apply failed |
| KubeRestore.FailuresExact | functions/backup_restore/kube/resources_restore.py:59 | every failing file is named in the failure list, and the list is empty iff no file failed |
| KubeStatus.StatusOf | functions/backup_restore/utils/utils.py:25-26 | a status exists iff the output has a second line; it is the part of that line before its first comma |
| KubeStatus.CheckKubernetesStatus | functions/backup_restore/utils/utils.py:45-72 | True iff the command succeeded, a status line exists, and the status is neither `STOPPED` nor `FAILED` |
| KubeStatus.RunningIsUp | functions/backup_restore/utils/utils.py:28-30 | a running cluster also passes the status check |
| KubeStatus.WaitForKubernetes | functions/backup_restore/utils/utils.py:4-43 | stops with True at the first `RUNNING` check and with False at the first check after the enabled timeout; every earlier check was neither |
| PvcFetch.PvIndex | functions/backup_restore/pvc/api_fetch.py:34 | the PV index holds exactly the listed PV names |
| PvcFetch.PvIndexLast | functions/backup_restore/pvc/api_fetch.py:34 | a name maps to the last PV listed under it |
| PvcFetch.ExtractPvcInfo | functions/backup_restore/pvc/api_fetch.py:45-84 | raises `AttributeError` iff the PVC has no labels or its PV has a CSI source without volume attributes; otherwise a dataset path exists iff the PV has a CSI source, and is `<pool>/<volume>`; the pool is `Unknown` without one; the CNPG flag is whether some owner is a `Cluster`; the app is the `release` label or `Unknown`; PV fields are `Unknown` without a PV spec |
| PvcFetch.PvcMappingFails | functions/backup_restore/pvc/api_fetch.py:23-43 | building the record raises, with the `AttributeError` message, iff some listed PVC cannot be read; the exception is not an `ApiException` and escapes |
| PvcFetch.PvcMappingValid | functions/backup_restore/pvc/api_fetch.py:35-38 | a record that was built lists each volume once, and its keys are exactly its domain |
| PvcFetch.PvcMappingKeys | functions/backup_restore/pvc/api_fetch.py:35-38 | a record that was built has a key for exactly the volume names, `None` included, that some PVC carries |
| PvcFetch.PvcMappingLast | functions/backup_restore/pvc/api_fetch.py:36-37 | a volume's record is built from the last PVC that names it |
| PvcFetch.PvcMappingValues | functions/backup_restore/pvc/api_fetch.py:36-37 | every record is built from some listed PVC |
| PvcFetch.FetchPvcData | functions/backup_restore/pvc/api_fetch.py:23-43 | the loop builds the record of the whole PVC listing over the PV index, and the record is well formed; it raises iff some PVC cannot be read |
| PvcFetch.HasPvcFromListing | functions/backup_restore/pvc/api_fetch.py:87-97 | an app with a PVC is the app of some listed PVC |
| PvcFetch.HasPvcOfListing | functions/backup_restore/pvc/api_fetch.py:87-97 | the app of the last PVC listed for a volume has a PVC |
| PvcFetch.PvNamesByNamespace | functions/backup_restore/pvc/api_fetch.py:113-123 | the volumes listed, `None` for an unbound PVC included, are exactly the keys whose record is in the namespace |
| PvcFetch.UnboundListed | functions/backup_restore/pvc/api_fetch.py:36-37 | the last unbound PVC (no volume name) listed puts `None` among the volumes of its namespace |
| PvcFetch.VolumePathsByNamespace | functions/backup_restore/pvc/api_fetch.py:100-110 | one dataset path, possibly none, per volume of the namespace, in the same order |
| PvcFetch.PvcNameByVolume | functions/backup_restore/pvc/api_fetch.py:126-136 | the PVC name of a recorded volume, `Unknown` for any other |
| PvcFetch.IsCnpg | functions/backup_restore/pvc/api_fetch.py:139-149 | a `None` volume raises the argument check's `TypeError`; otherwise true iff the volume is recorded and its PVC is CNPG-owned |
| PvcFetch.IsCnpgOfListing | functions/backup_restore/pvc/api_fetch.py:139-149 | after a fetch, a volume's CNPG flag and PVC name are those of the last PVC listed for it |
| ZfsCache.ListingRoundTrip | functions/backup_restore/zfs/cache.py:40-45 | a listing of plain names, one per line, is read back as exactly those names |
| ZfsCache.EmptyListing | functions/backup_restore/zfs/cache.py:43 | an empty successful listing yields the set holding the empty name |
| ZfsCache.FailedListing | functions/backup_restore/zfs/cache.py:46-48 | a failed listing yields no names |
| ZfsCache.Cache.constructor | functions/backup_restore/zfs/cache.py:25-31 | the first construction loads both sets from their listings |
| ZfsCache.Cache.HardRefresh | functions/backup_restore/zfs/cache.py:67-72 | both sets are replaced by their fresh listings |
| ZfsCache.Cache.SnapshotsOf | functions/backup_restore/zfs/cache.py:74-86 | exactly the cached snapshots named `dataset@...` |
| ZfsCache.Cache.AddDataset | functions/backup_restore/zfs/cache.py:132-141 | the dataset is added and nothing else changes |
| ZfsCache.Cache.RemoveDataset | functions/backup_restore/zfs/cache.py:144-153 | the dataset is discarded, absent or not, and nothing else changes |
| ZfsCache.Cache.AddSnapshot | functions/backup_restore/zfs/cache.py:156-165 | the snapshot is added and nothing else changes |
| ZfsCache.Cache.RemoveSnapshot | functions/backup_restore/zfs/cache.py:168-177 | the snapshot is discarded and nothing else changes |
| ZfsCache.DatasetOf | functions/backup_restore/zfs/cache.py:85 | a snapshot name has a dataset part iff it holds `@`, and starts with that part and `@` |
| ZfsCache.PrefixSelectsOwnSnapshots | functions/backup_restore/zfs/cache.py:85 | for a dataset name without `@`, the `dataset@` prefix selects exactly that dataset's own snapshots |
| ZfsLifecycle.OptionFlags | functions/backup_restore/zfs/lifecycle.py:46-49 | no options add no flags |
| ZfsLifecycle.OptionFlagsSnoc | functions/backup_restore/zfs/lifecycle.py:47-49 | each further option appends ` -o key=value` to the flags built so far, so the flags follow the options in order |
| ZfsLifecycle.CreateCommand | functions/backup_restore/zfs/lifecycle.py:46-50 | the create command is `zfs create -p`, then the option flags in order, then the quoted dataset |
| ZfsLifecycle.DestroyCommandInjective | functions/backup_restore/zfs/lifecycle.py:79 | distinct names give distinct destroy commands |
| ZfsLifecycle.RecursiveIsNotPlain | functions/backup_restore/zfs/lifecycle.py:79-89 | the recursive destroy of a dataset is never the plain destroy of a snapshot |
| ZfsLifecycle.LifecycleManager.constructor | functions/backup_restore/zfs/lifecycle.py:11-14 | the manager works on the shared cache |
| ZfsLifecycle.LifecycleManager.CreateDataset | functions/backup_restore/zfs/lifecycle.py:31-59 | an existing dataset is refused without running anything; otherwise one create command runs, and on success the dataset is cached and nothing else changes |
| ZfsLifecycle.LifecycleManager.DeleteDataset | functions/backup_restore/zfs/lifecycle.py:62-97 | an absent dataset is refused; the first failing snapshot destroy stops before the dataset destroy; True iff the dataset existed and every own snapshot and the recursive destroy succeeded; exactly the destroyed snapshots leave the cache, and the dataset only on success |
| ZfsLifecycle.LifecycleManager.Datasets | functions/backup_restore/zfs/lifecycle.py:99-109 | each cached dataset exactly once |
| ZfsSnapshot.Candidates | functions/backup_restore/zfs/snapshot.py:44 | the candidates are the cached snapshots named `path@HeavyScript--...` |
| ZfsSnapshot.SnapLeOrder | functions/backup_restore/zfs/snapshot.py:45 | ordering by the embedded timestamp is a total preorder |
| ZfsSnapshot.DestroyErrors | functions/backup_restore/zfs/snapshot.py:51-60 | at most one error per target |
| ZfsSnapshot.DestroyedMembers | functions/backup_restore/zfs/snapshot.py:51-56 | the destroyed snapshots are exactly the targets whose destroy succeeds |
| ZfsSnapshot.DestroyErrorsCount | functions/backup_restore/zfs/snapshot.py:51-60 | over distinct targets there is exactly one error per failed destroy, naming it |
| ZfsSnapshot.CreatedSnapshots | functions/backup_restore/zfs/snapshot.py:83-96 | at most one snapshot per path |
| ZfsSnapshot.CreatedSnapshotsMembers | functions/backup_restore/zfs/snapshot.py:83-96 | the created snapshots are exactly `path@name` for the cached paths whose snapshot command succeeds |
| ZfsSnapshot.CreateErrors | functions/backup_restore/zfs/snapshot.py:83-100 | every path gives either a snapshot or an error |
| ZfsSnapshot.SnapshotManager.constructor | functions/backup_restore/zfs/snapshot.py:17-23 | the manager works on the shared cache |
| ZfsSnapshot.SnapshotManager.DestroyInOrder | functions/backup_restore/zfs/snapshot.py:51-135 | the errors are those of the destroy loop, and exactly the destroyed targets are uncached |
| ZfsSnapshot.SnapshotManager.CleanupPath | functions/backup_restore/zfs/snapshot.py:37-60 | an uncached path gives one error and changes nothing; a candidate without a timestamp raises and changes nothing; otherwise the candidates are sorted oldest first and all but the newest `retention` are destroyed |
| ZfsSnapshot.Cleanup | functions/backup_restore/zfs/snapshot.py:25-61 | the cleanup fold path by path, each cached path destroying the retention slice of its sorted candidates; it only removes snapshots |
| ZfsSnapshot.CleanupStep | functions/backup_restore/zfs/snapshot.py:29-60 | one more path extends the fold by that path's error line, or its destroy errors and destroyed snapshots, and keeps the orders sorted |
| ZfsSnapshot.SnapshotManager.CleanupNext | functions/backup_restore/zfs/snapshot.py:29-60 | the cleanup of one path is one more step of `ZfsSnapshot.Cleanup`; a raise leaves the cache as it was |
| ZfsSnapshot.SnapshotManager.CleanupSnapshots | functions/backup_restore/zfs/snapshot.py:25-61 | the errors are the per-path errors concatenated in path order, and the cache moves as the `ZfsSnapshot.Cleanup` fold with each cached path's candidates sorted as they stood when it was reached; a raise ends the cleanup with the paths before it done; only successfully destroyed candidates of the given paths leave the cache; every uncached path is reported; retention 0 destroys nothing |
| ZfsSnapshot.SnapshotManager.CreateSnapshots | functions/backup_restore/zfs/snapshot.py:64-111 | the snapshots listed are exactly those created for cached paths; the errors are the creation errors followed by those of the cleanup over the cache the creation left; success iff neither produced an error; the cache ends as the cleanup fold says; every new snapshot stays cached unless the cleanup destroyed it |
| ZfsSnapshot.SnapshotManager.DeleteSnapshots | functions/backup_restore/zfs/snapshot.py:114-136 | exactly the cached snapshots named `...@name` whose destroy succeeds leave the cache; one error per failed one |
| ZfsSnapshot.SnapshotManager.RollbackPersistentVolume | functions/backup_restore/zfs/snapshot.py:139-185 | an unreadable PV file gives its own message and runs nothing; an uncached dataset `pool/handle` is refused without a command; otherwise one forced recursive rollback, whose outcome is the result |
| ZfsSnapshot.SnapshotManager.RollbackTargets | functions/backup_restore/zfs/snapshot.py:213-214 | only cached snapshots are selected |
| ZfsSnapshot.SnapshotManager.RollbackAllSnapshots | functions/backup_restore/zfs/snapshot.py:200-223 | nothing runs for an uncached dataset; otherwise exactly one rollback per selected snapshot |
| ZfsSnapshot.SiblingSelected | functions/backup_restore/zfs/snapshot.py:213 | the plain string prefix also selects a sibling dataset's snapshot: `tank/a` selects `tank/ab@snap` |
| ChartVersion.StripTarGz | functions/backup_restore/charts/chart_version.py:112-125 | a name ending in `.tar.gz` loses exactly that ending; any other name is returned whole |
| ChartVersion.StripArchive | functions/backup_restore/charts/chart_version.py:112-125 | the archive written for a version strips back to that version |
| ChartVersion.RestoreTargetOfBackup | functions/backup_restore/charts/chart_version.py:37-83 | a version's archive restores into the directory it was backed up from |
| ChartVersion.Backup | functions/backup_restore/charts/chart_version.py:30-54 | only an existing directory is archived, when archiving succeeds, and then the archive holds its entries |
| ChartVersion.Restore | functions/backup_restore/charts/chart_version.py:87-110 | a plain file where the target should be raises; extraction happens only into a missing or empty target, which then holds the archive's entries; a non-empty target is left as it is |
| ChartVersion.BackupRestore | functions/backup_restore/charts/chart_version.py:30-110 | a version archived from a directory and restored into an empty place comes back with the same entries |
| ChartVersion.Delete | functions/backup_restore/charts/chart_version.py:144-163 | an existing directory is removed when `rmtree` succeeds; anything else is left as it is |
| CheckJob.Observed | functions/backup_restore/utils/check_job.py:25-40 | a poll shows success or failure iff it lists a job whose first entry's state is `SUCCESS` or `FAILED`; anything else, errors included, is pending |
| CheckJob.CheckJobStatus | functions/backup_restore/utils/check_job.py:5-46 | at most 50 polls; every poll but the last was pending; the loop ends at a terminal state or after 50 polls; True iff the last poll showed success |
| CheckJob.OutcomeFirstTerminal | functions/backup_restore/utils/check_job.py:23-46 | the outcome is True iff, among the first 50 polls, the first terminal one is a success |
| CheckJob.CheckJobStatusOutcome | functions/backup_restore/utils/check_job.py:5-46 | what the loop returns is the outcome of the first terminal poll |
| CheckJob.OutcomeSkip | functions/backup_restore/utils/check_job.py:23-43 | pending polls do not change the outcome |
| ConfigUpdate.Find | utils/update_config.py:14-28 | a lookup finds an entry of the dict, and nothing exactly when no entry has the key |
| ConfigUpdate.Put | utils/update_config.py:20-29 | assigning a new key appends it; an existing key keeps its position; no other entry appears |
| ConfigUpdate.Prune | utils/update_config.py:13-25 | deletion keeps only entries of the dict |
| ConfigUpdate.FindPrune | utils/update_config.py:13-25 | after the deletion loop exactly the keys the default has remain, with their old values |
| ConfigUpdate.FindAddMissing | utils/update_config.py:27-29 | adding missing keys keeps the present values and gives the others their default |
| ConfigUpdate.MergedOptionsMeans | utils/update_config.py:22-29 | a merged section has exactly the default section's keys, keeping the current value where there is one and the default otherwise |
| ConfigUpdate.MergedOptionsFixed | utils/update_config.py:22-29 | a section that already has exactly the default's keys is unchanged |
| ConfigUpdate.MergedSections | utils/update_config.py:12-29 | the merged configuration's sections are the default's: a missing one is the default section, an existing one is merged |
| ConfigUpdate.MergedMeans | utils/update_config.py:12-29 | the result is a well-formed configuration whose section set is the default's and whose key sets per section are the default's, keeping existing values |
| ConfigUpdate.MergedIdempotent | utils/update_config.py:12-29 | a second merge changes nothing |
| ConfigUpdate.PruneKeys | utils/update_config.py:13-25 | the deletion loop over a snapshot of the keys removes exactly the keys the reference lacks |
| ConfigUpdate.AddMissingKeys | utils/update_config.py:27-29 | the insertion loop adds exactly the missing defaults |
| ConfigUpdate.UpdateConfig | utils/update_config.py:4-32 | what is written is the merge, a well-formed configuration; the default configuration is a value and is not changed |
| Logger.Truncate | functions/backup_restore/utils/logger.py:18-28 | a string of at most the limit is unchanged; a longer one keeps its first `limit` characters and gains `...` |
| Logger.TruncateIdempotent | functions/backup_restore/utils/logger.py:28 | truncating twice is truncating once |
| Logger.InsertedShape | functions/backup_restore/utils/logger.py:40-49 | the dict built holds each key once, and only inserted pairs |
| Logger.InsertedLookup | functions/backup_restore/utils/logger.py:40-49 | a key reads the value of its last insertion and is missing iff never inserted |
| Logger.InsertedDistinct | functions/backup_restore/utils/logger.py:40-49 | inserting pairs with distinct keys rebuilds them unchanged |
| Logger.TruncateDict | functions/backup_restore/utils/logger.py:30-50 | the loop builds the dict of the truncated pairs, in order |
| Logger.TruncateDictMeans | functions/backup_restore/utils/logger.py:30-50 | the truncated dict holds each key once; a key is a truncated original key and reads the truncated value of the last original key truncating to it |
| Logger.TruncatedShort | functions/backup_restore/utils/logger.py:40-49 | every string the truncation produces, at any depth, is at most the limit plus three long |
| Logger.TruncatedIdempotent | functions/backup_restore/utils/logger.py:30-50 | truncating a truncated dict changes nothing |
| Logger.TruncateData | functions/backup_restore/utils/logger.py:52-66 | a dict goes through `truncate_dict`; every list item becomes its truncated text; anything else is returned as is |
| Ledger.RecordAppends | functions/backup_restore/restore/restore_base.py:94 | extending an app's failure list appends one entry per message, in order |
| Ledger.RecordErrors | functions/backup_restore/restore/restore_base.py:94 | recording messages for an app appends them to that app's list and leaves every other list as it was |
| Ledger.AppsIffErrors | functions/backup_restore/restore/restore_base.py:51 | an app is a key of the failure dict iff it has a message |
| Ledger.RecordNothing | functions/backup_restore/backup/backup.py:136 | extending by no messages adds nothing |
| Ledger.Apps | functions/backup_restore/restore/restore_base.py:51 | the failure dict's keys are exactly the apps with a message, each once, in order of their first message |
| Ledger.Summary | functions/backup_restore/restore/restore_base.py:61-79 | the summary is the success line iff nothing was recorded, and otherwise starts with the failure line |
| Timestamps.Format | functions/backup_restore/backup/backup.py:40 | a timestamp renders as 19 characters |
| Timestamps.Parse | functions/backup_restore/base_manager.py:24-30 | a parsed timestamp is a valid date and time |
| Timestamps.Assemble | functions/backup_restore/base_manager.py:24-30 | the fields' values are kept only when `datetime` accepts them as a date and time |
| Timestamps.ParseLayout | functions/backup_restore/base_manager.py:24-30 | a four-digit year and fields of one or two characters ending in a digit, joined by `-`, `-`, `_`, `:`, `:`, parse to what `Assemble` reads from them: the numbers when each field is one or two digits (the day also a blank and a non-zero digit) and together they form a valid date and time, nothing otherwise |
| Timestamps.ParsedLayout | functions/backup_restore/base_manager.py:24-30 | conversely every string that parses is spelled that way, with nothing before or after |
| Timestamps.ParseShape | functions/backup_restore/base_manager.py:24-30 | a zero-padded string parses iff its fields are a valid date and time, and then to those fields |
| Timestamps.FormatShape | functions/backup_restore/backup/backup.py:40 | a rendered timestamp is zero-padded and its fields are the timestamp |
| Timestamps.ParseFormat | functions/backup_restore/backup/backup.py:40 | parsing a rendered timestamp gives it back |
| Timestamps.FormatParse | functions/backup_restore/base_manager.py:24-30 | rendering a parsed string gives that string back iff it was zero-padded |
| Timestamps.ParseShort | functions/backup_restore/base_manager.py:24-30 | the unpadded rendering of a valid timestamp parses to the same timestamp, so a time with a field below 10 has more than one spelling |
| Timestamps.UnpaddedMonth | functions/backup_restore/base_manager.py:24-30 | `2024-1-05_12:00:00` parses, as `strptime` accepts a one-digit month |
| Timestamps.BlankDay | functions/backup_restore/base_manager.py:24-30 | `2024-01- 5_1:2:3` parses, as `%d` accepts a blank before a one-digit day |
| Timestamps.LongFieldRefused | functions/backup_restore/base_manager.py:24-30 | a three-digit month does not parse |
| Timestamps.TrailingRefused | functions/backup_restore/base_manager.py:24-30 | trailing text after the seconds does not parse |
| Timestamps.LeOrder | functions/backup_restore/base_manager.py:22-32 | timestamp order is a total order |
| Timestamps.SearchFrom | functions/backup_restore/zfs/snapshot.py:45 | the search finds the leftmost timestamp token at or after the start, or reports that there is none |
| Timestamps.EmbeddedOfName | functions/backup_restore/zfs/snapshot.py:45 | a snapshot named with `HeavyScript--` and a rendered timestamp carries that timestamp |
| Sorting.SortBy | functions/backup_restore/base_manager.py:22-32 | sorting is a permutation |
| Sorting.SortBySorted | functions/backup_restore/base_manager.py:22-32 | under a total preorder the sorted list is ordered |
| Sorting.InsertTies | functions/backup_restore/base_manager.py:22-32 | an inserted element that ties with a given one comes first among the elements tied with that one, and those keep their order |
| Sorting.SortByStable | functions/backup_restore/base_manager.py:22-32 | under a total preorder the sort is stable: the elements tied with any given one are in the same order before and after |
| Sorting.Filter | functions/backup_restore/kube/resources_backup.py:59 | filtering keeps exactly the elements that pass, in order |
| Sorting.StrLeOrder | functions/backup_restore/kube/resources_backup.py:60 | Python's string comparison is a total preorder |
| Sorting.SortStrings | functions/backup_restore/restore_manager.py:100-104 | `sorted` on strings is an ordered permutation |
| Sorting.Enumerate | functions/backup_restore/zfs/lifecycle.py:108 | listing a set gives each element exactly once |
| Sorting.RetentionSlice | functions/backup_restore/zfs/snapshot.py:49-50 | the removed items are a prefix of the list |
| Sorting.RetentionKeepsNewest | functions/backup_restore/zfs/snapshot.py:49-50 | with a positive count below the length, exactly the newest `n` items survive |
| Sorting.RetentionZeroKeepsAll | functions/backup_restore/zfs/snapshot.py:50 | a retention of 0 removes nothing, since `[:-0]` is empty |
| Sorting.RetentionRemovesOldest | functions/backup_restore/zfs/snapshot.py:49-50 | on an oldest-first list every removed item is no newer than every kept one |
| Sorting.FilterPartition | functions/backup_restore/kube/resources_restore.py:32 | splitting a list by a test and its negation loses and invents nothing |
| Strings.Split | functions/backup_restore/utils/utils.py:25-26 | `split` gives at least one piece and no piece holds the separator |
| Strings.JoinSplit | functions/backup_restore/database/backup.py:34-35 | joining the pieces of a split gives the text back |
| Strings.SplitJoin | functions/backup_restore/zfs/cache.py:43 | splitting a join of separator-free pieces gives the pieces back |
| Strings.DigitsOfNat | functions/backup_restore/base_manager.py:75 | the decimal text of a number reads back as that number |
| Strings.IntLiteral | functions/backup_restore/base_manager.py:75 | `int(s)` has a value exactly when, after the blanks around it and an optional sign, `s` is digits that single underscores may group |
| Strings.DigitsLiteral | functions/backup_restore/base_manager.py:75 | a run of decimal digits parses to its value |
| Strings.NegativeLiteral | functions/backup_restore/base_manager.py:75 | a minus sign before digits negates their value |
| Strings.IntRoundTrip | functions/backup_restore/base_manager.py:75 | `int(str(i)) == i` for every integer |
| Strings.LeadingBlank | functions/backup_restore/base_manager.py:75 | a blank before the literal does not change what `int` reads |
| Strings.DigitPair | functions/backup_restore/base_manager.py:75 | two digits read as the decimal number they spell |
| Strings.GroupedPair | functions/backup_restore/base_manager.py:75 | an underscore between two digits only groups them |
| Strings.DoubleUnderscore | functions/backup_restore/base_manager.py:75 | two underscores in a row are refused |
| Strings.TrailingUnderscore | functions/backup_restore/base_manager.py:75 | a trailing underscore is refused |
| Strings.NonDigitEnd | functions/backup_restore/base_manager.py:75 | a literal ending in anything but a blank or a digit is refused |
| Strings.PaddedTen | functions/backup_restore/base_manager.py:75 | ` 10` reads as 10 |
| Strings.IntLiteralExamples | functions/backup_restore/base_manager.py:75 | ` 10` and `1_0` both read as 10 |
| Strings.IntLiteralRejects | functions/backup_restore/base_manager.py:75 | `1__0` and `1_` are refused |
| Strings.YesAccepted | functions/backup_restore/restore/restore_base.py:262 | the confirmation accepts `YES` whatever its case |
| Strings.NoRejected | functions/backup_restore/restore/restore_base.py:262 | the confirmation refuses `no` |
| Json.Lookup | functions/backup_restore/utils/yaml_cleaner.py:35-37 | a lookup finds an entry of the dict, and nothing exactly when no entry has the key |
| Json.SetReads | functions/backup_restore/kube/resources_restore.py:120-121 | after an assignment the key reads the new value |
| Json.SetKeepsOthers | functions/backup_restore/kube/resources_restore.py:120-121 | an assignment leaves every other key reading as before |
| Json.SetKeys | functions/backup_restore/kube/resources_restore.py:120-121 | an assignment keeps the key order, appending a key only when it is new |
| Json.GetOr | functions/backup_restore/kube/resources_backup.py:87 | `get` with a default reads the value when the key is present, the default otherwise |
| Json.GetIn | functions/backup_restore/charts/api_fetch.py:135 | `.get` with a default fails exactly on a value that is not a dict, and otherwise reads the value or the default |
| Json.Iterated | functions/backup_restore/utils/yaml_cleaner.py:72-75 | iteration fails exactly on a scalar; a list yields its items, a dict and a string yield strings, and nothing is yielded exactly for a falsy value |
| Json.KeepEntriesLookup | functions/backup_restore/utils/yaml_cleaner.py:35-37 | a filtered dict reads like the original on every kept key and misses the dropped ones |
| Restore.Critical | functions/backup_restore/restore/restore_base.py:82-88 | a critical failure changes neither the create list, the job handles nor the operations performed |
| Restore.CriticalMeans | functions/backup_restore/restore/restore_base.py:82-88 | the error is always appended to the app's list; the app becomes critical and leaves the chart index only the first time; nothing else changes |
| Restore.CriticalLocal | functions/backup_restore/restore/restore_base.py:82-88 | a critical failure touches only its own app, marks it critical, removes it from the index, and adds one failure entry |
| Restore.Decide | functions/backup_restore/restore/restore_base.py:217-226 | an app with no record cannot be restored, for want of a metadata file |
| Restore.DecideRule | functions/backup_restore/restore/restore_base.py:217-235 | an app missing its metadata or values file cannot be restored; otherwise a `prometheus-operator` chart or an app without a namespace file is created, and any other app is redeployed |
| Restore.DecideLocal | functions/backup_restore/restore/restore_base.py:215-235 | the decision about an app reads only that app's record |
| Restore.DecideStable | functions/backup_restore/restore/restore_base.py:215-235 | removing other apps from the index changes no decision |
| Restore.PlanConsistent | functions/backup_restore/restore/restore_base.py:207-259 | the plan keeps the state consistent and performs no operation |
| Restore.PlanShrunk | functions/backup_restore/restore/restore_base.py:220-225 | the plan only removes apps from the index, and the rest keep their records |
| Restore.PlanCreates | functions/backup_restore/restore/restore_base.py:228-233 | the create list gains exactly the apps the plan creates, in order |
| Restore.PlanCriticals | functions/backup_restore/restore/restore_base.py:217-226 | exactly the apps missing a file become critical |
| Restore.PlanMeans | functions/backup_restore/restore/restore_base.py:207-259 | the plan records every missing-file app as a critical failure with its reason, creates or redeploys the rest, and changes nothing else |
| Restore.PlanAsWrittenAgrees | functions/backup_restore/restore/restore_base.py:207-259 | when no app misses a file, the plan as written is the intended plan |
| Restore.PlanAsWrittenRaises | functions/backup_restore/restore/restore_base.py:217-226 | as written, the plan raises (a two-argument `append`) exactly when some app misses a file |
| Restore.Plan | functions/backup_restore/restore/restore_base.py:207-235 | the intended plan, app by app, performs no operation and queues no job; `Restore.PlanMeans` states the rest |
| Restore.PlanAsWritten | functions/backup_restore/restore/restore_base.py:207-235 | as written the plan changes only the create list, and stops at the first app missing a file with the two-argument `append`'s `TypeError` |
| Restore.PlanRaisedStays | functions/backup_restore/restore/restore_base.py:217-226 | once a prefix of the apps raises, the plan over all of them raises the same way |
| Restore.PlanFiledNeverRaises | functions/backup_restore/restore/restore_base.py:215-226 | over apps whose records all have both files the plan as written does not raise |
| Restore.Confirm | functions/backup_restore/restore/restore_base.py:261-264 | only `yes`, ignoring surrounding blanks and case, lets the restore go on; anything else aborts |
| Restore.PvOnly | functions/backup_restore/restore/restore_base.py:100 | the files rolled back are exactly the volume files named `*-pv.yaml`, in order |
| Restore.RollbackOne | functions/backup_restore/restore/restore_base.py:104-109 | rolling back one file touches neither the index, the critical list, the create list nor the jobs |
| Restore.RollbackEach | functions/backup_restore/restore/restore_base.py:103-109 | the rollback loop touches neither the index, the critical list, the create list nor the jobs |
| Restore.RollbackOps | functions/backup_restore/restore/restore_base.py:103-104 | one rollback per file, in order |
| Restore.RollbackEachTrace | functions/backup_restore/restore/restore_base.py:103-109 | the loop rolls back only the given files; without a raise it rolls back every one of them, in order |
| Restore.RollbackEachFailures | functions/backup_restore/restore/restore_base.py:105-106 | messages are recorded for the app only; without a raise exactly the failed rollbacks' messages, in order |
| Restore.RollbackMeans | functions/backup_restore/restore/restore_base.py:97-109 | `_rollback_volumes` rolls back only the app's `-pv.yaml` files, records messages only against the app, and raises when the app has no record |
| Restore.Rollback | functions/backup_restore/restore/restore_base.py:97-109 | `_rollback_volumes` touches neither the index, the critical list, the create list nor the jobs |
| Restore.EnsureDatasetContained | functions/backup_restore/restore/restore_base.py:119-127 | creating a missing dataset changes only what belongs to the app, and its failure is critical |
| Restore.PrepareContained | functions/backup_restore/restore/restore_base.py:115-136 | the preparation of an app off the create list changes only what belongs to the app; a failed namespace restore puts it on the create list |
| Restore.ApplyContained | functions/backup_restore/restore/restore_base.py:138-144 | applying the volume or secret files changes only the app's failures and the operations |
| Restore.CreateAppContained | functions/backup_restore/restore/restore_base.py:146-156 | creating the chart changes only what belongs to the app; a failed create is critical |
| Restore.RedeployAppContained | functions/backup_restore/restore/restore_base.py:165-172 | a redeploy queues exactly this app's job, and a failed redeploy is critical |
| Restore.RestoreAppContained | functions/backup_restore/restore/restore_base.py:112-182 | `_restore_application` changes only what belongs to the app; on success the index and critical list are untouched; on failure the last failure entry is the app's |
| Restore.ApplyCrds | functions/backup_restore/restore/restore_base.py:90-94 | one CRD restore operation for the app, and nothing else but its failures changes |
| Restore.ApplyCrdsMeans | functions/backup_restore/restore/restore_base.py:90-94 | without a raise the app's list gains exactly the CRD files that failed |
| Restore.ApplyAllCrds | functions/backup_restore/restore/restore_all.py:62-66 | the CRD loop touches neither the index, the critical list, the create list nor the jobs |
| Restore.ApplyAllCrdsTrace | functions/backup_restore/restore/restore_all.py:62-66 | the CRD loop restores only the CRDs of listed apps; without a raise each of them once, in order |
| Restore.RollbackAll | functions/backup_restore/restore/restore_all.py:38-43 | the volume rollback loop touches neither the index, the critical list, the create list nor the jobs |
| Restore.RollbackAllStep | functions/backup_restore/restore/restore_all.py:38-43 | one app of the rollback phase rolls back its own `-pv.yaml` volumes only, and records errors only against itself |
| Restore.RollbackAllMeans | functions/backup_restore/restore/restore_all.py:38-43 | the rollback phase rolls back only listed apps' volumes and records errors only against listed apps |
| Restore.CatalogStep | functions/backup_restore/restore/restore_all.py:54-60 | the catalog restore is one global operation and changes only failures |
| Restore.WaitJob1 | functions/backup_restore/restore/restore_all.py:98-107 | awaiting one job adds exactly one wait operation for its app |
| Restore.WaitJob1Means | functions/backup_restore/restore/restore_all.py:98-107 | a job that raises makes its app critical; no other app's critical status changes |
| Restore.WaitJobs | functions/backup_restore/restore/restore_all.py:98-107 | waiting on the jobs changes neither the create list nor the jobs |
| Restore.WaitJobsMeans | functions/backup_restore/restore/restore_all.py:98-107 | each queued app's job is awaited once, in order; an app ends critical iff it was already or its job raised |
| Restore.RestoreDb | functions/backup_restore/restore/restore_all.py:109-123 | one database restore operation for the app; a failure is recorded, never made critical |
| Restore.RestoreDbs | functions/backup_restore/restore/restore_all.py:109-123 | the database phase touches neither the index, the critical list, the create list nor the jobs |
| Restore.RestoreDbsMeans | functions/backup_restore/restore/restore_all.py:109-123 | each listed app's database is restored once, in order, and errors are recorded only against listed apps |
| Restore.AppOps | functions/backup_restore/restore/restore_all.py:98-123 | one operation per app, in list order |
| Restore.ChartNamesSub | functions/backup_restore/restore/restore_base.py:88 | a smaller index has no chart name the larger lacks |
| Restore.ChartNamesRemoved | functions/backup_restore/restore/restore_base.py:88 | removing an app from the index drops chart names and never adds one |
| Restore.RestoredLocal | functions/backup_restore/restore/restore_all.py:71-96 | restoring one app keeps the state consistent and changes only that app's records |
| Restore.RestoreStepLocal | functions/backup_restore/restore/restore_all.py:71-96 | one app of the loop changes only what belongs to it besides the operator wait; a CNPG app is made critical without any operation when the operator chart is critical |
| Restore.RestoreStepWaits | functions/backup_restore/restore/restore_all.py:71-96 | one app waits for the CNPG operator at most once, and only when a `cloudnative-pg` chart is indexed |
| Restore.RestoreAppsWaits | functions/backup_restore/restore/restore_all.py:71-96 | the application loop keeps the state consistent, only narrows the index, and waits for the CNPG operator at most once over the whole loop |
| Restore.RestoreAndWaitMeans | functions/backup_restore/restore/restore_all.py:71-107 | the loop and the job wait together wait for the operator at most once, and never without a `cloudnative-pg` chart |
| Restore.RestoringMeans | functions/backup_restore/restore/restore_all.py:54-107 | the catalog, CRDs, apps and jobs together keep the state consistent, only narrow the index, perform only app-level operations, and wait for the operator at most once |
| Restore.CatalogCrdsMeans | functions/backup_restore/restore/restore_all.py:54-66 | the catalog and CRD steps change neither the index nor the critical list, and add no operator wait |
| Restore.AppLinesShape | functions/backup_restore/restore/restore_base.py:74-79 | every line of the per-app part is an app heading ending in `:` or an indented message, and every app has its heading |
| Restore.SummaryParts | functions/backup_restore/restore/restore_base.py:61-79 | the summary is the header, then either the success line or the critical part followed by the per-app part |
| Restore.NotAListedLine | functions/backup_restore/restore/restore_base.py:66-79 | the success line is never one of the listed lines |
| Restore.SummarySuccess | functions/backup_restore/restore/restore_base.py:61-79 | all applications are reported restored iff no failure and no critical failure was recorded |
| Restore.SummaryLists | functions/backup_restore/restore/restore_base.py:69-79 | every critical app is listed indented, and every app with a message has its heading |
| Restore.RollbackRaisedStays | functions/backup_restore/restore/restore_base.py:103-109 | once a file raises, the rollback loop ends there |
| Restore.CrdsRaisedStays | functions/backup_restore/restore/restore_all.py:62-66 | once a CRD restore raises, the loop ends there |
| Restore.RestoreRaisedStays | functions/backup_restore/restore/restore_all.py:71-96 | once the application loop raises, it ends there |
| Restore.RestoreBase.constructor | functions/backup_restore/restore/restore_base.py:49-54 | the restore starts with an empty ledger, no critical apps, an empty create list and no operations, over the parsed chart index |
| Restore.RestoreBase.Call | functions/backup_restore/restore/restore_base.py:104 | a platform call is recorded and ends as the environment says |
| Restore.RestoreBase.RecordFailure | functions/backup_restore/restore/restore_base.py:85 | the message is appended to the app's failure list |
| Restore.RestoreBase.ExtendFailures | functions/backup_restore/restore/restore_base.py:94 | the messages are appended to the app's failure list |
| Restore.RestoreBase.HandleCriticalFailure | functions/backup_restore/restore/restore_base.py:82-88 | the state moves as `Restore.Critical` says |
| Restore.RestoreBase.BuildRestorePlan | functions/backup_restore/restore/restore_base.py:207-264 | the state moves as `Restore.PlanAsWritten` says, and its `TypeError` is returned; without it the restore aborts unless the answer is `yes` |
| Restore.RestoreBase.RollbackFile | functions/backup_restore/restore/restore_base.py:104-109 | one file's rollback moves the state as `Restore.RollbackOne` says |
| Restore.RestoreBase.RollbackFiles | functions/backup_restore/restore/restore_base.py:103-109 | the loop moves the state as `Restore.RollbackEach` says |
| Restore.RestoreBase.RollbackVolumes | functions/backup_restore/restore/restore_base.py:97-109 | the state moves as `Restore.RollbackMeans` describes |
| Restore.RestoreBase.RestoreCrds | functions/backup_restore/restore/restore_base.py:90-94 | the state moves as `Restore.ApplyCrdsMeans` describes |
| Restore.RestoreBase.Escaped | functions/backup_restore/restore/restore_base.py:179-182 | an exception inside the app restore records its message against the app |
| Restore.RestoreBase.EnsureAppDataset | functions/backup_restore/restore/restore_base.py:119-127 | the state moves as `Restore.EnsureDatasetContained` describes |
| Restore.RestoreBase.PrepareApplication | functions/backup_restore/restore/restore_base.py:115-136 | the state moves as `Restore.PrepareContained` describes |
| Restore.RestoreBase.ApplyFiles | functions/backup_restore/restore/restore_base.py:138-163 | the state moves as `Restore.ApplyContained` describes |
| Restore.RestoreBase.CreateApplication | functions/backup_restore/restore/restore_base.py:146-156 | the state moves as `Restore.CreateAppContained` describes |
| Restore.RestoreBase.RedeployApplication | functions/backup_restore/restore/restore_base.py:165-172 | the state moves as `Restore.RedeployAppContained` describes |
| Restore.RestoreBase.RestoreApplication | functions/backup_restore/restore/restore_base.py:112-182 | the state and result move as `Restore.RestoreAppContained` describes |
| Restore.RestoreBase.RestoreCatalogs | functions/backup_restore/restore/restore_all.py:54-60 | the state moves as `Restore.CatalogStep` says |
| Restore.RestoreBase.RestoreInLoop | functions/backup_restore/restore/restore_all.py:71-96 | one loop iteration moves the state as `Restore.RestoreStepLocal` describes |
| Restore.RestoreBase.RestoreApplications | functions/backup_restore/restore/restore_all.py:71-96 | the loop moves the state as `Restore.RestoreAppsWaits` describes |
| Restore.RestoreBase.WaitForJobs | functions/backup_restore/restore/restore_all.py:98-107 | the wait moves the state as `Restore.WaitJobsMeans` describes |
| Restore.RestoreBase.RestoreDatabases | functions/backup_restore/restore/restore_all.py:109-123 | the database phase moves the state as `Restore.RestoreDbsMeans` describes |
| Restore.RestoreBase.RollbackAllVolumes | functions/backup_restore/restore/restore_all.py:38-43 | the rollback phase moves the state as `Restore.RollbackAllMeans` describes |
| Restore.RestoreBase.RestoreAllCrds | functions/backup_restore/restore/restore_all.py:62-66 | the CRD loop moves the state as `Restore.ApplyAllCrdsTrace` describes |
| Restore.RestoreBase.RestoreShared | functions/backup_restore/restore/restore_all.py:54-107 | the shared middle moves the state as `Restore.RestoringMeans` describes |
| Restore.RestoreBase.LogFailures | functions/backup_restore/restore/restore_base.py:61-79 | the lines logged are the summary of the current state |
| RestoreAll.FirstRaise | functions/backup_restore/restore/restore_all.py:127-179 | everything before the returned index completes, and the step at that index raises |
| RestoreAll.RunSetup | functions/backup_restore/restore/restore_all.py:127-179 | the setup changes nothing but the operations performed |
| RestoreAll.RunSetupMeans | functions/backup_restore/restore/restore_all.py:127-179 | the setup performs its steps in order up to and including the first that raises, and fails exactly when one raises |
| RestoreAll.SetupRaisedStays | functions/backup_restore/restore/restore_all.py:127-179 | once a setup step raises, the setup ends there |
| RestoreAll.Start | functions/backup_restore/restore/restore_all.py:181-192 | the start phase changes nothing but the operations performed |
| RestoreAll.StartMeans | functions/backup_restore/restore/restore_all.py:181-192 | the start fails exactly when Kubernetes does not come up; it first restores the Kubernetes configuration and performs only its own three kinds of call |
| RestoreAll.Run | functions/backup_restore/restore/restore_all.py:13-25 | a declined run leaves the operations, the failures and the critical list as they were |
| RestoreAll.PlanOfReleases | functions/backup_restore/restore/restore_all.py:17-22 | over an index whose records all have both files, as every parsed index does, the plan as written does not raise and is the intended plan |
| RestoreAll.Planned | functions/backup_restore/restore/restore_all.py:17-25 | past a confirmed plan the run is never declined, and a backup without releases is left as it is |
| RestoreAll.AfterSetup | functions/backup_restore/restore/restore_all.py:38-125 | after the setup the run ends aborted at the start, with an uncaught error, or completed |
| RestoreAll.Finish | functions/backup_restore/restore/restore_all.py:54-125 | the last phases end with an uncaught error or complete |
| RestoreAll.RunDeclined | functions/backup_restore/restore/restore_all.py:17-25 | the run is declined iff the answer is not `yes`; a declined run, or one over a backup without releases, performs no operation |
| RestoreAll.RunSetupAborted | functions/backup_restore/restore/restore_all.py:29-34 | a failed setup marks `Initial Kubernetes Setup` critical and performs only the setup steps up to the one that raised |
| RestoreAll.RunSetupFirst | functions/backup_restore/restore/restore_all.py:29-43 | a run that gets past the setup has performed every setup step, in order, before anything else |
| RestoreAll.RunStartAborted | functions/backup_restore/restore/restore_all.py:47-52 | Kubernetes that does not come up marks `Kubernetes Initialization` critical |
| RestoreAll.RollbackStartMeans | functions/backup_restore/restore/restore_all.py:38-52 | the rollback and the start change only the failures and the operations, and wait for nothing |
| RestoreAll.AfterSetupWaits | functions/backup_restore/restore/restore_all.py:38-125 | the phases after the setup only extend the operations and wait for the CNPG operator at most once |
| RestoreAll.FinishWaits | functions/backup_restore/restore/restore_all.py:54-125 | the last phases wait for the CNPG operator at most once, and not at all without a `cloudnative-pg` chart |
| RestoreAll.RunWaitsOnce | functions/backup_restore/restore/restore_all.py:13-125 | a whole run waits for the CNPG operator at most once, and not at all when no `cloudnative-pg` chart is indexed |
| RestoreAll.PlannedWaits | functions/backup_restore/restore/restore_all.py:29-125 | a confirmed run waits for the operator at most once |
| RestoreAll.RunDatabases | functions/backup_restore/restore/restore_all.py:109-123 | a completed run ends with the database restore of exactly the CNPG apps still indexed, in order, and none of them is critical |
| RestoreAll.InitialSetup | functions/backup_restore/restore/restore_all.py:127-179 | the setup moves the state as `RestoreAll.RunSetupMeans` describes |
| RestoreAll.StartKubernetes | functions/backup_restore/restore/restore_all.py:181-192 | the start moves the state as `RestoreAll.StartMeans` describes |
| RestoreAll.FinishRestore | functions/backup_restore/restore/restore_all.py:54-125 | the last phases move the state as `RestoreAll.Finish` says |
| RestoreAll.RollbackAndStart | functions/backup_restore/restore/restore_all.py:38-125 | the rollback and everything after it move the state as `RestoreAll.AfterSetup` says |
| RestoreAll.RunRestore | functions/backup_restore/restore/restore_all.py:13-125 | the whole restore moves the state as the run that `RestoreAll.RunWaitsOnce` and `RestoreAll.RunDatabases` describe |
| RestoreSingle.Among | functions/backup_restore/restore/restore_single.py:42-46 | the named apps that are also in the list, in the list's order |
| RestoreSingle.RollbackAsWritten | functions/backup_restore/restore/restore_single.py:24-32 | as written the rollback phase touches neither the index, the critical list, the create list nor the jobs |
| RestoreSingle.RollbackEachClean | functions/backup_restore/restore/restore_single.py:24-32 | files that all roll back cleanly raise nothing and record nothing |
| RestoreSingle.RollbackClean | functions/backup_restore/restore/restore_single.py:24-32 | an app whose volumes roll back cleanly raises nothing and records nothing |
| RestoreSingle.RollbackAsWrittenFails | functions/backup_restore/restore/restore_single.py:28-32 | as written, even an app whose every volume rolls back cleanly is recorded as failing, because `restore_snapshots` does not exist |
| RestoreSingle.RollbackAllClean | functions/backup_restore/restore/restore_single.py:24-32 | without that call, apps whose volumes roll back cleanly leave the failures as they were |
| RestoreSingle.RollbackAsWrittenStep | functions/backup_restore/restore/restore_single.py:24-32 | one app of the rollback phase as written rolls back only its own `-pv.yaml` volumes and records one more error, against itself |
| RestoreSingle.FailKeepsRollbacks | functions/backup_restore/restore/restore_single.py:28-32 | recording a failure for the app keeps the operations and the failures confined to that app |
| RestoreSingle.RollbackAsWrittenMeans | functions/backup_restore/restore/restore_single.py:24-32 | the rollback phase as written rolls back only `-pv.yaml` volumes of named apps and records errors only against named apps |
| RestoreSingle.Run | functions/backup_restore/restore/restore_single.py:10-22 | a declined run leaves the operations, the failures and the critical list as they were |
| RestoreSingle.Planned | functions/backup_restore/restore/restore_single.py:24-105 | past a confirmed plan the run is never declined, and a backup without releases is left as it is |
| RestoreSingle.Finish | functions/backup_restore/restore/restore_single.py:34-105 | the last phases end with an uncaught error or complete |
| RestoreSingle.RunDeclined | functions/backup_restore/restore/restore_single.py:14-22 | as written, a named app missing a file ends the run with the two-argument `append`'s `TypeError` before the prompt, having performed and recorded nothing; otherwise the run is declined iff the answer is not `yes`; a declined run, or one without releases, performs no operation |
| RestoreSingle.RunIntendedDeclined | functions/backup_restore/restore/restore_single.py:14-22 | without the plan's `TypeError` and the missing `restore_snapshots`, the run is declined iff the answer is not `yes`, and a declined run, or one without releases, performs no operation |
| RestoreSingle.PlannedIntended | functions/backup_restore/restore/restore_single.py:24-105 | in the intended run, past a confirmed plan the run is never declined, and a backup without releases is left as it is |
| RestoreSingle.FinishMeans | functions/backup_restore/restore/restore_single.py:34-105 | the last phases perform only app-level operations and wait for the operator at most once |
| RestoreSingle.PlannedMeans | functions/backup_restore/restore/restore_single.py:24-105 | a confirmed run performs only app-level operations and waits for the operator at most once |
| RestoreSingle.PlannedIntendedMeans | functions/backup_restore/restore/restore_single.py:24-105 | past the intended plan the run performs only app-level operations and waits for the operator at most once, never without a `cloudnative-pg` chart |
| RestoreSingle.RunAppLevel | functions/backup_restore/restore/restore_single.py:10-105 | the single restore never touches the Kubernetes services or the applications dataset: only per-app operations, the catalog and the operator wait, at most once |
| RestoreSingle.RunIntendedAppLevel | functions/backup_restore/restore/restore_single.py:10-105 | the intended run, too, performs only per-app operations, the catalog restore and at most one operator wait |
| RestoreSingle.RunDatabases | functions/backup_restore/restore/restore_single.py:89-103 | a completed run ends with the database restore of exactly the named CNPG apps still indexed, in the caller's order, and none of them is critical |
| RestoreSingle.FinishRestore | functions/backup_restore/restore/restore_single.py:34-105 | the last phases move the state as `RestoreSingle.FinishMeans` describes |
| RestoreSingle.RollbackNamed | functions/backup_restore/restore/restore_single.py:24-32 | the rollback loop moves the state as `RestoreSingle.RollbackAsWritten` says |
| RestoreSingle.RunRestore | functions/backup_restore/restore/restore_single.py:10-105 | the whole restore moves the state as the as-written run that `RestoreSingle.RunDeclined`, `RestoreSingle.RunAppLevel` and `RestoreSingle.RunDatabases` describe |

## Left out

- Running commands, the middleware RPC, the Kubernetes client and `kubectl`: each call is an oracle or an input, so the model states what the code does with an outcome, not that the outcome is right.
- Logging: messages that are only logged are not modelled; messages stored in results or in the failure ledger are.
- Sleeps and wall-clock waits (`time.sleep` between attempts and polls, `wait_for_app_active`, the primary-pod wait): a wait is an event in a trace, or nothing.
- Threads and locks (`ZFSCache._lock`, `ChartCache._lock`) and the singletons: the model is sequential. `ChartCache.refresh` notifies its observers while it holds its non-reentrant lock and each observer's `update` takes the lock again, so as written a refresh with a forcing observer blocks. `ApiFetch.ChartCache.Refresh` only replaces the records, and an observer's re-read is the separate `ApiFetch.APIChartFetcher.Update`.
- Loading and dumping JSON and YAML, gzip and tar: a file is given as the document it loads as, and an archive as the entries it holds.
- Floating-point numbers: JSON and YAML documents hold no floats, and `_size_str_to_bytes` reads integer mantissas only, so `1.5G` and exponents are not modelled.
- Strings.IntLiteral: digits are the ASCII `0`-`9` only, where Python's `int` also reads every other Unicode decimal digit (Arabic-Indic, full-width and so on); such a literal is refused here.
- Backup.SizeStrToBytes: the part before a unit letter is read as an `int` literal (ASCII digits, surrounding blanks, a sign, single underscores) or as an infinity spelling; `float`'s fractions and exponents (`1.5G`, `1e3K`), Unicode digits, the rounding of mantissas above 2**53, and a mantissa beyond the float range (an `OverflowError`, like an infinity) are not modelled, and such a string gives 0.
- BaseManager.SelectNumbered: the answer is read by `Strings.IntLiteral`, so a number typed in non-ASCII decimal digits selects nothing, where the source selects that entry.
- BaseManager.SelectBackup: reads the answer through `BaseManager.SelectNumbered`, with the same limit for non-ASCII decimal digits.
- BackupManager.InteractiveDeleteTarget: reads the answer through `BaseManager.SelectBackup`, with the same limit for non-ASCII decimal digits.
- RestoreManager.SelectChart: the answer is read by `Strings.IntLiteral`, so a number typed in non-ASCII decimal digits chooses no chart, where the source chooses that one.
- RestoreManager.ChartTarget: chooses through `RestoreManager.SelectChart`, with the same limit for non-ASCII decimal digits.
- RestoreManager.InteractiveRestore: selects through `BaseManager.SelectBackup`, with the same limit for non-ASCII decimal digits.
- App, chart and version names are treated as plain path components without `/`.
- `zfs send` and `zfs receive` command strings and streams: the backup decides whether a stream is sent and under which file name, and the send itself is an outcome.
- `list_snapshots`, `get_pvs_by_namespace` and the PV and PVC listings: inputs to the managers and the PVC fetcher.
- `create_snapshot`, `get_snapshot_refer_size`, `delete_snapshot`, `snapshots`, `list_datasets`, `delete_backup`, `delete_old_backups` and `ix_volumes_dataset` are called but not defined in the modelled code: their results are inputs, or the model records that they are called.
- `RestoreSingle.restore_snapshots` is not defined anywhere: `RestoreSingle.Run` rolls back with `RestoreSingle.RollbackAsWritten`, where the call raises `AttributeError` after each app's volumes and that app records `Failed to rollback volume snapshots: ...` (see Findings); `RestoreSingle.RunIntended` is the run without that call.
- `_delete_cnpg_pvcs` and the cluster health check of the database restore: an outcome each.
- `restore/import_.py` (`ChartInfoImporter`) is not part of this model: of `import_chart`, only the choice of the app it works on is modelled (`RestoreManager.ChartTarget`).
- The catalog backup and the YAML copy of `values.json` in the export are not part of this model.
- `main.py`, `utils/type_check.py`, `setup_global_logger`, `get_logger` and `set_logger`: argument parsing, reflection and logger plumbing.
- The `except Exception` branch of the restore loops that records `Restoration failed: ...`: `_restore_application` catches every exception of its own steps, so that branch is unreachable in the model.
- RestoreSingle.RunRestore: the per-iteration membership tests of the CRD and database loops are applied to the caller's list up front (`RestoreSingle.Among`); this is the same because those loops leave the chart index unchanged.
- YamlCleaner.CleanYaml: the passes prune the loaded document in place; the model gives each pass as a function from the document to the pruned document, so aliasing between parts of a document is not modelled.
- KubeStatus.WaitForKubernetes: the unbounded `while True` loop is followed for at most `limit` checks, and `None` stands for a loop still waiting then; the time of each check is an input.
- DatabaseRestore.RestoreOnPod: restores with `DatabaseRestore.ExecuteRestoreDecoded`, the corrected attempt loop; as written the difference is unreachable, since an immich app never gets past the drop and every other chart reads stderr as bytes.
- DatabaseBackup.Lines: splits on `\n` only. The text-mode read comes first (`DatabaseBackup.ReadText` turns `\r` and `\r\n` into `\n`), but `str.splitlines` also breaks at `\x0b`, `\x0c`, `\x1c`, `\x1d`, `\x1e`, `\x85`, U+2028 and U+2029, so a dump holding those characters is rewritten line by line differently.
- DatabaseBackup.LinesJoin: the round trip is proved for the `\n`-only split of `DatabaseBackup.Lines`, and has the same limit.
- DatabaseRestore.ExecuteRestore: the waits between attempts are not modelled, only the attempt count and the messages.
- Backup.BackupAll: when an app's iteration raises (a namespace, PVC or database backup raises, or a volume path is `None`), the operations returned are only the platform snapshots; the snapshots and streams that earlier apps of the same run already took are not among them, because `Backup.Run` and `Backup.VolumesStep` give `None` there rather than the work done so far.
- PvcFetch.ExtractPvcInfo: only a missing `labels` map and missing CSI volume attributes raise; a PVC without `spec.resources.requests`, `metadata`, `spec` or `status` would raise `AttributeError` too, but the model reads the storage request as present or absent and takes the other parts as given, since the API server always fills them in.
- ApiFetch.NestedString: `chart_name` and `version` read a present `chart_metadata` that is not a dict as `{}`, where the source raises `AttributeError`, and a field that is not a string as `''`, where the source returns the value as it is; the middleware's records carry a dict and strings there, and the export writes them as strings.
- ApiFetch.TopString: `catalog`, `train` and `status` read a non-empty record that is not a dict as `{}`, where the source raises `AttributeError`, and a field that is not a string as `''`, where the source returns the value as it is; the middleware's records are dicts with strings there.
- ApiFetch.AllChartNames: `chart_metadata` that is not a dict and a chart name that is not a string are read as `{}` and `''`, where the source raises or sorts the value as it is; the middleware's records carry a dict and a string there.
- ApiFetch.AllReleaseNames: a release name that is not a string is read as `''`, where the source sorts the value as it is, and a record that is not a dict is skipped, where `'name' in chart` may raise; the middleware's records are dicts with string names.
- ApiFetch.AllCnpgApps: `'cnpg' in chart['config']` is taken as a key test on a dict `config` only, where on a list, a string or a scalar it is a membership test, a substring test or a `TypeError`; a `name` that is present but not a string is read as `''`, where the source lists the value as it is.
- ApiFetch.AllAppsWithPvcs: a `name` that is present but not a string is read as `''`, where the source lists the value as it is; the middleware's records carry string names.
- ApiFetch.KeyedLookup: a record without a string `id` is keyed by `''`, where `chart['id']` raises or keys by the value as it is; the middleware's records carry a string id.
- Timestamps.Parse: `strptime`'s `\d` is taken as an ASCII digit, where on a Python `str` it matches any Unicode decimal digit; the names parsed are ones the scripts wrote, in ASCII.
- BackupManager.Token: the pattern's `\d` is taken as an ASCII digit, where on a Python `str` it matches any Unicode decimal digit; ZFS snapshot names are ASCII in practice.

## Findings

| source | as written | input that shows it | evidently intended | confidence | as-written member | corrected member |
|---|---|---|---|---|---|---|
| functions/backup_restore/database/backup.py:108-126 | after a dump that exited 0, `result` is the dict `_execute_backup_command` returned with `success` already `True`; when the immich rewrite or the compression then raises, the handler only replaces `result["message"]`, so the backup is reported a success with no compressed dump, and the app never reaches the failure summary | a non-immich app whose dump exits 0 and whose compression raises (say, the disk is full) | a failed rewrite or compression is reported as a failure and is listed in the summary | not executed | DatabaseBackup.DumpOnPod | DatabaseBackup.DumpOnPodChecked |
| functions/backup_restore/charts/backup_create.py:151-199 | when `metadata.json` cannot be opened or parsed, the handler passes the unbound `metadata` to `_handle_creation_error`, so `create` raises `UnboundLocalError` | a metadata file that does not parse | an unreadable metadata file gives a failed result like any other error | not executed | BackupCreate.UnreadableMetadataRaises | BackupCreate.CreateChecked |
| functions/backup_restore/charts/backup_create.py:224-229 | `_handle_creation_error` tests `'release_name' in metadata` on any truthy metadata, which raises `TypeError` for a number or `true`, and indexes a string or list that contains `release_name` with a string, which raises `TypeError` too; `create` then raises instead of returning its result | a `metadata.json` holding `5` | the error handler reports the failure whatever the metadata holds, and `create` returns a failed result | not executed; only reachable through `create` called directly, since the restore reads metadata that is a dict | BackupCreate.HandlerRaisesOnScalars | BackupCreate.CreateChecked |
| functions/backup_restore/database/restore.py:245-275 | in text mode (the immich `psql` restore) stderr is a `str`, so `b'deadlock detected' in stderr` raises `TypeError` at the first failed attempt and a deadlock is never retried | an immich restore of an uncompressed dump whose first attempt fails; as written no immich restore gets that far, because the drop before it fails first (`DatabaseRestore.ImmichNeverRestores`), so this defect shows once the drop is given a database | the deadlock test reads stderr in either mode and a deadlock is retried | not executed; latent behind the failing drop | DatabaseRestore.TextModeDeadlockRaises | DatabaseRestore.ExecuteRestoreDecoded |
| functions/backup_restore/restore/restore_base.py:217-226 | `critical_failures.append(app_name, reason)` passes two arguments to `list.append`, so the plan raises `TypeError` at the first app missing a file, before the app leaves the index | a single-app restore that names an app the backup holds no record for; a parsed index only holds apps with both files, so the full restore never reaches this line (`RestoreAll.PlanOfReleases`) | the app is marked critical, dropped from the index, and the plan goes on | not executed | Restore.PlanAsWrittenRaises | Restore.PlanMeans |
| functions/backup_restore/restore/restore_single.py:28-32 | `self.restore_snapshots(app_name)` is not defined, so after its volumes are rolled back every app gets `Failed to rollback volume snapshots` | any single-app restore | an app whose volumes roll back cleanly records nothing | not executed | RestoreSingle.RollbackAsWrittenFails | RestoreSingle.RollbackAllClean |

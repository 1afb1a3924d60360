/**
 * `ChartVersionBackup`, `ChartVersionRestore` and `ChartVersionUtils`:
 * archiving an app's chart version directory as `<version>.tar.gz`,
 * unpacking it back under the releases tree, and deleting a version. A
 * directory is given by its state (absent, a plain file, or a directory and
 * its entry names); whether archiving, extracting or deleting succeeds is an
 * input.
 */
module ChartVersion {
  import opened Wrappers
  import opened Strings
  import opened Paths

  const TarGz := ".tar.gz"

  datatype DirState = Absent | PlainFile | Directory(entries: seq<string>)

  /** `/mnt/<pool>/ix-applications/releases/<app>/charts/<version>`. */
  function VersionDir(pool: string, app: string, version: string): string {
    "/mnt/" + pool + "/ix-applications/releases/" + app + "/charts/" + version
  }

  /** `backup_dir / f"{version}.tar.gz"`. */
  function ArchiveFile(backupDir: string, version: string): string {
    backupDir + "/" + version + TarGz
  }

  /** `_strip_tar_gz_extension`: the file's name without a trailing `.tar.gz`, or the whole name. */
  function StripTarGz(path: string): (r: string)
    ensures EndsWith(BaseName(path), TarGz) ==> r + TarGz == BaseName(path)
    ensures !EndsWith(BaseName(path), TarGz) ==> r == BaseName(path)
  {
    var name := BaseName(path);
    if EndsWith(name, TarGz) then
      assert name == name[..|name| - 7] + name[|name| - 7..];
      name[..|name| - 7]
    else name
  }

  /** The round trip: the archive of version `v` restores to version `v`. */
  lemma StripArchive(backupDir: string, version: string)
    requires '/' !in version
    ensures StripTarGz(ArchiveFile(backupDir, version)) == version
  {
    var name := version + TarGz;
    assert '/' !in TarGz;
    assert '/' !in name by {
      assert forall k :: 0 <= k < |name| ==> name[k] == (if k < |version| then version[k] else TarGz[k - |version|]);
    }
    assert ArchiveFile(backupDir, version) == backupDir + "/" + name;
    BaseNameOfChild(backupDir, name);
    assert name[|name| - 7..] == TarGz;
  }

  /** The directory `restore_to_chart_dir` unpacks a version archive into. */
  function RestoreTarget(pool: string, app: string, archive: string): string {
    VersionDir(pool, app, StripTarGz(archive))
  }

  /** A backup made for `version` restores into that version's directory. */
  lemma RestoreTargetOfBackup(pool: string, app: string, backupDir: string, version: string)
    requires '/' !in version
    ensures RestoreTarget(pool, app, ArchiveFile(backupDir, version)) == VersionDir(pool, app, version)
  {
    StripArchive(backupDir, version);
  }

  /**
   * `ChartVersionBackup.backup`: only an existing directory is archived;
   * the archive holds its entries under their own names. `None` is False.
   */
  function Backup(source: DirState, tarOk: bool): (archived: Option<seq<string>>)
    ensures archived.Some? <==> source.Directory? && tarOk
    ensures archived.Some? ==> archived.value == source.entries
  {
    if source.Directory? && tarOk then Some(source.entries) else None
  }

  /**
   * `_restore`: a missing target is created; an empty target receives the
   * archive's entries (a failed extraction is only logged); a non-empty one
   * is left as it is. A target that is a plain file makes `iterdir` raise.
   * The result is the new state of the target and whether it was extracted.
   */
  function Restore(target: DirState, archive: Option<seq<string>>): (r: Result<(DirState, bool)>)
    ensures r.Err? <==> target.PlainFile?
    ensures r.Ok? && r.value.1 ==> target.Absent? || target == Directory([])
    ensures r.Ok? && r.value.1 ==> archive.Some? && r.value.0 == Directory(archive.value)
    ensures target.Directory? && target.entries != [] ==> r == Ok((target, false))
    ensures r.Ok? ==> r.value.0.Directory?
  {
    var dir := if target.Absent? then Directory([]) else target;
    if dir.PlainFile? then Err("Not a directory")
    else if dir.entries == [] then
      match archive
      case Some(entries) => Ok((Directory(entries), true))
      case None => Ok((dir, false))
    else Ok((dir, false))
  }

  /** A version backed up from a directory and restored into an empty place comes back with the same entries. */
  lemma BackupRestore(source: DirState, target: DirState)
    requires source.Directory? && (target.Absent? || target == Directory([]))
    ensures Restore(target, Backup(source, true)) == Ok((source, true))
  {
  }

  /** `ChartVersionUtils.delete`: an existing directory is removed when `rmtree` succeeds; anything else is left. */
  function Delete(versionDir: DirState, rmOk: bool): (r: DirState)
    ensures r.Absent? <==> versionDir.Absent? || (versionDir.Directory? && rmOk)
    ensures !r.Absent? ==> r == versionDir
  {
    if versionDir.Directory? && rmOk then Absent else versionDir
  }
}

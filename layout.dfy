/**
 * The layout of the working directory: each component of the cluster has
 * its own directory under the working directory, named after the archive
 * item that will hold it. `_path_dir_maybe_exists` checks such a directory
 * and, when told to, creates it.
 */
module Layout {
  import opened Wrappers
  import opened Disk
  import Archiver

  /** What to do when the directory is missing (`OnPathDirMissing`). */
  datatype OnPathDirMissing = Create | Error

  /**
   * Why `_path_dir_maybe_exists` raised: the path is missing under ERROR,
   * `mkdir` could not make it under CREATE (an ancestor is a file), or it is
   * not a directory.
   */
  datatype LayoutError = PathMissing(path: string) | CannotCreate(path: string) | NotADirectory(path: string)

  /** What one call does: its result and the directories afterwards. */
  datatype DirOutcome = DirOutcome(result: Result<string, LayoutError>, dirs: set<string>)

  /**
   * The behaviour of `_path_dir_maybe_exists` on `path`: a missing path
   * raises under ERROR and is created, with its parents, under CREATE,
   * unless an ancestor is a file; then anything that is not a directory
   * raises.
   */
  function MaybeExists(dirs: set<string>, files: map<string, string>, archives: map<string, Archive>,
                       path: string, policy: OnPathDirMissing): DirOutcome
  {
    var present := path in dirs || path in files || path in archives;
    if !present && policy == Error then DirOutcome(Err(PathMissing(path)), dirs)
    else if !present && !Makeable(files, archives, path) then DirOutcome(Err(CannotCreate(path)), dirs)
    else
      var after := if present then dirs else dirs + {path} + Ancestors(path);
      if path !in after then DirOutcome(Err(NotADirectory(path)), after)
      else DirOutcome(Ok(path), after)
  }

  /** The three ways the call ends, each with the state of the directories. */
  lemma MaybeExistsCases(dirs: set<string>, files: map<string, string>, archives: map<string, Archive>,
                         path: string, policy: OnPathDirMissing)
    ensures var o := MaybeExists(dirs, files, archives, path, policy);
      var present := path in dirs || path in files || path in archives;
      var made := !present && policy == Create && Makeable(files, archives, path);
      && (o.result.Ok? <==> path in dirs || made)
      && (o.result.Ok? ==> o.result.value == path && path in o.dirs)
      && (o.result == Err(PathMissing(path)) <==> !present && policy == Error)
      && (o.result == Err(CannotCreate(path)) <==> !present && policy == Create && !made)
      && (o.result == Err(NotADirectory(path)) <==> present && path !in dirs)
      && (o.dirs == if made then dirs + {path} + Ancestors(path) else dirs)
  {
  }

  /** Under ERROR the directories never change; under CREATE nothing is reported missing and no directory disappears. */
  lemma PolicyEffects(dirs: set<string>, files: map<string, string>, archives: map<string, Archive>, path: string)
    ensures MaybeExists(dirs, files, archives, path, Error).dirs == dirs
    ensures MaybeExists(dirs, files, archives, path, Create).result != Err(PathMissing(path))
    ensures dirs <= MaybeExists(dirs, files, archives, path, Create).dirs
  {
  }

  /** Once the call succeeded, calling again, under either policy, succeeds and changes nothing. */
  lemma MaybeExistsIdempotent(dirs: set<string>, files: map<string, string>, archives: map<string, Archive>,
                              path: string, first: OnPathDirMissing, second: OnPathDirMissing)
    requires MaybeExists(dirs, files, archives, path, first).result.Ok?
    ensures var after := MaybeExists(dirs, files, archives, path, first).dirs;
      MaybeExists(after, files, archives, path, second) == DirOutcome(Ok(path), after)
  {
  }

  /** `_path_dir_maybe_exists` on the working directory `workDir`. */
  method PathDirMaybeExists(disk: Disk, workDir: string, relative: string, policy: OnPathDirMissing)
    returns (r: Result<string, LayoutError>)
    modifies disk`dirs
    ensures DirOutcome(r, disk.dirs) == MaybeExists(old(disk.dirs), disk.files, disk.archives, PathJoin(workDir, relative), policy)
  {
    var path := PathJoin(workDir, relative);
    if !disk.Exists(path) {
      if policy == Error {
        return Err(PathMissing(path));
      }
      if policy == Create {
        var made := disk.MakeDirs(path);
        if made.Err? {
          return Err(CannotCreate(path));
        }
      }
    }
    if path !in disk.dirs {
      return Err(NotADirectory(path));
    }
    r := Ok(path);
  }

  /** The components that have a directory in the working directory. */
  datatype Component = S3 | Cassandra | Keycloak

  /** The archive item of each component in the current tree. */
  function ItemOf(c: Component): (item: Archiver.ArchiveItem)
    ensures item != Archiver.Metadata
  {
    match c
    case S3 => Archiver.Minio
    case Cassandra => Archiver.Cql
    case Keycloak => Archiver.Keycloak
  }

  /**
   * `_task_path_dir_and_archive_item` of the current tree: the directory
   * is the item's value, so the directory name and the item coincide.
   */
  function CurrentRelativePath(c: Component): string {
    ItemOf(c).Value()
  }

  /** `RELATIVE_PATH` of the legacy tree, which is also the item name it returns. */
  function LegacyRelativePath(c: Component): string {
    match c
    case S3 => "minio"
    case Cassandra => "cql"
    case Keycloak => "kc"
  }

  /** Both trees use the same directories and item names, one per component. */
  lemma RelativePathsAgree(c: Component, d: Component)
    ensures LegacyRelativePath(c) == CurrentRelativePath(c)
    ensures LegacyRelativePath(c) == LegacyRelativePath(d) <==> c == d
    ensures '/' !in LegacyRelativePath(c) && LegacyRelativePath(c) != Archiver.MetadataJson && LegacyRelativePath(c) != Archiver.MetadataTxt
  {
    Archiver.ArchiveItemValuesDistinct(ItemOf(c), ItemOf(d));
  }

  /** `RELATIVE_PATH_SCHEMA` and `RELATIVE_PATH_DATA`. */
  const SchemaPath: string := "cql/schema"
  const DataPath: string := "cql/data"

  /**
   * The schema and data directories lie inside the `cql` directory, so the
   * files written there end up in the `cql` item of the archive.
   */
  lemma CqlDirsInsideItem(workDir: string)
    ensures SchemaPath == CurrentRelativePath(Cassandra) + "/schema"
    ensures DataPath == CurrentRelativePath(Cassandra) + "/data"
    ensures IsUnder(PathJoin(workDir, CurrentRelativePath(Cassandra)), PathJoin(workDir, SchemaPath))
    ensures IsUnder(PathJoin(workDir, CurrentRelativePath(Cassandra)), PathJoin(workDir, DataPath))
    ensures PathJoin(workDir, CurrentRelativePath(Cassandra)) in Ancestors(PathJoin(workDir, SchemaPath))
  {
    var schema := PathJoin(workDir, SchemaPath);
    assert schema[..|workDir| + 4] == PathJoin(workDir, "cql");
    assert schema[|workDir| + 4] == '/';
    var data := PathJoin(workDir, DataPath);
    assert data[..|workDir| + 4] == PathJoin(workDir, "cql");
  }

  /**
   * `_task_path_dir_and_archive_item` with the given policy: the checked
   * directory of the component, and its archive item.
   */
  method PathDirAndArchiveItem(disk: Disk, workDir: string, c: Component, policy: OnPathDirMissing)
    returns (r: Result<(string, Archiver.ArchiveItem), LayoutError>)
    modifies disk`dirs
    ensures var o := MaybeExists(old(disk.dirs), disk.files, disk.archives, PathJoin(workDir, CurrentRelativePath(c)), policy);
      && disk.dirs == o.dirs
      && (r.Ok? <==> o.result.Ok?)
      && (r.Ok? ==> r.value == (o.result.value, ItemOf(c)))
      && (r.Err? ==> r.error == o.result.error)
  {
    var path := PathDirMaybeExists(disk, workDir, CurrentRelativePath(c), policy);
    if path.Err? {
      return Err(path.error);
    }
    r := Ok((path.value, ItemOf(c)));
  }

  /** The legacy form: the item is returned as its name. */
  method LegacyPathDirAndArchiveItem(disk: Disk, workDir: string, c: Component, policy: OnPathDirMissing)
    returns (r: Result<(string, string), LayoutError>)
    modifies disk`dirs
    ensures var o := MaybeExists(old(disk.dirs), disk.files, disk.archives, PathJoin(workDir, LegacyRelativePath(c)), policy);
      && disk.dirs == o.dirs
      && (r.Ok? <==> o.result.Ok?)
      && (r.Ok? ==> r.value == (o.result.value, LegacyRelativePath(c)))
      && (r.Err? ==> r.error == o.result.error)
  {
    var path := PathDirMaybeExists(disk, workDir, LegacyRelativePath(c), policy);
    if path.Err? {
      return Err(path.error);
    }
    r := Ok((path.value, LegacyRelativePath(c)));
  }
}

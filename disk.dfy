/**
 * The part of the local filesystem the tasks touch: the directories that
 * exist and the text files with their contents. Paths are strings joined
 * with "/".
 */
module Disk {
  import opened Wrappers

  /** `dir / name` */
  function PathJoin(dir: string, name: string): (r: string)
    ensures |r| == |dir| + 1 + |name| && r[|dir|] == '/'
    ensures r[..|dir|] == dir && r[|dir| + 1..] == name
  {
    dir + "/" + name
  }

  /** The proper ancestors of a path: every prefix that ends just before a "/". */
  function Ancestors(path: string): set<string> {
    set i | 0 < i < |path| && path[i] == '/' :: path[..i]
  }

  /**
   * `path.mkdir(parents=True, exist_ok=True)` can make `path`: neither it
   * nor any of its ancestors is a file or an archive.
   */
  predicate Makeable(files: map<string, string>, archives: map<string, Archive>, path: string) {
    path !in files && path !in archives && Ancestors(path) !! files.Keys && Ancestors(path) !! archives.Keys
  }

  /** `path` lies strictly below `dir`. */
  predicate IsUnder(dir: string, path: string) {
    |path| > |dir| + 1 && path[..|dir| + 1] == dir + "/"
  }

  lemma UnderIsJoin(dir: string, path: string)
    requires IsUnder(dir, path)
    ensures path == PathJoin(dir, path[|dir| + 1..])
  {
    assert path == path[..|dir| + 1] + path[|dir| + 1..];
  }

  /** An archive member: a directory, or a file with its text. */
  datatype Entry = DirEntry | FileEntry(text: string)

  /**
   * What one `archive.add(path, arcname=name)` puts in a tar archive: the
   * tree found at `path`, keyed by the path relative to it (`""` for `path`
   * itself).
   */
  datatype Block = Block(name: string, tree: map<string, Entry>)

  /** A compressed tar archive, as the sequence of its `add` calls. */
  type Archive = seq<Block>

  /** The paths strictly below `dir`, relative to it. */
  function Below(dirs: set<string>, files: map<string, string>, dir: string): set<string> {
    (set d | d in dirs && IsUnder(dir, d) :: d[|dir| + 1..]) + (set f | f in files && IsUnder(dir, f) :: f[|dir| + 1..])
  }

  /** The tree `tarfile` reads at `path`, or None when nothing exists there. */
  function Tree(dirs: set<string>, files: map<string, string>, path: string): (r: Option<map<string, Entry>>)
    ensures r.Some? <==> path in dirs || path in files
    ensures r.Some? ==> "" in r.value
    ensures path in files ==> r == Some(map["" := FileEntry(files[path])])
  {
    if path in files then Some(map["" := FileEntry(files[path])])
    else if path in dirs then
      Some(map r | r in Below(dirs, files, path) + {""} ::
        if r == "" then DirEntry
        else if PathJoin(path, r) in files then FileEntry(files[PathJoin(path, r)])
        else DirEntry)
    else None
  }

  class Disk {
    var dirs: set<string>
    var files: map<string, string>
    /** The tar archives on disk, by path. */
    var archives: map<string, Archive>

    constructor (dirs: set<string>, files: map<string, string>, archives: map<string, Archive>)
      ensures this.dirs == dirs && this.files == files && this.archives == archives
    {
      this.dirs := dirs;
      this.files := files;
      this.archives := archives;
    }

    /** Something, a directory, a file or an archive, exists at `path`. */
    predicate Exists(path: string)
      reads this
    {
      path in dirs || path in files || path in archives
    }

    /** `path.read_text()`; a missing file is an error carrying the path. */
    function ReadText(path: string): (r: Result<string, string>)
      reads this
      ensures r.Ok? <==> path in files
      ensures r.Ok? ==> r.value == files[path]
      ensures r.Err? ==> r.error == path
    {
      if path in files then Ok(files[path]) else Err(path)
    }

    /** `path.write_text(content)`: creates or replaces the file. */
    method WriteText(path: string, content: string)
      modifies this`files
      ensures files == old(files)[path := content]
    {
      files := files[path := content];
    }

    /**
     * `path.mkdir(parents=True, exist_ok=True)`: makes the path and its
     * missing ancestors; it raises, making nothing, when the path or one of
     * its ancestors is a file (`FileExistsError`, `NotADirectoryError`).
     */
    method MakeDirs(path: string) returns (r: Result<(), string>)
      modifies this`dirs
      ensures r.Ok? <==> Makeable(files, archives, path)
      ensures r.Err? ==> r.error == path
      ensures dirs == if r.Ok? then old(dirs) + {path} + Ancestors(path) else old(dirs)
    {
      if !Makeable(files, archives, path) {
        return Err(path);
      }
      dirs := dirs + {path} + Ancestors(path);
      r := Ok(());
    }

    /** `path.unlink()`: removes the file or archive at `path`. */
    method Unlink(path: string)
      modifies this`files, this`archives
      ensures files == old(files) - {path} && archives == old(archives) - {path}
    {
      files := files - {path};
      archives := archives - {path};
    }
  }
}

/**
 * The setup task of the three generations: it prepares the Keycloak
 * status file and script (always in the current tree, when details are
 * given in the legacy tree, never in the oldest `TaskSetup`), then
 * downloads the latest or the named archive from Google Drive, extracts
 * the chosen items into the working directory and deletes the download.
 */
module SetupTask {
  import opened Wrappers
  import opened Disk
  import Archiver

  /** An archive listed on Google Drive. */
  datatype DriveArchive = DriveArchive(name: string, fileId: string)

  /**
   * Google Drive as the setup sees it: the listing, the id of each name
   * `get_archive_id` knows, and the archive each id downloads.
   */
  datatype Drive = Drive(listing: seq<DriveArchive>, ids: map<string, string>, contents: map<string, Archive>)

  /** Python's `<=` on strings: code point by code point, a proper prefix first. */
  predicate NameLe(a: string, b: string)
    decreases |a|
  {
    |a| == 0 || (|b| > 0 && (a[0] < b[0] || (a[0] == b[0] && NameLe(a[1..], b[1..]))))
  }

  lemma {:induction false} NameLeTotal(a: string, b: string)
    ensures NameLe(a, b) || NameLe(b, a)
    decreases |a|
  {
    if |a| > 0 && |b| > 0 && a[0] == b[0] {
      NameLeTotal(a[1..], b[1..]);
    }
  }

  lemma {:induction false} NameLeRefl(a: string)
    ensures NameLe(a, a)
    decreases |a|
  {
    if |a| > 0 {
      NameLeRefl(a[1..]);
    }
  }

  lemma {:induction false} NameLeTrans(a: string, b: string, c: string)
    requires NameLe(a, b) && NameLe(b, c)
    ensures NameLe(a, c)
    decreases |a|
  {
    if |a| > 0 && |b| > 0 && |c| > 0 && a[0] == b[0] && b[0] == c[0] {
      NameLeTrans(a[1..], b[1..], c[1..]);
    }
  }

  lemma {:induction false} NameLeAntisymmetric(a: string, b: string)
    requires NameLe(a, b) && NameLe(b, a)
    ensures a == b
    decreases |a|
  {
    if |a| > 0 {
      NameLeAntisymmetric(a[1..], b[1..]);
      assert a == [a[0]] + a[1..] && b == [b[0]] + b[1..];
    }
  }

  /**
   * `sorted(archives, key=name)[len(archives) - 1]`: the sort is stable,
   * so the last element is an archive of maximal name, and the last
   * listed among those of that name.
   */
  function Latest(listing: seq<DriveArchive>): (k: nat)
    requires |listing| > 0
    ensures k < |listing|
    ensures forall i :: 0 <= i < |listing| ==> NameLe(listing[i].name, listing[k].name)
    ensures forall i :: k < i < |listing| ==> listing[i].name != listing[k].name
    decreases |listing|
  {
    if |listing| == 1 then
      NameLeRefl(listing[0].name);
      0
    else
      var init := listing[..|listing| - 1];
      var j := Latest(init);
      var last := |listing| - 1;
      assert forall i :: 0 <= i < last ==> listing[i] == init[i];
      NameLeTotal(listing[j].name, listing[last].name);
      if NameLe(listing[j].name, listing[last].name) then
        NameLeRefl(listing[last].name);
        assert forall i :: 0 <= i < last ==> NameLe(listing[i].name, listing[last].name) by {
          forall i | 0 <= i < last ensures NameLe(listing[i].name, listing[last].name) {
            NameLeTrans(listing[i].name, listing[j].name, listing[last].name);
          }
        }
        last
      else
        assert listing[last].name != listing[j].name by {
          if listing[last].name == listing[j].name {
            NameLeRefl(listing[j].name);
          }
        }
        j
  }

  /** Only one archive is of maximal name and listed last among those of its name: the one `Latest` picks. */
  lemma LatestUnique(listing: seq<DriveArchive>, m: nat)
    requires m < |listing|
    requires forall i :: 0 <= i < |listing| ==> NameLe(listing[i].name, listing[m].name)
    requires forall i :: m < i < |listing| ==> listing[i].name != listing[m].name
    ensures m == Latest(listing)
  {
    var k := Latest(listing);
    NameLeAntisymmetric(listing[k].name, listing[m].name);
  }

  /** Which archive the setup downloads, if any. */
  datatype Choice = Skip | Use(id: string) | NotFound(name: string)

  /**
   * No name: the latest listed archive, or nothing at all when the
   * listing is empty. A name: its id, or none when Google Drive does not
   * know it.
   */
  function Choose(drive: Drive, archiveName: Option<string>): Choice {
    match archiveName
    case None => if |drive.listing| == 0 then Skip else Use(drive.listing[Latest(drive.listing)].fileId)
    case Some(name) => if name in drive.ids then Use(drive.ids[name]) else NotFound(name)
  }

  /**
   * Without a name, the setup downloads exactly the archive that is of
   * maximal name and listed last among those of that name.
   */
  lemma ChooseLatest(drive: Drive, m: nat)
    requires m < |drive.listing|
    requires forall i :: 0 <= i < |drive.listing| ==> NameLe(drive.listing[i].name, drive.listing[m].name)
    requires forall i :: m < i < |drive.listing| ==> drive.listing[i].name != drive.listing[m].name
    ensures Choose(drive, None) == Use(drive.listing[m].fileId)
  {
    LatestUnique(drive.listing, m);
  }

  /** `Path.parent`: the path up to its last "/", or "." when it has none. */
  function Parent(path: string): (r: string)
    ensures r == "." || r == "/" || (|r| < |path| && path[|r|] == '/' && r == path[..|r|])
    decreases |path|
  {
    if |path| == 0 then "."
    else if path[|path| - 1] == '/' then (if |path| == 1 then "/" else path[..|path| - 1])
    else Parent(path[..|path| - 1])
  }

  /** The Keycloak status file and the script the Keycloak container runs. */
  datatype KeycloakDetails = KeycloakDetails(statusFile: string, script: string)

  /** The line the status file is set to: `KeycloakStatus.SETUP` and a newline. */
  const SetupStatus: string := "SETUP\n"

  /** Where the archive is downloaded. */
  function DownloadPath(workDir: string): string {
    PathJoin(workDir, "setup_archive.tgz")
  }

  /** The directories and files once each item in turn is extracted from `a`. */
  function ExtractAll(dirs: set<string>, files: map<string, string>, workDir: string, a: Archive, items: seq<string>): (set<string>, map<string, string>)
    decreases |items|
  {
    if items == [] then (dirs, files)
    else
      var (d, f) := ExtractAll(dirs, files, workDir, a, items[..|items| - 1]);
      var selected := Archiver.Selected(Archiver.Members(a), items[|items| - 1]);
      (d + Archiver.ExtractedDirs(workDir, selected), f + Archiver.ExtractedFiles(workDir, selected))
  }

  /** One more item extracts that item's members on top of what the earlier items gave. */
  lemma ExtractAllStep(dirs: set<string>, files: map<string, string>, workDir: string, a: Archive, items: seq<string>, i: nat)
    requires i < |items|
    ensures var (d, f) := ExtractAll(dirs, files, workDir, a, items[..i]);
      var selected := Archiver.Selected(Archiver.Members(a), items[i]);
      ExtractAll(dirs, files, workDir, a, items[..i + 1])
        == (d + Archiver.ExtractedDirs(workDir, selected), f + Archiver.ExtractedFiles(workDir, selected))
  {
    assert items[..i + 1][..i] == items[..i];
  }

  /** Extraction only adds: every directory stays, and every file stays unless an extracted file of that path replaces it. */
  lemma {:induction false} ExtractAllAdds(dirs: set<string>, files: map<string, string>, workDir: string, a: Archive, items: seq<string>)
    ensures var (d, f) := ExtractAll(dirs, files, workDir, a, items);
      dirs <= d && files.Keys <= f.Keys
    decreases |items|
  {
    if items != [] {
      ExtractAllAdds(dirs, files, workDir, a, items[..|items| - 1]);
    }
  }

  /**
   * Every file member of the last extracted item lands at
   * `workDir/<member name>` with its text.
   */
  lemma ExtractAllLastItem(dirs: set<string>, files: map<string, string>, workDir: string, a: Archive, items: seq<string>, n: string)
    requires items != []
    requires var selected := Archiver.Selected(Archiver.Members(a), items[|items| - 1]);
      n in selected && selected[n].FileEntry? && n != ""
    ensures var (d, f) := ExtractAll(dirs, files, workDir, a, items);
      PathJoin(workDir, n) in f && f[PathJoin(workDir, n)] == Archiver.Selected(Archiver.Members(a), items[|items| - 1])[n].text
  {
    Archiver.ExtractedFilesAt(workDir, Archiver.Selected(Archiver.Members(a), items[|items| - 1]), n);
  }

  /** Why a setup stopped. */
  datatype SetupError = ArchiveNotFound(name: string) | DownloadFailed(id: string) | StatusDirFailed(path: string)

  /**
   * The whole effect of a setup on the directories, files and archives it
   * starts from, and how it ends.
   */
  datatype Effect = Effect(dirs: set<string>, files: map<string, string>, archives: map<string, Archive>, result: Result<(), SetupError>)

  /** The effect of downloading `id`, extracting the items and deleting the download. */
  function FromArchive(dirs: set<string>, files: map<string, string>, archives: map<string, Archive>,
                       drive: Drive, workDir: string, items: seq<string>, id: string): Effect {
    if id !in drive.contents then Effect(dirs, files, archives, Err(DownloadFailed(id)))
    else
      var path := DownloadPath(workDir);
      var (d, f) := ExtractAll(dirs, files, workDir, drive.contents[id], items);
      Effect(d, f - {path}, archives - {path}, Ok(()))
  }

  /** The Keycloak step raises: the status file's directory cannot be made, a file being in the way. */
  predicate KeycloakBlocked(files: map<string, string>, archives: map<string, Archive>, details: Option<KeycloakDetails>) {
    details.Some? && !Makeable(files, archives, Parent(details.value.statusFile))
  }

  /** The effect of preparing Keycloak's status file and script, when it does not raise. */
  function KeycloakDirs(dirs: set<string>, details: Option<KeycloakDetails>): set<string> {
    if details.None? then dirs
    else dirs + {Parent(details.value.statusFile)} + Ancestors(Parent(details.value.statusFile))
  }

  function KeycloakFiles(files: map<string, string>, details: Option<KeycloakDetails>, exportScript: string): map<string, string> {
    if details.None? then files
    else files[details.value.statusFile := SetupStatus][details.value.script := exportScript]
  }

  /** The download is gone once a setup succeeds. */
  lemma DownloadRemoved(dirs: set<string>, files: map<string, string>, archives: map<string, Archive>,
                        drive: Drive, workDir: string, items: seq<string>, id: string)
    requires FromArchive(dirs, files, archives, drive, workDir, items, id).result.Ok?
    ensures var e := FromArchive(dirs, files, archives, drive, workDir, items, id);
      DownloadPath(workDir) !in e.files && DownloadPath(workDir) !in e.archives
  {
  }

  class SetupTask {
    const workDir: string
    const drive: Drive
    const disk: Disk
    /** The item names to extract, in order. */
    const items: seq<string>
    /** Where the Keycloak status file and script go, when Keycloak is prepared. */
    const keycloak: Option<KeycloakDetails>
    const archiveName: Option<string>
    /** The text of the `KC_EXPORT_SH` asset. */
    const exportScript: string
    /** Whether the "No archive found" warning was given. */
    var skipped: bool

    /** The current `Task`: Keycloak is always prepared; the items are `ArchiveItem`s, extracted by value. */
    constructor Current(workDir: string, drive: Drive, disk: Disk, items: seq<Archiver.ArchiveItem>,
                        details: KeycloakDetails, archiveName: Option<string>, exportScript: string)
      ensures this.workDir == workDir && this.drive == drive && this.disk == disk
      ensures |this.items| == |items| && forall i :: 0 <= i < |items| ==> this.items[i] == items[i].Value()
      ensures keycloak == Some(details) && this.archiveName == archiveName && this.exportScript == exportScript
      ensures !skipped
    {
      this.workDir := workDir;
      this.drive := drive;
      this.disk := disk;
      this.items := seq(|items|, i requires 0 <= i < |items| => items[i].Value());
      keycloak := Some(details);
      this.archiveName := archiveName;
      this.exportScript := exportScript;
      skipped := false;
    }

    /** The legacy `Task`: Keycloak is prepared only when details are given. */
    constructor Legacy(workDir: string, drive: Drive, disk: Disk, items: seq<string>,
                       details: Option<KeycloakDetails>, archiveName: Option<string>, exportScript: string)
      ensures this.workDir == workDir && this.drive == drive && this.disk == disk && this.items == items
      ensures keycloak == details && this.archiveName == archiveName && this.exportScript == exportScript
      ensures !skipped
    {
      this.workDir := workDir;
      this.drive := drive;
      this.disk := disk;
      this.items := items;
      keycloak := details;
      this.archiveName := archiveName;
      this.exportScript := exportScript;
      skipped := false;
    }

    /** The oldest `TaskSetup`: no Keycloak step at all. */
    constructor Oldest(workDir: string, drive: Drive, disk: Disk, items: seq<string>, archiveName: Option<string>)
      ensures this.workDir == workDir && this.drive == drive && this.disk == disk && this.items == items
      ensures keycloak == None && this.archiveName == archiveName
      ensures !skipped
    {
      this.workDir := workDir;
      this.drive := drive;
      this.disk := disk;
      this.items := items;
      keycloak := None;
      this.archiveName := archiveName;
      exportScript := "";
      skipped := false;
    }

    /**
     * The Keycloak block of `run`: the status file's parent, the status,
     * then the export script; nothing is written when the parent cannot be
     * made.
     */
    method PrepareKeycloak() returns (r: Result<(), SetupError>)
      modifies disk`dirs, disk`files
      ensures r.Err? <==> KeycloakBlocked(old(disk.files), disk.archives, keycloak)
      ensures r.Err? ==>
        && r == Err(StatusDirFailed(Parent(keycloak.value.statusFile)))
        && disk.dirs == old(disk.dirs) && disk.files == old(disk.files)
      ensures r.Ok? ==>
        && disk.dirs == KeycloakDirs(old(disk.dirs), keycloak)
        && disk.files == KeycloakFiles(old(disk.files), keycloak, exportScript)
    {
      r := Ok(());
      if keycloak.Some? {
        var made := disk.MakeDirs(Parent(keycloak.value.statusFile));
        if made.Err? {
          return Err(StatusDirFailed(made.error));
        }
        disk.WriteText(keycloak.value.statusFile, SetupStatus);
        disk.WriteText(keycloak.value.script, exportScript);
      }
    }

    /** The loop of `__setup_archive`: each item in turn is extracted from the download. */
    method ExtractItems(extractor: Archiver.ArchiveExtractor, ghost a: Archive)
      requires extractor.pathArchive in disk.archives && disk.archives[extractor.pathArchive] == a
      requires extractor.workDir == workDir
      modifies disk`dirs, disk`files
      ensures (disk.dirs, disk.files) == ExtractAll(old(disk.dirs), old(disk.files), workDir, a, items)
    {
      ghost var dirs0, files0 := disk.dirs, disk.files;
      var i := 0;
      while i < |items|
        invariant 0 <= i <= |items|
        invariant disk.archives == old(disk.archives)
        invariant disk.dirs == ExtractAll(dirs0, files0, workDir, a, items[..i]).0
        invariant disk.files == ExtractAll(dirs0, files0, workDir, a, items[..i]).1
      {
        ExtractAllStep(dirs0, files0, workDir, a, items, i);
        var done := extractor.ExtractDirItem(items[i], disk);
        i := i + 1;
      }
      assert items[..i] == items;
    }

    /** `__setup_archive`: download, extract each item in order, delete the download. */
    method SetupArchive(id: string) returns (r: Result<(), SetupError>)
      modifies disk
      ensures var e := FromArchive(old(disk.dirs), old(disk.files), old(disk.archives), drive, workDir, items, id);
        && disk.dirs == e.dirs && disk.files == e.files && disk.archives == e.archives && r == e.result
    {
      if id !in drive.contents {
        return Err(DownloadFailed(id));
      }
      var path := DownloadPath(workDir);
      var a := drive.contents[id];
      disk.archives := disk.archives[path := a];
      var extractor := new Archiver.ArchiveExtractor(path, workDir);
      ExtractItems(extractor, a);
      disk.Unlink(path);
      r := Ok(());
    }

    /** `run`: a Keycloak step that raises ends the setup with the disk unchanged. */
    method Run() returns (r: Result<(), SetupError>)
      modifies disk, this`skipped
      ensures KeycloakBlocked(old(disk.files), old(disk.archives), keycloak) ==>
        && !skipped && r == Err(StatusDirFailed(Parent(keycloak.value.statusFile)))
        && disk.dirs == old(disk.dirs) && disk.files == old(disk.files) && disk.archives == old(disk.archives)
      ensures !KeycloakBlocked(old(disk.files), old(disk.archives), keycloak) ==>
        var d1, f1 := KeycloakDirs(old(disk.dirs), keycloak), KeycloakFiles(old(disk.files), keycloak, exportScript);
        match Choose(drive, archiveName)
        case Skip =>
          && skipped && r == Ok(())
          && disk.dirs == d1 && disk.files == f1 && disk.archives == old(disk.archives)
        case NotFound(name) =>
          && !skipped && r == Err(ArchiveNotFound(name))
          && disk.dirs == d1 && disk.files == f1 && disk.archives == old(disk.archives)
        case Use(id) =>
          var e := FromArchive(d1, f1, old(disk.archives), drive, workDir, items, id);
          && !skipped && r == e.result
          && disk.dirs == e.dirs && disk.files == e.files && disk.archives == e.archives
    {
      skipped := false;
      r := PrepareKeycloak();
      if r.Err? {
        return;
      }
      match Choose(drive, archiveName)
      case Skip =>
        skipped := true;
        r := Ok(());
      case NotFound(name) =>
        r := Err(ArchiveNotFound(name));
      case Use(id) =>
        r := SetupArchive(id);
    }
  }
}

/**
 * The archive container. An `ArchiveCreator` collects named items (a path
 * each, a later binding replacing an earlier one) and a metadata document;
 * `finalize` writes the metadata file, adds the items in the order their
 * names were first bound, then adds the metadata file, as one compressed
 * tar archive. An `ArchiveExtractor` extracts the members under `"<item>/"`.
 * The current tree names the metadata member "metadata.json", the legacy
 * tree "metadata.txt".
 *
 * The archive's UUID (`uuid.uuid4()`) and the JSON text of the metadata
 * (`json.dump`) are parameters.
 */
module Archiver {
  import opened Wrappers
  import opened Disk
  import opened JsonValues

  /** `ArchiveItem.METADATA.value` in the current tree. */
  const MetadataJson: string := "metadata.json"
  /** `Archiver.METADATA_FILENAME` in the legacy tree. */
  const MetadataTxt: string := "metadata.txt"

  /** `ArchiveItem`: the names of the archive's items. */
  datatype ArchiveItem = Minio | Cql | Keycloak | Metadata
  {
    function Value(): (r: string)
      ensures r != "" && '/' !in r
    {
      match this
      case Minio => "minio"
      case Cql => "cql"
      case Keycloak => "kc"
      case Metadata => MetadataJson
    }
  }

  /** The item values are pairwise distinct. */
  lemma ArchiveItemValuesDistinct(a: ArchiveItem, b: ArchiveItem)
    ensures a.Value() == b.Value() <==> a == b
  {
    if a != b {
      var va, vb := a.Value(), b.Value();
      assert va[0] != vb[0] || |va| != |vb|;
    }
  }

  /** The member name of the entry at relative path `r` of an item named `name`. */
  function MemberName(name: string, r: string): string {
    if r == "" then name else name + "/" + r
  }

  /** The relative path of member `n` in an item named `name`. */
  function RelOf(name: string, n: string): string {
    if n == name then "" else if |n| > |name| then n[|name| + 1..] else ""
  }

  lemma RelOfMemberName(name: string, r: string)
    ensures RelOf(name, MemberName(name, r)) == r
  {
    if r != "" {
      assert MemberName(name, r)[|name| + 1..] == r;
    }
  }

  /** The members one `add` call contributes, by member name. */
  function BlockMembers(b: Block): map<string, Entry> {
    map n | n in (set r | r in b.tree :: MemberName(b.name, r)) && RelOf(b.name, n) in b.tree :: b.tree[RelOf(b.name, n)]
  }

  /** Every entry of the tree is a member under its member name, with that entry. */
  lemma EntryIsMember(b: Block, r: string)
    requires r in b.tree
    ensures MemberName(b.name, r) in BlockMembers(b) && BlockMembers(b)[MemberName(b.name, r)] == b.tree[r]
  {
    RelOfMemberName(b.name, r);
  }

  /** Every member is the member name of an entry of the tree. */
  lemma MemberIsEntry(b: Block, n: string)
    requires n in BlockMembers(b)
    ensures RelOf(b.name, n) in b.tree && n == MemberName(b.name, RelOf(b.name, n))
  {
    var r :| r in b.tree && n == MemberName(b.name, r);
    RelOfMemberName(b.name, r);
  }

  /** The archive's members by name; a later member of the same name overrides an earlier one on extraction. */
  function Members(a: Archive): map<string, Entry>
    decreases |a|
  {
    if a == [] then map[] else Members(a[..|a| - 1]) + BlockMembers(a[|a| - 1])
  }

  predicate StartsWith(s: string, p: string) {
    |p| <= |s| && s[..|p|] == p
  }

  /** `[m for m in members if m.name.startswith(f"{item}/")]` */
  function Selected(members: map<string, Entry>, item: string): map<string, Entry> {
    map n | n in members && StartsWith(n, item + "/") :: members[n]
  }

  /** Every item name is non-empty and holds no "/". */
  predicate PlainNames(a: Archive) {
    forall i :: 0 <= i < |a| ==> a[i].name != "" && '/' !in a[i].name
  }

  /** Two "/"-free names followed by "/" start alike only if they are equal. */
  lemma FirstSlash(x: string, y: string, r: string, s: string)
    requires '/' !in x && '/' !in y && x + "/" + r == y + "/" + s
    ensures x == y
  {
    var n := x + "/" + r;
    assert forall i :: 0 <= i < |x| ==> n[i] == x[i];
    assert forall i :: 0 <= i < |y| ==> n[i] == y[i];
    assert n[|x|] == '/' && n[|y|] == '/';
    assert x == n[..|x|] && y == n[..|y|];
  }

  /** A "/"-free name does not start with `item + "/"`. */
  lemma PlainNameNotUnder(name: string, item: string)
    requires '/' !in name
    ensures !StartsWith(name, item + "/")
  {
    assert |item| < |name| ==> name[|item|] in name;
  }

  /** A member that starts with `item + "/"` belongs to an item named `item` and lies strictly inside it. */
  lemma MemberUnderItem(b: Block, n: string, item: string)
    requires b.name != "" && '/' !in b.name && '/' !in item
    requires n in BlockMembers(b) && StartsWith(n, item + "/")
    ensures b.name == item && RelOf(b.name, n) != ""
  {
    MemberIsEntry(b, n);
    PlainNameNotUnder(b.name, item);
    var r := RelOf(b.name, n);
    if r != "" {
      var rest := n[|item| + 1..];
      assert n == item + "/" + rest;
      FirstSlash(b.name, item, r, rest);
    }
  }

  /** Members of the item named `item`, strictly inside it. */
  function Inside(item: string, tree: map<string, Entry>): map<string, Entry> {
    BlockMembers(Block(item, tree - {""}))
  }

  /** What lies inside an item is its tree without its root, under `item/`. */
  lemma InsideAt(item: string, tree: map<string, Entry>, r: string)
    requires r != ""
    ensures item + "/" + r in Inside(item, tree) <==> r in tree
    ensures r in tree ==> Inside(item, tree)[item + "/" + r] == tree[r]
  {
    var inner := Block(item, tree - {""});
    if r in tree {
      EntryIsMember(inner, r);
    }
    if item + "/" + r in Inside(item, tree) {
      MemberIsEntry(inner, item + "/" + r);
      RelOfMemberName(item, r);
    }
  }

  /** Every member inside an item is named `item/<relative path>` for a non-empty relative path. */
  lemma InsideMember(item: string, tree: map<string, Entry>, n: string)
    requires n in Inside(item, tree)
    ensures StartsWith(n, item + "/") && n == item + "/" + RelOf(item, n) && RelOf(item, n) != ""
  {
    MemberIsEntry(Block(item, tree - {""}), n);
  }

  /** An item contributes to the selection of `item` only if it is named `item`, and then only what lies inside it. */
  lemma SelectedBlock(b: Block, item: string)
    requires b.name != "" && '/' !in b.name && '/' !in item
    ensures b.name != item ==> Selected(BlockMembers(b), item) == map[]
    ensures b.name == item ==> Selected(BlockMembers(b), item) == Inside(item, b.tree)
  {
    forall n | n in Selected(BlockMembers(b), item)
      ensures b.name == item && n in Inside(item, b.tree) && BlockMembers(b)[n] == Inside(item, b.tree)[n]
    {
      MemberUnderItem(b, n, item);
      var r := RelOf(item, n);
      MemberIsEntry(b, n);
      InsideAt(item, b.tree, r);
    }
    if b.name == item {
      forall n | n in Inside(item, b.tree)
        ensures n in Selected(BlockMembers(b), item)
      {
        InsideMember(item, b.tree, n);
        EntryIsMember(b, RelOf(item, n));
      }
    }
  }

  /** The selection distributes over the union of two member maps. */
  lemma SelectedUnion(m1: map<string, Entry>, m2: map<string, Entry>, item: string)
    ensures Selected(m1 + m2, item) == Selected(m1, item) + Selected(m2, item)
  {
  }

  /** With no item named `item`, nothing is selected. */
  lemma {:induction false} NothingSelected(a: Archive, item: string)
    requires PlainNames(a) && '/' !in item
    requires forall j :: 0 <= j < |a| ==> a[j].name != item
    ensures Selected(Members(a), item) == map[]
    decreases |a|
  {
    if a != [] {
      var init := a[..|a| - 1];
      assert forall i :: 0 <= i < |init| ==> init[i] == a[i];
      NothingSelected(init, item);
      SelectedUnion(Members(init), BlockMembers(a[|a| - 1]), item);
      SelectedBlock(a[|a| - 1], item);
    }
  }

  /**
   * Extracting `item` from an archive whose item names are plain, with
   * exactly one item named `item`, gives back exactly the entries strictly
   * inside that item, each under `item/<relative path>`; the item's own
   * entry and every other item are left out.
   */
  lemma {:induction false} ExtractRoundTrip(a: Archive, k: nat, item: string)
    requires PlainNames(a) && k < |a| && a[k].name == item
    requires forall j :: 0 <= j < |a| && j != k ==> a[j].name != item
    ensures Selected(Members(a), item) == Inside(item, a[k].tree)
    decreases |a|
  {
    var init := a[..|a| - 1];
    assert forall i :: 0 <= i < |init| ==> init[i] == a[i];
    if k == |a| - 1 {
      NothingSelected(init, item);
      SelectedLast(a, item);
    } else {
      ExtractRoundTrip(init, k, item);
      SelectedLast(a, item);
    }
  }

  /** The selection from a non-empty archive: what its last item adds to the selection from the items before. */
  lemma SelectedLast(a: Archive, item: string)
    requires PlainNames(a) && |a| > 0 && '/' !in item
    ensures var init, last := a[..|a| - 1], a[|a| - 1];
      && (last.name != item ==> Selected(Members(a), item) == Selected(Members(init), item))
      && (last.name == item && Selected(Members(init), item) == map[] ==> Selected(Members(a), item) == Inside(item, last.tree))
  {
    var init, last := a[..|a| - 1], a[|a| - 1];
    SelectedUnion(Members(init), BlockMembers(last), item);
    SelectedBlock(last, item);
    UnionEmpty(Selected(Members(init), item), Selected(BlockMembers(last), item));
  }

  lemma UnionEmpty<K, V>(m1: map<K, V>, m2: map<K, V>)
    ensures m2 == map[] ==> m1 + m2 == m1
    ensures m1 == map[] ==> m1 + m2 == m2
  {
  }



  /** The result of adding the named items in order: the blocks added, and the first missing path, if any. */
  datatype Built = Built(blocks: seq<Block>, missing: Option<string>)

  /** What `tarfile` finds at each path of the disk. */
  function Lookup(dirs: set<string>, files: map<string, string>): string -> Option<map<string, Entry>> {
    p => Tree(dirs, files, p)
  }

  /** The loop of `finalize` over the items, on the disk as it is once the metadata file is written. */
  function ItemBlocks(look: string -> Option<map<string, Entry>>, names: seq<string>, paths: map<string, string>): Built
    requires forall n :: n in names ==> n in paths
    decreases |names|
  {
    if names == [] then Built([], None)
    else
      var prev := ItemBlocks(look, names[..|names| - 1], paths);
      var name := names[|names| - 1];
      if prev.missing.Some? then prev
      else
        match look(paths[name])
        case None => Built(prev.blocks, Some(paths[name]))
        case Some(tree) => Built(prev.blocks + [Block(name, tree)], None)
  }

  /** Every item path exists. */
  predicate AllFound(look: string -> Option<map<string, Entry>>, names: seq<string>, paths: map<string, string>)
    requires forall n :: n in names ==> n in paths
  {
    forall i :: 0 <= i < |names| ==> look(paths[names[i]]).Some?
  }

  /** The item loop completes exactly when every item path exists. */
  lemma {:induction false} ItemBlocksComplete(look: string -> Option<map<string, Entry>>, names: seq<string>, paths: map<string, string>)
    requires forall n :: n in names ==> n in paths
    ensures ItemBlocks(look, names, paths).missing.None? <==> AllFound(look, names, paths)
    decreases |names|
  {
    if names != [] {
      var init := names[..|names| - 1];
      assert forall n :: n in init ==> n in names;
      ItemBlocksComplete(look, init, paths);
      var lastFound := look(paths[names[|names| - 1]]).Some?;
      assert AllFound(look, names, paths) <==> AllFound(look, init, paths) && lastFound by {
        assert forall i :: 0 <= i < |init| ==> names[i] == init[i];
      }
    }
  }

  /** When every path exists, one block per item, in the order of the names, each holding the tree at the item's path. */
  lemma {:induction false} ItemBlocksInOrder(look: string -> Option<map<string, Entry>>, names: seq<string>, paths: map<string, string>)
    requires forall n :: n in names ==> n in paths
    requires ItemBlocks(look, names, paths).missing.None?
    ensures |ItemBlocks(look, names, paths).blocks| == |names|
    ensures forall i :: 0 <= i < |names| ==> ItemBlocks(look, names, paths).blocks[i].name == names[i]
    ensures forall i :: 0 <= i < |names| ==> look(paths[names[i]]) == Some(ItemBlocks(look, names, paths).blocks[i].tree)
    decreases |names|
  {
    if names != [] {
      var init := names[..|names| - 1];
      assert forall i :: 0 <= i < |init| ==> names[i] == init[i];
      ItemBlocksInOrder(look, init, paths);
    }
  }

  /**
   * `ArchiveCreator` (current) and `NewArchive` (legacy). `itemNames` keeps
   * the order in which names were first bound, as the `_items` dict does;
   * `itemPaths` maps each name to its latest path.
   */
  class ArchiveCreator {
    const workDir: string
    const jobUuid: string
    const archiveUuid: string
    const metadataName: string
    const dump: map<string, Json> -> string
    var itemNames: seq<string>
    var itemPaths: map<string, string>
    var metadata: map<string, Json>

    /** The names are distinct and are exactly the bound names. */
    predicate Valid()
      reads this
    {
      && (forall i, j :: 0 <= i < j < |itemNames| ==> itemNames[i] != itemNames[j])
      && (forall n :: n in itemNames ==> n in itemPaths)
      && (forall n :: n in itemPaths ==> n in itemNames)
    }

    /** A new archive: no item, and the metadata `{version: "v1", job, archive}`. */
    constructor (workDir: string, jobUuid: string, archiveUuid: string, metadataName: string, dump: map<string, Json> -> string)
      ensures Valid()
      ensures this.workDir == workDir && this.jobUuid == jobUuid && this.archiveUuid == archiveUuid
      ensures this.metadataName == metadataName && this.dump == dump
      ensures itemNames == [] && itemPaths == map[]
      ensures metadata == map["version" := JStr("v1"), "job" := JStr(jobUuid), "archive" := JStr(archiveUuid)]
    {
      this.workDir := workDir;
      this.jobUuid := jobUuid;
      this.archiveUuid := archiveUuid;
      this.metadataName := metadataName;
      this.dump := dump;
      itemNames := [];
      itemPaths := map[];
      metadata := map["version" := JStr("v1"), "job" := JStr(jobUuid), "archive" := JStr(archiveUuid)];
    }

    /** `work_dir / f"{job}_{archive}.tgz"` */
    function PathArchive(): string {
      PathJoin(workDir, jobUuid + "_" + archiveUuid + ".tgz")
    }

    /** `work_dir / f"{job}_{archive}_{metadata name}"` */
    function PathMetadataFile(): string {
      PathJoin(workDir, jobUuid + "_" + archiveUuid + "_" + metadataName)
    }

    /** `add_file_item` (and `add_dir_item`, which delegates to it): binds `item` to `path`, last binding winning. */
    method AddFileItem(path: string, item: string)
      requires Valid()
      modifies this`itemNames, this`itemPaths
      ensures Valid()
      ensures itemPaths == old(itemPaths)[item := path]
      ensures itemNames == if item in old(itemPaths) then old(itemNames) else old(itemNames) + [item]
    {
      if item !in itemPaths {
        itemNames := itemNames + [item];
      }
      itemPaths := itemPaths[item := path];
    }

    /** `add_dir_item` of the current tree, which takes an `ArchiveItem`. */
    method AddDirItem(path: string, item: ArchiveItem)
      requires Valid()
      modifies this`itemNames, this`itemPaths
      ensures Valid()
      ensures itemPaths == old(itemPaths)[item.Value() := path]
      ensures itemNames == if item.Value() in old(itemPaths) then old(itemNames) else old(itemNames) + [item.Value()]
    {
      AddFileItem(path, item.Value());
    }

    /** `add_metadata`: sets a key, replacing any earlier value, the initial ones included. */
    method AddMetadata(key: string, value: Json)
      modifies this`metadata
      ensures metadata == old(metadata)[key := value]
    {
      metadata := metadata[key := value];
    }

    /** The blocks `finalize` writes, on the disk as it is once the metadata file is written. */
    function FinalBlocks(dirs: set<string>, files: map<string, string>): Built
      requires Valid()
      reads this
    {
      ItemBlocks(Lookup(dirs, files), itemNames, itemPaths)
    }

    /**
     * `finalize`: writes the metadata file, then the archive: the items in
     * the order of their names, then the metadata file as `metadataName`.
     * A missing item path fails, leaving the archive with the items added
     * before it.
     */
    method Finalize(disk: Disk) returns (r: Result<string, string>)
      requires Valid()
      modifies disk`files, disk`archives
      ensures disk.files == old(disk.files)[PathMetadataFile() := dump(metadata)]
      ensures var built := FinalBlocks(disk.dirs, disk.files);
        && (r.Ok? <==> built.missing.None?)
        && (r.Ok? ==>
              && r.value == PathArchive()
              && disk.archives == old(disk.archives)[PathArchive() := built.blocks + [Block(metadataName, map["" := FileEntry(dump(metadata))])]])
        && (r.Err? ==>
              && r.error == built.missing.value
              && disk.archives == old(disk.archives)[PathArchive() := built.blocks])
    {
      disk.WriteText(PathMetadataFile(), dump(metadata));
      var look := Lookup(disk.dirs, disk.files);
      var blocks: seq<Block> := [];
      var i := 0;
      while i < |itemNames|
        invariant 0 <= i <= |itemNames|
        invariant ItemBlocks(look, itemNames[..i], itemPaths) == Built(blocks, None)
      {
        var name := itemNames[i];
        assert itemNames[..i + 1][..i] == itemNames[..i];
        var tree := look(itemPaths[name]);
        if tree.None? {
          ItemBlocksStopsAtMissing(look, itemNames, itemPaths, i + 1);
          disk.archives := disk.archives[PathArchive() := blocks];
          return Err(itemPaths[name]);
        }
        blocks := blocks + [Block(name, tree.value)];
        i := i + 1;
      }
      assert itemNames[..i] == itemNames;
      var meta := Tree(disk.dirs, disk.files, PathMetadataFile());
      blocks := blocks + [Block(metadataName, meta.value)];
      disk.archives := disk.archives[PathArchive() := blocks];
      r := Ok(PathArchive());
    }
  }

  /** Once an item is missing, the later items change nothing. */
  lemma {:induction false} ItemBlocksStopsAtMissing(look: string -> Option<map<string, Entry>>, names: seq<string>, paths: map<string, string>, k: nat)
    requires forall n :: n in names ==> n in paths
    requires 0 < k <= |names|
    requires ItemBlocks(look, names[..k], paths).missing.Some?
    ensures ItemBlocks(look, names, paths) == ItemBlocks(look, names[..k], paths)
    decreases |names| - k
  {
    if k < |names| {
      assert names[..k + 1][..k] == names[..k];
      ItemBlocksStopsAtMissing(look, names, paths, k + 1);
    } else {
      assert names[..k] == names;
    }
  }

  /**
   * The round trip of the archive: once `finalize` succeeded, extracting an
   * item from the archive it wrote gives back the tree found at the item's
   * path, below `item/`.
   */
  lemma FinalizeThenExtract(names: seq<string>, paths: map<string, string>, dirs: set<string>, files: map<string, string>,
                            metadataName: string, metaText: string, k: nat)
    requires forall i, j :: 0 <= i < j < |names| ==> names[i] != names[j]
    requires forall n :: n in names ==> n in paths
    requires forall n :: n in names ==> n != "" && '/' !in n && n != metadataName
    requires metadataName != "" && '/' !in metadataName
    requires ItemBlocks(Lookup(dirs, files), names, paths).missing.None? && k < |names|
    ensures Tree(dirs, files, paths[names[k]]).Some?
    ensures Selected(Members(ItemBlocks(Lookup(dirs, files), names, paths).blocks + [Block(metadataName, map["" := FileEntry(metaText)])]), names[k])
            == Inside(names[k], Tree(dirs, files, paths[names[k]]).value)
  {
    ItemBlocksInOrder(Lookup(dirs, files), names, paths);
    var blocks := ItemBlocks(Lookup(dirs, files), names, paths).blocks;
    var archive := blocks + [Block(metadataName, map["" := FileEntry(metaText)])];
    assert names[k] in names;
    assert PlainNames(archive) by {
      forall i | 0 <= i < |archive| ensures archive[i].name != "" && '/' !in archive[i].name {
        if i < |blocks| {
          assert archive[i] == blocks[i];
          assert names[i] in names;
        }
      }
    }
    forall j | 0 <= j < |archive| && j != k ensures archive[j].name != names[k] {
      if j < |blocks| {
        assert archive[j] == blocks[j];
      }
    }
    assert archive[k] == blocks[k];
    ExtractRoundTrip(archive, k, names[k]);
  }

  /** The files `extractall` writes below `workDir`. */
  function ExtractedFiles(workDir: string, selected: map<string, Entry>): map<string, string> {
    map q | q in (set n | n in selected && selected[n].FileEntry? :: PathJoin(workDir, n))
              && IsUnder(workDir, q) && q[|workDir| + 1..] in selected && selected[q[|workDir| + 1..]].FileEntry?
          :: selected[q[|workDir| + 1..]].text
  }

  /** The directories `extractall` creates below `workDir`: the directory members and every parent of a member. */
  function ExtractedDirs(workDir: string, selected: map<string, Entry>): set<string> {
    (set n | n in selected && selected[n].DirEntry? :: PathJoin(workDir, n))
    + (set n, a | n in selected && a in Ancestors(PathJoin(workDir, n)) :: a)
  }

  /** Every selected file lands at `workDir/<member name>` with its text. */
  lemma ExtractedFilesAt(workDir: string, selected: map<string, Entry>, n: string)
    requires n in selected && selected[n].FileEntry? && n != ""
    ensures PathJoin(workDir, n) in ExtractedFiles(workDir, selected)
    ensures ExtractedFiles(workDir, selected)[PathJoin(workDir, n)] == selected[n].text
  {
    var q := PathJoin(workDir, n);
    assert q[|workDir| + 1..] == n;
    assert q[..|workDir| + 1] == workDir + "/";
  }

  /** `ArchiveExtractor` (current) and `ExistingArchive` (legacy). */
  class ArchiveExtractor {
    const pathArchive: string
    const workDir: string

    constructor (pathArchive: string, workDir: string)
      ensures this.pathArchive == pathArchive && this.workDir == workDir
    {
      this.pathArchive := pathArchive;
      this.workDir := workDir;
    }

    /** `extract_dir_item`: extracts into the working directory the members under `item/`. */
    method ExtractDirItem(item: string, disk: Disk) returns (r: Result<(), string>)
      modifies disk`dirs, disk`files
      ensures pathArchive !in old(disk.archives) ==> r == Err(pathArchive) && disk.dirs == old(disk.dirs) && disk.files == old(disk.files)
      ensures pathArchive in old(disk.archives) ==>
        var selected := Selected(Members(disk.archives[pathArchive]), item);
        && r == Ok(())
        && disk.dirs == old(disk.dirs) + ExtractedDirs(workDir, selected)
        && disk.files == old(disk.files) + ExtractedFiles(workDir, selected)
    {
      if pathArchive !in disk.archives {
        return Err(pathArchive);
      }
      var selected := Selected(Members(disk.archives[pathArchive]), item);
      disk.dirs := disk.dirs + ExtractedDirs(workDir, selected);
      disk.files := disk.files + ExtractedFiles(workDir, selected);
      r := Ok(());
    }

    /** `metadata`: not implemented in the source, always the empty document. */
    function MetadataDocument(): (r: map<string, Json>)
      ensures |r| == 0
    {
      map[]
    }
  }

  /** `Archiver` of the current tree: the job UUID is given to each new archive. */
  class CurrentArchiver {
    const workDir: string

    constructor (workDir: string)
      ensures this.workDir == workDir
    {
      this.workDir := workDir;
    }

    /** `new_archive(job_uuid)` */
    method NewArchive(jobUuid: string, archiveUuid: string, dump: map<string, Json> -> string) returns (c: ArchiveCreator)
      ensures fresh(c) && c.Valid()
      ensures c.workDir == workDir && c.jobUuid == jobUuid && c.archiveUuid == archiveUuid && c.metadataName == MetadataJson
      ensures c.itemNames == [] && c.metadata == map["version" := JStr("v1"), "job" := JStr(jobUuid), "archive" := JStr(archiveUuid)]
    {
      c := new ArchiveCreator(workDir, jobUuid, archiveUuid, MetadataJson, dump);
    }

    /** `existing_archive(path_archive)` */
    method ExistingArchive(pathArchive: string) returns (e: ArchiveExtractor)
      ensures fresh(e) && e.pathArchive == pathArchive && e.workDir == workDir
    {
      e := new ArchiveExtractor(pathArchive, workDir);
    }
  }

  /** `Archiver` of the legacy tree: the job UUID is fixed when the archiver is built. */
  class LegacyArchiver {
    const workDir: string
    const jobUuid: string

    constructor (workDir: string, jobUuid: string)
      ensures this.workDir == workDir && this.jobUuid == jobUuid
    {
      this.workDir := workDir;
      this.jobUuid := jobUuid;
    }

    /** `new_archive()`: uses the archiver's job UUID and names the metadata member "metadata.txt". */
    method NewArchive(archiveUuid: string, dump: map<string, Json> -> string) returns (c: ArchiveCreator)
      ensures fresh(c) && c.Valid()
      ensures c.workDir == workDir && c.jobUuid == jobUuid && c.archiveUuid == archiveUuid && c.metadataName == MetadataTxt
      ensures c.itemNames == [] && c.metadata == map["version" := JStr("v1"), "job" := JStr(jobUuid), "archive" := JStr(archiveUuid)]
    {
      c := new ArchiveCreator(workDir, jobUuid, archiveUuid, MetadataTxt, dump);
    }

    /** `existing_archive(path_archive)` */
    method ExistingArchive(pathArchive: string) returns (e: ArchiveExtractor)
      ensures fresh(e) && e.pathArchive == pathArchive && e.workDir == workDir
    {
      e := new ArchiveExtractor(pathArchive, workDir);
    }
  }
}

/**
 * The Docker side of the migration client (`client/docker_migrate_worker.py`):
 * resolving a short container id to the full id, collecting the on-disk
 * artifacts of an aufs-backed container (the metadata-layer parent chain, the
 * mount-layer ancestor list, the volumes and the image id), assembling the
 * list of directories to synchronise, and building the `docker checkpoint` /
 * `docker start` command lines.
 *
 * The host is a value: file contents by path, the paths that exist, directory
 * listings, and the parsed `config.v2.json` documents. The external `docker`
 * command is an exit-status oracle.
 */
module DockerWorker {
  import opened Wrappers
  import opened PyStr

  const DockerBin := "/usr/bin/docker"
  const DockerDir := "/var/lib/docker/"
  const RunStateDir := "/var/run/runc/"
  const RunMetaDir := "/run/runc/"

  /** Short ids below this length are refused when the worker is built. */
  const MinIdLength := 3

  /** Length of the algorithm prefix (`sha256:`) the source strips with `[7:]`. */
  const DigestPrefixLength := 7

  /**
   * Upper bound on the parent files the layer walk reads. The source has
   * none and loops forever on a cyclic store; a real store holds far
   * fewer layers, so the bound never cuts a well-formed chain short.
   */
  const MaxChainSteps: nat := 4096

  /** One entry of the `MountPoints` object of `config.v2.json`. */
  datatype MountPoint = MountPoint(name: string, source: string)

  /**
   * The parts of a parsed `config.v2.json` the worker reads; `None` is a missing key.
   * `mountPoints` is in the order `mount_point.items()` yields the `MountPoints` object,
   * which under Python 2 is the dictionary's order, not the order in the file.
   */
  datatype Config = Config(image: Option<string>, mountPoints: Option<seq<MountPoint>>)

  /**
   * The host as the worker sees it: `files` are the readable files and their
   * contents, `existing` what `os.path.exists` reports, `listings` what
   * `os.listdir` returns, and `configs` the documents `json.loads` accepts
   * (a path absent from `configs` cannot be opened or parsed).
   */
  datatype FileSystem = FileSystem(
    files: map<string, string>,
    existing: set<string>,
    listings: map<string, seq<string>>,
    configs: map<string, Config>)

  /** The volume list: `[1, name]` for a managed volume, `[2, source, ...]` for bind mounts. */
  datatype Volumes = Managed(names: seq<string>) | External(sources: seq<string>)

  /** The exceptions the worker raises. */
  datatype Error =
    | IdTooShort
    | CannotList(path: string)
    | FullIdNotFound
    | CannotRead(path: string)
    | CannotParse(path: string)
    | MissingKey(key: string)
    | CorruptChain
    | ToolFailed(message: string)

  /** What the checkpoint-image manager reports: `image_dir()`, `parent_image_dir()`, `current_iter`. */
  datatype Image = Image(dir: string, parentDir: string, currentIter: int)

  /** The nine directories `load_fs_dir` derives, kept together. */
  datatype FsDirs = FsDirs(
    rootfs: string,
    initRootfs: string,
    layerdbDir: string,
    diffDirs: seq<string>,
    imageDir: string,
    imagemetaDir: string,
    mntDiffDirs: seq<string>,
    layersDirs: seq<string>,
    volumesDirs: seq<string>)

  /** Everything `init_src` resolves before it derives paths. */
  datatype Resolved = Resolved(
    fullId: string,
    mntId: string,
    diffIds: seq<string>,
    mntDiffIds: seq<string>,
    volumes: Option<Volumes>,
    imageId: string)

  // ---------------------------------------------------------------------------
  // Paths

  function ContainersDir(): string { JoinAll(DockerDir, ["containers"]) }
  function MountParentPath(fullId: string): string {
    JoinAll(DockerDir, ["image/aufs/layerdb/mounts", fullId, "parent"])
  }
  function LayerParentPath(diffId: string): string {
    JoinAll(DockerDir, ["image/aufs/layerdb/sha256", diffId, "parent"])
  }
  function MountIdPath(fullId: string): string {
    "/var/lib/docker/image/aufs/layerdb/mounts/" + fullId + "/mount-id"
  }
  function LayersFilePath(mntId: string): string { JoinAll(DockerDir, ["aufs/layers", mntId]) }
  function ConfigPath(fullId: string): string {
    JoinAll(DockerDir, ["containers", fullId, "config.v2.json"])
  }

  function RootfsPath(mntId: string): string { JoinAll(DockerDir, ["aufs/mnt", mntId]) }
  function InitRootfsPath(mntId: string): string { JoinAll(DockerDir, ["aufs/mnt", mntId + "-init"]) }
  function LayerdbDir(fullId: string): string { JoinAll(DockerDir, ["image/aufs/layerdb/mounts", fullId]) }
  function ImageDir(imageId: string): string {
    JoinAll(DockerDir, ["image/aufs/imagedb/content/sha256", imageId])
  }
  function ImageMetaDir(imageId: string): string {
    JoinAll(DockerDir, ["image/aufs/imagedb/metadata/sha256", imageId])
  }
  function ConfigDir(fullId: string): string { JoinAll(DockerDir, ["containers", fullId]) }
  function RunMetaPath(fullId: string): string { JoinAll(RunMetaDir, [fullId]) }
  function RunStatePath(fullId: string): string { JoinAll(RunStateDir, [fullId]) }

  /** `os.path.join(docker_dir, root, id)`. */
  function Under(root: string, id: string): string { JoinAll(DockerDir, [root, id]) }

  /** One directory under `DockerDir + root` per id, in order. */
  function UnderEach(root: string, ids: seq<string>): (r: seq<string>)
    ensures |r| == |ids|
    decreases |ids|
  {
    if ids == [] then [] else UnderEach(root, ids[..|ids| - 1]) + [Under(root, ids[|ids| - 1])]
  }

  /** The `i`-th directory is the one for the `i`-th id. */
  lemma {:induction false} UnderEachAt(root: string, ids: seq<string>, i: nat)
    requires i < |ids|
    ensures UnderEach(root, ids)[i] == Under(root, ids[i])
    decreases |ids|
  {
    var front := ids[..|ids| - 1];
    if i < |front| {
      UnderEachAt(root, front, i);
      assert front[i] == ids[i];
    }
  }

  /** Growing the id list by one adds one directory at the end. */
  lemma UnderEachSnoc(root: string, ids: seq<string>, k: nat)
    requires k < |ids|
    ensures UnderEach(root, ids[..k + 1]) == UnderEach(root, ids[..k]) + [Under(root, ids[k])]
  {
    assert ids[..k + 1][..k] == ids[..k];
  }

  lemma UnderEachAll(root: string, ids: seq<string>)
    ensures UnderEach(root, ids[..|ids|]) == UnderEach(root, ids)
  {
    assert ids[..|ids|] == ids;
  }

  function DiffDirs(diffIds: seq<string>): seq<string> { UnderEach("image/aufs/layerdb/sha256", diffIds) }
  function MntDiffDirs(mntDiffIds: seq<string>): seq<string> { UnderEach("aufs/diff", mntDiffIds) }

  /** The `-init` layer of the container followed by one layer file per mount-layer id. */
  function LayersDirs(mntId: string, mntDiffIds: seq<string>): (r: seq<string>)
    ensures |r| == 1 + |mntDiffIds|
    ensures r[0] == Under("aufs/layers", mntId + "-init")
  {
    [Under("aufs/layers", mntId + "-init")] + UnderEach("aufs/layers", mntDiffIds)
  }

  /** After the `-init` layer, one `aufs/layers/<id>` per mount-diff id, in order. */
  lemma LayersDirsAt(mntId: string, mntDiffIds: seq<string>, i: nat)
    requires i < |mntDiffIds|
    ensures LayersDirs(mntId, mntDiffIds)[i + 1] == Under("aufs/layers", mntDiffIds[i])
  {
    UnderEachAt("aufs/layers", mntDiffIds, i);
  }

  /** Managed volumes live under `volumes/`; bind-mount sources are used verbatim. */
  function VolumeDirs(v: Option<Volumes>): seq<string> {
    match v
    case None => []
    case Some(Managed(names)) => UnderEach("volumes", names)
    case Some(External(sources)) => sources
  }

  // ---------------------------------------------------------------------------
  // Full id

  predicate Matches(entry: string, shortId: string) {
    Find(FirstComponent(entry), shortId) == 0
  }

  /** The index of the first listing entry whose name starts with `shortId`. */
  function FirstMatch(entries: seq<string>, shortId: string): (r: Option<nat>)
    ensures r.Some? ==> r.value < |entries| && Matches(entries[r.value], shortId)
    ensures forall j :: 0 <= j < |entries| && (r.None? || j < r.value) ==> !Matches(entries[j], shortId)
  {
    if entries == [] then None
    else if Matches(entries[0], shortId) then Some(0)
    else match FirstMatch(entries[1..], shortId)
      case None => None
      case Some(i) => Some(i + 1)
  }

  lemma FirstMatchAt(entries: seq<string>, shortId: string, i: nat)
    requires i < |entries| && Matches(entries[i], shortId)
    requires forall j :: 0 <= j < i ==> !Matches(entries[j], shortId)
    ensures FirstMatch(entries, shortId) == Some(i)
  {
    if i > 0 {
      FirstMatchAt(entries[1..], shortId, i - 1);
    }
  }

  /** `get_full_ctid` as a value: the first listing entry (up to any '/') that starts with the short id. */
  function FullIdOf(fs: FileSystem, shortId: string): Result<string, Error> {
    if ContainersDir() !in fs.listings then Err(CannotList(ContainersDir()))
    else
      var entries := fs.listings[ContainersDir()];
      match FirstMatch(entries, shortId)
      case None => Err(FullIdNotFound)
      case Some(i) =>
        var id := FirstComponent(entries[i]);
        if id != "" then Ok(id) else Err(FullIdNotFound)
  }

  predicate PrefixMatch(entry: string, shortId: string) {
    StartsWith(FirstComponent(entry), shortId)
  }

  /**
   * Resolution succeeds exactly when some entry starts with the short id; the
   * result is the first such entry and always has the short id as a prefix;
   * otherwise it fails with `FullIdNotFound`.
   */
  lemma FullIdResolution(fs: FileSystem, shortId: string)
    requires shortId != []
    requires ContainersDir() in fs.listings
    ensures var L := fs.listings[ContainersDir()];
      FullIdOf(fs, shortId).Ok? <==> exists i :: 0 <= i < |L| && PrefixMatch(L[i], shortId)
    ensures FullIdOf(fs, shortId).Err? ==> FullIdOf(fs, shortId).error == FullIdNotFound
    ensures var L := fs.listings[ContainersDir()];
      FullIdOf(fs, shortId).Ok? ==>
        StartsWith(FullIdOf(fs, shortId).value, shortId) &&
        exists i :: 0 <= i < |L| && FirstComponent(L[i]) == FullIdOf(fs, shortId).value &&
          forall j :: 0 <= j < i ==> !PrefixMatch(L[j], shortId)
  {
    var L := fs.listings[ContainersDir()];
    forall e | e in L ensures Matches(e, shortId) <==> PrefixMatch(e, shortId) {
      FindZeroIsPrefix(FirstComponent(e), shortId);
    }
    match FirstMatch(L, shortId)
    case None =>
    case Some(i) =>
      assert PrefixMatch(L[i], shortId);
      assert FirstComponent(L[i]) != "";
      forall j | 0 <= j < i ensures !PrefixMatch(L[j], shortId) {
        assert L[j] in L;
      }
  }

  // ---------------------------------------------------------------------------
  // Mount id and the metadata-layer chain

  function Digest(s: string): string { Drop(s, DigestPrefixLength) }

  lemma DigestOfPrefixed(hex: string)
    ensures Digest("sha256:" + hex) == hex
  {
    DropPrefix("sha256:", hex);
  }

  /** `get_mount_id`: the contents of `.../layerdb/mounts/<full id>/mount-id`, unstripped. */
  function MountIdOf(fs: FileSystem, fullId: string): (r: Result<string, Error>)
    ensures r.Ok? <==> MountIdPath(fullId) in fs.files
    ensures r.Ok? ==> r.value == fs.files[MountIdPath(fullId)]
    ensures r.Err? ==> r.error == CannotRead(MountIdPath(fullId))
  {
    var p := MountIdPath(fullId);
    if p in fs.files then Ok(fs.files[p]) else Err(CannotRead(p))
  }

  /**
   * The parent walk from `path`: while a parent file exists, read it, strip
   * the algorithm prefix, record the id and continue at that layer's parent
   * file. At most `fuel` files are read.
   */
  function DiffChainFrom(fs: FileSystem, path: string, fuel: nat): Result<seq<string>, Error>
    decreases fuel
  {
    if path !in fs.existing then Ok([])
    else if path !in fs.files then Err(CannotRead(path))
    else if fuel == 0 then Err(CorruptChain)
    else
      var id := Digest(fs.files[path]);
      match DiffChainFrom(fs, LayerParentPath(id), fuel - 1)
      case Ok(rest) => Ok([id] + rest)
      case Err(e) => Err(e)
  }

  /** `get_diff_id`: the walk starts at the container's own parent file. */
  function DiffChain(fs: FileSystem, fullId: string): Result<seq<string>, Error> {
    DiffChainFrom(fs, MountParentPath(fullId), MaxChainSteps)
  }

  /** The i-th parent file a walk that has produced `ids` reads. */
  function WalkPath(start: string, ids: seq<string>, i: nat): string
    requires i <= |ids|
  {
    if i == 0 then start else LayerParentPath(ids[i - 1])
  }

  /**
   * `ids` is the layer walk from `start`: id i is the i-th parent file's
   * contents minus the algorithm prefix, where the first file is `start` and
   * each later one is the parent file of the previous id; the file after the
   * last id does not exist.
   */
  ghost predicate IsLayerWalk(fs: FileSystem, start: string, ids: seq<string>) {
    (forall i {:trigger WalkPath(start, ids, i)} :: 0 <= i < |ids| ==>
      WalkPath(start, ids, i) in fs.existing && WalkPath(start, ids, i) in fs.files &&
      ids[i] == Digest(fs.files[WalkPath(start, ids, i)])) &&
    WalkPath(start, ids, |ids|) !in fs.existing
  }

  /** A walk begins at `start` and continues as a walk from the first id's parent file. */
  lemma WalkHead(fs: FileSystem, start: string, ids: seq<string>)
    requires ids != [] && IsLayerWalk(fs, start, ids)
    ensures start in fs.existing && start in fs.files && ids[0] == Digest(fs.files[start])
    ensures IsLayerWalk(fs, LayerParentPath(ids[0]), ids[1..])
  {
    var next := LayerParentPath(ids[0]);
    assert WalkPath(start, ids, 0) == start;
    forall i | 0 <= i <= |ids| - 1
      ensures WalkPath(next, ids[1..], i) == WalkPath(start, ids, i + 1)
    {
    }
  }

  /** Reading `start` in front of a walk from its id's parent file gives a walk from `start`. */
  lemma WalkCons(fs: FileSystem, start: string, ids: seq<string>)
    requires ids != []
    requires start in fs.existing && start in fs.files && ids[0] == Digest(fs.files[start])
    requires IsLayerWalk(fs, LayerParentPath(ids[0]), ids[1..])
    ensures IsLayerWalk(fs, start, ids)
  {
    var next := LayerParentPath(ids[0]);
    forall i | 0 <= i < |ids|
      ensures WalkPath(start, ids, i) in fs.existing && WalkPath(start, ids, i) in fs.files &&
        ids[i] == Digest(fs.files[WalkPath(start, ids, i)])
    {
      if i > 0 {
        assert WalkPath(start, ids, i) == WalkPath(next, ids[1..], i - 1);
      }
    }
    assert WalkPath(start, ids, |ids|) == WalkPath(next, ids[1..], |ids| - 1);
  }

  /** A walk that completes is the walk the store describes, and reads no more files than the fuel. */
  lemma {:induction false} DiffChainIsWalk(fs: FileSystem, start: string, fuel: nat)
    ensures DiffChainFrom(fs, start, fuel).Ok? ==>
      IsLayerWalk(fs, start, DiffChainFrom(fs, start, fuel).value) &&
      |DiffChainFrom(fs, start, fuel).value| <= fuel
    decreases fuel
  {
    var r := DiffChainFrom(fs, start, fuel);
    if r.Ok? && start in fs.existing {
      assert start in fs.files && fuel > 0;
      var id := Digest(fs.files[start]);
      var next := LayerParentPath(id);
      var sub := DiffChainFrom(fs, next, fuel - 1);
      assert sub.Ok? && r.value == [id] + sub.value;
      DiffChainIsWalk(fs, next, fuel - 1);
      assert r.value[1..] == sub.value;
      WalkCons(fs, start, r.value);
    }
  }

  /**
   * On a well-formed store the fuel changes nothing: any walk no longer
   * than the fuel is exactly what the bounded walk returns.
   */
  lemma {:induction false} WalkIsDiffChain(fs: FileSystem, start: string, ids: seq<string>, fuel: nat)
    requires IsLayerWalk(fs, start, ids) && |ids| <= fuel
    ensures DiffChainFrom(fs, start, fuel) == Ok(ids)
    decreases fuel
  {
    if ids == [] {
      WalkEnd(fs, start, fuel);
    } else {
      var id, rest := ids[0], ids[1..];
      assert ids == [id] + rest;
      WalkHead(fs, start, ids);
      WalkIsDiffChain(fs, LayerParentPath(id), rest, fuel - 1);
      ChainCons(fs, start, id, rest, fuel);
    }
  }

  /** A walk that reads no file ends at once. */
  lemma WalkEnd(fs: FileSystem, start: string, fuel: nat)
    requires IsLayerWalk(fs, start, [])
    ensures DiffChainFrom(fs, start, fuel) == Ok([])
  {
    assert WalkPath(start, [], 0) == start;
  }

  /** Reading one more parent file in front of a completed walk. */
  lemma ChainCons(fs: FileSystem, path: string, id: string, rest: seq<string>, fuel: nat)
    requires path in fs.existing && path in fs.files && fuel > 0 && Digest(fs.files[path]) == id
    requires DiffChainFrom(fs, LayerParentPath(id), fuel - 1) == Ok(rest)
    ensures DiffChainFrom(fs, path, fuel) == Ok([id] + rest)
  {
  }

  /** The chain is empty exactly when the container has no parent file. */
  lemma EmptyChain(fs: FileSystem, fullId: string)
    ensures DiffChain(fs, fullId) == Ok([]) <==> MountParentPath(fullId) !in fs.existing
  {
  }

  function Prepend(ids: seq<string>, r: Result<seq<string>, Error>): Result<seq<string>, Error> {
    match r
    case Ok(rest) => Ok(ids + rest)
    case Err(e) => Err(e)
  }

  lemma PrependNothing(r: Result<seq<string>, Error>)
    ensures Prepend([], r) == r
  {
    if r.Ok? { assert [] + r.value == r.value; }
  }

  lemma PrependTwice(a: seq<string>, b: seq<string>, r: Result<seq<string>, Error>)
    ensures Prepend(a, Prepend(b, r)) == Prepend(a + b, r)
  {
    if r.Ok? { assert a + (b + r.value) == (a + b) + r.value; }
  }

  /** One turn of `get_diff_id`'s loop: the id read moves from the walk still to do to the ids found. */
  lemma WalkLoopStep(fs: FileSystem, ids: seq<string>, path: string, fuel: nat)
    requires path in fs.existing && path in fs.files && fuel > 0
    ensures Prepend(ids, DiffChainFrom(fs, path, fuel)) ==
      Prepend(ids + [Digest(fs.files[path])], DiffChainFrom(fs, LayerParentPath(Digest(fs.files[path])), fuel - 1))
  {
    var id := Digest(fs.files[path]);
    ChainStep(fs, path, fuel);
    PrependTwice(ids, [id], DiffChainFrom(fs, LayerParentPath(id), fuel - 1));
  }

  /** `get_diff_id`'s loop ends when the parent file is missing, with the ids found. */
  lemma WalkLoopExit(fs: FileSystem, ids: seq<string>, path: string, fuel: nat)
    requires path !in fs.existing
    ensures Prepend(ids, DiffChainFrom(fs, path, fuel)) == Ok(ids)
  {
    assert ids + [] == ids;
  }

  lemma ChainStep(fs: FileSystem, path: string, fuel: nat)
    requires path in fs.existing && path in fs.files && fuel > 0
    ensures DiffChainFrom(fs, path, fuel) ==
      Prepend([Digest(fs.files[path])], DiffChainFrom(fs, LayerParentPath(Digest(fs.files[path])), fuel - 1))
  {
  }

  // ---------------------------------------------------------------------------
  // Mount-layer ancestors, volumes, image id

  /** `get_mnt_diff_ids`: the mount id, then every line of `aufs/layers/<mount id>`, stripped. */
  function MntDiffIdsOf(fs: FileSystem, mntId: string): Result<seq<string>, Error> {
    var p := LayersFilePath(mntId);
    if p in fs.files then Ok([mntId] + StripAll(Lines(fs.files[p]))) else Err(CannotRead(p))
  }

  /** The index of the first mount point with a non-empty name. */
  function FirstNamed(mps: seq<MountPoint>): (r: Option<nat>)
    ensures r.Some? ==> r.value < |mps| && mps[r.value].name != ""
    ensures forall j :: 0 <= j < |mps| && (r.None? || j < r.value) ==> mps[j].name == ""
  {
    if mps == [] then None
    else if mps[0].name != "" then Some(0)
    else match FirstNamed(mps[1..])
      case None => None
      case Some(i) => Some(i + 1)
  }

  lemma FirstNamedAt(mps: seq<MountPoint>, i: nat)
    requires i < |mps| && mps[i].name != ""
    requires forall j :: 0 <= j < i ==> mps[j].name == ""
    ensures FirstNamed(mps) == Some(i)
  {
    if i > 0 {
      FirstNamedAt(mps[1..], i - 1);
    }
  }

  /** The non-empty sources, in iteration order. */
  function NonEmptySources(mps: seq<MountPoint>): (r: seq<string>)
    ensures |r| <= |mps|
  {
    if mps == [] then []
    else
      var last := mps[|mps| - 1];
      NonEmptySources(mps[..|mps| - 1]) + (if last.source != "" then [last.source] else [])
  }

  /** The collected sources are all non-empty, and there are none exactly when every source is empty. */
  lemma {:induction false} NonEmptySourcesSpec(mps: seq<MountPoint>)
    ensures forall k :: 0 <= k < |NonEmptySources(mps)| ==> NonEmptySources(mps)[k] != ""
    ensures NonEmptySources(mps) == [] <==> forall j :: 0 <= j < |mps| ==> mps[j].source == ""
  {
    if mps != [] {
      var init := mps[..|mps| - 1];
      NonEmptySourcesSpec(init);
      assert forall j :: 0 <= j < |init| ==> init[j] == mps[j];
    }
  }

  /** Scanning one more mount point adds its source when it is non-empty. */
  lemma NonEmptySourcesSnoc(mps: seq<MountPoint>, i: nat)
    requires i < |mps|
    ensures NonEmptySources(mps[..i + 1]) ==
      NonEmptySources(mps[..i]) + (if mps[i].source != "" then [mps[i].source] else [])
  {
    assert mps[..i + 1][..i] == mps[..i];
  }

  /** `get_volumes_name` as a value: the first named volume wins; else the bind-mount sources; else nothing. */
  function Classify(mps: seq<MountPoint>): Option<Volumes> {
    match FirstNamed(mps)
    case Some(i) => Some(Managed([mps[i].name]))
    case None =>
      var sources := NonEmptySources(mps);
      if sources == [] then None else Some(External(sources))
  }

  /** The first named mount point decides the classification. */
  lemma ClassifyManaged(mps: seq<MountPoint>, i: nat)
    requires i < |mps| && mps[i].name != ""
    requires forall j :: 0 <= j < i ==> mps[j].name == ""
    ensures Classify(mps) == Some(Managed([mps[i].name]))
  {
    FirstNamedAt(mps, i);
  }

  /** Without a named mount point the non-empty sources decide it. */
  lemma ClassifyUnnamed(mps: seq<MountPoint>)
    requires forall j :: 0 <= j < |mps| ==> mps[j].name == ""
    ensures Classify(mps) == if NonEmptySources(mps) == [] then None else Some(External(NonEmptySources(mps)))
  {
  }

  /** A managed volume is exactly the name of the first named mount point. */
  lemma ClassifyManagedIff(mps: seq<MountPoint>, n: string)
    ensures Classify(mps) == Some(Managed([n])) <==>
      exists i :: 0 <= i < |mps| && mps[i].name == n && n != "" &&
        forall j :: 0 <= j < i ==> mps[j].name == ""
  {
    if exists i :: 0 <= i < |mps| && mps[i].name == n && n != "" &&
                   (forall j :: 0 <= j < i ==> mps[j].name == "")
    {
      var i :| 0 <= i < |mps| && mps[i].name == n && n != "" &&
        forall j :: 0 <= j < i ==> mps[j].name == "";
      FirstNamedAt(mps, i);
    }
  }

  /**
   * Without a named mount point, any non-empty source makes the volumes
   * external, listing every non-empty source in order.
   */
  lemma ClassifyExternalIff(mps: seq<MountPoint>)
    ensures Classify(mps).Some? && Classify(mps).value.External? <==>
      (forall j :: 0 <= j < |mps| ==> mps[j].name == "") &&
      exists j :: 0 <= j < |mps| && mps[j].source != ""
    ensures Classify(mps).Some? && Classify(mps).value.External? ==>
      Classify(mps).value.sources == NonEmptySources(mps)
  {
    NonEmptySourcesSpec(mps);
  }

  /** No volumes exactly when no mount point has a name or a source. */
  lemma ClassifyNoneIff(mps: seq<MountPoint>)
    ensures Classify(mps) == None <==>
      forall j :: 0 <= j < |mps| ==> mps[j].name == "" && mps[j].source == ""
  {
    NonEmptySourcesSpec(mps);
  }

  /** A managed name discards every bind-mount source seen before it. */
  lemma {:induction false} ManagedDiscardsEarlierSources(before: seq<MountPoint>, m: MountPoint, after: seq<MountPoint>)
    requires forall j :: 0 <= j < |before| ==> before[j].name == ""
    requires m.name != ""
    ensures Classify(before + [m] + after) == Some(Managed([m.name]))
  {
    var mps := before + [m] + after;
    FirstNamedAt(mps, |before|);
  }

  /** `get_volumes_name`'s config lookup: open and parse the document, then take `MountPoints`. */
  function VolumesOf(fs: FileSystem, fullId: string): Result<Option<Volumes>, Error> {
    var p := ConfigPath(fullId);
    if p !in fs.configs then Err(CannotParse(p))
    else if fs.configs[p].mountPoints.None? then Err(MissingKey("MountPoints"))
    else Ok(Classify(fs.configs[p].mountPoints.value))
  }

  /** `get_image_id`: the `Image` field of the config without its algorithm prefix. */
  function ImageIdOf(fs: FileSystem, fullId: string): (r: Result<string, Error>)
    ensures r.Ok? <==> ConfigPath(fullId) in fs.configs && fs.configs[ConfigPath(fullId)].image.Some?
    ensures r.Ok? ==> var image := fs.configs[ConfigPath(fullId)].image.value;
      |r.value| == (if |image| < 7 then 0 else |image| - 7) &&
      (7 <= |image| ==> image[..7] + r.value == image)
    ensures r.Err? ==> r.error == (if ConfigPath(fullId) in fs.configs then MissingKey("Image") else CannotParse(ConfigPath(fullId)))
  {
    var p := ConfigPath(fullId);
    if p !in fs.configs then Err(CannotParse(p))
    else if fs.configs[p].image.None? then Err(MissingKey("Image"))
    else Ok(Digest(fs.configs[p].image.value))
  }

  /** `init_src` before `load_fs_dir`: every lookup in order, the first failure propagating. */
  function Resolve(fs: FileSystem, shortId: string): Result<Resolved, Error> {
    var fullId :- FullIdOf(fs, shortId);
    var mntId :- MountIdOf(fs, fullId);
    var diffIds :- DiffChain(fs, fullId);
    var mntDiffIds :- MntDiffIdsOf(fs, mntId);
    var volumes :- VolumesOf(fs, fullId);
    var imageId :- ImageIdOf(fs, fullId);
    Ok(Resolved(fullId, mntId, diffIds, mntDiffIds, volumes, imageId))
  }

  /**
   * The list `get_fs` hands to the filesystem driver, built from the stored
   * directories: rootfs, init rootfs, config dir, layer-db dir and image dir,
   * then layers, diffs, volumes and mount diffs; the image-metadata dir, when
   * it exists, one character per entry (`list.extend` on a string).
   */
  function PathList(d: FsDirs, configDir: string, metaExists: bool): seq<string> {
    [d.rootfs, d.initRootfs, configDir, d.layerdbDir, d.imageDir]
    + d.layersDirs + d.diffDirs + d.volumesDirs + d.mntDiffDirs
    + (if metaExists then Chars(d.imagemetaDir) else [])
  }

  /** The directories `load_fs_dir` derives from the resolved ids. */
  function DirsOf(res: Resolved): FsDirs {
    FsDirs(
      rootfs := RootfsPath(res.mntId),
      initRootfs := InitRootfsPath(res.mntId),
      layerdbDir := LayerdbDir(res.fullId),
      diffDirs := DiffDirs(res.diffIds),
      imageDir := ImageDir(res.imageId),
      imagemetaDir := ImageMetaDir(res.imageId),
      mntDiffDirs := MntDiffDirs(res.mntDiffIds),
      layersDirs := LayersDirs(res.mntId, res.mntDiffIds),
      volumesDirs := VolumeDirs(res.volumes))
  }

  /** Where the metadata characters start in the path list. */
  function MetaOffset(d: FsDirs): nat {
    5 + |d.layersDirs| + |d.diffDirs| + |d.volumesDirs| + |d.mntDiffDirs|
  }

  /**
   * The path list holds, in order, the five fixed directories, the layer
   * files, the layer-metadata dirs, the volumes and the mount diffs; nothing
   * follows them when the metadata dir does not exist.
   */
  lemma PathListLayout(d: FsDirs, configDir: string, metaExists: bool)
    ensures var p := PathList(d, configDir, metaExists);
      var diffsAt := 5 + |d.layersDirs|;
      var volumesAt := diffsAt + |d.diffDirs|;
      var mntDiffsAt := volumesAt + |d.volumesDirs|;
      |p| >= MetaOffset(d) &&
      p[..5] == [d.rootfs, d.initRootfs, configDir, d.layerdbDir, d.imageDir] &&
      p[5..diffsAt] == d.layersDirs &&
      p[diffsAt..volumesAt] == d.diffDirs &&
      p[volumesAt..mntDiffsAt] == d.volumesDirs &&
      p[mntDiffsAt..MetaOffset(d)] == d.mntDiffDirs &&
      (!metaExists ==> |p| == MetaOffset(d))
  {
    Segments([d.rootfs, d.initRootfs, configDir, d.layerdbDir, d.imageDir],
      d.layersDirs, d.diffDirs, d.volumesDirs, d.mntDiffDirs,
      if metaExists then Chars(d.imagemetaDir) else []);
  }

  lemma Segments(a: seq<string>, b: seq<string>, c: seq<string>, d: seq<string>, e: seq<string>, f: seq<string>)
    ensures var p := a + b + c + d + e + f;
      var i1 := |a|; var i2 := i1 + |b|; var i3 := i2 + |c|; var i4 := i3 + |d|; var i5 := i4 + |e|;
      |p| == i5 + |f| && p[..i1] == a && p[i1..i2] == b && p[i2..i3] == c &&
      p[i3..i4] == d && p[i4..i5] == e && p[i5..] == f
  {
  }

  /**
   * `list.extend` with a string: when the metadata directory exists, the
   * entries after the mount diffs are its characters, one per entry, and
   * together they spell the directory's path.
   */
  lemma MetaEntries(d: FsDirs, configDir: string)
    ensures var p := PathList(d, configDir, true);
      |p| == MetaOffset(d) + |d.imagemetaDir| &&
      p[MetaOffset(d)..] == Chars(d.imagemetaDir) &&
      Concat(p[MetaOffset(d)..]) == d.imagemetaDir &&
      forall i :: MetaOffset(d) <= i < |p| ==> |p[i]| == 1
  {
    var front := [d.rootfs, d.initRootfs, configDir, d.layerdbDir, d.imageDir]
      + d.layersDirs + d.diffDirs + d.volumesDirs + d.mntDiffDirs;
    var meta := Chars(d.imagemetaDir);
    assert |front| == MetaOffset(d);
    assert PathList(d, configDir, true) == front + meta;
    assert (front + meta)[|front|..] == meta;
    ConcatChars(d.imagemetaDir);
  }

  // ---------------------------------------------------------------------------
  // Command lines

  /** `get_ck_dir`: the checkpoint every dump and restore names. */
  function CheckpointName(ctId: string): (r: string)
    ensures StartsWith(r, ctId) && Drop(r, |ctId|) == "_checkpoint"
  {
    DropPrefix(ctId, "_checkpoint");
    ctId + "_checkpoint"
  }

  function PreDumpArgs(ctId: string, img: Image): seq<string> {
    [DockerBin, "checkpoint", "create", "--pre-dump", "--checkpoint-dir=" + img.dir,
     ctId, CheckpointName(ctId)]
  }

  /** The final dump is chained to the previous image only after the first iteration. */
  function FinalDumpArgs(ctId: string, img: Image): seq<string> {
    if img.currentIter <= 1 then
      [DockerBin, "checkpoint", "create", "--checkpoint-dir=" + img.dir, ctId, CheckpointName(ctId)]
    else
      [DockerBin, "checkpoint", "create", "--checkpoint-dir=" + img.dir,
       "--parent-path=" + img.parentDir, ctId, CheckpointName(ctId)]
  }

  function RestoreArgs(ctId: string, img: Image): seq<string> {
    [DockerBin, "start", "--checkpoint-dir=" + img.dir, "--checkpoint=" + CheckpointName(ctId), ctId]
  }

  /** The options of a `docker checkpoint create` line: everything between `create` and the two positionals. */
  predicate HasParentOption(args: seq<string>) {
    exists k :: 3 <= k < |args| - 2 && StartsWith(args[k], "--parent-path=")
  }

  /**
   * The final dump names a parent image exactly when `current_iter > 1`,
   * and then it names the previous image directory; both dumps end with
   * the container id and the checkpoint name.
   */
  lemma FinalDumpParent(ctId: string, img: Image)
    ensures HasParentOption(FinalDumpArgs(ctId, img)) <==> img.currentIter > 1
    ensures img.currentIter > 1 ==> FinalDumpArgs(ctId, img)[4] == "--parent-path=" + img.parentDir
    ensures var a := FinalDumpArgs(ctId, img); a[|a| - 2..] == [ctId, CheckpointName(ctId)]
    ensures var a := PreDumpArgs(ctId, img); a[|a| - 2..] == [ctId, CheckpointName(ctId)]
  {
    var a := FinalDumpArgs(ctId, img);
    var opt := "--checkpoint-dir=" + img.dir;
    assert !StartsWith(opt, "--parent-path=") by {
      assert opt[2] == 'c';
    }
    if img.currentIter > 1 {
      assert StartsWith(a[4], "--parent-path=");
    }
  }

  // ---------------------------------------------------------------------------
  // The worker object

  class Worker {
    const ctId: string
    var ctRootfd: string
    var fullCtid: string
    var mntId: string
    var diffIds: seq<string>
    var mntDiffIds: seq<string>
    var volumes: Option<Volumes>
    var imageId: string
    var dirs: FsDirs
    var ctConfigDir: string
    var ctRunMetaDir: string
    var ctRunStateDir: string

    constructor (ctId: string)
      requires |ctId| >= MinIdLength
      ensures this.ctId == ctId && ctRootfd == ""
    {
      this.ctId := ctId;
      ctRootfd := "";
    }

    /** `docker_lm_worker(ct_id)`: ids shorter than three characters raise; three is enough. */
    static method Create(ctId: string) returns (r: Result<Worker, Error>)
      ensures r.Ok? <==> |ctId| >= MinIdLength
      ensures r.Err? ==> r.error == IdTooShort
      ensures r.Ok? ==> fresh(r.value) && r.value.ctId == ctId
    {
      if |ctId| < MinIdLength {
        return Err(IdTooShort);
      }
      var w := new Worker(ctId);
      return Ok(w);
    }

    /** The ids held in the fields, together. */
    function Ids(): Resolved
      reads this`fullCtid, this`mntId, this`diffIds, this`mntDiffIds, this`volumes, this`imageId
    {
      Resolved(fullCtid, mntId, diffIds, mntDiffIds, volumes, imageId)
    }

    ghost predicate HoldsIds(res: Resolved)
      reads this`fullCtid, this`mntId, this`diffIds, this`mntDiffIds, this`volumes, this`imageId
    {
      Ids() == res
    }

    /** The directories `load_fs_dir` derives from the ids. */
    ghost predicate HoldsDirs(res: Resolved)
      reads this`dirs
    {
      dirs == DirsOf(res)
    }

    /** The directories `load_ct_config` derives from the full id. */
    ghost predicate HoldsConfigDirs(res: Resolved)
      reads this`ctConfigDir, this`ctRunMetaDir, this`ctRunStateDir
    {
      ctConfigDir == ConfigDir(res.fullId) && ctRunMetaDir == RunMetaPath(res.fullId) &&
      ctRunStateDir == RunStatePath(res.fullId)
    }

    /** The fields `init_src` has set from `res`. */
    ghost predicate Loaded(res: Resolved)
      reads this
    {
      HoldsIds(res) && HoldsDirs(res) && HoldsConfigDirs(res)
    }

    /** `get_full_ctid`: scan the listing and stop at the first entry that starts with the short id. */
    method GetFullCtid(fs: FileSystem) returns (r: Result<string, Error>)
      ensures r == FullIdOf(fs, ctId)
    {
      var dir := ContainersDir();
      if dir !in fs.listings {
        return Err(CannotList(dir));
      }
      var entries := fs.listings[dir];
      var fullId := "";
      var i := 0;
      while i < |entries|
        invariant 0 <= i <= |entries|
        invariant fullId == ""
        invariant forall j :: 0 <= j < i ==> !Matches(entries[j], ctId)
      {
        var head := FirstComponent(entries[i]);
        if Find(head, ctId) == 0 {
          FirstMatchAt(entries, ctId, i);
          fullId := head;
          break;
        }
        i := i + 1;
      }
      if fullId != "" {
        r := Ok(fullId);
      } else {
        r := Err(FullIdNotFound);
      }
    }

    /** `get_diff_id`: follow parent files until one is missing. */
    method GetDiffId(fs: FileSystem) returns (r: Result<seq<string>, Error>)
      ensures r == DiffChain(fs, fullCtid)
    {
      var parentPath := MountParentPath(fullCtid);
      var diffIds: seq<string> := [];
      var steps := 0;
      assert DiffChain(fs, fullCtid) == DiffChainFrom(fs, parentPath, MaxChainSteps);
      PrependNothing(DiffChainFrom(fs, parentPath, MaxChainSteps));
      while parentPath in fs.existing
        invariant steps <= MaxChainSteps
        invariant DiffChain(fs, fullCtid) == Prepend(diffIds, DiffChainFrom(fs, parentPath, MaxChainSteps - steps))
        decreases MaxChainSteps - steps
      {
        if parentPath !in fs.files {
          return Err(CannotRead(parentPath));
        }
        if steps == MaxChainSteps {
          return Err(CorruptChain);
        }
        var diffId := Digest(fs.files[parentPath]);
        WalkLoopStep(fs, diffIds, parentPath, MaxChainSteps - steps);
        diffIds := diffIds + [diffId];
        parentPath := LayerParentPath(diffId);
        steps := steps + 1;
      }
      WalkLoopExit(fs, diffIds, parentPath, MaxChainSteps - steps);
      r := Ok(diffIds);
    }

    /** `get_mnt_diff_ids`: the mount id, then `readline()` until end of file, each line stripped. */
    method GetMntDiffIds(fs: FileSystem) returns (r: Result<seq<string>, Error>)
      ensures r == MntDiffIdsOf(fs, mntId)
    {
      var path := LayersFilePath(mntId);
      var parentIds := [mntId];
      if path !in fs.files {
        return Err(CannotRead(path));
      }
      // `rest` is what `readline()` has not yet consumed
      var rest := fs.files[path];
      while rest != []
        invariant parentIds + StripAll(Lines(rest)) == [mntId] + StripAll(Lines(fs.files[path]))
        decreases |rest|
      {
        var line := rest[..LineLength(rest)];
        StripLinesStep(rest);
        parentIds := parentIds + [Strip(line)];
        rest := rest[LineLength(rest)..];
      }
      assert StripAll(Lines(rest)) == [];
      assert parentIds + [] == parentIds;
      r := Ok(parentIds);
    }

    /** `get_volumes_name`: open and parse the config, then scan its mount points. */
    method GetVolumesName(fs: FileSystem) returns (r: Result<Option<Volumes>, Error>)
      ensures r == VolumesOf(fs, fullCtid)
    {
      var path := ConfigPath(fullCtid);
      if path !in fs.configs {
        return Err(CannotParse(path));
      }
      var config := fs.configs[path];
      if config.mountPoints.None? {
        return Err(MissingKey("MountPoints"));
      }
      var volumes := ScanMountPoints(config.mountPoints.value);
      r := Ok(volumes);
    }

    /**
     * The mount-point loop of `get_volumes_name`: the first named volume
     * ends the scan and is the result; bind-mount sources seen before it
     * are collected under tag 2 and are the result only when no named
     * volume follows.
     */
    static method ScanMountPoints(mps: seq<MountPoint>) returns (v: Option<Volumes>)
      ensures v == Classify(mps)
    {
      var externalTag, sources := 0, [];
      var i := 0;
      while i < |mps|
        invariant 0 <= i <= |mps|
        invariant forall j :: 0 <= j < i ==> mps[j].name == ""
        invariant sources == NonEmptySources(mps[..i])
        invariant externalTag == if sources == [] then 0 else 2
      {
        if mps[i].name != "" {
          ClassifyManaged(mps, i);
          return Some(Managed([mps[i].name]));
        } else if mps[i].source != "" {
          externalTag := 2;
          sources := sources + [mps[i].source];
        }
        NonEmptySourcesSnoc(mps, i);
        i := i + 1;
      }
      assert mps[..i] == mps;
      ClassifyUnnamed(mps);
      if externalTag != 0 {
        v := Some(External(sources));
      } else {
        v := None;
      }
    }

    /** The `for id in ids: dirs.append(os.path.join(docker_dir, root, id))` loops of `load_fs_dir`. */
    static method JoinEach(root: string, ids: seq<string>) returns (dirs: seq<string>)
      ensures dirs == UnderEach(root, ids)
    {
      dirs := [];
      for k := 0 to |ids|
        invariant dirs == UnderEach(root, ids[..k])
      {
        UnderEachSnoc(root, ids, k);
        dirs := dirs + [Under(root, ids[k])];
      }
      UnderEachAll(root, ids);
    }

    /** `load_fs_dir`: derive every synchronised directory from the resolved ids. */
    method LoadFsDir()
      modifies this`dirs
      ensures dirs == DirsOf(Ids())
    {
      var diffDirs := JoinEach("image/aufs/layerdb/sha256", diffIds);
      var mntDirs := JoinEach("aufs/diff", mntDiffIds);
      var layers := JoinEach("aufs/layers", mntDiffIds);
      var volumeDirs := [];
      match volumes {
        case None =>
        case Some(Managed(names)) =>
          volumeDirs := JoinEach("volumes", names);
        case Some(External(sources)) =>
          volumeDirs := sources;
      }
      dirs := FsDirs(
        rootfs := RootfsPath(mntId),
        initRootfs := InitRootfsPath(mntId),
        layerdbDir := LayerdbDir(fullCtid),
        diffDirs := diffDirs,
        imageDir := ImageDir(imageId),
        imagemetaDir := ImageMetaDir(imageId),
        mntDiffDirs := mntDirs,
        layersDirs := [Under("aufs/layers", mntId + "-init")] + layers,
        volumesDirs := volumeDirs);
    }

    /** `load_ct_config`: the config dir and the runc state and metadata dirs (`path` is not used). */
    method LoadCtConfig(path: string)
      modifies this`ctConfigDir, this`ctRunMetaDir, this`ctRunStateDir
      ensures ctConfigDir == ConfigDir(fullCtid)
      ensures ctRunMetaDir == RunMetaPath(fullCtid) && ctRunStateDir == RunStatePath(fullCtid)
    {
      ctConfigDir := ConfigDir(fullCtid);
      ctRunMetaDir := RunMetaPath(fullCtid);
      ctRunStateDir := RunStatePath(fullCtid);
    }

    /** `init_src`: resolve the ids, stopping at the first exception, then derive the paths. */
    method InitSrc(fs: FileSystem) returns (r: Outcome<Error>)
      modifies this
      ensures var res := Resolve(fs, ctId);
        (r.Pass? <==> res.Ok?) && (r.Fail? ==> r.error == res.error) && (r.Pass? ==> Loaded(res.value))
    {
      r := LoadIds(fs);
      if r.Pass? {
        LoadFsDir();
        LoadCtConfig(DockerDir);
      }
    }

    /** The first six statements of `init_src`: each lookup in turn, the first failure propagating. */
    method LoadIds(fs: FileSystem) returns (r: Outcome<Error>)
      modifies this`fullCtid, this`mntId, this`diffIds, this`mntDiffIds, this`volumes, this`imageId
      ensures var res := Resolve(fs, ctId);
        (r.Pass? <==> res.Ok?) && (r.Fail? ==> r.error == res.error) && (r.Pass? ==> HoldsIds(res.value))
    {
      var full := GetFullCtid(fs);
      if full.Err? { return Fail(full.error); }
      fullCtid := full.value;
      var mnt := MountIdOf(fs, fullCtid);
      if mnt.Err? { return Fail(mnt.error); }
      mntId := mnt.value;
      var diffs := GetDiffId(fs);
      if diffs.Err? { return Fail(diffs.error); }
      var mntDiffs := GetMntDiffIds(fs);
      if mntDiffs.Err? { return Fail(mntDiffs.error); }
      var vols := GetVolumesName(fs);
      if vols.Err? { return Fail(vols.error); }
      var image := ImageIdOf(fs, fullCtid);
      if image.Err? { return Fail(image.error); }
      diffIds, mntDiffIds, volumes, imageId := diffs.value, mntDiffs.value, vols.value, image.value;
      r := Pass;
      assert Resolve(fs, ctId) == Ok(Resolved(fullCtid, mntId, diffIds, mntDiffIds, volumes, imageId));
    }

    /** `get_fs` (the path list only): fixed directories first, then the per-layer ones. */
    method GetFs(fs: FileSystem) returns (paths: seq<string>)
      ensures paths == PathList(dirs, ctConfigDir, dirs.imagemetaDir in fs.existing)
    {
      paths := [dirs.rootfs, dirs.initRootfs, ctConfigDir, dirs.layerdbDir, dirs.imageDir];
      paths := paths + dirs.layersDirs;
      paths := paths + dirs.diffDirs;
      paths := paths + dirs.volumesDirs;
      paths := paths + dirs.mntDiffDirs;
      if dirs.imagemetaDir in fs.existing {
        paths := paths + Chars(dirs.imagemetaDir);
      }
    }

    /** `root_task_pid`: the process the dumps target is named by the full id. */
    function RootTaskPid(): (pid: string)
      reads this
      ensures pid == fullCtid
    {
      fullCtid
    }

    /** `pre_dump`: run `docker checkpoint create --pre-dump`; a non-zero status raises. */
    method PreDump(img: Image, exec: seq<string> -> int) returns (r: Outcome<Error>)
      ensures r.Fail? <==> exec(PreDumpArgs(ctId, img)) != 0
      ensures r.Fail? ==> r.error == ToolFailed("docker pre_checkpoint failed")
    {
      var ret := exec(PreDumpArgs(ctId, img));
      if ret != 0 {
        return Fail(ToolFailed("docker pre_checkpoint failed"));
      }
      return Pass;
    }

    /** `final_dump`: a standalone dump in the first iteration, a parent-chained one later. */
    method FinalDump(img: Image, exec: seq<string> -> int) returns (r: Outcome<Error>)
      ensures r.Fail? <==> exec(FinalDumpArgs(ctId, img)) != 0
      ensures r.Fail? ==> r.error == ToolFailed("docker checkpoint failed")
    {
      var ret := 1;
      if img.currentIter <= 1 {
        ret := exec([DockerBin, "checkpoint", "create", "--checkpoint-dir=" + img.dir, ctId, CheckpointName(ctId)]);
      } else {
        var parentPath := "--parent-path=" + img.parentDir;
        ret := exec([DockerBin, "checkpoint", "create", "--checkpoint-dir=" + img.dir, parentPath, ctId, CheckpointName(ctId)]);
      }
      if ret != 0 {
        return Fail(ToolFailed("docker checkpoint failed"));
      }
      return Pass;
    }

    /** `final_restore`: `docker start` from the checkpoint; `ckDir` is only logged by the source. */
    method FinalRestore(img: Image, ckDir: string, exec: seq<string> -> int) returns (r: Outcome<Error>)
      ensures r.Fail? <==> exec(RestoreArgs(ctId, img)) != 0
      ensures r.Fail? ==> r.error == ToolFailed("docker restore failed")
    {
      var ret := exec(RestoreArgs(ctId, img));
      if ret != 0 {
        return Fail(ToolFailed("docker restore failed"));
      }
      return Pass;
    }
  }
}

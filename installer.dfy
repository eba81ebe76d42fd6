/** The enqueue logic of `installer.rs`: the Minecraft version metadata becomes a list
    of (URL, directory) download tasks on the installer's downloader, in the order
    assets, libraries, client, Fabric libraries, mods, and the queue is then drained.
    The HTTP JSON fetches are the `api` oracle; turning JSON into typed metadata
    (serde) is given as the decoder functions `decodeManifest` and `decodeVersionFile`. */
module Installer {
  import opened Wrappers
  import Paths
  import Urls
  import Json
  import Downloader

  /** One entry of the version manifest's `versions` list: a version id and the URL of
      its version file. */
  datatype VersionRef = VersionRef(id: string, url: string)

  datatype Manifest = Manifest(versions: seq<VersionRef>)

  /** A library rule, of which only the OS name is read. */
  datatype Rule = Rule(osName: string)

  /** A library of the version file: its artifact URL and its rules. */
  datatype Library = Library(url: string, rules: seq<Rule>)

  /** What the installer reads of a version file: the asset index URL, the client jar
      URL and the libraries. */
  datatype VersionFile = VersionFile(assetIndexUrl: string, clientUrl: string, libraries: seq<Library>)

  /** The `expect`s and `panic!`s of `Installer::new` and `install`. */
  datatype Panic =
    | UnsupportedOs            // `panic!("Unsupported OS")`
    | NoHomeDirectory          // `dirs::home_dir()` gave `None`
    | ManifestUndecodable      // "Failed to convert version manifest"
    | VersionNotFound          // "Unable to parse version manifest"
    | VersionFileUndecodable   // "Failed to convert version file"
    | ObjectsMissing           // "Failed to parse objects in the asset index"
    | HashNotString            // "Failed to parse hash from asset"
    | HashTooShort             // "Failed to name an asset"
    | WriteFailed              // `download_file`'s `fs::write(...).expect("Failed to create file")`

  /** The tasks an enqueue step pushes, and the panic that stopped it, if any. */
  datatype Plan = Plan(tasks: seq<Downloader.Download>, panic: Option<Panic>)

  type JsonApi = string -> seq<Downloader.Fetched<Json.Value>>

  const VersionManifestUrl := "https://piston-meta.mojang.com/mc/game/version_manifest_v2.json"
  const ResourcesHost := "resources.download.minecraft.net"

  /** The body `to_json(url)` returns. */
  function JsonAt(api: JsonApi, url: string): Json.Value
  {
    Downloader.LastDecoded(api(url), Downloader.FetchRounds, Json.Null)
  }

  /** `Installer::new`'s game directory: the home directory joined with ".pblm/", on the
      three supported systems only. */
  function GameDir(os: string, home: Option<string>): (r: Result<string, Panic>)
    ensures r.Ok? <==> os in {"linux", "macos", "windows"} && home.Some?
    ensures r.Ok? ==> Paths.EndsWithSeparator(r.value)
  {
    if os !in {"linux", "macos", "windows"} then Err(UnsupportedOs)
    else if home.None? then Err(NoHomeDirectory)
    else Ok(Paths.Join(home.value, ".pblm/"))
  }

  /** The position of the first version with id `id`, or `|versions|` when there is none. */
  function FirstWithId(versions: seq<VersionRef>, id: string): (k: nat)
    ensures k <= |versions|
    ensures k < |versions| ==> versions[k].id == id
    ensures forall j :: 0 <= j < k ==> versions[j].id != id
  {
    if versions == [] then 0
    else if versions[0].id == id then 0
    else 1 + FirstWithId(versions[1..], id)
  }

  /** `versions.into_iter().find(|ver| ver.id == minecraft_version)`. */
  function FindVersion(versions: seq<VersionRef>, id: string): (r: Option<VersionRef>)
    ensures r.None? <==> forall i :: 0 <= i < |versions| ==> versions[i].id != id
    ensures r.Some? ==> r.value.id == id && r.value == versions[FirstWithId(versions, id)]
  {
    var k := FirstWithId(versions, id);
    if k < |versions| then Some(versions[k]) else None
  }

  /** The version file of `version`, or the panic that stops `install` before enqueueing. */
  function Resolve(version: string, api: JsonApi, decodeManifest: Json.Value -> Option<Manifest>,
                   decodeVersionFile: Json.Value -> Option<VersionFile>): Result<VersionFile, Panic>
  {
    match decodeManifest(JsonAt(api, VersionManifestUrl))
    case None => Err(ManifestUndecodable)
    case Some(manifest) =>
      match FindVersion(manifest.versions, version)
      case None => Err(VersionNotFound)
      case Some(ref) =>
        match decodeVersionFile(JsonAt(api, ref.url))
        case None => Err(VersionFileUndecodable)
        case Some(versionFile) => Ok(versionFile)
  }

  /** The hash of an asset-index entry, `asset.1["hash"].as_str()`. */
  function HashOf(asset: (string, Json.Value)): Option<string>
  {
    Json.AsStr(Json.Get(asset.1, "hash"))
  }

  /** An entry whose hash is a string of at least two characters. */
  predicate Nameable(asset: (string, Json.Value))
  {
    HashOf(asset).Some? && |HashOf(asset).value| >= 2
  }

  /** The URL of an asset object: its hash under the directory named by the hash's first
      two characters. */
  function AssetUrl(hash: string): string
    requires |hash| >= 2
  {
    "https://" + (ResourcesHost + ("/" + hash[..2] + "/" + hash))
  }

  /** The task of an asset object: its URL, stored under `assets/objects/<hash[0..2]>`. */
  function AssetTask(gameDir: string, hash: string): Downloader.Download
    requires |hash| >= 2
  {
    Downloader.Download(AssetUrl(hash), Paths.Join(Paths.Join("", gameDir), "assets/objects/" + hash[..2]))
  }

  /** The hashes the object loop of `install_assets` reads, in iteration order, up to
      the first entry without a usable hash, and the panic that entry causes. */
  datatype Scan = Scan(hashes: seq<string>, panic: Option<Panic>)

  function ScanHashes(assets: seq<(string, Json.Value)>): (r: Scan)
    ensures |r.hashes| <= |assets|
    ensures Scanned(assets, r.hashes)
    ensures r.panic.None? ==> |r.hashes| == |assets|
    ensures r.panic.Some? ==> |r.hashes| < |assets| && !Nameable(assets[|r.hashes|])
    ensures r.panic.Some? ==> r.panic.value == if HashOf(assets[|r.hashes|]).None? then HashNotString else HashTooShort
  {
    if assets == [] then Scan([], None)
    else match HashOf(assets[0])
      case None => Scan([], Some(HashNotString))
      case Some(hash) =>
        if |hash| < 2 then Scan([], Some(HashTooShort))
        else
          var rest := ScanHashes(assets[1..]);
          ScannedCons(assets, hash, rest.hashes);
          Scan([hash] + rest.hashes, rest.panic)
  }

  /** `hashes` are the hashes of the first entries of `assets`, all usable. */
  predicate Scanned(assets: seq<(string, Json.Value)>, hashes: seq<string>)
  {
    |hashes| <= |assets| && forall i :: 0 <= i < |hashes| ==> Nameable(assets[i]) && hashes[i] == HashOf(assets[i]).value
  }

  lemma ScannedCons(assets: seq<(string, Json.Value)>, hash: string, rest: seq<string>)
    requires assets != [] && Nameable(assets[0]) && hash == HashOf(assets[0]).value
    requires Scanned(assets[1..], rest)
    ensures Scanned(assets, [hash] + rest)
  {
    forall i | 0 < i < |[hash] + rest| ensures Nameable(assets[i]) && ([hash] + rest)[i] == HashOf(assets[i]).value {
      assert assets[1..][i - 1] == assets[i];
    }
  }

  /** The scan in one statement: it panics exactly when some entry has no usable hash,
      at the first such entry, having read the hashes of all entries before it. */
  lemma ScanStopsAtFirstBadHash(assets: seq<(string, Json.Value)>, k: nat)
    requires k <= |assets|
    requires forall j :: 0 <= j < k ==> Nameable(assets[j])
    requires k == |assets| || !Nameable(assets[k])
    ensures |ScanHashes(assets).hashes| == k
    ensures ScanHashes(assets).panic.None? <==> k == |assets|
  {
  }

  /** A prefix of usable hashes is read in full: the scan gets past a usable entry `k`
      when all entries before it are usable. */
  lemma ScanCoversNameablePrefix(assets: seq<(string, Json.Value)>, k: nat)
    requires k < |assets|
    requires forall j :: 0 <= j < k ==> Nameable(assets[j])
    requires Nameable(assets[k])
    ensures |ScanHashes(assets).hashes| > k
  {
  }

  /** One task per scanned hash. */
  function AssetTasks(gameDir: string, hashes: seq<string>): (r: seq<Downloader.Download>)
    requires forall i :: 0 <= i < |hashes| ==> |hashes[i]| >= 2
    ensures |r| == |hashes|
  {
    seq(|hashes|, i requires 0 <= i < |hashes| => AssetTask(gameDir, hashes[i]))
  }

  /** The asset-index task, stored under `assets/indexes`. */
  function IndexTask(gameDir: string, versionFile: VersionFile): Downloader.Download
  {
    Downloader.Download(versionFile.assetIndexUrl, Paths.Join(gameDir, "assets/indexes"))
  }

  /** `install_assets` given the fetched asset index: the index task first, then the
      object tasks; a missing `objects` map panics after the index task. */
  function AssetsPlan(gameDir: string, versionFile: VersionFile, assetIndex: Json.Value): (r: Plan)
    ensures |r.tasks| >= 1 && r.tasks[0] == IndexTask(gameDir, versionFile)
    ensures Json.AsObject(Json.Get(assetIndex, "objects")).None? ==> r == Plan([IndexTask(gameDir, versionFile)], Some(ObjectsMissing))
  {
    match Json.AsObject(Json.Get(assetIndex, "objects"))
    case None => Plan([IndexTask(gameDir, versionFile)], Some(ObjectsMissing))
    case Some(objects) =>
      var scan := ScanHashes(objects);
      Plan([IndexTask(gameDir, versionFile)] + AssetTasks(gameDir, scan.hashes), scan.panic)
  }

  /** What `install_libraries` pushes onto the game directory for a library: chosen by
      its first rule's OS name, `libraries` when it has no rule, nothing for an unknown
      OS name. */
  function LibrarySubdir(library: Library): Option<string>
  {
    if library.rules == [] then Some("libraries")
    else if library.rules[0].osName == "linux" then Some("natives/linux")
    else if library.rules[0].osName == "osx" then Some("natives/osx")
    else if library.rules[0].osName == "windows" then Some("natives/windows")
    else None
  }

  /** The directory of a library: the game directory, with its subdirectory pushed. */
  function LibraryDir(gameDir: string, library: Library): string
  {
    var base := Paths.Join("", gameDir);
    match LibrarySubdir(library)
    case None => base
    case Some(sub) => Paths.Join(base, sub)
  }

  /** `install_libraries`: one task per library, in order. */
  function LibraryTasks(gameDir: string, libraries: seq<Library>): (r: seq<Downloader.Download>)
    ensures |r| == |libraries|
  {
    seq(|libraries|, i requires 0 <= i < |libraries| => Downloader.Download(libraries[i].url, LibraryDir(gameDir, libraries[i])))
  }

  /** `install_client`: the client jar, stored under `client`. */
  function ClientTask(gameDir: string, versionFile: VersionFile): Downloader.Download
  {
    Downloader.Download(versionFile.clientUrl, Paths.Join(Paths.Join("", gameDir), "client"))
  }

  /** `install_fabric` / `install_mods`: every URL of a list into one directory, in order. */
  function TasksInto(urls: seq<string>, dir: string): (r: seq<Downloader.Download>)
    ensures |r| == |urls|
  {
    seq(|urls|, i requires 0 <= i < |urls| => Downloader.Download(urls[i], dir))
  }

  function FabricDir(gameDir: string): string
  {
    Paths.Join(gameDir, "libraries/fabric")
  }

  function ModsDir(gameDir: string): string
  {
    Paths.Join(gameDir, "mods")
  }

  /** The enqueue steps of `install` once the version file is known: assets (which may
      panic), then libraries, the client, the Fabric libraries and the mods. */
  function EnqueuePlan(gameDir: string, versionFile: VersionFile, assetIndex: Json.Value,
                       fabricLibs: seq<string>, mods: seq<string>): Plan
  {
    var assets := AssetsPlan(gameDir, versionFile, assetIndex);
    if assets.panic.Some? then assets
    else Plan(assets.tasks + LibraryTasks(gameDir, versionFile.libraries) + [ClientTask(gameDir, versionFile)]
              + TasksInto(fabricLibs, FabricDir(gameDir)) + TasksInto(mods, ModsDir(gameDir)), None)
  }

  /** All enqueueing `install` does before it drains the queue. */
  function InstallPlan(gameDir: string, version: string, api: JsonApi,
                       decodeManifest: Json.Value -> Option<Manifest>,
                       decodeVersionFile: Json.Value -> Option<VersionFile>,
                       fabricLibs: seq<string>, mods: seq<string>): Plan
  {
    match Resolve(version, api, decodeManifest, decodeVersionFile)
    case Err(panic) => Plan([], Some(panic))
    case Ok(versionFile) => EnqueuePlan(gameDir, versionFile, JsonAt(api, versionFile.assetIndexUrl), fabricLibs, mods)
  }

  /** With a usable hash on every object, `install` enqueues nothing else and panics on
      nothing: the asset index, one task per object, one per library, the client, one
      per Fabric library and one per mod, in that order. */
  lemma InstallQueueLayout(gameDir: string, versionFile: VersionFile, assetIndex: Json.Value,
                           objects: seq<(string, Json.Value)>, fabricLibs: seq<string>, mods: seq<string>)
    requires Json.AsObject(Json.Get(assetIndex, "objects")) == Some(objects)
    requires forall i :: 0 <= i < |objects| ==> Nameable(objects[i])
    ensures var plan := EnqueuePlan(gameDir, versionFile, assetIndex, fabricLibs, mods);
      var o, l := |objects|, |versionFile.libraries|;
      && plan.panic.None?
      && |plan.tasks| == 1 + o + l + 1 + |fabricLibs| + |mods|
      && plan.tasks[0] == IndexTask(gameDir, versionFile)
      && (forall i :: 0 <= i < o ==> plan.tasks[1 + i] == AssetTask(gameDir, HashOf(objects[i]).value))
      && (forall i :: 0 <= i < l ==> plan.tasks[1 + o + i] == Downloader.Download(versionFile.libraries[i].url, LibraryDir(gameDir, versionFile.libraries[i])))
      && plan.tasks[1 + o + l] == ClientTask(gameDir, versionFile)
      && (forall i :: 0 <= i < |fabricLibs| ==> plan.tasks[2 + o + l + i] == Downloader.Download(fabricLibs[i], FabricDir(gameDir)))
      && (forall i :: 0 <= i < |mods| ==> plan.tasks[2 + o + l + |fabricLibs| + i] == Downloader.Download(mods[i], ModsDir(gameDir)))
  {
    ScanStopsAtFirstBadHash(objects, |objects|);
    var plan := EnqueuePlan(gameDir, versionFile, assetIndex, fabricLibs, mods);
    var assets := [IndexTask(gameDir, versionFile)] + AssetTasks(gameDir, ScanHashes(objects).hashes);
    var libraries := LibraryTasks(gameDir, versionFile.libraries);
    var fabric := TasksInto(fabricLibs, FabricDir(gameDir));
    var modTasks := TasksInto(mods, ModsDir(gameDir));
    assert plan.tasks == assets + libraries + [ClientTask(gameDir, versionFile)] + fabric + modTasks;
    FiveParts(assets, libraries, ClientTask(gameDir, versionFile), fabric, modTasks);
  }

  /** Where each part of `a + b + [c] + d + e` lies. */
  lemma FiveParts<T>(a: seq<T>, b: seq<T>, c: T, d: seq<T>, e: seq<T>)
    ensures var s := a + b + [c] + d + e;
      && |s| == |a| + |b| + 1 + |d| + |e|
      && (forall i :: 0 <= i < |a| ==> s[i] == a[i])
      && (forall i :: 0 <= i < |b| ==> s[|a| + i] == b[i])
      && s[|a| + |b|] == c
      && (forall i :: 0 <= i < |d| ==> s[|a| + |b| + 1 + i] == d[i])
      && (forall i :: 0 <= i < |e| ==> s[|a| + |b| + 1 + |d| + i] == e[i])
  {
  }

  /** An object without a usable hash panics `install` before any library, client, Fabric
      or mod task is pushed, and before the drain. */
  lemma BadHashStopsInstall(gameDir: string, versionFile: VersionFile, assetIndex: Json.Value,
                            objects: seq<(string, Json.Value)>, fabricLibs: seq<string>, mods: seq<string>, k: nat)
    requires Json.AsObject(Json.Get(assetIndex, "objects")) == Some(objects)
    requires k < |objects| && !Nameable(objects[k])
    requires forall j :: 0 <= j < k ==> Nameable(objects[j])
    ensures var plan := EnqueuePlan(gameDir, versionFile, assetIndex, fabricLibs, mods);
      && plan.panic == Some(if HashOf(objects[k]).None? then HashNotString else HashTooShort)
      && |plan.tasks| == 1 + k
      && plan.tasks[0] == IndexTask(gameDir, versionFile)
      && (forall i :: 0 <= i < k ==> plan.tasks[1 + i] == AssetTask(gameDir, HashOf(objects[i]).value))
  {
    ScanStopsAtFirstBadHash(objects, k);
  }

  lemma ResourcesHostIsPlain()
    ensures ResourcesHost != [] && '/' !in ResourcesHost && '?' !in ResourcesHost && '#' !in ResourcesHost
  {
  }

  /** The last path segment of an asset URL is the hash itself. */
  lemma AssetUrlNamesHash(hash: string)
    requires |hash| >= 2 && '/' !in hash && '?' !in hash && '#' !in hash
    ensures Urls.FileName(AssetUrl(hash)) == Some(hash)
  {
    ResourcesHostIsPlain();
    Urls.FileNameOfHttps(ResourcesHost, hash[..2], hash);
  }

  /** The directory of an asset object, below a game directory that ends in a separator. */
  lemma ObjectDirUnderGameDir(gameDir: string, prefix: string)
    requires Paths.EndsWithSeparator(gameDir)
    requires |prefix| == 2 && prefix[1] != '/'
    ensures Paths.Join(Paths.Join("", gameDir), "assets/objects/" + prefix) == gameDir + "assets/objects/" + prefix
    ensures !Paths.EndsWithSeparator(gameDir + "assets/objects/" + prefix)
  {
    assert Paths.Join("", gameDir) == gameDir;
    var dir := "assets/objects/" + prefix;
    assert !Paths.IsAbsolute(dir);
    Paths.JoinAfterSeparator(gameDir, dir);
    assert gameDir + dir == gameDir + "assets/objects/" + prefix;
  }

  /** With a game directory ending in a separator, an asset object's task is fetched by
      the download engine into `<game_dir>assets/objects/<hash[0..2]>/<hash>`. */
  lemma AssetObjectLandsUnderHashPrefix(gameDir: string, hash: string)
    requires Paths.EndsWithSeparator(gameDir)
    requires |hash| >= 2 && '/' !in hash && '?' !in hash && '#' !in hash
    ensures Downloader.Storable(AssetTask(gameDir, hash))
    ensures Downloader.Destination(AssetTask(gameDir, hash)) == gameDir + "assets/objects/" + hash[..2] + "/" + hash
  {
    AssetUrlNamesHash(hash);
    assert hash[..2][1] == hash[1];
    ObjectDirUnderGameDir(gameDir, hash[..2]);
    var objectDir := gameDir + "assets/objects/" + hash[..2];
    assert hash[0] != '/';
    assert Paths.Join(objectDir, hash) == objectDir + "/" + hash;
  }

  /** The library directory follows the first rule alone, and each outcome identifies
      its case (both directions). */
  lemma LibraryDirByFirstRule(gameDir: string, library: Library)
    requires Paths.EndsWithSeparator(gameDir)
    ensures LibraryDir(gameDir, library) == gameDir + "libraries" <==> library.rules == []
    ensures LibraryDir(gameDir, library) == gameDir + "natives/linux" <==> library.rules != [] && library.rules[0].osName == "linux"
    ensures LibraryDir(gameDir, library) == gameDir + "natives/osx" <==> library.rules != [] && library.rules[0].osName == "osx"
    ensures LibraryDir(gameDir, library) == gameDir + "natives/windows" <==> library.rules != [] && library.rules[0].osName == "windows"
    ensures LibraryDir(gameDir, library) == gameDir
        <==> library.rules != [] && library.rules[0].osName !in {"linux", "osx", "windows"}
  {
    var sub := match LibrarySubdir(library) case None => "" case Some(sub) => sub;
    LibraryDirUnderGameDir(gameDir, library);
    AppendCancels(gameDir, sub, "libraries");
    AppendCancels(gameDir, sub, "natives/linux");
    AppendCancels(gameDir, sub, "natives/osx");
    AppendCancels(gameDir, sub, "natives/windows");
    AppendCancels(gameDir, sub, "");
    assert gameDir + "" == gameDir;
  }

  /** Below a game directory ending in the separator, a library directory is the game
      directory followed by the library's subdirectory, if any. */
  lemma LibraryDirUnderGameDir(gameDir: string, library: Library)
    requires Paths.EndsWithSeparator(gameDir)
    ensures LibraryDir(gameDir, library) == gameDir + match LibrarySubdir(library) case None => "" case Some(sub) => sub
  {
    assert Paths.Join("", gameDir) == gameDir;
    match LibrarySubdir(library) {
      case None => assert gameDir + "" == gameDir;
      case Some(sub) => Paths.JoinAfterSeparator(gameDir, sub);
    }
  }

  lemma AppendCancels(p: string, a: string, b: string)
    ensures p + a == p + b <==> a == b
  {
    if p + a == p + b {
      assert (p + a)[|p|..] == a && (p + b)[|p|..] == b;
    }
  }

  /** Appending the next element of `s` to `start + s[..i]`. */
  lemma PrefixGrows<T>(start: seq<T>, s: seq<T>, i: nat)
    requires i < |s|
    ensures start + s[..i + 1] == start + s[..i] + [s[i]]
  {
    assert s[..i + 1] == s[..i] + [s[i]];
  }

  lemma Concatenation<T>(a: seq<T>, b: seq<T>, c: seq<T>)
    ensures a + b + c == a + (b + c)
  {
  }

  /** The queue after the enqueue steps is the earlier queue followed by their tasks. */
  lemma QueueOfSteps<T>(queue: seq<T>, a: seq<T>, b: seq<T>, c: seq<T>, d: seq<T>, e: seq<T>)
    ensures queue + a + b + c + d + e == queue + (a + b + c + d + e)
  {
    calc {
      queue + a + b + c + d + e;
      { Concatenation(queue, a, b); }
      queue + (a + b) + c + d + e;
      { Concatenation(queue, a + b, c); }
      queue + (a + b + c) + d + e;
      { Concatenation(queue, a + b + c, d); }
      queue + (a + b + c + d) + e;
      { Concatenation(queue, a + b + c + d, e); }
      queue + (a + b + c + d + e);
    }
  }

  /** `struct Installer`: the version to install, the OS and game directory, and the
      downloader whose queue the enqueue steps fill. */
  class Installer {
    const minecraftVersion: string
    const os: string
    const gameDir: string
    const downloader: Downloader.Downloader

    /** The fields of `Installer::new` once the game directory is known. */
    constructor (minecraftVersion: string, os: string, gameDir: string)
      ensures this.minecraftVersion == minecraftVersion && this.os == os && this.gameDir == gameDir
      ensures fresh(downloader) && downloader.queue == []
    {
      this.minecraftVersion := minecraftVersion;
      this.os := os;
      this.gameDir := gameDir;
      downloader := new Downloader.Downloader();
    }

    /** `install_assets`: push the index task, fetch the index, push one task per object. */
    method InstallAssets(versionFile: VersionFile, api: JsonApi) returns (panic: Option<Panic>)
      modifies downloader
      ensures var plan := AssetsPlan(gameDir, versionFile, JsonAt(api, versionFile.assetIndexUrl));
        downloader.queue == old(downloader.queue) + plan.tasks && panic == plan.panic
    {
      var indexPath := Paths.Join(gameDir, "assets/indexes");
      downloader.PushToQueue(versionFile.assetIndexUrl, indexPath);
      var assetIndex, _ := Downloader.ToJson(api(versionFile.assetIndexUrl));
      var assets := Json.AsObject(Json.Get(assetIndex, "objects"));
      if assets.None? {
        return Some(ObjectsMissing);
      }
      var objects := assets.value;
      ghost var scan := ScanHashes(objects);
      ghost var all := AssetTasks(gameDir, scan.hashes);
      ghost var start := downloader.queue;
      for i := 0 to |objects|
        invariant forall j :: 0 <= j < i ==> Nameable(objects[j])
        invariant i <= |all| && downloader.queue == start + all[..i]
      {
        var hash := HashOf(objects[i]);
        if hash.None? {
          ScanStopsAtFirstBadHash(objects, i);
          assert all[..i] == all;
          Concatenation(old(downloader.queue), [IndexTask(gameDir, versionFile)], all);
          return Some(HashNotString);
        }
        if |hash.value| < 2 {
          ScanStopsAtFirstBadHash(objects, i);
          assert all[..i] == all;
          Concatenation(old(downloader.queue), [IndexTask(gameDir, versionFile)], all);
          return Some(HashTooShort);
        }
        ScanCoversNameablePrefix(objects, i);
        assert scan.hashes[i] == hash.value;
        var prefix := hash.value[..2];
        var path := Paths.Join("", gameDir);
        path := Paths.Join(path, "assets/objects/" + prefix);
        var url := "https://" + (ResourcesHost + ("/" + prefix + "/" + hash.value));
        assert Downloader.Download(url, path) == AssetTask(gameDir, hash.value) == all[i];
        downloader.PushToQueue(url, path);
        PrefixGrows(start, all, i);
      }
      ScanStopsAtFirstBadHash(objects, |objects|);
      assert all[..|objects|] == all;
      Concatenation(old(downloader.queue), [IndexTask(gameDir, versionFile)], all);
      return None;
    }

    /** `install_client`. */
    method InstallClient(versionFile: VersionFile)
      modifies downloader
      ensures downloader.queue == old(downloader.queue) + [ClientTask(gameDir, versionFile)]
    {
      var path := Paths.Join("", gameDir);
      path := Paths.Join(path, "client");
      downloader.PushToQueue(versionFile.clientUrl, path);
    }

    /** `install_libraries`: the loop over the libraries; an unknown OS name is only
        logged, and the task is pushed with the game directory. */
    method InstallLibraries(versionFile: VersionFile)
      modifies downloader
      ensures downloader.queue == old(downloader.queue) + LibraryTasks(gameDir, versionFile.libraries)
    {
      var libraries := versionFile.libraries;
      ghost var all := LibraryTasks(gameDir, libraries);
      ghost var start := downloader.queue;
      for i := 0 to |libraries|
        invariant downloader.queue == start + all[..i]
      {
        var library := libraries[i];
        var path := Paths.Join("", gameDir);
        if library.rules != [] {
          var name := library.rules[0].osName;
          if name == "linux" {
            path := Paths.Join(path, "natives/linux");
          } else if name == "osx" {
            path := Paths.Join(path, "natives/osx");
          } else if name == "windows" {
            path := Paths.Join(path, "natives/windows");
          }
        } else {
          path := Paths.Join(path, "libraries");
        }
        downloader.PushToQueue(library.url, path);
        PrefixGrows(start, all, i);
      }
      assert all[..|libraries|] == all;
    }

    /** The shared loop of `install_fabric` and `install_mods`. */
    method PushAllInto(urls: seq<string>, dir: string)
      modifies downloader
      ensures downloader.queue == old(downloader.queue) + TasksInto(urls, dir)
    {
      ghost var all := TasksInto(urls, dir);
      ghost var start := downloader.queue;
      for i := 0 to |urls|
        invariant downloader.queue == start + all[..i]
      {
        downloader.PushToQueue(urls[i], dir);
        PrefixGrows(start, all, i);
      }
      assert all[..|urls|] == all;
    }

    /** `install_fabric`, with `get_fabric_libs()` as the list. */
    method InstallFabric(fabricLibs: seq<string>)
      modifies downloader
      ensures downloader.queue == old(downloader.queue) + TasksInto(fabricLibs, FabricDir(gameDir))
    {
      PushAllInto(fabricLibs, FabricDir(gameDir));
    }

    /** `install_mods`, with `get_mod_list()` as the list. */
    method InstallMods(mods: seq<string>)
      modifies downloader
      ensures downloader.queue == old(downloader.queue) + TasksInto(mods, ModsDir(gameDir))
    {
      PushAllInto(mods, ModsDir(gameDir));
    }

    /** The enqueue part of `install`: resolve the version file, then run the enqueue
        steps in order; the queue gains exactly the tasks of the plan. */
    method Enqueue(api: JsonApi, decodeManifest: Json.Value -> Option<Manifest>,
                   decodeVersionFile: Json.Value -> Option<VersionFile>,
                   fabricLibs: seq<string>, mods: seq<string>)
      returns (panic: Option<Panic>)
      modifies downloader
      ensures var plan := InstallPlan(gameDir, minecraftVersion, api, decodeManifest, decodeVersionFile, fabricLibs, mods);
        downloader.queue == old(downloader.queue) + plan.tasks && panic == plan.panic
    {
      var manifestJson, _ := Downloader.ToJson(api(VersionManifestUrl));
      var manifest := decodeManifest(manifestJson);
      if manifest.None? {
        return Some(ManifestUndecodable);
      }
      var version := FindVersion(manifest.value.versions, minecraftVersion);
      if version.None? {
        return Some(VersionNotFound);
      }
      var versionJson, _ := Downloader.ToJson(api(version.value.url));
      var versionFile := decodeVersionFile(versionJson);
      if versionFile.None? {
        return Some(VersionFileUndecodable);
      }
      panic := InstallAssets(versionFile.value, api);
      if panic.Some? {
        return panic;
      }
      ghost var assetTasks := downloader.queue[|old(downloader.queue)|..];
      assert downloader.queue == old(downloader.queue) + assetTasks;
      InstallLibraries(versionFile.value);
      InstallClient(versionFile.value);
      InstallFabric(fabricLibs);
      InstallMods(mods);
      QueueOfSteps(old(downloader.queue), assetTasks, LibraryTasks(gameDir, versionFile.value.libraries),
                   [ClientTask(gameDir, versionFile.value)], TasksInto(fabricLibs, FabricDir(gameDir)), TasksInto(mods, ModsDir(gameDir)));
    }

    /** `install`: the enqueue steps, then the drain. A panic before the drain leaves the
        files untouched; after a drain without a panic the queue is empty. */
    method Install(net: string -> seq<Downloader.Reply>, api: JsonApi,
                   decodeManifest: Json.Value -> Option<Manifest>,
                   decodeVersionFile: Json.Value -> Option<VersionFile>,
                   fabricLibs: seq<string>, mods: seq<string>, files: Downloader.Files)
      returns (files': Downloader.Files, panic: Option<Panic>)
      modifies downloader
      ensures var plan := InstallPlan(gameDir, minecraftVersion, api, decodeManifest, decodeVersionFile, fabricLibs, mods);
        && (plan.panic.Some? ==> files' == files && panic == plan.panic && downloader.queue == old(downloader.queue) + plan.tasks)
        && (plan.panic.None? ==>
              var pushed := old(downloader.queue) + plan.tasks;
              var drained := Downloader.Drain(pushed, net, files);
              && files' == drained.files && panic == (if drained.panicked then Some(WriteFailed) else None)
              && downloader.queue == pushed[..|pushed| - drained.calls]
              && (!drained.panicked ==> downloader.queue == []))
    {
      panic := Enqueue(api, decodeManifest, decodeVersionFile, fabricLibs, mods);
      if panic.Some? {
        return files, panic;
      }
      var calls, panicked;
      files', calls, panicked := downloader.DownloadQueue(net, files);
      panic := if panicked then Some(WriteFailed) else None;
    }
  }

  /** `Installer::new` for the version to install, the running OS and the user's home
      directory. */
  method NewInstaller(minecraftVersion: string, os: string, home: Option<string>) returns (r: Result<Installer, Panic>)
    ensures r.Err? <==> GameDir(os, home).Err?
    ensures r.Err? ==> r.error == GameDir(os, home).error
    ensures r.Ok? ==> && r.value.gameDir == GameDir(os, home).value && r.value.os == os
                      && r.value.minecraftVersion == minecraftVersion
                      && fresh(r.value.downloader) && r.value.downloader.queue == []
  {
    var gameDir := GameDir(os, home);
    if gameDir.Err? {
      return Err(gameDir.error);
    }
    var installer := new Installer(minecraftVersion, os, gameDir.value);
    return Ok(installer);
  }
}

# PBLM Launcher: download engine, installer queue and launch arguments in Dafny

This project models the core of the PBLM Minecraft launcher back end, which has three parts.

**Download engine** (`downloader.rs`):
- A `Downloader` holds a queue of `(url, directory)` tasks.
- `push_to_queue` appends a task.
- `download_queue` pops tasks from the end until the queue is empty, calling `download_file` on each.
- `download_file` is a loop of at most nine attempts:
  - it names the file after the URL's last path segment;
  - it skips the download when that file already exists;
  - it retries on every parse, transport, status or body error;
  - it writes the first delivered body.
- `to_text` and `to_json` always make ten requests and keep the last decoded body.

**Installer** (`installer.rs`):
- Finds the requested version in the version manifest.
- Enqueues, in this order:
  - the asset index and one task per asset object, under a directory named by the first two characters of the object's hash;
  - one task per library, in a directory chosen by its first OS rule;
  - the client jar;
  - the Fabric libraries;
  - the mods.
- Then drains the queue.

**Launcher** (`launcher.rs`):
- Builds the game's directory strings by concatenation onto the game directory.
- Grows the classpath from three directory walks, each entry followed by the OS's separator.
- Assembles the fixed 32-element argument vector for `java`.

The model is imperative where the code is:
- `Downloader` is a class whose `queue` field `PushToQueue` and `DownloadQueue` change.
- `Installer` is a class whose enqueue methods push onto its downloader.
- The retry loop, the fetch loops, the enqueue loops and the classpath loops are `for`/`while` loops.

Each method is proved against a function that specifies it:
- `DownloadEffect`, `Drain`, `LastDecoded`, `AssetsPlan`, `LibraryTasks`, `TasksInto`, `InstallPlan`, `AppendWalk` and `Launch`.

The properties of the code are lemmas about those functions.

The outside world is given as inputs:
- The network is a function from URL to the replies its server gives to successive requests. Every `download_file` call on a URL reads that sequence from its start (see `Downloader.Drain` under "## Left out").
- JSON endpoints are a function from URL to per-request decode outcomes.
- The file system is a map from path to bytes.
- Each directory walk is a function from directory to the entries `WalkDir` yields.
- Serde decoding of the manifest and the version file are decoder functions.
- The Fabric and mod lists are sequences.
- The `expect`s and `panic!`s of the modelled code that depend on the inputs above become explicit outcomes: a `panicked` flag, or a `Panic` value in a `Result`/`Option`. Three kinds are not modelled (see "## Left out"): the file-system failures of `download_file` other than an empty file name, the `to_str` of a downloaded file's path, and the `window.emit` calls of `install`.

Behaviour of the code that is easy to misread, which the model follows:
- A library whose first rule names an OS other than `linux`, `osx` or `windows` is only logged, and then its task is still pushed, with the game directory itself as directory (src-tauri/src/installer.rs:184-188). It is not dropped.
- A failed file write is an `expect` (src-tauri/src/downloader.rs:111-112). It panics and ends `download_queue`; the queue does not go on.
  - This happens when the URL's last segment is empty, because the destination is then the directory itself.
- `download_file` never reports an error (src-tauri/src/downloader.rs:119): exhausted retries leave the file missing and the queue goes on.
- The launcher's paths are the game directory concatenated with `assets`, `client`, `libraries` or `natives/<os>`, with no separator inserted (src-tauri/src/launcher.rs:20-39).
  - They agree with the installer's `PathBuf` paths only because the game directory ends in `/` (`LauncherWalksInstallerDirs`).
- The `-DFabricMcEmu=...`, `-Xmx6G` and `-XX:` options are placed after the main class (src-tauri/src/launcher.rs:109-117). `java` reads options only before the main class, so it passes these to the main class as program arguments (`JvmOptionsFollowMainClass`). The model keeps the order the code has.

Files:
- `wrappers.dfy`
- `strings.dfy`: `str::split`, prefix scans.
- `paths.dfy`: `PathBuf::push`.
- `urls.dfy`: the part of `Url::parse` and `path_segments` that names a downloaded file.
- `json.dfy`: the `serde_json::Value` indexing the installer does.
- `downloader.dfy`
- `installer.dfy`
- `launcher.dfy`

## Model

| member | source | states |
|---|---|---|
| Paths.Join | src-tauri/src/downloader.rs:74-75 | `PathBuf::push` on Unix, also used by the installer at installer.rs:133-134, 148-153, 166-168, 177-187, 198-199 and 210-211; a definition, with its properties proved in `Paths.JoinShape` |
| Paths.JoinShape | src-tauri/src/downloader.rs:74-75 | `PathBuf::push`: an absolute component replaces the path; a relative one is appended directly when the base is empty or ends in `/`, and after one inserted `/` otherwise; in both cases the base is a prefix and the component the suffix |
| Paths.JoinAfterSeparator | src-tauri/src/installer.rs:133-134 | below a directory ending in `/`, pushing a relative component is plain concatenation |
| Paths.JoinedNameIsLastComponent | src-tauri/src/downloader.rs:74-75 | the pushed file name is the last `/`-piece of the destination path |
| Strings.Split | src-tauri/src/downloader.rs:56-63 | splitting yields at least one piece, and no piece holds the separator |
| Strings.SplitAround | src-tauri/src/downloader.rs:65-72 | whatever follows the last separator is the last piece |
| Strings.PrefixBefore | src-tauri/src/downloader.rs:47-54 | the result is the longest prefix free of the stop characters: it is a prefix, holds no stop, and is followed by a stop or the end |
| Urls.LowerAscii | src-tauri/src/downloader.rs:47-54 | scheme lower-casing keeps the length and maps each character by ASCII lower-casing |
| Urls.Parse | src-tauri/src/downloader.rs:47-54 | a parsed URL has a valid scheme; a special scheme (`http`, `https`, ...) always has a non-empty host and a path starting with `/` |
| Urls.IsSpecial | src-tauri/src/downloader.rs:47 | the special schemes of the URL standard, compared lower-cased; a specification helper, no contract |
| Urls.DropSlashes | src-tauri/src/downloader.rs:47 | the slashes after a special scheme's `:` are skipped, so the rest does not start with `/` |
| Urls.ParseScheme | src-tauri/src/downloader.rs:47-54 | the scheme scan yields only valid schemes and the special-scheme guarantees |
| Urls.ParseSchemeReads | src-tauri/src/downloader.rs:47-54 | scheme characters before the `:` are read into the scheme |
| Urls.ParseReadsScheme | src-tauri/src/downloader.rs:47-54 | a valid scheme followed by `:` is parsed as that scheme, with what follows up to the query or fragment |
| Urls.ParseAfterScheme | src-tauri/src/downloader.rs:47-54 | the scheme is kept; under a special scheme the host is non-empty and the path is absolute |
| Urls.ParseHttps | src-tauri/src/downloader.rs:47-54 | `https://host/path` without query or fragment parses to that host and path |
| Urls.PathSegments | src-tauri/src/downloader.rs:56-63 | `path_segments`, when it yields segments, yields at least one, so `last()` cannot fail |
| Urls.FileName | src-tauri/src/downloader.rs:47-72 | the name taken from a URL never holds `/` |
| Urls.FileNameOfParsed | src-tauri/src/downloader.rs:56-72 | proof step: unfolds `FileName` for a URL already parsed with an absolute path, giving the last piece of that path |
| Urls.FileNameOfHttps | src-tauri/src/downloader.rs:47-72 | an `https` URL ending in `/dir/name` yields exactly `name` |
| Json.Lookup | src-tauri/src/installer.rs:144-149 | a non-null result is the value of a member with that key |
| Json.LookupMissingKey | src-tauri/src/installer.rs:144-149 | a key no member has gives `Null` |
| Json.LookupFirstMember | src-tauri/src/installer.rs:144-149 | a present key gives the value of its first member |
| Json.AsObject | src-tauri/src/installer.rs:144 | `as_object`: the members of an object, and nothing for any other value; a definition, used by `AssetsPlan` |
| Json.AsStr | src-tauri/src/installer.rs:149 | `as_str`: the text of a string, and nothing for any other value; a definition, used by `HashOf` |
| Json.Get | src-tauri/src/installer.rs:144-149 | indexing a non-object gives `Null` |
| Json.GetMember | src-tauri/src/installer.rs:144-149 | indexing an object: a missing key gives `Null`, a present key gives the value of its first member |
| Downloader.ReplyAt | src-tauri/src/downloader.rs:82-104 | the reply to the `k`-th request, with a failed send past the known replies; a specification helper, no contract |
| Downloader.Delivery | src-tauri/src/downloader.rs:82-104 | the body of the first delivering attempt within nine, if any; a specification helper, no contract |
| Downloader.FirstDelivery | src-tauri/src/downloader.rs:82-116 | the request found delivers status 200 and a body, no earlier one does; with none found, no request in the range delivers |
| Downloader.FirstDeliveryIsFirst | src-tauri/src/downloader.rs:82-116 | the first delivering request within nine attempts is the one the loop stops at |
| Downloader.Target | src-tauri/src/downloader.rs:47-75 | the path `download_file` can write: the directory joined with the URL's file name; a definition, used by `DownloadEffectFrame` and `DrainLeavesOtherPaths` |
| Downloader.DownloadEffect | src-tauri/src/downloader.rs:45-120 | at most nine attempts, never more requests than attempts; at most the destination `path/name` is added to the files |
| Downloader.EmptyNameDeliveryPanics | src-tauri/src/downloader.rs:74-112 | a URL with an empty last segment, a directory that is not a file and a delivering attempt make the write panic |
| Downloader.DownloadEffectFrame | src-tauri/src/downloader.rs:45-120 | every existing file `download_file` cannot target keeps its contents, and it panics only when the URL's file name is empty |
| Downloader.DownloadFile | src-tauri/src/downloader.rs:45-120 | the retry loop with its `continue`s and `break`s has exactly the effect `DownloadEffect` describes |
| Downloader.UnnamedUrlWritesNothing | src-tauri/src/downloader.rs:46-72 | a URL that names no file takes all nine attempts, sends no request and writes nothing |
| Downloader.ExistingFileIsSkipped | src-tauri/src/downloader.rs:74-80 | an existing destination stops at the first attempt with no request and no write |
| Downloader.FailedAttemptsWriteNothing | src-tauri/src/downloader.rs:82-104 | when no reply delivers, all nine requests are sent and the files are unchanged |
| Downloader.FirstDeliveryIsStored | src-tauri/src/downloader.rs:82-116 | the first delivering attempt `k` writes its body at `path/name`, after exactly `k + 1` requests |
| Downloader.DownloadIsIdempotent | src-tauri/src/downloader.rs:74-80 | after a file was stored, downloading it again sends nothing and changes nothing, whatever the server answers |
| Downloader.Drain | src-tauri/src/downloader.rs:177-188 | the drain makes one call per task, unless a call panics, which ends it after at least one call |
| Downloader.DrainPopsLast | src-tauri/src/downloader.rs:178-181 | proof step: unfolds `Drain` once, popping the last task and stopping on its panic or going on with the rest |
| Downloader.DrainContinues | src-tauri/src/downloader.rs:178-181 | after the popped task's call, the total of a drain is reached from the rest of the queue |
| Downloader.Reversed | src-tauri/src/downloader.rs:177-188 | the reversal of a sequence, each element at the mirrored position; the reference order for `DrainRunsInReversePushOrder` |
| Downloader.RunInOrder | src-tauri/src/downloader.rs:177-188 | downloading tasks front to back, stopping at a panic; an independent reference definition for `Drain`, no contract |
| Downloader.Storable | src-tauri/src/downloader.rs:65-75 | the URL names a non-empty file; a specification helper, no contract |
| Downloader.Destination | src-tauri/src/downloader.rs:74-75 | a storable task's `Target`; a specification helper, no contract |
| Downloader.DrainRunsInReversePushOrder | src-tauri/src/downloader.rs:177-188 | draining gives the same result as running the tasks front to back in reverse push order |
| Downloader.StorableTaskStep | src-tauri/src/downloader.rs:74-116 | a task with a non-empty file name and a fresh destination never panics, and stores exactly its first delivered body, if any |
| Downloader.DrainStoresLast | src-tauri/src/downloader.rs:178-181 | the drain of a queue whose last task is storable first stores that task's delivery |
| Downloader.DrainKeepsExistingFiles | src-tauri/src/downloader.rs:177-188 | for any queue, a file that exists when the drain starts is still there afterwards with the same contents, because each `download_file` skips an existing destination (downloader.rs:77-79) |
| Downloader.DrainLeavesOtherPaths | src-tauri/src/downloader.rs:177-188 | for any queue (duplicates and existing files included), a path no task can target is present after the drain exactly when it was before, with the same contents |
| Downloader.StorableQueueDrainsFully | src-tauri/src/downloader.rs:177-188 | for any files and servers, a queue of tasks with non-empty file names never panics and gets exactly one `download_file` call per task |
| Downloader.DeliveredOnlyAtDestinations | src-tauri/src/downloader.rs:177-188 | the map of delivered files (the specification `DrainWritesDeliveredFiles` compares the drain against) has keys only at the tasks' destinations |
| Downloader.DeliveredFilesPopsLast | src-tauri/src/downloader.rs:178-181 | proof step: unfolds `DeliveredFiles` once, the last task's delivery over those of the rest |
| Downloader.DrainWritesDeliveredFiles | src-tauri/src/downloader.rs:177-188 | with distinct, absent destinations, a drain makes exactly one call per task, does not panic, and ends with the old files plus exactly the delivered bodies: a failed task does not stop the others |
| Downloader.NothingDecodedGivesDefault | src-tauri/src/downloader.rs:122-148 | with no decoded round, the initial `""` or `Null` is returned |
| Downloader.LastDecodedRoundWins | src-tauri/src/downloader.rs:150-175 | the last decoded round gives the result; earlier successes are overwritten |
| Downloader.LastDecoded | src-tauri/src/downloader.rs:122-175 | the result of `to_text` and `to_json`: the value of the last of the first `n` rounds that decoded, or the default; a definition, with its properties proved in `NothingDecodedGivesDefault` and `LastDecodedRoundWins` |
| Downloader.ToText | src-tauri/src/downloader.rs:122-148 | exactly ten requests; the text of the last decoded round, or `""` |
| Downloader.ToJson | src-tauri/src/downloader.rs:150-175 | exactly ten requests; the value of the last decoded round, or `Null` |
| Downloader.Downloader.constructor | src-tauri/src/downloader.rs:26-33 | a new downloader has an empty queue |
| Downloader.Downloader.PushToQueue | src-tauri/src/downloader.rs:35-43 | exactly one task `Download(url, path)` is appended at the end, and the earlier tasks are unchanged |
| Downloader.Downloader.DownloadNext | src-tauri/src/downloader.rs:179-181 | one turn of the loop pops exactly the last task and downloads it, and the drain total is kept |
| Downloader.Downloader.DownloadQueue | src-tauri/src/downloader.rs:177-188 | the loop ends with the files, call count and panic of `Drain`; the queue loses exactly one task per call, so it is empty when nothing panicked |
| Downloader.PushThenDrain | src-tauri/src/downloader.rs:177-188 | one task pushed on a fresh downloader and drained puts the delivered body at the directory joined with the URL's last segment, and changes nothing else |
| Installer.HashOf | src-tauri/src/installer.rs:149-150 | `asset.1["hash"].as_str()`; a definition, read by `ScanHashes` |
| Installer.AssetUrl | src-tauri/src/installer.rs:154-158 | the object URL; a definition, with its file name proved in `AssetUrlNamesHash` |
| Installer.AssetTask | src-tauri/src/installer.rs:148-160 | an object's task; a definition, with its destination proved in `AssetObjectLandsUnderHashPrefix` |
| Installer.IndexTask | src-tauri/src/installer.rs:133-135 | the asset-index task under `assets/indexes`; a definition, placed first by `AssetsPlan` |
| Installer.ClientTask | src-tauri/src/installer.rs:165-170 | the client task under `client`; a definition, placed by `InstallQueueLayout` and matched to the launcher by `LauncherWalksInstallerDirs` |
| Installer.LibrarySubdir | src-tauri/src/installer.rs:179-187 | the subdirectory of a library's first rule; a definition, with its cases proved in `LibraryDirByFirstRule` |
| Installer.LibraryDir | src-tauri/src/installer.rs:176-187 | a library's directory; a definition, with its cases proved in `LibraryDirByFirstRule` and `LibraryDirUnderGameDir` |
| Installer.Resolve | src-tauri/src/installer.rs:82-98 | the version file, or the decode or lookup panic; a definition, with its lookup proved in `FindVersion` |
| Installer.EnqueuePlan | src-tauri/src/installer.rs:100-123 | the enqueue steps in order; a definition, with its layout proved in `InstallQueueLayout` and `BadHashStopsInstall` |
| Installer.InstallPlan | src-tauri/src/installer.rs:82-123 | `Resolve`, then `EnqueuePlan`; a definition, which `Enqueue` and `Install` are proved against |
| Installer.GameDir | src-tauri/src/installer.rs:42-51 | a game directory exists exactly on `linux`, `macos` and `windows` with a home directory, and it ends in the separator |
| Installer.FirstWithId | src-tauri/src/installer.rs:88-92 | the position of the first version with the id; no earlier entry has it |
| Installer.FindVersion | src-tauri/src/installer.rs:88-92 | `find` gives nothing exactly when no entry has the id, and otherwise the first entry with it |
| Installer.ScanHashes | src-tauri/src/installer.rs:147-157 | the hashes of the leading entries with a string hash of at least two characters; it panics exactly at the first other entry, `HashNotString` or `HashTooShort` by its cause |
| Installer.ScanStopsAtFirstBadHash | src-tauri/src/installer.rs:147-157 | the scan reads exactly the entries before the first unusable hash, and panics exactly when there is one |
| Installer.ScanCoversNameablePrefix | src-tauri/src/installer.rs:147-161 | a prefix of usable hashes is read in full |
| Installer.AssetTasks | src-tauri/src/installer.rs:147-161 | one task per scanned hash |
| Installer.AssetsPlan | src-tauri/src/installer.rs:132-163 | the asset-index task comes first; a missing `objects` map panics right after it |
| Installer.LibraryTasks | src-tauri/src/installer.rs:175-192 | one task per library |
| Installer.JsonAt | src-tauri/src/installer.rs:83 | the body `to_json(url)` gives the installer (also at lines 95 and 139): `LastDecoded` over the endpoint's ten rounds with default `Null`; a definition |
| Installer.FabricDir | src-tauri/src/installer.rs:198-199 | the game directory with `libraries/fabric` pushed; a definition, used by `InstallFabric` and `InstallQueueLayout` |
| Installer.ModsDir | src-tauri/src/installer.rs:210-211 | the game directory with `mods` pushed; a definition, used by `InstallMods` and `InstallQueueLayout` |
| Installer.TasksInto | src-tauri/src/installer.rs:194-216 | one task per listed URL |
| Installer.InstallQueueLayout | src-tauri/src/installer.rs:100-124 | with usable hashes, the queue is the index task, the objects, the libraries, the client, the Fabric libraries, then the mods, each at its exact position; no panic; length `1 + #objects + #libraries + 1 + #fabric + #mods` |
| Installer.Nameable | src-tauri/src/installer.rs:149-157 | an entry whose hash is a string of at least two characters; a specification helper, no contract |
| Installer.BadHashStopsInstall | src-tauri/src/installer.rs:149-157 | an object without a usable hash panics `install` with its cause, after exactly `1 + k` tasks: the index task, then the asset tasks of the `k` objects before it, in order |
| Installer.ResourcesHostIsPlain | src-tauri/src/installer.rs:155 | the asset host is non-empty and holds no `/`, `?` or `#` |
| Installer.AssetUrlNamesHash | src-tauri/src/installer.rs:154-158 | the last path segment of an asset URL is the hash itself |
| Installer.ObjectDirUnderGameDir | src-tauri/src/installer.rs:148-153 | an object's directory is `<game_dir>assets/objects/<hash[0..2]>` |
| Installer.AssetObjectLandsUnderHashPrefix | src-tauri/src/installer.rs:147-161 | an asset task is stored by the downloader at `<game_dir>assets/objects/<hash[0..2]>/<hash>` |
| Installer.LibraryDirUnderGameDir | src-tauri/src/installer.rs:176-187 | a library directory is the game directory followed by the subdirectory of its first rule, if any |
| Installer.LibraryDirByFirstRule | src-tauri/src/installer.rs:176-189 | the first rule alone decides the directory: each of `libraries`, `natives/linux`, `natives/osx`, `natives/windows` and the bare game directory is chosen exactly when its case holds |
| Installer.Installer.constructor | src-tauri/src/installer.rs:62-75 | an installer starts with its version, OS and game directory, and a fresh empty downloader |
| Installer.Installer.InstallAssets | src-tauri/src/installer.rs:132-163 | the queue gains exactly the tasks of `AssetsPlan` on the fetched index, and panics as it does |
| Installer.Installer.InstallClient | src-tauri/src/installer.rs:165-173 | exactly the client task is appended |
| Installer.Installer.InstallLibraries | src-tauri/src/installer.rs:175-192 | exactly the library tasks are appended, in order |
| Installer.Installer.PushAllInto | src-tauri/src/installer.rs:194-216 | exactly one task per URL, in list order, into one directory |
| Installer.Installer.InstallFabric | src-tauri/src/installer.rs:194-204 | the Fabric libraries are appended in order, into `libraries/fabric` |
| Installer.Installer.InstallMods | src-tauri/src/installer.rs:206-216 | the mods are appended in order, into `mods` |
| Installer.Installer.Enqueue | src-tauri/src/installer.rs:82-123 | the queue gains exactly the tasks of `InstallPlan`, and the enqueue panics as it does |
| Installer.Installer.Install | src-tauri/src/installer.rs:78-130 | a panic before the drain leaves the files untouched and the queue holding what was pushed; otherwise the files are those of draining everything pushed, a download panic is reported, the queue keeps exactly the tasks not popped, and it is empty after a drain without a panic |
| Installer.NewInstaller | src-tauri/src/installer.rs:40-76 | it fails exactly when `GameDir` does, with its panic; otherwise it yields an installer on that directory with an empty queue |
| Launcher.NativesSuffix | src-tauri/src/launcher.rs:23-29 | a natives directory exists exactly for `linux`, `macos` and `windows` |
| Launcher.ClasspathSeparator | src-tauri/src/launcher.rs:52-57 | `;` on Windows, `:` on Linux and macOS, none elsewhere |
| Launcher.Classpath | src-tauri/src/launcher.rs:41-88 | a non-empty classpath always ends with the separator |
| Launcher.ClasspathCons | src-tauri/src/launcher.rs:46-59 | an entry in front adds itself and one separator in front |
| Launcher.ClasspathConcat | src-tauri/src/launcher.rs:41-88 | the classpath of consecutive walks is the concatenation of their classpaths |
| Launcher.ClasspathSplits | src-tauri/src/launcher.rs:41-88 | when no entry holds the separator, splitting the classpath at it gives back the entries, then one empty piece |
| Launcher.Readable | src-tauri/src/launcher.rs:46-51 | every entry of a walk could be read; a specification helper, no contract |
| Launcher.AppendWalk | src-tauri/src/launcher.rs:46-59 | one classpath loop; a definition, with its result proved in `AppendWalkAppendsClasspath` |
| Launcher.AppendWalkAppendsClasspath | src-tauri/src/launcher.rs:46-59 | a loop succeeds exactly on a readable walk, appending each entry and one separator; otherwise it panics on the entry |
| Launcher.PushWalk | src-tauri/src/launcher.rs:46-59 | the loop with `push_str` computes `AppendWalk` |
| Launcher.JavaArgs | src-tauri/src/launcher.rs:103-117 | fourteen JVM arguments |
| Launcher.GameArgs | src-tauri/src/launcher.rs:118-135 | eighteen game arguments |
| Launcher.LaunchArgs | src-tauri/src/launcher.rs:102-136 | the vector has exactly 32 elements |
| Launcher.JavaArgsHoldNoGameFlag | src-tauri/src/launcher.rs:103-117 | the first fourteen arguments hold none of the game's flags |
| Launcher.ValueAfter | src-tauri/src/launcher.rs:118-135 | the element after a flag's first occurrence, the way the game reads its arguments; a reference definition, no contract |
| Launcher.GameArgsPairFlagsWithValues | src-tauri/src/launcher.rs:118-131 | read as flag/value pairs, the game arguments give the user name, game and assets directories, uuid and access token |
| Launcher.LaunchArgsPairFlagsWithValues | src-tauri/src/launcher.rs:102-136 | in the whole vector, `-cp` is followed by the classpath and each of `--username`, `--gameDir`, `--assetsDir`, `--uuid`, `--accessToken` by its value |
| Launcher.Launch | src-tauri/src/launcher.rs:15-136 | `Launcher::new` up to the `java` command; a definition, with its outcomes proved in `LaunchSucceeds` and `LaunchPanics` |
| Launcher.JvmOptionsFollowMainClass | src-tauri/src/launcher.rs:104-117 | the main class is the sixth argument; `-Xmx6G` and the other seven `-D`/`-X` options come after it |
| Launcher.LaunchSucceeds | src-tauri/src/launcher.rs:15-136 | with a supported OS, readable walks and a profile, the launch arguments hold the classpath of the client, then the natives, then the library entries, each followed by the OS separator |
| Launcher.LaunchPanics | src-tauri/src/launcher.rs:15-100 | the launch panics exactly on an unsupported OS, an unreadable walk entry or an unreadable profile, with that panic, and succeeds otherwise |
| Launcher.LauncherWalksInstallerDirs | src-tauri/src/launcher.rs:31-39 | the launcher's `client`, `libraries` and natives directories are the installer's client and library directories |
| Launcher.New | src-tauri/src/launcher.rs:15-141 | `Launcher::new` up to the `java` command computes `Launch`: its arguments or its panic |

## Left out

- HTTP itself (reqwest, async/await) is given as per-URL reply sequences, and the 3-second sleeps between attempts are left out. The sleeps change neither which requests are made nor what is written.
- `Downloader.Drain`: every `download_file` call reads its URL's replies from the first one, so a URL queued twice sees the same replies on its second call as on its first. In the code the second call sends fresh requests, which may succeed where the first call's nine failed. Two asset objects with the same hash give such a repeated task (src-tauri/src/installer.rs:147-160). For a repeated URL whose first call stored nothing, the model therefore does not capture a later call storing it.
- Logging is left out: `println!` has no effect on the queue or the files.
- `Installer.Installer.Install`: the two `window.emit(...).expect("Failed to log")` calls (src-tauri/src/installer.rs:79-80 and 126-127) are left out, because the window is not modelled. A failing first emit would panic `install` before anything is queued, and a failing last emit would panic it after the drain, where `Install` reports no panic.
- `Urls.Parse` is not all of the URL standard. These are not reproduced:
  - backslashes;
  - dot segments;
  - percent-encoding;
  - host validation and IDNA;
  - ports and user info;
  - `file:` URLs;
  - lower-casing of the scheme: `ParseScheme` keeps the scheme as written, where `Url::scheme()` is lower-case (`IsSpecial` compares it lower-cased, so the special-scheme handling agrees);
  - stripping leading and trailing spaces and control characters, and removing tabs and newlines from the input.
  What is modelled is the scheme scan, the special-scheme authority and the absolute path, and the query and fragment being cut off. That is the part that names downloaded files.
- `Paths.Join` models `PathBuf::push` on Unix only: Windows prefixes and `\` separators are left out.
- Only `download_file`'s use of directories is modelled:
  - `create_dir_all` is left out because a destination directory is not a file;
  - `is_file` is membership in the files map.
- `Downloader.DownloadEffect`: the only file-system failure that panics is the write to the directory itself (an empty file name). A write below a regular file (for example the directory `a/b` being itself a file), a failing `create_dir_all` (src-tauri/src/downloader.rs:106-108) and every other I/O failure do not panic in the model, because the file map has no directories or permissions.
- `Downloader.DownloadEffect`: paths are Unicode strings, so the `to_str().expect` after a successful write (src-tauri/src/downloader.rs:114) never fails in the model. In the code, a game directory that is not valid UTF-8 makes the first stored file panic `download_queue` right after it is written.
- Paths are compared as strings, with no normalisation. `is_file` is membership of that exact string in the file map, so `a/` and `a`, or `a//b` and `a/b`, are different keys. On Unix `is_file("a/")` is never true, yet a key `a/` makes `DownloadEffect` skip (a URL ending in `/` pushed onto `a` gives the destination `a/`) where the code would request, write and panic.
- `Installer.ScanHashes` measures hashes in characters, so `hash.get(0..2)` failing on a multi-byte character boundary is not modelled. Hashes are ASCII hex.
- Numbers are integers in `json.dfy` (no floating point).
- An object's members are taken in the order `serde_json` iterates them, given as a sequence.
- Serde decoding of the manifest and the version file is a pair of decoder functions.
  - Only the fields the installer reads are kept.
  - `version_manifest.rs` and `version_file.rs` are not part of this model.
- `fabric.rs` and `mods.rs` are constant URL lists and are passed in as sequences.
- `Installer::new` is modelled without the directory it creates, and without reading the OS and the home directory, which become parameters.
- The downloader's HTTP client field is not state: it is the `net` argument.
- `to_text` and `to_json` do not check the status code. The model follows that: a reply is only sent-or-not and decodable-or-not.
- `Launcher.New` takes the game directory as a string: a game directory that is not valid UTF-8 ("Unable to parse game directory") is not modelled.
- `Launcher.New` stops before `Command::new("java")`: it returns the arguments and leaves out launching the process and its failure.
  - Reading and decoding `profile.json` is the `profileAt` function.
  - Each `WalkDir` walk is the `walk` function, in walk order.
- The authenticator (`authenticator.rs`), `main.rs` and the web front end are not part of this model.
- `last()` on the path segments cannot return `None`, because `path_segments` always yields at least one segment. That branch is dead.
- A panic in `download_queue` ends `install`, and with it the `launch` command that called it (main.rs). The model still states the queue that panic would leave.

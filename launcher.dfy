/** The launch preparation of `launcher.rs`: directory strings built by concatenation
    onto the game directory, the classpath grown from three directory walks, and the
    fixed argument vector handed to `java`. A walk is given as the sequence of entries
    `WalkDir` yields for a directory (`None` for an entry it could not read, or whose
    path is not valid UTF-8); the player profile as the decoded contents of a path. */
module Launcher {
  import opened Wrappers
  import Paths
  import Strings
  import Installer

  /** The fields of the stored player profile the launcher reads. */
  datatype Profile = Profile(accessToken: string, uuid: string, username: string)

  /** The `panic!`s and `expect`s of `Launcher::new`. */
  datatype Panic =
    | UnsupportedOs       // `panic!("Unsupported OS")`
    | UnreadableEntry     // "Failed to extract file name" / "Failed to convert file name to str"
    | UnreadableProfile   // "Failed to open player profile" / "... read ..." / "... convert profile"

  type Walk = string -> seq<Option<string>>

  /** The natives directory below the game directory, per OS. */
  function NativesSuffix(os: string): (r: Option<string>)
    ensures r.Some? <==> os in {"linux", "macos", "windows"}
  {
    if os == "linux" then Some("natives/linux")
    else if os == "macos" then Some("natives/osx")
    else if os == "windows" then Some("natives/windows")
    else None
  }

  /** The classpath separator, per OS: ';' on Windows, ':' on Linux and macOS. */
  function ClasspathSeparator(os: string): (r: Option<char>)
    ensures r.Some? <==> os in {"linux", "macos", "windows"}
    ensures r.Some? ==> r.value == if os == "windows" then ';' else ':'
  {
    if os == "linux" || os == "macos" then Some(':')
    else if os == "windows" then Some(';')
    else None
  }

  /** Every entry followed by one separator. */
  function Classpath(entries: seq<string>, sep: char): (cp: string)
    ensures entries != [] ==> |cp| > 0 && cp[|cp| - 1] == sep
    decreases |entries|
  {
    if entries == [] then ""
    else Classpath(entries[..|entries| - 1], sep) + entries[|entries| - 1] + [sep]
  }

  /** Growing the classpath from the front. */
  lemma {:induction false} ClasspathCons(entry: string, entries: seq<string>, sep: char)
    ensures Classpath([entry] + entries, sep) == entry + [sep] + Classpath(entries, sep)
    decreases |entries|
  {
    if entries != [] {
      var all := [entry] + entries;
      var init := entries[..|entries| - 1];
      assert all[..|all| - 1] == [entry] + init;
      ClasspathCons(entry, init, sep);
    }
  }

  /** The classpath of consecutive walks is the classpath of their entries together. */
  lemma {:induction false} ClasspathConcat(a: seq<string>, b: seq<string>, sep: char)
    ensures Classpath(a + b, sep) == Classpath(a, sep) + Classpath(b, sep)
    decreases |b|
  {
    if b == [] {
      assert a + b == a;
    } else {
      var b', last := b[..|b| - 1], b[|b| - 1];
      assert (a + b)[..|a + b| - 1] == a + b' && (a + b)[|a + b| - 1] == last;
      ClasspathConcat(a, b', sep);
      calc {
        Classpath(a + b, sep);
        Classpath(a + b', sep) + last + [sep];
        (Classpath(a, sep) + Classpath(b', sep)) + last + [sep];
        Classpath(a, sep) + (Classpath(b', sep) + last + [sep]);
        Classpath(a, sep) + Classpath(b, sep);
      }
    }
  }

  /** Splitting the classpath at the separator gives back the entries, then the empty
      piece after the final separator, when no entry holds the separator. */
  lemma {:induction false} ClasspathSplits(entries: seq<string>, sep: char)
    requires forall i :: 0 <= i < |entries| ==> sep !in entries[i]
    ensures Strings.Split(Classpath(entries, sep), sep) == entries + [""]
  {
    ClasspathThenTail(entries, sep, "");
    assert Classpath(entries, sep) + "" == Classpath(entries, sep);
  }

  lemma {:induction false} ClasspathThenTail(entries: seq<string>, sep: char, tail: string)
    requires forall i :: 0 <= i < |entries| ==> sep !in entries[i]
    requires sep !in tail
    ensures Strings.Split(Classpath(entries, sep) + tail, sep) == entries + [tail]
    decreases |entries|
  {
    if entries == [] {
      assert "" + tail == tail;
      Strings.SplitWithoutSeparator(tail, sep);
    } else {
      var init, last := entries[..|entries| - 1], entries[|entries| - 1];
      ClasspathThenTail(init, sep, last);
      assert Classpath(entries, sep) + tail == (Classpath(init, sep) + last) + [sep] + tail;
      Strings.SplitAround(Classpath(init, sep) + last, sep, tail);
      assert init + [last] == entries;
    }
  }

  /** A walk all of whose entries could be read. */
  predicate Readable(walk: seq<Option<string>>)
  {
    forall i :: 0 <= i < |walk| ==> walk[i].Some?
  }

  function EntryPaths(walk: seq<Option<string>>): (r: seq<string>)
    requires Readable(walk)
    ensures |r| == |walk|
  {
    seq(|walk|, i requires 0 <= i < |walk| => walk[i].value)
  }

  /** One classpath loop on `classpath`: for each entry in walk order, its path and then
      the separator of `os`; an unreadable entry, or an OS without a separator, panics. */
  function AppendWalk(classpath: string, walk: seq<Option<string>>, os: string): Result<string, Panic>
    decreases |walk|
  {
    if walk == [] then Ok(classpath)
    else if walk[0].None? then Err(UnreadableEntry)
    else match ClasspathSeparator(os)
      case None => Err(UnsupportedOs)
      case Some(sep) => AppendWalk(classpath + walk[0].value + [sep], walk[1..], os)
  }

  /** A loop over a readable walk appends the classpath of its entries; an unreadable
      entry makes it panic (both directions, on a supported OS). */
  lemma {:induction false} AppendWalkAppendsClasspath(classpath: string, walk: seq<Option<string>>, os: string)
    requires ClasspathSeparator(os).Some?
    ensures AppendWalk(classpath, walk, os).Ok? <==> Readable(walk)
    ensures AppendWalk(classpath, walk, os).Err? ==> AppendWalk(classpath, walk, os).error == UnreadableEntry
    ensures Readable(walk) ==>
      AppendWalk(classpath, walk, os) == Ok(classpath + Classpath(EntryPaths(walk), ClasspathSeparator(os).value))
    decreases |walk|
  {
    var sep := ClasspathSeparator(os).value;
    if walk == [] {
      assert EntryPaths(walk) == [];
      assert classpath + "" == classpath;
    } else if walk[0].None? {
      assert !Readable(walk);
    } else {
      var rest := walk[1..];
      var next := classpath + walk[0].value + [sep];
      AppendWalkAppendsClasspath(next, rest, os);
      assert Readable(walk) <==> Readable(rest) by {
        if Readable(rest) {
          forall i | 0 <= i < |walk| ensures walk[i].Some? {
            if i > 0 { assert walk[i] == rest[i - 1]; }
          }
        }
        if Readable(walk) {
          forall i | 0 <= i < |rest| ensures rest[i].Some? { assert rest[i] == walk[i + 1]; }
        }
      }
      if Readable(walk) {
        assert EntryPaths(walk) == [walk[0].value] + EntryPaths(rest);
        ClasspathCons(walk[0].value, EntryPaths(rest), sep);
        assert next + Classpath(EntryPaths(rest), sep) == classpath + (walk[0].value + [sep] + Classpath(EntryPaths(rest), sep));
      }
    }
  }

  /** The first fourteen launch arguments: library path, launcher brand and version,
      classpath, main class, and the heap and garbage collector options. */
  function JavaArgs(nativesPath: string, classpath: string): (args: seq<string>)
    ensures |args| == 14
  {
    [ "-Djava.library.path=" + nativesPath,
      "-Dminecraft.launcher.brand=PBLM",
      "-Dminecraft.launcher.version=0.1",
      "-cp", classpath,
      "net.fabricmc.loader.impl.launch.knot.KnotClient",
      "-DFabricMcEmu=net.minecraft.client.main.Main",
      "-Xmx6G",
      "-XX:+UnlockExperimentalVMOptions",
      "-XX:+UseG1GC",
      "-XX:G1NewSizePercent=20",
      "-XX:G1ReservePercent=20",
      "-XX:MaxGCPauseMillis=50",
      "-XX:G1HeapRegionSize=32M" ]
  }

  /** The remaining eighteen: the game's `--flag value` pairs. */
  function GameArgs(profile: Profile, gameDir: string, assetsDir: string): (args: seq<string>)
    ensures |args| == 18
  {
    [ "--username", profile.username,
      "--version", "1.19.2",
      "--gameDir", gameDir,
      "--assetsDir", assetsDir,
      "--assetIndex", "1.19",
      "--uuid", profile.uuid,
      "--accessToken", profile.accessToken,
      "--userType", "msa",
      "--versionType", "release" ]
  }

  /** The launch arguments, in the order `extend_from_slice` gives them. */
  function LaunchArgs(nativesPath: string, classpath: string, profile: Profile, gameDir: string, assetsDir: string): (args: seq<string>)
    ensures |args| == 32
  {
    JavaArgs(nativesPath, classpath) + GameArgs(profile, gameDir, assetsDir)
  }

  /** How a program reads a `--flag value` argument list: the element after the first
      occurrence of `flag`. */
  function ValueAfter(args: seq<string>, flag: string): Option<string>
    decreases |args|
  {
    if |args| < 2 then None
    else if args[0] == flag then Some(args[1])
    else ValueAfter(args[1..], flag)
  }

  /** The value after the first occurrence of a flag. */
  lemma {:induction false} ValueAfterFirst(args: seq<string>, flag: string, i: nat)
    requires i + 1 < |args| && args[i] == flag
    requires forall j :: 0 <= j < i ==> args[j] != flag
    ensures ValueAfter(args, flag) == Some(args[i + 1])
    decreases i
  {
    if i > 0 {
      assert args[0] != flag;
      ValueAfterFirst(args[1..], flag, i - 1);
    }
  }

  /** Arguments without the flag in front do not change where its value is read. */
  lemma {:induction false} ValueAfterSkips(front: seq<string>, back: seq<string>, flag: string)
    requires forall j :: 0 <= j < |front| ==> front[j] != flag
    requires |back| >= 2
    ensures ValueAfter(front + back, flag) == ValueAfter(back, flag)
    decreases |front|
  {
    if front == [] {
      assert front + back == back;
    } else {
      assert (front + back)[1..] == front[1..] + back;
      ValueAfterSkips(front[1..], back, flag);
    }
  }

  /** The arguments whose value follows them. */
  const ValueFlags: set<string> := {"-cp", "--username", "--version", "--gameDir", "--assetsDir",
                                    "--assetIndex", "--uuid", "--accessToken", "--userType", "--versionType"}

  /** The game's flags do not occur among the first fourteen arguments. */
  lemma JavaArgsHoldNoGameFlag(nativesPath: string, classpath: string, flag: string)
    requires flag in ValueFlags - {"-cp"} && classpath !in ValueFlags
    ensures forall j :: 0 <= j < 14 ==> JavaArgs(nativesPath, classpath)[j] != flag
  {
    var args := JavaArgs(nativesPath, classpath);
    assert |args[0]| >= 20;
  }

  /** Read as `--flag value` pairs, the game arguments give the user name, the game and
      assets directories, the uuid and the access token, provided none of these values is
      itself one of the flags. */
  lemma GameArgsPairFlagsWithValues(profile: Profile, gameDir: string, assetsDir: string)
    requires profile.username !in ValueFlags && gameDir !in ValueFlags
    requires assetsDir !in ValueFlags && profile.uuid !in ValueFlags && profile.accessToken !in ValueFlags
    ensures var args := GameArgs(profile, gameDir, assetsDir);
      && ValueAfter(args, "--username") == Some(profile.username)
      && ValueAfter(args, "--gameDir") == Some(gameDir)
      && ValueAfter(args, "--assetsDir") == Some(assetsDir)
      && ValueAfter(args, "--uuid") == Some(profile.uuid)
      && ValueAfter(args, "--accessToken") == Some(profile.accessToken)
  {
    ValueAfterFirst(GameArgs(profile, gameDir, assetsDir), "--username", 0);
    GameDirFollowsFlag(profile, gameDir, assetsDir);
    AssetsDirFollowsFlag(profile, gameDir, assetsDir);
    UuidFollowsFlag(profile, gameDir, assetsDir);
    AccessTokenFollowsFlag(profile, gameDir, assetsDir);
  }

  lemma GameDirFollowsFlag(profile: Profile, gameDir: string, assetsDir: string)
    requires profile.username !in ValueFlags
    ensures ValueAfter(GameArgs(profile, gameDir, assetsDir), "--gameDir") == Some(gameDir)
  {
    var args := GameArgs(profile, gameDir, assetsDir);
    forall j | 0 <= j < 4 ensures args[j] != "--gameDir" { }
    ValueAfterFirst(args, "--gameDir", 4);
  }

  lemma AssetsDirFollowsFlag(profile: Profile, gameDir: string, assetsDir: string)
    requires profile.username !in ValueFlags && gameDir !in ValueFlags
    ensures ValueAfter(GameArgs(profile, gameDir, assetsDir), "--assetsDir") == Some(assetsDir)
  {
    var args := GameArgs(profile, gameDir, assetsDir);
    forall j | 0 <= j < 6 ensures args[j] != "--assetsDir" { }
    ValueAfterFirst(args, "--assetsDir", 6);
  }

  lemma UuidFollowsFlag(profile: Profile, gameDir: string, assetsDir: string)
    requires profile.username !in ValueFlags && gameDir !in ValueFlags && assetsDir !in ValueFlags
    ensures ValueAfter(GameArgs(profile, gameDir, assetsDir), "--uuid") == Some(profile.uuid)
  {
    var args := GameArgs(profile, gameDir, assetsDir);
    forall j | 0 <= j < 10 ensures args[j] != "--uuid" { }
    ValueAfterFirst(args, "--uuid", 10);
  }

  lemma AccessTokenFollowsFlag(profile: Profile, gameDir: string, assetsDir: string)
    requires profile.username !in ValueFlags && gameDir !in ValueFlags
    requires assetsDir !in ValueFlags && profile.uuid !in ValueFlags
    ensures ValueAfter(GameArgs(profile, gameDir, assetsDir), "--accessToken") == Some(profile.accessToken)
  {
    var args := GameArgs(profile, gameDir, assetsDir);
    forall j | 0 <= j < 12 ensures args[j] != "--accessToken" { }
    ValueAfterFirst(args, "--accessToken", 12);
  }

  /** Read as `--flag value` pairs, the launch arguments give the classpath after "-cp",
      and the user name, the game and assets directories, the uuid and the access token
      after their flags, provided none of these values is itself one of the flags. */
  lemma LaunchArgsPairFlagsWithValues(nativesPath: string, classpath: string, profile: Profile, gameDir: string, assetsDir: string)
    requires classpath !in ValueFlags && profile.username !in ValueFlags && gameDir !in ValueFlags
    requires assetsDir !in ValueFlags && profile.uuid !in ValueFlags && profile.accessToken !in ValueFlags
    ensures var args := LaunchArgs(nativesPath, classpath, profile, gameDir, assetsDir);
      && ValueAfter(args, "-cp") == Some(classpath)
      && ValueAfter(args, "--username") == Some(profile.username)
      && ValueAfter(args, "--gameDir") == Some(gameDir)
      && ValueAfter(args, "--assetsDir") == Some(assetsDir)
      && ValueAfter(args, "--uuid") == Some(profile.uuid)
      && ValueAfter(args, "--accessToken") == Some(profile.accessToken)
  {
    var front, back := JavaArgs(nativesPath, classpath), GameArgs(profile, gameDir, assetsDir);
    var args := front + back;
    assert |front[0]| >= 20 && args[3] == "-cp" && args[4] == classpath;
    ValueAfterFirst(args, "-cp", 3);
    GameArgsPairFlagsWithValues(profile, gameDir, assetsDir);
    JavaArgsHoldNoGameFlag(nativesPath, classpath, "--username");
    ValueAfterSkips(front, back, "--username");
    JavaArgsHoldNoGameFlag(nativesPath, classpath, "--gameDir");
    ValueAfterSkips(front, back, "--gameDir");
    JavaArgsHoldNoGameFlag(nativesPath, classpath, "--assetsDir");
    ValueAfterSkips(front, back, "--assetsDir");
    JavaArgsHoldNoGameFlag(nativesPath, classpath, "--uuid");
    ValueAfterSkips(front, back, "--uuid");
    JavaArgsHoldNoGameFlag(nativesPath, classpath, "--accessToken");
    ValueAfterSkips(front, back, "--accessToken");
  }

  /** The main class is the sixth argument, and the eight JVM options written after it
      (`-DFabricMcEmu=...`, `-Xmx6G` and the `-XX:` options) follow it. `java` reads
      options only before the main class, so these reach the main class as program
      arguments. */
  lemma JvmOptionsFollowMainClass(nativesPath: string, classpath: string, profile: Profile, gameDir: string, assetsDir: string)
    ensures var args := LaunchArgs(nativesPath, classpath, profile, gameDir, assetsDir);
      && args[5] == "net.fabricmc.loader.impl.launch.knot.KnotClient"
      && args[7] == "-Xmx6G"
      && forall i :: 6 <= i < 14 ==> |args[i]| >= 2 && args[i][0] == '-' && (args[i][1] == 'D' || args[i][1] == 'X')
  {
    var args := LaunchArgs(nativesPath, classpath, profile, gameDir, assetsDir);
    var java := JavaArgs(nativesPath, classpath);
    assert forall i :: 0 <= i < 14 ==> args[i] == java[i];
    forall i | 6 <= i < 14 ensures |java[i]| >= 2 && java[i][0] == '-' && (java[i][1] == 'D' || java[i][1] == 'X') {
      if i == 6 { assert java[i] == "-DFabricMcEmu=net.minecraft.client.main.Main"; }
      else if i == 7 { assert java[i] == "-Xmx6G"; }
      else if i == 8 { assert java[i] == "-XX:+UnlockExperimentalVMOptions"; }
      else if i == 9 { assert java[i] == "-XX:+UseG1GC"; }
      else if i == 10 { assert java[i] == "-XX:G1NewSizePercent=20"; }
      else if i == 11 { assert java[i] == "-XX:G1ReservePercent=20"; }
      else if i == 12 { assert java[i] == "-XX:MaxGCPauseMillis=50"; }
      else { assert java[i] == "-XX:G1HeapRegionSize=32M"; }
    }
  }

  /** `Launcher::new` up to the `java` command: the arguments it would run `java` with, or
      the panic that stops it. The profile is what reading and decoding `profile.json`
      in the game directory gives. */
  function Launch(gameDir: string, os: string, walk: Walk, profileAt: string -> Option<Profile>): Result<seq<string>, Panic>
  {
    match NativesSuffix(os)
    case None => Err(UnsupportedOs)
    case Some(suffix) =>
      var nativesPath := gameDir + suffix;
      match AppendWalk("", walk(gameDir + "client"), os)
      case Err(e) => Err(e)
      case Ok(withClient) =>
        match AppendWalk(withClient, walk(nativesPath), os)
        case Err(e) => Err(e)
        case Ok(withNatives) =>
          match AppendWalk(withNatives, walk(gameDir + "libraries"), os)
          case Err(e) => Err(e)
          case Ok(classpath) =>
            match profileAt(gameDir + "profile.json")
            case None => Err(UnreadableProfile)
            case Some(profile) => Ok(LaunchArgs(nativesPath, classpath, profile, gameDir, gameDir + "assets"))
  }

  /** The launch given the outcome of each step. */
  lemma LaunchOfSteps(gameDir: string, os: string, walk: Walk, profileAt: string -> Option<Profile>,
                      suffix: string, withClient: string, withNatives: string, classpath: string, profile: Profile)
    requires NativesSuffix(os) == Some(suffix)
    requires AppendWalk("", walk(gameDir + "client"), os) == Ok(withClient)
    requires AppendWalk(withClient, walk(gameDir + suffix), os) == Ok(withNatives)
    requires AppendWalk(withNatives, walk(gameDir + "libraries"), os) == Ok(classpath)
    requires profileAt(gameDir + "profile.json") == Some(profile)
    ensures Launch(gameDir, os, walk, profileAt) == Ok(LaunchArgs(gameDir + suffix, classpath, profile, gameDir, gameDir + "assets"))
  {
  }

  /** On a supported OS with readable walks and profile, the launch succeeds, and its
      classpath is the client entries, then the natives entries, then the library
      entries, each followed by the OS's separator. */
  lemma LaunchSucceeds(gameDir: string, os: string, walk: Walk, profileAt: string -> Option<Profile>)
    requires NativesSuffix(os).Some?
    requires Readable(walk(gameDir + "client")) && Readable(walk(gameDir + NativesSuffix(os).value))
    requires Readable(walk(gameDir + "libraries")) && profileAt(gameDir + "profile.json").Some?
    ensures var nativesPath := gameDir + NativesSuffix(os).value;
      var entries := EntryPaths(walk(gameDir + "client")) + EntryPaths(walk(nativesPath)) + EntryPaths(walk(gameDir + "libraries"));
      Launch(gameDir, os, walk, profileAt)
        == Ok(LaunchArgs(nativesPath, Classpath(entries, ClasspathSeparator(os).value),
                         profileAt(gameDir + "profile.json").value, gameDir, gameDir + "assets"))
  {
    var sep := ClasspathSeparator(os).value;
    var nativesPath := gameDir + NativesSuffix(os).value;
    var client, natives, libraries := walk(gameDir + "client"), walk(nativesPath), walk(gameDir + "libraries");
    AppendWalkAppendsClasspath("", client, os);
    var c1 := "" + Classpath(EntryPaths(client), sep);
    AppendWalkAppendsClasspath(c1, natives, os);
    var c2 := c1 + Classpath(EntryPaths(natives), sep);
    AppendWalkAppendsClasspath(c2, libraries, os);
    ClasspathConcat(EntryPaths(client), EntryPaths(natives), sep);
    ClasspathConcat(EntryPaths(client) + EntryPaths(natives), EntryPaths(libraries), sep);
    assert c1 == Classpath(EntryPaths(client), sep);
  }

  /** The launch panics exactly when the OS is unsupported, a walk has an unreadable
      entry, or the profile cannot be read, and with that panic. */
  lemma LaunchPanics(gameDir: string, os: string, walk: Walk, profileAt: string -> Option<Profile>)
    ensures NativesSuffix(os).None? ==> Launch(gameDir, os, walk, profileAt) == Err(UnsupportedOs)
    ensures NativesSuffix(os).Some? ==>
      var nativesPath := gameDir + NativesSuffix(os).value;
      var readable := Readable(walk(gameDir + "client")) && Readable(walk(nativesPath)) && Readable(walk(gameDir + "libraries"));
      && (!readable ==> Launch(gameDir, os, walk, profileAt) == Err(UnreadableEntry))
      && (readable && profileAt(gameDir + "profile.json").None? ==> Launch(gameDir, os, walk, profileAt) == Err(UnreadableProfile))
      && (readable && profileAt(gameDir + "profile.json").Some? ==> Launch(gameDir, os, walk, profileAt).Ok?)
  {
    if NativesSuffix(os).Some? {
      var nativesPath := gameDir + NativesSuffix(os).value;
      AppendWalkAppendsClasspath("", walk(gameDir + "client"), os);
      match AppendWalk("", walk(gameDir + "client"), os) {
        case Err(_) =>
        case Ok(c1) =>
          AppendWalkAppendsClasspath(c1, walk(nativesPath), os);
          match AppendWalk(c1, walk(nativesPath), os) {
            case Err(_) =>
            case Ok(c2) => AppendWalkAppendsClasspath(c2, walk(gameDir + "libraries"), os);
          }
      }
    }
  }

  /** The directories the launcher walks are those the installer stores into: with a
      game directory ending in the separator, `client` and `libraries` agree, and the
      natives directory of each OS is the library directory of the rule for that OS. */
  lemma LauncherWalksInstallerDirs(gameDir: string, os: string, url: string, versionFile: Installer.VersionFile)
    requires Paths.EndsWithSeparator(gameDir)
    requires NativesSuffix(os).Some?
    ensures Installer.ClientTask(gameDir, versionFile).path == gameDir + "client"
    ensures Installer.LibraryDir(gameDir, Installer.Library(url, [])) == gameDir + "libraries"
    ensures var rule := if os == "macos" then "osx" else os;
      Installer.LibraryDir(gameDir, Installer.Library(url, [Installer.Rule(rule)])) == gameDir + NativesSuffix(os).value
  {
    assert Paths.Join("", gameDir) == gameDir;
    Paths.JoinAfterSeparator(gameDir, "client");
    Paths.JoinAfterSeparator(gameDir, "libraries");
    Paths.JoinAfterSeparator(gameDir, NativesSuffix(os).value);
  }

  lemma EmptyThen<T>(s: seq<T>)
    ensures [] + s == s
  {
  }

  /** One of the three classpath loops: push each entry's path, then the separator
      chosen by `os`. */
  method PushWalk(classpath: string, walk: seq<Option<string>>, os: string) returns (r: Result<string, Panic>)
    ensures r == AppendWalk(classpath, walk, os)
  {
    var classpathArg := classpath;
    for i := 0 to |walk|
      invariant AppendWalk(classpathArg, walk[i..], os) == AppendWalk(classpath, walk, os)
    {
      assert walk[i..][1..] == walk[i + 1..];
      var file := walk[i];
      if file.None? {
        return Err(UnreadableEntry);
      }
      classpathArg := classpathArg + file.value;
      if os == "linux" {
        classpathArg := classpathArg + [':'];
      } else if os == "macos" {
        classpathArg := classpathArg + [':'];
      } else if os == "windows" {
        classpathArg := classpathArg + [';'];
      } else {
        return Err(UnsupportedOs);
      }
    }
    return Ok(classpathArg);
  }

  /** `Launcher::new` up to the `java` command. */
  method New(gameDir: string, os: string, walk: Walk, profileAt: string -> Option<Profile>) returns (r: Result<seq<string>, Panic>)
    ensures r == Launch(gameDir, os, walk, profileAt)
  {
    var assetsDir := gameDir + "assets";
    var nativesPath := gameDir;
    if os == "linux" {
      nativesPath := nativesPath + "natives/linux";
    } else if os == "macos" {
      nativesPath := nativesPath + "natives/osx";
    } else if os == "windows" {
      nativesPath := nativesPath + "natives/windows";
    } else {
      return Err(UnsupportedOs);
    }
    ghost var suffix := NativesSuffix(os).value;
    assert nativesPath == gameDir + suffix;
    var clientPath := gameDir + "client";
    var libPath := gameDir + "libraries";
    var classpathArg := PushWalk("", walk(clientPath), os);
    if classpathArg.Err? {
      return Err(classpathArg.error);
    }
    ghost var withClient := classpathArg.value;
    classpathArg := PushWalk(classpathArg.value, walk(nativesPath), os);
    if classpathArg.Err? {
      return Err(classpathArg.error);
    }
    ghost var withNatives := classpathArg.value;
    classpathArg := PushWalk(classpathArg.value, walk(libPath), os);
    if classpathArg.Err? {
      return Err(classpathArg.error);
    }
    var profilePath := gameDir + "profile.json";
    var profile := profileAt(profilePath);
    if profile.None? {
      return Err(UnreadableProfile);
    }
    var launchArgs: seq<string> := [];
    var args := LaunchArgs(nativesPath, classpathArg.value, profile.value, gameDir, assetsDir);
    launchArgs := launchArgs + args;
    assert launchArgs == args by {
      EmptyThen(args);
    }
    LaunchOfSteps(gameDir, os, walk, profileAt, suffix, withClient, withNatives, classpathArg.value, profile.value);
    return Ok(launchArgs);
  }
}

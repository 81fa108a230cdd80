/**
 * Acquisition of the formatter binary: the platform lookup, the choice of
 * a cache directory, the choice of a release asset, and the decision flow
 * of `ensure_binary` with its temp-file-then-rename installation. The
 * network and the zip reader are inputs (their outcomes); the file system
 * is a `Disk` object whose failures are fixed in advance.
 */
module FormatterManager {
  import opened Wrappers
  import opened Text
  import opened Host

  const SERVER_NAME: string := "gdscript-formatter-mcp"

  /** The directory name used under the working directory, and as the last-resort relative default. */
  const LOCAL_CACHE_DIR: string := ".gdscript-formatter-mcp-cache"

  predicate EndsWith(s: string, suffix: string) {
    |suffix| <= |s| && s[|s| - |suffix|..] == suffix
  }

  // ---------------------------------------------------------------- platform

  /** `PlatformInfo`. */
  datatype Platform = Platform(os: string, arch: string, binaryName: string)

  const OSES: set<string> := {"linux", "macos", "windows"}
  const ARCHES: set<string> := {"x86_64", "aarch64"}

  /**
   * `detect_platform` for the compile-time `os` and `arch`: only the three
   * systems and two architectures with released binaries; only Windows
   * binaries end in `.exe`.
   */
  function DetectPlatform(os: string, arch: string): (p: Option<Platform>)
    ensures p.Some? <==> os in OSES && arch in ARCHES
    ensures p.Some? ==> p.value.os == os && p.value.arch == arch
    ensures p.Some? ==> "gdscript-formatter" <= p.value.binaryName
    ensures p.Some? ==> (EndsWith(p.value.binaryName, ".exe") <==> os == "windows")
  {
    if os !in OSES || arch !in ARCHES then None
    else
      var name := if os == "windows" then "gdscript-formatter.exe" else "gdscript-formatter";
      assert "gdscript-formatter"[14..] != ".exe";
      Some(Platform(os, arch, name))
  }

  // ---------------------------------------------------------------- environment

  /**
   * What the server reads from its environment: the three override
   * variables, the two cache-home variables, the working directory (absent
   * when it cannot be read) and the temporary directory.
   */
  datatype Env = Env(
    formatterPath: Option<string>,
    cacheDir: Option<string>,
    xdgCacheHome: Option<string>,
    home: Option<string>,
    currentDir: Option<string>,
    tempDir: string)

  /** `default_cache_root`: `XDG_CACHE_HOME`, else `HOME/.cache`, else a relative directory. */
  function DefaultCacheRoot(env: Env): (p: Path)
    ensures env.xdgCacheHome.Some? ==> p == Root(env.xdgCacheHome.value).Join(SERVER_NAME)
    ensures env.xdgCacheHome.None? && env.home.Some? ==> p == Root(env.home.value).Join(".cache").Join(SERVER_NAME)
    ensures env.xdgCacheHome.None? && env.home.None? ==> p == Root(LOCAL_CACHE_DIR)
  {
    match env.xdgCacheHome
    case Some(xdg) => Root(xdg).Join(SERVER_NAME)
    case None =>
      match env.home
      case Some(home) => Root(home).Join(".cache").Join(SERVER_NAME)
      case None => Root(LOCAL_CACHE_DIR)
  }

  /** The candidates of `resolve_cache_root`, in the order they are tried. */
  function CacheCandidates(env: Env): (c: seq<Path>)
    ensures |c| == if env.currentDir.Some? then 3 else 2
    ensures c[0] == DefaultCacheRoot(env) && c[|c| - 1] == Root(env.tempDir).Join(SERVER_NAME)
    ensures env.currentDir.Some? ==> c[1] == Root(env.currentDir.value).Join(LOCAL_CACHE_DIR)
  {
    [DefaultCacheRoot(env)]
      + (if env.currentDir.Some? then [Root(env.currentDir.value).Join(LOCAL_CACHE_DIR)] else [])
      + [Root(env.tempDir).Join(SERVER_NAME)]
  }

  /** How one candidate that could not be created is listed in the error. */
  function Tried(p: Path, error: string): string {
    p.Display() + " (" + error + ")"
  }

  /**
   * The first candidate that `mkdir` creates, or, when none can be, the
   * list of every candidate with its error, in order.
   */
  function FirstCreatable(candidates: seq<Path>, mkdir: Path -> Option<string>): (r: Result<Path, seq<string>>)
    ensures r.Ok? ==> exists i :: 0 <= i < |candidates| && r.value == candidates[i] && mkdir(candidates[i]).None?
                                  && forall j :: 0 <= j < i ==> mkdir(candidates[j]).Some?
    ensures r.Err? ==> && (forall i :: 0 <= i < |candidates| ==> mkdir(candidates[i]).Some?)
                       && |r.error| == |candidates|
                       && forall i :: 0 <= i < |candidates| ==> r.error[i] == Tried(candidates[i], mkdir(candidates[i]).value)
  {
    if candidates == [] then Err([])
    else
      match mkdir(candidates[0])
      case None => Ok(candidates[0])
      case Some(e) =>
        match FirstCreatable(candidates[1..], mkdir)
        case Ok(p) =>
          ghost var i :| 0 <= i < |candidates[1..]| && p == candidates[1..][i] && mkdir(candidates[1..][i]).None?
                        && forall j :: 0 <= j < i ==> mkdir(candidates[1..][j]).Some?;
          assert p == candidates[i + 1];
          Ok(p)
        case Err(es) => Err([Tried(candidates[0], e)] + es)
  }

  /** The outcome of trying the rest of the candidates, after `errors` for those that failed. */
  function After(errors: seq<string>, r: Result<Path, seq<string>>): Result<Path, seq<string>> {
    match r
    case Ok(p) => Ok(p)
    case Err(rest) => Err(errors + rest)
  }

  /** An error in front of the rest of the errors can move into the errors collected so far. */
  lemma AfterTried(errors: seq<string>, tried: string, r: Result<Path, seq<string>>)
    ensures After(errors, match r case Ok(p) => Ok(p) case Err(es) => Err([tried] + es)) == After(errors + [tried], r)
  {
    if r.Err? {
      assert errors + ([tried] + r.error) == (errors + [tried]) + r.error;
    }
  }

  /** Trying the candidates from the `i`-th: it is created, or its error heads the list. */
  lemma FirstCreatableAt(candidates: seq<Path>, i: nat, mkdir: Path -> Option<string>)
    requires i < |candidates|
    ensures FirstCreatable(candidates[i..], mkdir)
            == if mkdir(candidates[i]).None? then Ok(candidates[i])
               else match FirstCreatable(candidates[i + 1..], mkdir)
                    case Ok(p) => Ok(p)
                    case Err(es) => Err([Tried(candidates[i], mkdir(candidates[i]).value)] + es)
  {
    assert candidates[i..][0] == candidates[i] && candidates[i..][1..] == candidates[i + 1..];
  }

  /** The error of `resolve_cache_root` when no candidate could be created. */
  function NoCacheDirMessage(errors: seq<string>): string {
    "Unable to create any cache directory. Tried: " + Join(errors, ", ")
  }

  /**
   * What `resolve_cache_root` returns: a custom directory as it is, or its
   * error, with no fallback; otherwise the first candidate that can be
   * created, or an error listing every candidate tried.
   */
  function CacheRootOutcome(env: Env, mkdir: Path -> Option<string>): Result<Path, string> {
    if env.cacheDir.Some? then
      var path := Root(env.cacheDir.value);
      if mkdir(path).Some? then Err(CustomCacheDirMessage(path, mkdir(path).value)) else Ok(path)
    else
      match FirstCreatable(CacheCandidates(env), mkdir)
      case Ok(p) => Ok(p)
      case Err(errors) => Err(NoCacheDirMessage(errors))
  }

  /** The error of `resolve_cache_root` when the custom cache directory cannot be created. */
  function CustomCacheDirMessage(path: Path, error: string): string {
    "Failed to create custom cache dir " + path.Display() + " from GDSCRIPT_FORMATTER_MCP_CACHE_DIR: " + error
  }

  // ---------------------------------------------------------------- release assets

  datatype Asset = Asset(name: string, url: string)

  /** `ReleaseInfo`: the tag and the assets of the latest release. */
  datatype Release = Release(tagName: string, assets: seq<Asset>)

  /** The asset test of `select_asset_for_platform`. */
  predicate IsPlatformAsset(name: string, platform: Platform) {
    && "gdscript-formatter-" <= name
    && Contains(name, "-" + platform.os + "-" + platform.arch)
    && EndsWith(name, ".zip")
  }

  /** The position of the first asset for `platform`, in list order. */
  function FirstPlatformAsset(assets: seq<Asset>, platform: Platform): (r: Option<nat>)
    ensures r.Some? ==> r.value < |assets| && IsPlatformAsset(assets[r.value].name, platform)
                        && forall j :: 0 <= j < r.value ==> !IsPlatformAsset(assets[j].name, platform)
    ensures r.None? ==> forall j :: 0 <= j < |assets| ==> !IsPlatformAsset(assets[j].name, platform)
  {
    if assets == [] then None
    else if IsPlatformAsset(assets[0].name, platform) then Some(0)
    else match FirstPlatformAsset(assets[1..], platform)
      case None => None
      case Some(i) =>
        assert forall j :: 1 <= j < i + 1 ==> assets[j] == assets[1..][j - 1];
        Some(i + 1)
  }

  /** `select_asset_for_platform`: the first matching asset, or an error naming the platform and the tag. */
  function SelectAssetForPlatform(release: Release, platform: Platform): (r: Result<Asset, string>)
    ensures r.Ok? <==> exists j :: 0 <= j < |release.assets| && IsPlatformAsset(release.assets[j].name, platform)
    ensures r.Ok? ==> exists i :: 0 <= i < |release.assets| && r.value == release.assets[i]
                                  && IsPlatformAsset(r.value.name, platform)
                                  && forall j :: 0 <= j < i ==> !IsPlatformAsset(release.assets[j].name, platform)
    ensures r.Err? ==> r.error == "No downloadable formatter asset found for " + platform.os + "-" + platform.arch
                                  + " in release " + release.tagName
  {
    match FirstPlatformAsset(release.assets, platform)
    case Some(i) => Ok(release.assets[i])
    case None =>
      Err("No downloadable formatter asset found for " + platform.os + "-" + platform.arch + " in release " + release.tagName)
  }

  // ---------------------------------------------------------------- paths

  /** The '/'-separated parts of `s`, empty ones included. */
  function Segments(s: string): (r: seq<string>)
    ensures |r| >= 1
    decreases |s|
  {
    match IndexOf(s, '/')
    case None => [s]
    case Some(i) => [s[..i]] + Segments(s[i + 1..])
  }

  /** The parts `Path::components` yields as names: no empty part and no ".". */
  function Named(parts: seq<string>): (r: seq<string>)
    ensures forall k :: 0 <= k < |r| ==> r[k] != "" && r[k] != "."
  {
    if parts == [] then []
    else if parts[0] == "" || parts[0] == "." then Named(parts[1..])
    else [parts[0]] + Named(parts[1..])
  }

  /** `Path::file_name` of a Unix path text: its last named component, unless that is "..". */
  function BaseName(s: string): Option<string> {
    var names := Named(Segments(s));
    if names == [] || names[|names| - 1] == ".." then None else Some(names[|names| - 1])
  }

  /** `Path::file_name`. */
  function FileName(p: Path): Option<string> {
    match p
    case Root(text) => BaseName(text)
    case Child(_, name) => BaseName(name)
  }

  /** `Path::file_stem` of a file name: all before the last '.', unless that '.' starts the name. */
  function Stem(name: string): string {
    match LastIndexOf(name, '.')
    case Some(i) => if i == 0 then name else name[..i]
    case None => name
  }

  /** `Path::with_extension` on a path built by `join`. */
  function WithExtension(p: Path, extension: string): (q: Path)
    ensures p.Child? ==> q.Child? && q.parent == p.parent && EndsWith(q.name, "." + extension)
  {
    match p
    case Root(_) => p
    case Child(parent, name) => Child(parent, Stem(name) + "." + extension)
  }

  // ---------------------------------------------------------------- the file system

  /** The error each file-system call gives for a path, if it fails there. */
  datatype Faults = Faults(
    createDir: Path -> Option<string>,
    createFile: Path -> Option<string>,
    write: Path -> Option<string>,
    chmod: Path -> Option<string>,
    rename: Path -> Option<string>)

  /** The directories and files the server sees, and which files are executable. */
  class Disk {
    var dirs: set<Path>
    var files: map<Path, string>
    var executable: set<Path>
    const faults: Faults

    constructor(dirs: set<Path>, files: map<Path, string>, faults: Faults)
      ensures this.dirs == dirs && this.files == files && executable == {} && this.faults == faults
    {
      this.dirs := dirs;
      this.files := files;
      executable := {};
      this.faults := faults;
    }

    /** `Path::exists`. */
    predicate Exists(p: Path)
      reads this
    {
      p in dirs || p in files
    }

    /** `fs::create_dir_all`. */
    method CreateDirAll(p: Path) returns (r: Result<(), string>)
      modifies this
      ensures r == if faults.createDir(p).Some? then Err(faults.createDir(p).value) else Ok(())
      ensures dirs == if r.Ok? then old(dirs) + {p} else old(dirs)
      ensures files == old(files) && executable == old(executable)
    {
      match faults.createDir(p)
      case Some(e) => r := Err(e);
      case None =>
        dirs := dirs + {p};
        r := Ok(());
    }

    /** `fs::read_to_string(p).ok()`. */
    method ReadToString(p: Path) returns (s: Option<string>)
      ensures s == if p in files then Some(files[p]) else None
    {
      s := if p in files then Some(files[p]) else None;
    }

    /** `fs::write`. */
    method Write(p: Path, contents: string) returns (r: Result<(), string>)
      modifies this
      ensures r == if faults.write(p).Some? then Err(faults.write(p).value) else Ok(())
      ensures files == if r.Ok? then old(files)[p := contents] else old(files)
      ensures dirs == old(dirs) && executable == old(executable)
    {
      match faults.write(p)
      case Some(e) => r := Err(e);
      case None =>
        files := files[p := contents];
        r := Ok(());
    }

    /** `File::create`: an empty file, truncating any old one. */
    method CreateFile(p: Path) returns (r: Result<(), string>)
      modifies this
      ensures r == if faults.createFile(p).Some? then Err(faults.createFile(p).value) else Ok(())
      ensures files == if r.Ok? then old(files)[p := ""] else old(files)
      ensures dirs == old(dirs) && executable == old(executable)
    {
      match faults.createFile(p)
      case Some(e) => r := Err(e);
      case None =>
        files := files[p := ""];
        r := Ok(());
    }

    /** `io::copy` into a file just created: the file now holds `contents`. */
    method Fill(p: Path, contents: string)
      modifies this
      ensures files == old(files)[p := contents]
      ensures dirs == old(dirs) && executable == old(executable)
    {
      files := files[p := contents];
    }

    /** `fs::set_permissions(p, 0o755)`. */
    method SetExecutable(p: Path) returns (r: Result<(), string>)
      modifies this
      ensures r == if faults.chmod(p).Some? then Err(faults.chmod(p).value) else Ok(())
      ensures executable == if r.Ok? then old(executable) + {p} else old(executable)
      ensures dirs == old(dirs) && files == old(files)
    {
      match faults.chmod(p)
      case Some(e) => r := Err(e);
      case None =>
        executable := executable + {p};
        r := Ok(());
    }

    /** `fs::rename` of a file: it replaces `to`, with its permissions. */
    method Rename(from: Path, to: Path) returns (r: Result<(), string>)
      requires from in files
      modifies this
      ensures r == if faults.rename(to).Some? then Err(faults.rename(to).value) else Ok(())
      ensures files == if r.Ok? then (old(files) - {from})[to := old(files)[from]] else old(files)
      ensures executable == if r.Err? then old(executable)
                            else (old(executable) - {from, to}) + (if from in old(executable) then {to} else {})
      ensures dirs == old(dirs)
    {
      match faults.rename(to)
      case Some(e) => r := Err(e);
      case None =>
        var contents := files[from];
        var wasExecutable := from in executable;
        files := (files - {from})[to := contents];
        executable := (executable - {from, to}) + (if wasExecutable then {to} else {});
        r := Ok(());
    }
  }

  // ---------------------------------------------------------------- cache root

  /** `resolve_cache_root`: creates the directory it returns. */
  method ResolveCacheRoot(env: Env, disk: Disk) returns (r: Result<Path, string>)
    modifies disk
    ensures r == CacheRootOutcome(env, disk.faults.createDir)
    ensures disk.dirs == old(disk.dirs) + (if r.Ok? then {r.value} else {})
    ensures disk.files == old(disk.files) && disk.executable == old(disk.executable)
  {
    if env.cacheDir.Some? {
      var path := Root(env.cacheDir.value);
      var made := disk.CreateDirAll(path);
      if made.Err? {
        return Err(CustomCacheDirMessage(path, made.error));
      }
      return Ok(path);
    }
    var candidates := [DefaultCacheRoot(env)];
    if env.currentDir.Some? {
      candidates := candidates + [Root(env.currentDir.value).Join(LOCAL_CACHE_DIR)];
    }
    candidates := candidates + [Root(env.tempDir).Join(SERVER_NAME)];
    assert candidates == CacheCandidates(env);
    r := CreateFirstCandidate(candidates, disk);
  }

  /** The candidate loop of `resolve_cache_root`, collecting the error of each candidate that fails. */
  method CreateFirstCandidate(candidates: seq<Path>, disk: Disk) returns (r: Result<Path, string>)
    modifies disk
    ensures r == match FirstCreatable(candidates, disk.faults.createDir)
                 case Ok(p) => Ok(p)
                 case Err(errors) => Err(NoCacheDirMessage(errors))
    ensures disk.dirs == old(disk.dirs) + (if r.Ok? then {r.value} else {})
    ensures disk.files == old(disk.files) && disk.executable == old(disk.executable)
  {
    var errors: seq<string> := [];
    assert candidates[0..] == candidates;
    ghost var all := FirstCreatable(candidates, disk.faults.createDir);
    assert all.Err? ==> [] + all.error == all.error;
    for i := 0 to |candidates|
      invariant FirstCreatable(candidates, disk.faults.createDir)
                == After(errors, FirstCreatable(candidates[i..], disk.faults.createDir))
      invariant disk.dirs == old(disk.dirs) && disk.files == old(disk.files) && disk.executable == old(disk.executable)
    {
      FirstCreatableAt(candidates, i, disk.faults.createDir);
      var made := disk.CreateDirAll(candidates[i]);
      if made.Ok? {
        return Ok(candidates[i]);
      }
      AfterTried(errors, Tried(candidates[i], made.error), FirstCreatable(candidates[i + 1..], disk.faults.createDir));
      errors := errors + [Tried(candidates[i], made.error)];
    }
    assert candidates[|candidates|..] == [] && errors + [] == errors;
    return Err(NoCacheDirMessage(errors));
  }

  // ---------------------------------------------------------------- download and extraction

  /** How `fetch_latest_release` can fail: sending, the HTTP status, or the JSON of the answer. */
  datatype FetchFailure = RequestFailed(error: string) | StatusFailed(error: string) | JsonFailed(error: string)

  function FetchMessage(f: FetchFailure): string {
    match f
    case RequestFailed(e) => "HTTP request to GitHub failed: " + e
    case StatusFailed(e) => "GitHub latest release request failed: " + e
    case JsonFailed(e) => "Failed to parse GitHub release JSON: " + e
  }

  /**
   * How getting the archive of an asset can fail before its entries are
   * read: the request, the status, the body, the temporary directory, and
   * writing, opening or reading the zip file in it.
   */
  datatype DownloadFailure =
    | AssetRequestFailed(error: string)
    | AssetStatusFailed(error: string)
    | BodyFailed(error: string)
    | TempDirFailed(error: string)
    | ZipWriteFailed(zipPath: string, error: string)
    | ZipOpenFailed(zipPath: string, error: string)
    | ZipReadFailed(error: string)

  function DownloadMessage(url: string, f: DownloadFailure): string {
    match f
    case AssetRequestFailed(e) => "Failed to download asset from " + url + ": " + e
    case AssetStatusFailed(e) => "Asset download failed: " + e
    case BodyFailed(e) => "Failed to read asset bytes: " + e
    case TempDirFailed(e) => "Failed to create temp dir in cache: " + e
    case ZipWriteFailed(zip, e) => "Failed to write downloaded zip to " + zip + ": " + e
    case ZipOpenFailed(zip, e) => "Failed to open downloaded zip " + zip + ": " + e
    case ZipReadFailed(e) => "Failed to read zip archive: " + e
  }

  /** One zip entry: its name, whether it is a directory, and its contents or the error reading them. */
  datatype ZipEntry = ZipEntry(name: string, isDir: bool, data: Result<string, string>)

  /** What downloading an asset's URL gives: the archive's entries (each readable or not), or a failure. */
  type Downloader = string -> Result<seq<Result<ZipEntry, string>>, DownloadFailure>

  /** Whether an entry is the binary being looked for. */
  predicate IsBinaryEntry(entry: ZipEntry, expected: string) {
    !entry.isDir && BaseName(entry.name) == Some(expected)
  }

  /**
   * The entry loop of `download_and_extract_asset` from the `i`-th entry:
   * the position of the first binary entry, unless an entry before it
   * cannot be read, or the error when there is none.
   */
  function PickEntry(entries: seq<Result<ZipEntry, string>>, expected: string, i: nat): (r: Result<nat, string>)
    requires i <= |entries|
    ensures r.Ok? ==> i <= r.value < |entries| && entries[r.value].Ok? && IsBinaryEntry(entries[r.value].value, expected)
                      && forall j :: i <= j < r.value ==> entries[j].Ok? && !IsBinaryEntry(entries[j].value, expected)
    ensures r.Err? ==> (r.error == "Formatter binary '" + expected + "' not found in downloaded zip asset"
                        && forall j :: i <= j < |entries| ==> entries[j].Ok? && !IsBinaryEntry(entries[j].value, expected))
                       || exists j :: && i <= j < |entries| && entries[j].Err?
                                      && (forall k :: i <= k < j ==> entries[k].Ok? && !IsBinaryEntry(entries[k].value, expected))
                                      && r.error == "Failed to read zip entry #" + Decimal(j) + ": " + entries[j].error
    decreases |entries| - i
  {
    if i == |entries| then Err("Formatter binary '" + expected + "' not found in downloaded zip asset")
    else match entries[i]
      case Err(e) => Err("Failed to read zip entry #" + Decimal(i) + ": " + e)
      case Ok(entry) =>
        if IsBinaryEntry(entry, expected) then Ok(i)
        else PickEntry(entries, expected, i + 1)
  }

  /** The error of the install steps, if any: create the temporary file, copy, make it executable, rename. */
  function InstallResult(faults: Faults, data: Result<string, string>, temp: Path, target: Path, unix: bool)
    : Result<(), string>
  {
    if faults.createFile(temp).Some? then
      Err("Failed to create temporary binary " + temp.Display() + ": " + faults.createFile(temp).value)
    else if data.Err? then
      Err("Failed to extract formatter binary: " + data.error)
    else if unix && faults.chmod(temp).Some? then
      Err("Failed to set executable permissions " + temp.Display() + ": " + faults.chmod(temp).value)
    else if faults.rename(target).Some? then
      Err("Failed to move binary into place " + target.Display() + ": " + faults.rename(target).value)
    else Ok(())
  }

  /** What `download_and_extract_asset` returns. */
  function ExtractResult(faults: Faults, download: Downloader, url: string, target: Path, unix: bool): Result<(), string> {
    match download(url)
    case Err(f) => Err(DownloadMessage(url, f))
    case Ok(entries) =>
      match FileName(target)
      case None => Err("Failed to determine expected binary filename from " + target.Display())
      case Some(expected) =>
        match PickEntry(entries, expected, 0)
        case Err(e) => Err(e)
        case Ok(k) => InstallResult(faults, entries[k].value.data, WithExtension(target, "download"), target, unix)
  }

  /** The contents `download_and_extract_asset` installs, when it succeeds. */
  function ExtractedData(download: Downloader, url: string, target: Path): Option<string> {
    match download(url)
    case Err(_) => None
    case Ok(entries) =>
      match FileName(target)
      case None => None
      case Some(expected) =>
        match PickEntry(entries, expected, 0)
        case Err(_) => None
        case Ok(k) => if entries[k].value.data.Ok? then Some(entries[k].value.data.value) else None
  }

  /** `set_executable_permissions`: mode 0o755 on Unix, nothing elsewhere. */
  method SetExecutablePermissions(disk: Disk, path: Path, unix: bool) returns (r: Result<(), string>)
    modifies disk
    ensures r == if unix && disk.faults.chmod(path).Some?
                 then Err("Failed to set executable permissions " + path.Display() + ": " + disk.faults.chmod(path).value)
                 else Ok(())
    ensures disk.executable == if unix && r.Ok? then old(disk.executable) + {path} else old(disk.executable)
    ensures disk.files == old(disk.files) && disk.dirs == old(disk.dirs)
  {
    if !unix {
      return Ok(());
    }
    var changed := disk.SetExecutable(path);
    if changed.Err? {
      return Err("Failed to set executable permissions " + path.Display() + ": " + changed.error);
    }
    return Ok(());
  }

  /**
   * The body of the entry loop for the binary entry: write it to the
   * temporary path, make that executable, and rename it over the target.
   * Whatever fails, only the temporary file may have changed; on success
   * the target holds the entry's contents and the temporary file is gone.
   */
  method InstallEntry(disk: Disk, data: Result<string, string>, temp: Path, target: Path, unix: bool)
    returns (r: Result<(), string>)
    requires temp != target
    modifies disk
    ensures r == InstallResult(disk.faults, data, temp, target, unix)
    ensures r.Ok? ==> disk.files == (old(disk.files) - {temp})[target := data.value]
                      && disk.executable - {target} == old(disk.executable) - {temp, target}
                      && (unix ==> target in disk.executable)
    ensures r.Err? ==> disk.files - {temp} == old(disk.files) - {temp}
                       && disk.executable - {temp} == old(disk.executable) - {temp}
    ensures disk.dirs == old(disk.dirs)
  {
    var created := disk.CreateFile(temp);
    if created.Err? {
      return Err("Failed to create temporary binary " + temp.Display() + ": " + created.error);
    }
    if data.Err? {
      return Err("Failed to extract formatter binary: " + data.error);
    }
    r := PlaceBinary(disk, data.value, temp, target, unix);
  }

  /** The rest of the install once the temporary file exists: fill it, make it executable, rename it. */
  method PlaceBinary(disk: Disk, contents: string, temp: Path, target: Path, unix: bool) returns (r: Result<(), string>)
    requires temp != target && temp in disk.files && disk.faults.createFile(temp).None?
    modifies disk
    ensures r == InstallResult(disk.faults, Ok(contents), temp, target, unix)
    ensures r.Ok? ==> disk.files == (old(disk.files) - {temp})[target := contents]
                      && disk.executable - {target} == old(disk.executable) - {temp, target}
                      && (unix ==> target in disk.executable)
    ensures r.Err? ==> disk.files == old(disk.files)[temp := contents]
                       && disk.executable - {temp} == old(disk.executable) - {temp}
    ensures disk.dirs == old(disk.dirs)
  {
    disk.Fill(temp, contents);
    assert disk.files - {temp} == old(disk.files) - {temp};
    var made := SetExecutablePermissions(disk, temp, unix);
    if made.Err? {
      return made;
    }
    var moved := disk.Rename(temp, target);
    if moved.Err? {
      return Err("Failed to move binary into place " + target.Display() + ": " + moved.error);
    }
    return Ok(());
  }

  /** The entry loop of `download_and_extract_asset`, with its `extracted` flag. */
  method ExtractBinary(disk: Disk, entries: seq<Result<ZipEntry, string>>, expected: string, target: Path, unix: bool)
    returns (r: Result<(), string>)
    requires WithExtension(target, "download") != target
    modifies disk
    ensures r == match PickEntry(entries, expected, 0)
                 case Err(e) => Err(e)
                 case Ok(k) => InstallResult(disk.faults, entries[k].value.data, WithExtension(target, "download"), target, unix)
    ensures PickEntry(entries, expected, 0).Err? ==> disk.files == old(disk.files) && disk.executable == old(disk.executable)
    ensures r.Ok? ==> var k := PickEntry(entries, expected, 0).value;
                      && disk.files == (old(disk.files) - {WithExtension(target, "download")})[target := entries[k].value.data.value]
                      && disk.executable - {target} == old(disk.executable) - {WithExtension(target, "download"), target}
                      && (unix ==> target in disk.executable)
    ensures r.Err? ==> disk.files - {WithExtension(target, "download")} == old(disk.files) - {WithExtension(target, "download")}
                       && disk.executable - {WithExtension(target, "download")}
                          == old(disk.executable) - {WithExtension(target, "download")}
    ensures disk.dirs == old(disk.dirs)
  {
    var extracted := false;
    var i := 0;
    while i < |entries|
      invariant 0 <= i <= |entries|
      invariant PickEntry(entries, expected, 0) == PickEntry(entries, expected, i)
      invariant disk.files == old(disk.files) && disk.executable == old(disk.executable) && disk.dirs == old(disk.dirs)
    {
      if entries[i].Err? {
        return Err("Failed to read zip entry #" + Decimal(i) + ": " + entries[i].error);
      }
      var entry := entries[i].value;
      if entry.isDir || BaseName(entry.name) != Some(expected) {
        i := i + 1;
        continue;
      }
      var temp := WithExtension(target, "download");
      r := InstallEntry(disk, entry.data, temp, target, unix);
      if r.Err? {
        return;
      }
      extracted := true;
      break;
    }
    if !extracted {
      return Err("Formatter binary '" + expected + "' not found in downloaded zip asset");
    }
    return Ok(());
  }

  /**
   * `download_and_extract_asset`: download the archive, find the first
   * entry named like the target, and install it through a temporary file.
   */
  method DownloadAndExtractAsset(disk: Disk, download: Downloader, url: string, target: Path, unix: bool)
    returns (r: Result<(), string>)
    requires WithExtension(target, "download") != target
    modifies disk
    ensures r == ExtractResult(disk.faults, download, url, target, unix)
    ensures r.Ok? ==> && ExtractedData(download, url, target).Some?
                      && disk.files == (old(disk.files) - {WithExtension(target, "download")})[target := ExtractedData(download, url, target).value]
                      && disk.executable - {target} == old(disk.executable) - {WithExtension(target, "download"), target}
                      && (unix ==> target in disk.executable)
    ensures r.Err? ==> disk.files - {WithExtension(target, "download")} == old(disk.files) - {WithExtension(target, "download")}
                       && disk.executable - {WithExtension(target, "download")}
                          == old(disk.executable) - {WithExtension(target, "download")}
    ensures disk.dirs == old(disk.dirs)
  {
    var fetched := download(url);
    if fetched.Err? {
      return Err(DownloadMessage(url, fetched.error));
    }
    var name := FileName(target);
    if name.None? {
      return Err("Failed to determine expected binary filename from " + target.Display());
    }
    r := ExtractBinary(disk, fetched.value, name.value, target, unix);
  }

  // ---------------------------------------------------------------- the manager

  /** A platform `detect_platform` can return. */
  predicate Detected(p: Platform) {
    DetectPlatform(p.os, p.arch) == Some(p)
  }

  /** `FormatterManager`: its cache root and its platform (the HTTP client is not modelled). */
  datatype Manager = Manager(cacheRoot: Path, platform: Option<Platform>) {
    /** `{cache_root}/{os}-{arch}`. */
    function PlatformDir(): Path
      requires platform.Some?
    {
      cacheRoot.Join(platform.value.os + "-" + platform.value.arch)
    }

    function BinaryPath(): Path
      requires platform.Some?
    {
      PlatformDir().Join(platform.value.binaryName)
    }

    function VersionPath(): Path
      requires platform.Some?
    {
      PlatformDir().Join("VERSION")
    }
  }

  /** The binary, its VERSION marker and the temporary download are three different files. */
  lemma InstallPathsDistinct(m: Manager)
    requires m.platform.Some? && Detected(m.platform.value)
    ensures var temp := WithExtension(m.BinaryPath(), "download");
            m.BinaryPath() != m.VersionPath() && temp != m.BinaryPath() && temp != m.VersionPath()
  {
    var name := m.platform.value.binaryName;
    assert name == "gdscript-formatter" || name == "gdscript-formatter.exe";
    assert !EndsWith(name, ".download") by {
      assert name[|name| - 9..] != ".download" by {
        assert name[|name| - 1] != 'd';
      }
    }
  }

  /** `FormatterManager::new`: the platform of the build, and a cache root it could create. */
  method New(env: Env, os: string, arch: string, disk: Disk) returns (r: Result<Manager, string>)
    modifies disk
    ensures r == match CacheRootOutcome(env, disk.faults.createDir)
                 case Ok(root) => Ok(Manager(root, DetectPlatform(os, arch)))
                 case Err(e) => Err(e)
    ensures r.Ok? ==> r.value.platform.Some? ==> Detected(r.value.platform.value)
    ensures disk.dirs == old(disk.dirs) + (if r.Ok? then {r.value.cacheRoot} else {})
    ensures disk.files == old(disk.files) && disk.executable == old(disk.executable)
  {
    var platform := DetectPlatform(os, arch);
    var root := ResolveCacheRoot(env, disk);
    if root.Err? {
      return Err(root.error);
    }
    return Ok(Manager(root.value, platform));
  }

  /** The installed VERSION names `tag` and the binary is there: nothing to download. */
  predicate UpToDate(files: map<Path, string>, dirs: set<Path>, binary: Path, version: Path, tag: string) {
    version in files && Trim(files[version]) == tag && (binary in files || binary in dirs)
  }

  /** The release is installed: the binary holds what the archive gave and VERSION holds the tag and a newline. */
  predicate Installed(files: map<Path, string>, download: Downloader, url: string, binary: Path, version: Path, tag: string) {
    && ExtractedData(download, url, binary).Some?
    && version in files && files[version] == tag + "\n"
    && binary in files && files[binary] == ExtractedData(download, url, binary).value
  }

  /** VERSION is as it was: present exactly when it was, with the same text. */
  predicate VersionKept(files: map<Path, string>, before: map<Path, string>, version: Path) {
    (version in files <==> version in before) && (version in files ==> files[version] == before[version])
  }

  /** What the update step of `ensure_binary` returns, from the state before it. */
  function UpdateResult(release: Release, platform: Platform, files: map<Path, string>, dirs: set<Path>,
                        faults: Faults, download: Downloader, binary: Path, version: Path, unix: bool)
    : Result<(), string>
  {
    match SelectAssetForPlatform(release, platform)
    case Err(e) => Err(e)
    case Ok(asset) =>
      if UpToDate(files, dirs, binary, version, release.tagName) then Ok(())
      else match ExtractResult(faults, download, asset.url, binary, unix)
        case Err(e) => Err(e)
        case Ok(_) =>
          if faults.write(version).Some? then
            Err("Failed to write version file " + version.Display() + ": " + faults.write(version).value)
          else Ok(())
  }

  /**
   * The update step of `ensure_binary`: pick the asset, stop if the
   * installed version is the release's, else install the binary and only
   * then record the release's tag in VERSION.
   */
  method UpdateBinary(release: Release, platform: Platform, download: Downloader, binary: Path, version: Path,
                      unix: bool, disk: Disk)
    returns (r: Result<(), string>)
    requires binary != version && WithExtension(binary, "download") != binary && WithExtension(binary, "download") != version
    modifies disk
    ensures r == UpdateResult(release, platform, old(disk.files), old(disk.dirs), disk.faults, download, binary, version, unix)
    ensures SelectAssetForPlatform(release, platform).Err? ==> disk.files == old(disk.files) && disk.executable == old(disk.executable)
    ensures SelectAssetForPlatform(release, platform).Ok? ==>
              var url := SelectAssetForPlatform(release, platform).value.url;
              && (UpToDate(old(disk.files), old(disk.dirs), binary, version, release.tagName) ==>
                    disk.files == old(disk.files) && disk.executable == old(disk.executable))
              && (ExtractResult(disk.faults, download, url, binary, unix).Err? ==>
                    VersionKept(disk.files, old(disk.files), version))
              && (r.Ok? && !UpToDate(old(disk.files), old(disk.dirs), binary, version, release.tagName) ==>
                    Installed(disk.files, download, url, binary, version, release.tagName))
    ensures disk.dirs == old(disk.dirs)
  {
    var asset := SelectAssetForPlatform(release, platform);
    if asset.Err? {
      return Err(asset.error);
    }
    r := InstallRelease(asset.value.url, release.tagName, download, binary, version, unix, disk);
  }

  /** The update step once the asset is known: skip when up to date, else install and record. */
  method InstallRelease(url: string, tag: string, download: Downloader, binary: Path, version: Path,
                        unix: bool, disk: Disk)
    returns (r: Result<(), string>)
    requires binary != version && WithExtension(binary, "download") != binary && WithExtension(binary, "download") != version
    modifies disk
    ensures UpToDate(old(disk.files), old(disk.dirs), binary, version, tag) ==>
              r == Ok(()) && disk.files == old(disk.files) && disk.executable == old(disk.executable)
    ensures !UpToDate(old(disk.files), old(disk.dirs), binary, version, tag) ==>
              r == match ExtractResult(disk.faults, download, url, binary, unix)
                   case Err(e) => Err(e)
                   case Ok(_) =>
                     if disk.faults.write(version).Some? then
                       Err("Failed to write version file " + version.Display() + ": " + disk.faults.write(version).value)
                     else Ok(())
    ensures ExtractResult(disk.faults, download, url, binary, unix).Err? ==>
              VersionKept(disk.files, old(disk.files), version)
    ensures r.Ok? && !UpToDate(old(disk.files), old(disk.dirs), binary, version, tag) ==>
              Installed(disk.files, download, url, binary, version, tag)
    ensures disk.dirs == old(disk.dirs)
  {
    var installed := disk.ReadToString(version);
    var installedTag := if installed.Some? then Some(Trim(installed.value)) else None;
    if installedTag == Some(tag) && disk.Exists(binary) {
      return Ok(());
    }
    r := InstallAndRecord(url, tag, download, binary, version, unix, disk);
  }

  /** Download and install the binary, then write VERSION: the marker is only written once the binary is in place. */
  method InstallAndRecord(url: string, tag: string, download: Downloader, binary: Path, version: Path,
                          unix: bool, disk: Disk)
    returns (r: Result<(), string>)
    requires binary != version && WithExtension(binary, "download") != binary && WithExtension(binary, "download") != version
    modifies disk
    ensures r == match ExtractResult(disk.faults, download, url, binary, unix)
                 case Err(e) => Err(e)
                 case Ok(_) =>
                   if disk.faults.write(version).Some? then
                     Err("Failed to write version file " + version.Display() + ": " + disk.faults.write(version).value)
                   else Ok(())
    ensures ExtractResult(disk.faults, download, url, binary, unix).Err? ==>
              VersionKept(disk.files, old(disk.files), version)
    ensures r.Ok? ==> Installed(disk.files, download, url, binary, version, tag)
    ensures disk.dirs == old(disk.dirs)
  {
    var extracted := DownloadAndExtractAsset(disk, download, url, binary, unix);
    if extracted.Err? {
      assert version in disk.files - {WithExtension(binary, "download")} <==> version in old(disk.files) - {WithExtension(binary, "download")};
      return Err(extracted.error);
    }
    var written := disk.Write(version, tag + "\n");
    if written.Err? {
      return Err("Failed to write version file " + version.Display() + ": " + written.error);
    }
    return Ok(());
  }

  /** The unix family, where binaries need their executable bit. */
  function IsUnix(platform: Platform): bool {
    platform.os != "windows"
  }

  /**
   * `ensure_binary`: an explicit `GDSCRIPT_FORMATTER_PATH` wins outright;
   * otherwise the cached binary for the platform, updated to the latest
   * release when that can be fetched, and used as it is when it cannot.
   */
  method EnsureBinary(m: Manager, env: Env, os: string, arch: string, fetch: Result<Release, FetchFailure>,
                      download: Downloader, disk: Disk)
    returns (r: Result<Path, string>)
    requires m.platform.Some? ==> Detected(m.platform.value)
    modifies disk
    ensures env.formatterPath.Some? ==>
              && r == (if old(disk.Exists(Root(env.formatterPath.value))) then Ok(Root(env.formatterPath.value))
                       else Err("GDSCRIPT_FORMATTER_PATH points to a missing file: " + env.formatterPath.value))
              && unchanged(disk)
    ensures env.formatterPath.None? && m.platform.None? ==>
              r == Err("Unsupported platform for gdscript-formatter: os=" + os + " arch=" + arch) && unchanged(disk)
    ensures env.formatterPath.None? && m.platform.Some? && r.Ok? ==> r.value == m.BinaryPath()
    ensures env.formatterPath.None? && m.platform.Some? && disk.faults.createDir(m.PlatformDir()).Some? ==>
              r == Err("Failed to create platform cache dir " + m.PlatformDir().Display() + ": "
                       + disk.faults.createDir(m.PlatformDir()).value)
              && disk.dirs == old(disk.dirs) && disk.files == old(disk.files) && disk.executable == old(disk.executable)
    ensures env.formatterPath.None? && m.platform.Some? && disk.faults.createDir(m.PlatformDir()).None? && fetch.Err? ==>
              && r == (if old(disk.Exists(m.BinaryPath())) then Ok(m.BinaryPath())
                       else Err("Failed to fetch latest release and no cached formatter found: " + FetchMessage(fetch.error)))
              && disk.files == old(disk.files) && disk.executable == old(disk.executable)
    ensures env.formatterPath.None? && m.platform.Some? && disk.faults.createDir(m.PlatformDir()).None? && fetch.Ok? ==>
              var update := UpdateResult(fetch.value, m.platform.value, old(disk.files), old(disk.dirs) + {m.PlatformDir()},
                                         disk.faults, download, m.BinaryPath(), m.VersionPath(), IsUnix(m.platform.value));
              r == if update.Ok? || disk.Exists(m.BinaryPath()) then Ok(m.BinaryPath())
                   else Err("Failed to update formatter and no cached formatter found: " + update.error)
    ensures env.formatterPath.None? && m.platform.Some? && disk.faults.createDir(m.PlatformDir()).None? && fetch.Ok?
            && SelectAssetForPlatform(fetch.value, m.platform.value).Ok?
            && UpToDate(old(disk.files), old(disk.dirs) + {m.PlatformDir()}, m.BinaryPath(), m.VersionPath(), fetch.value.tagName) ==>
              r == Ok(m.BinaryPath()) && disk.files == old(disk.files) && disk.executable == old(disk.executable)
    ensures env.formatterPath.None? && m.platform.Some? && disk.faults.createDir(m.PlatformDir()).None? && fetch.Ok?
            && SelectAssetForPlatform(fetch.value, m.platform.value).Ok? ==>
              var url := SelectAssetForPlatform(fetch.value, m.platform.value).value.url;
              && (ExtractResult(disk.faults, download, url, m.BinaryPath(), IsUnix(m.platform.value)).Err? ==>
                    VersionKept(disk.files, old(disk.files), m.VersionPath()))
              && (UpdateResult(fetch.value, m.platform.value, old(disk.files), old(disk.dirs) + {m.PlatformDir()}, disk.faults,
                               download, m.BinaryPath(), m.VersionPath(), IsUnix(m.platform.value)).Ok?
                  && !UpToDate(old(disk.files), old(disk.dirs) + {m.PlatformDir()}, m.BinaryPath(), m.VersionPath(), fetch.value.tagName) ==>
                    Installed(disk.files, download, url, m.BinaryPath(), m.VersionPath(), fetch.value.tagName))
  {
    if env.formatterPath.Some? {
      var path := Root(env.formatterPath.value);
      if disk.Exists(path) {
        return Ok(path);
      }
      return Err("GDSCRIPT_FORMATTER_PATH points to a missing file: " + path.Display());
    }
    if m.platform.None? {
      return Err("Unsupported platform for gdscript-formatter: os=" + os + " arch=" + arch);
    }
    r := EnsureCached(m, fetch, download, disk);
  }

  /** `ensure_binary` past the override and the platform check. */
  method EnsureCached(m: Manager, fetch: Result<Release, FetchFailure>, download: Downloader, disk: Disk)
    returns (r: Result<Path, string>)
    requires m.platform.Some? && Detected(m.platform.value)
    modifies disk
    ensures r.Ok? ==> r.value == m.BinaryPath()
    ensures disk.faults.createDir(m.PlatformDir()).Some? ==>
              r == Err("Failed to create platform cache dir " + m.PlatformDir().Display() + ": "
                       + disk.faults.createDir(m.PlatformDir()).value)
              && disk.dirs == old(disk.dirs) && disk.files == old(disk.files) && disk.executable == old(disk.executable)
    ensures disk.faults.createDir(m.PlatformDir()).None? && fetch.Err? ==>
              && r == (if old(disk.Exists(m.BinaryPath())) then Ok(m.BinaryPath())
                       else Err("Failed to fetch latest release and no cached formatter found: " + FetchMessage(fetch.error)))
              && disk.files == old(disk.files) && disk.executable == old(disk.executable)
    ensures disk.faults.createDir(m.PlatformDir()).None? && fetch.Ok? ==>
              var update := UpdateResult(fetch.value, m.platform.value, old(disk.files), old(disk.dirs) + {m.PlatformDir()},
                                         disk.faults, download, m.BinaryPath(), m.VersionPath(), IsUnix(m.platform.value));
              r == if update.Ok? || disk.Exists(m.BinaryPath()) then Ok(m.BinaryPath())
                   else Err("Failed to update formatter and no cached formatter found: " + update.error)
    ensures disk.faults.createDir(m.PlatformDir()).None? && fetch.Ok?
            && SelectAssetForPlatform(fetch.value, m.platform.value).Ok?
            && UpToDate(old(disk.files), old(disk.dirs) + {m.PlatformDir()}, m.BinaryPath(), m.VersionPath(), fetch.value.tagName) ==>
              disk.files == old(disk.files) && disk.executable == old(disk.executable)
    ensures disk.faults.createDir(m.PlatformDir()).None? && fetch.Ok? && SelectAssetForPlatform(fetch.value, m.platform.value).Ok? ==>
              var url := SelectAssetForPlatform(fetch.value, m.platform.value).value.url;
              && (ExtractResult(disk.faults, download, url, m.BinaryPath(), IsUnix(m.platform.value)).Err? ==>
                    VersionKept(disk.files, old(disk.files), m.VersionPath()))
              && (UpdateResult(fetch.value, m.platform.value, old(disk.files), old(disk.dirs) + {m.PlatformDir()}, disk.faults,
                               download, m.BinaryPath(), m.VersionPath(), IsUnix(m.platform.value)).Ok?
                  && !UpToDate(old(disk.files), old(disk.dirs) + {m.PlatformDir()}, m.BinaryPath(), m.VersionPath(), fetch.value.tagName) ==>
                    Installed(disk.files, download, url, m.BinaryPath(), m.VersionPath(), fetch.value.tagName))
  {
    var made := disk.CreateDirAll(m.PlatformDir());
    if made.Err? {
      return Err("Failed to create platform cache dir " + m.PlatformDir().Display() + ": " + made.error);
    }
    InstallPathsDistinct(m);
    r := UpdateOrFallBack(m, fetch, download, disk);
  }

  /** The end of `ensure_binary`: the updated binary, or else the cached one if there is one. */
  method UpdateOrFallBack(m: Manager, fetch: Result<Release, FetchFailure>, download: Downloader, disk: Disk)
    returns (r: Result<Path, string>)
    requires m.platform.Some?
    requires var temp := WithExtension(m.BinaryPath(), "download");
             m.BinaryPath() != m.VersionPath() && temp != m.BinaryPath() && temp != m.VersionPath()
    modifies disk
    ensures r.Ok? ==> r.value == m.BinaryPath()
    ensures fetch.Err? ==>
              && r == (if old(disk.Exists(m.BinaryPath())) then Ok(m.BinaryPath())
                       else Err("Failed to fetch latest release and no cached formatter found: " + FetchMessage(fetch.error)))
              && disk.files == old(disk.files) && disk.executable == old(disk.executable) && disk.dirs == old(disk.dirs)
    ensures fetch.Ok? ==>
              var update := UpdateResult(fetch.value, m.platform.value, old(disk.files), old(disk.dirs),
                                         disk.faults, download, m.BinaryPath(), m.VersionPath(), IsUnix(m.platform.value));
              r == if update.Ok? || disk.Exists(m.BinaryPath()) then Ok(m.BinaryPath())
                   else Err("Failed to update formatter and no cached formatter found: " + update.error)
    ensures fetch.Ok? && SelectAssetForPlatform(fetch.value, m.platform.value).Ok?
            && UpToDate(old(disk.files), old(disk.dirs), m.BinaryPath(), m.VersionPath(), fetch.value.tagName) ==>
              disk.files == old(disk.files) && disk.executable == old(disk.executable)
    ensures fetch.Ok? && SelectAssetForPlatform(fetch.value, m.platform.value).Ok? ==>
              var url := SelectAssetForPlatform(fetch.value, m.platform.value).value.url;
              && (ExtractResult(disk.faults, download, url, m.BinaryPath(), IsUnix(m.platform.value)).Err? ==>
                    VersionKept(disk.files, old(disk.files), m.VersionPath()))
              && (UpdateResult(fetch.value, m.platform.value, old(disk.files), old(disk.dirs), disk.faults, download,
                               m.BinaryPath(), m.VersionPath(), IsUnix(m.platform.value)).Ok?
                  && !UpToDate(old(disk.files), old(disk.dirs), m.BinaryPath(), m.VersionPath(), fetch.value.tagName) ==>
                    Installed(disk.files, download, url, m.BinaryPath(), m.VersionPath(), fetch.value.tagName))
  {
    var binary := m.BinaryPath();
    if fetch.Err? {
      if disk.Exists(binary) {
        return Ok(binary);
      }
      return Err("Failed to fetch latest release and no cached formatter found: " + FetchMessage(fetch.error));
    }
    var platform := m.platform.value;
    var update := UpdateBinary(fetch.value, platform, download, binary, m.VersionPath(), IsUnix(platform), disk);
    if update.Ok? {
      return Ok(binary);
    }
    if disk.Exists(binary) {
      return Ok(binary);
    }
    return Err("Failed to update formatter and no cached formatter found: " + update.error);
  }
}

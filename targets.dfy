/**
 * Argument getters over a JSON object and the resolution of the set of
 * target files from explicit paths and a filtered directory scan.
 * The directory walk and the glob engine are inputs (`FileTree`).
 */
module Targets {
  import opened Wrappers
  import opened Json
  import opened StringSet

  /** The `arguments` object of a tool call. */
  type Args = map<string, Json>

  /** The include pattern used when `include` is absent. */
  const DEFAULT_INCLUDE: seq<string> := ["**/*.gd"]

  function Quote(key: string): string {
    "`" + key + "`"
  }

  // ---------------------------------------------------------------- getters

  /** `as_object`: absent is an empty object, any other non-object an error. */
  function AsObject(arguments: Option<Json>): (r: Result<Args, string>)
    ensures arguments.None? ==> r == Ok(map[])
    ensures arguments.Some? && arguments.value.JObject? ==> r == Ok(arguments.value.fields)
    ensures arguments.Some? && !arguments.value.JObject? ==> r == Err("`arguments` must be a JSON object")
  {
    match arguments
    case None => Ok(map[])
    case Some(JObject(m)) => Ok(m)
    case Some(_) => Err("`arguments` must be a JSON object")
  }

  /** `get_bool`. */
  function GetBool(args: Args, key: string): Result<bool, string> {
    if key !in args then Ok(false)
    else if args[key].JBool? then Ok(args[key].b)
    else Err(Quote(key) + " must be a boolean")
  }

  /** `get_optional_i64`: any Number that fits an i64, else an error. */
  function GetOptionalI64(args: Args, key: string): Result<Option<int>, string> {
    if key !in args then Ok(None)
    else match AsI64(args[key])
      case Some(v) => Ok(Some(v))
      case None => Err(Quote(key) + " must be an integer")
  }

  /** `get_optional_usize`: an i64 that is not negative (usize is 64 bits wide). */
  function GetOptionalUsize(args: Args, key: string): (r: Result<Option<nat>, string>)
    ensures r.Ok? && r.value.Some? ==> GetOptionalI64(args, key) == Ok(Some(r.value.value))
    ensures r.Ok? && r.value.None? <==> key !in args
    ensures (exists v :: GetOptionalI64(args, key) == Ok(Some(v)) && v < 0) ==>
              r == Err(Quote(key) + " must be >= 0")
    ensures GetOptionalI64(args, key).Err? ==> r == Err(GetOptionalI64(args, key).error)
    ensures GetOptionalI64(args, key).Ok? && GetOptionalI64(args, key).value.Some?
            && GetOptionalI64(args, key).value.value >= 0 ==>
              r == Ok(Some(GetOptionalI64(args, key).value.value))
  {
    match GetOptionalI64(args, key)
    case Err(e) => Err(e)
    case Ok(None) => Ok(None)
    case Ok(Some(v)) =>
      // Every i64 that is not negative fits a 64-bit usize, so the
      // conversion's "too large" error cannot occur.
      if v < 0 then Err(Quote(key) + " must be >= 0")
      else Ok(Some(v))
  }

  /** `get_optional_string`. */
  function GetOptionalString(args: Args, key: string): Result<Option<string>, string> {
    if key !in args then Ok(None)
    else if args[key].JString? then Ok(Some(args[key].s))
    else Err(Quote(key) + " must be a string")
  }

  /** An absent key gives each getter's default. */
  lemma AbsentKeyDefaults(args: Args, key: string)
    requires key !in args
    ensures GetBool(args, key) == Ok(false)
    ensures GetOptionalI64(args, key) == Ok(None)
    ensures GetOptionalUsize(args, key) == Ok(None)
    ensures GetOptionalString(args, key) == Ok(None)
    ensures StringArrayArg(args, key) == Ok(None)
  {
  }

  /** A present value of the wrong JSON type gives the key's own error. */
  lemma WrongTypeErrors(args: Args, key: string)
    requires key in args
    ensures !args[key].JBool? ==> GetBool(args, key) == Err(Quote(key) + " must be a boolean")
    ensures !args[key].JInt? ==> GetOptionalI64(args, key) == Err(Quote(key) + " must be an integer")
    ensures !args[key].JString? ==> GetOptionalString(args, key) == Err(Quote(key) + " must be a string")
    ensures !args[key].JArray? ==> StringArrayArg(args, key) == Err(Quote(key) + " must be an array of strings")
  {
  }

  predicate AllStrings(items: seq<Json>) {
    forall i :: 0 <= i < |items| ==> items[i].JString?
  }

  function Strings(items: seq<Json>): (r: seq<string>)
    requires AllStrings(items)
    ensures |r| == |items| && forall i :: 0 <= i < |r| ==> r[i] == items[i].s
  {
    seq(|items|, i requires 0 <= i < |items| => items[i].s)
  }

  /** What `get_optional_string_array` returns: the strings in order, or the key's error. */
  function StringArrayArg(args: Args, key: string): Result<Option<seq<string>>, string> {
    if key !in args then Ok(None)
    else if args[key].JArray? && AllStrings(args[key].items) then Ok(Some(Strings(args[key].items)))
    else Err(Quote(key) + " must be an array of strings")
  }

  /** `get_optional_string_array`: copies the array element by element. */
  method GetOptionalStringArray(args: Args, key: string) returns (r: Result<Option<seq<string>>, string>)
    ensures r == StringArrayArg(args, key)
  {
    if key !in args {
      return Ok(None);
    }
    var value := args[key];
    if !value.JArray? {
      return Err(Quote(key) + " must be an array of strings");
    }
    var items := value.items;
    var values: seq<string> := [];
    for i := 0 to |items|
      invariant |values| == i
      invariant forall k :: 0 <= k < i ==> items[k].JString? && values[k] == items[k].s
    {
      if !items[i].JString? {
        return Err(Quote(key) + " must be an array of strings");
      }
      values := values + [items[i].s];
    }
    assert values == Strings(items);
    return Ok(Some(values));
  }

  // ---------------------------------------------------------------- directory scan

  /** One item of the recursive walk: an entry (full and root-relative path) or a walk error. */
  datatype WalkItem = Entry(path: string, relative: string, isFile: bool) | WalkFailure(message: string)

  /** What the file system says about a `dir` argument. */
  datatype DirState = Missing | NotADirectory | Directory(walk: seq<WalkItem>)

  /**
   * The file system and the glob engine: `lookup` gives the state of a
   * directory path and the items its walk yields, `globError` the error text
   * of a pattern that does not compile, `globMatch` whether a pattern matches
   * a relative path.
   */
  datatype FileTree = FileTree(
    lookup: string -> DirState,
    globError: string -> Option<string>,
    globMatch: (string, string) -> bool)

  /** `build_globset`: the first pattern that does not compile is the error. */
  function GlobSetError(patterns: seq<string>, keyName: string, tree: FileTree): (r: Option<string>)
    ensures r.None? <==> forall p :: p in patterns ==> tree.globError(p).None?
  {
    if patterns == [] then None
    else match tree.globError(patterns[0])
      case Some(e) => Some("Invalid glob in `" + keyName + "`: '" + patterns[0] + "' (" + e + ")")
      case None => GlobSetError(patterns[1..], keyName, tree)
  }

  /** `GlobSet::is_match`: some pattern of the set matches. */
  predicate IsMatch(patterns: seq<string>, relative: string, tree: FileTree) {
    exists p :: p in patterns && tree.globMatch(p, relative)
  }

  /** The filtering rule: a regular file matching an include pattern and no exclude pattern. */
  predicate Kept(item: WalkItem, includes: seq<string>, excludes: seq<string>, tree: FileTree) {
    item.Entry? && item.isFile && IsMatch(includes, item.relative, tree) && !IsMatch(excludes, item.relative, tree)
  }

  /** The files a walk keeps, in walk order; the first walk error aborts. */
  function Scan(dir: string, walk: seq<WalkItem>, includes: seq<string>, excludes: seq<string>, tree: FileTree)
    : (r: Result<seq<string>, string>)
    ensures r.Ok? <==> forall k :: 0 <= k < |walk| ==> walk[k].Entry?
    ensures r.Ok? ==> forall p :: p in r.value <==>
      exists k :: 0 <= k < |walk| && Kept(walk[k], includes, excludes, tree) && walk[k].path == p
  {
    if walk == [] then Ok([])
    else match walk[0]
      case WalkFailure(e) => Err("Failed to walk directory '" + dir + "': " + e)
      case Entry(path, _, _) =>
        match Scan(dir, walk[1..], includes, excludes, tree)
        case Err(e) => Err(e)
        case Ok(rest) =>
          assert forall k :: 0 < k < |walk| ==> walk[k] == walk[1..][k - 1];
          Ok((if Kept(walk[0], includes, excludes, tree) then [path] else []) + rest)
  }

  /** `prefix` followed by the outcome `r`. */
  function Then(prefix: seq<string>, r: Result<seq<string>, string>): Result<seq<string>, string> {
    match r
    case Ok(rest) => Ok(prefix + rest)
    case Err(e) => Err(e)
  }

  /** What `collect_dir_files` returns. */
  function DirFiles(dir: string, includes: seq<string>, excludes: seq<string>, tree: FileTree)
    : Result<seq<string>, string>
  {
    match tree.lookup(dir)
    case Missing => Err("`dir` does not exist: " + dir)
    case NotADirectory => Err("`dir` is not a directory: " + dir)
    case Directory(walk) =>
      match GlobSetError(includes, "include", tree)
      case Some(e) => Err(e)
      case None =>
        match GlobSetError(excludes, "exclude", tree)
        case Some(e) => Err(e)
        case None => Scan(dir, walk, includes, excludes, tree)
  }

  /** `collect_dir_files`: one pass over the walk, pushing each kept file. */
  method CollectDirFiles(dir: string, includes: seq<string>, excludes: seq<string>, tree: FileTree)
    returns (r: Result<seq<string>, string>)
    ensures r == DirFiles(dir, includes, excludes, tree)
  {
    var state := tree.lookup(dir);
    if state.Missing? {
      return Err("`dir` does not exist: " + dir);
    }
    if state.NotADirectory? {
      return Err("`dir` is not a directory: " + dir);
    }
    var includeError := GlobSetError(includes, "include", tree);
    if includeError.Some? {
      return Err(includeError.value);
    }
    var excludeError := GlobSetError(excludes, "exclude", tree);
    if excludeError.Some? {
      return Err(excludeError.value);
    }
    var walk := state.walk;
    var files: seq<string> := [];
    assert walk[0..] == walk;
    ghost var whole := Scan(dir, walk, includes, excludes, tree);
    assert whole.Ok? ==> [] + whole.value == whole.value;
    for i := 0 to |walk|
      invariant Scan(dir, walk, includes, excludes, tree) == Then(files, Scan(dir, walk[i..], includes, excludes, tree))
    {
      assert walk[i..][0] == walk[i] && walk[i..][1..] == walk[i + 1..];
      var item := walk[i];
      if item.WalkFailure? {
        return Err("Failed to walk directory '" + dir + "': " + item.message);
      }
      ghost var rest := Scan(dir, walk[i + 1..], includes, excludes, tree);
      if item.isFile && IsMatch(includes, item.relative, tree) && !IsMatch(excludes, item.relative, tree) {
        assert rest.Ok? ==> files + ([item.path] + rest.value) == (files + [item.path]) + rest.value;
        files := files + [item.path];
      } else {
        assert rest.Ok? ==> [] + rest.value == rest.value;
      }
    }
    assert files + [] == files;
    return Ok(files);
  }

  // ---------------------------------------------------------------- resolution

  /**
   * The outcome of `resolve_target_files` as a set: the argument errors in
   * the order the getters run, then the explicit files united with the scan,
   * and the two usage errors.
   */
  function Resolution(args: Args, required: bool, tree: FileTree): Result<set<string>, string> {
    match StringArrayArg(args, "files")
    case Err(e) => Err(e)
    case Ok(files) =>
      match GetOptionalString(args, "dir")
      case Err(e) => Err(e)
      case Ok(dir) =>
        match StringArrayArg(args, "include")
        case Err(e) => Err(e)
        case Ok(includes) =>
          match StringArrayArg(args, "exclude")
          case Err(e) => Err(e)
          case Ok(excludes) =>
            var scan := if dir.Some? then
                          Some(DirFiles(dir.value, includes.UnwrapOr(DEFAULT_INCLUDE), excludes.UnwrapOr([]), tree))
                        else None;
            Union(files, scan, "include" in args || "exclude" in args, required)
  }

  /**
   * The second half of `resolution`, once the four arguments have been read
   * and `dir`, if given, has been scanned (`scan`).
   */
  function Union(files: Option<seq<string>>, scan: Option<Result<seq<string>, string>>, filtered: bool, required: bool)
    : Result<set<string>, string>
  {
    var explicit := Elements(files.UnwrapOr([]));
    match Scanned(scan, filtered)
    case Err(e) => Err(e)
    case Ok(found) =>
      if required && explicit + found == {} then
        Err("Either `files` or `dir` must resolve to at least one file")
      else Ok(explicit + found)
  }

  /** The files the `dir` scan contributes: none without `dir`, and an error for filters without it. */
  function Scanned(scan: Option<Result<seq<string>, string>>, filtered: bool): Result<set<string>, string> {
    match scan
    case Some(Ok(found)) => Ok(Elements(found))
    case Some(Err(e)) => Err(e)
    case None =>
      if filtered then Err("`include`/`exclude` can only be used with `dir`")
      else Ok({})
  }

  /** Inserts `items` one by one into the ordered set `acc`. */
  method InsertAll(acc: seq<string>, items: seq<string>) returns (r: seq<string>)
    requires StrictlySorted(acc)
    ensures StrictlySorted(r) && Elements(r) == Elements(acc) + Elements(items)
  {
    r := acc;
    for i := 0 to |items|
      invariant StrictlySorted(r) && Elements(r) == Elements(acc) + Elements(items[..i])
    {
      assert items[..i + 1] == items[..i] + [items[i]];
      r := Insert(r, items[i]);
    }
    assert items[..|items|] == items;
  }

  /** `resolve_target_files`: inserts every explicit and every scanned file into an ordered set. */
  method ResolveTargetFiles(args: Args, required: bool, tree: FileTree) returns (r: Result<seq<string>, string>)
    ensures r.Err? <==> Resolution(args, required, tree).Err?
    ensures r.Err? ==> r.error == Resolution(args, required, tree).error
    ensures r.Ok? ==> StrictlySorted(r.value) && Elements(r.value) == Resolution(args, required, tree).value
  {
    var directFiles := GetOptionalStringArray(args, "files");
    if directFiles.Err? {
      return Err(directFiles.error);
    }
    var dir := GetOptionalString(args, "dir");
    if dir.Err? {
      return Err(dir.error);
    }
    var includes := GetOptionalStringArray(args, "include");
    if includes.Err? {
      return Err(includes.error);
    }
    var excludes := GetOptionalStringArray(args, "exclude");
    if excludes.Err? {
      return Err(excludes.error);
    }

    var scan := None;
    if dir.value.Some? {
      var found := CollectDirFiles(dir.value.value, includes.value.UnwrapOr(DEFAULT_INCLUDE),
                                   excludes.value.UnwrapOr([]), tree);
      scan := Some(found);
    }
    r := UnionFiles(directFiles.value, scan, "include" in args || "exclude" in args, required);
  }

  /** The second half of `resolve_target_files`: the explicit files, then the scan, into one ordered set. */
  method UnionFiles(files: Option<seq<string>>, scan: Option<Result<seq<string>, string>>, filtered: bool, required: bool)
    returns (r: Result<seq<string>, string>)
    ensures r.Err? <==> Union(files, scan, filtered, required).Err?
    ensures r.Err? ==> r.error == Union(files, scan, filtered, required).error
    ensures r.Ok? ==> StrictlySorted(r.value) && Elements(r.value) == Union(files, scan, filtered, required).value
  {
    var uniqueFiles := InsertAll([], files.UnwrapOr([]));
    assert Elements([]) == {};
    var scanned := ScanInto(uniqueFiles, scan, filtered);
    if scanned.Err? {
      return Err(scanned.error);
    }
    ElementsEmpty(scanned.value);
    if required && |scanned.value| == 0 {
      return Err("Either `files` or `dir` must resolve to at least one file");
    }
    return Ok(scanned.value);
  }

  /** Adds the files of the `dir` scan, if there is one, to the ordered set `acc`. */
  method ScanInto(acc: seq<string>, scan: Option<Result<seq<string>, string>>, filtered: bool)
    returns (r: Result<seq<string>, string>)
    requires StrictlySorted(acc)
    ensures r.Err? <==> Scanned(scan, filtered).Err?
    ensures r.Err? ==> r.error == Scanned(scan, filtered).error
    ensures r.Ok? ==> StrictlySorted(r.value) && Elements(r.value) == Elements(acc) + Scanned(scan, filtered).value
  {
    if scan.Some? {
      if scan.value.Err? {
        return Err(scan.value.error);
      }
      var all := InsertAll(acc, scan.value.value);
      return Ok(all);
    } else if filtered {
      return Err("`include`/`exclude` can only be used with `dir`");
    }
    return Ok(acc);
  }

  /** `include`/`exclude` without `dir` is an error even when `files` is given. */
  lemma IncludeNeedsDir(args: Args, required: bool, tree: FileTree)
    requires "dir" !in args && ("include" in args || "exclude" in args)
    requires StringArrayArg(args, "files").Ok?
    requires StringArrayArg(args, "include").Ok? && StringArrayArg(args, "exclude").Ok?
    ensures Resolution(args, required, tree) == Err("`include`/`exclude` can only be used with `dir`")
  {
  }

  /** With `required`, an empty union is an error; without it, the empty list is returned. */
  lemma EmptyResolution(args: Args, tree: FileTree)
    requires Resolution(args, false, tree) == Ok({})
    ensures Resolution(args, true, tree) == Err("Either `files` or `dir` must resolve to at least one file")
  {
  }

  /**
   * The resolved list is the one ascending duplicate-free list of the
   * resolved set: equal arguments give an equal list, whatever the order of
   * `files` or of the walk.
   */
  lemma ResolvedListIsCanonical(args: Args, required: bool, tree: FileTree, a: seq<string>, b: seq<string>)
    requires Resolution(args, required, tree).Ok?
    requires StrictlySorted(a) && Elements(a) == Resolution(args, required, tree).value
    requires StrictlySorted(b) && Elements(b) == Resolution(args, required, tree).value
    ensures a == b
  {
    SortedUnique(a, b);
  }
}

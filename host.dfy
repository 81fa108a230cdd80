/**
 * The boundary with the operating system: paths, and the outcome of running
 * a child process. Spawning itself is not modelled; its outcome is an input.
 */
module Host {
  import opened Wrappers

  /** A `PathBuf` built from a root by `join`. */
  datatype Path = Root(text: string) | Child(parent: Path, name: string) {
    /** `Path::join` with one relative component. */
    function Join(component: string): Path {
      Child(this, component)
    }

    /**
     * `Path::display` on Unix. `join` puts a '/' between the parent and the
     * component, unless the parent is empty or already ends in '/'. Every
     * component joined here is relative, so none replaces its parent.
     */
    function Display(): string {
      match this
      case Root(t) => t
      case Child(p, n) =>
        var d := p.Display();
        if d == [] || d[|d| - 1] == '/' then d + n else d + "/" + n
    }
  }

  /**
   * The display of a joined path: the parent's display, then one separator
   * exactly when the parent is not empty, then the component. A parent that
   * already ends in '/' gets no second one.
   */
  lemma JoinDisplay(p: Path, n: string)
    ensures var d, s := p.Display(), p.Join(n).Display();
            && s[..|d|] == d && s[|s| - |n|..] == n
            && |s| == |d| + |n| + (if d == [] || d[|d| - 1] == '/' then 0 else 1)
            && (d != [] ==> s[|s| - |n| - 1] == '/')
  {
    var d, s := p.Display(), p.Join(n).Display();
    if d == [] || d[|d| - 1] == '/' {
      assert s == d + n;
      if d != [] {
        assert s[|s| - |n| - 1] == d[|d| - 1];
      }
    } else {
      assert s == d + "/" + n;
      assert s[|s| - |n| - 1] == '/';
    }
    assert s[..|d|] == d && s[|s| - |n|..] == n;
  }

  /** A parent ending in '/', a parent without one, and an empty parent, joined to the same name. */
  lemma JoinDisplayCases()
    ensures Root("/tmp/").Join("x").Display() == "/tmp/x"
    ensures Root("/tmp").Join("x").Display() == "/tmp/x"
    ensures Root("").Join("x").Display() == "x"
  {
    assert "/tmp/"[4] == '/' && "/tmp"[3] != '/';
    assert "/tmp/" + "x" == "/tmp/x" && "/tmp" + "/" + "x" == "/tmp/x" && "" + "x" == "x";
  }

  /** `std::process::ExitStatus`: `code` is absent when a signal ended the process. */
  datatype ExitStatus = ExitStatus(code: Option<int>) {
    predicate Success() {
      code == Some(0)
    }
  }

  /** `std::process::Output` after `String::from_utf8_lossy` on both streams. */
  datatype Output = Output(status: ExitStatus, stdout: string, stderr: string)

  /** A program and its arguments, as handed to `Command`. */
  datatype Invocation = Invocation(program: Path, args: seq<string>)

  /** What `Command::output()` does for each invocation: an output, or the spawn error text. */
  type Runner = Invocation -> Result<Output, string>

  /** A switch as a command line writes it: the flag when it is on, nothing when it is off. */
  function Switch(on: bool, flag: string): seq<string> {
    if on then [flag] else []
  }

  /** An option with a value as a command line writes it: the flag and then its value, or nothing. */
  function Valued(value: Option<string>, flag: string): seq<string> {
    if value.Some? then [flag, value.value] else []
  }

  /** Reads a switch at the head of `args`: whether it is there, and what follows it. */
  function ReadSwitch(args: seq<string>, flag: string): (bool, seq<string>) {
    if args != [] && args[0] == flag then (true, args[1..]) else (false, args)
  }

  /** Reads an option with a value at the head of `args`: its value if it is there, and what follows. */
  function ReadValued(args: seq<string>, flag: string): (Option<string>, seq<string>) {
    if |args| >= 2 && args[0] == flag then (Some(args[1]), args[2..]) else (None, args)
  }

  /** A command line that does not begin with `flag`. */
  predicate NotLed(args: seq<string>, flag: string) {
    args == [] || args[0] != flag
  }

  /** A written switch is read back, and the rest is left as it was, when the rest does not begin with the same flag. */
  lemma SwitchReadBack(on: bool, flag: string, rest: seq<string>)
    requires NotLed(rest, flag)
    ensures ReadSwitch(Switch(on, flag) + rest, flag) == (on, rest)
  {
    if on {
      assert (Switch(on, flag) + rest)[1..] == rest;
    } else {
      assert Switch(on, flag) + rest == rest;
    }
  }

  /** A written option with a value is read back, and the rest is left as it was, when the rest does not begin with the same flag. */
  lemma ValuedReadBack(value: Option<string>, flag: string, rest: seq<string>)
    requires NotLed(rest, flag)
    ensures ReadValued(Valued(value, flag) + rest, flag) == (value, rest)
  {
    if value.Some? {
      assert (Valued(value, flag) + rest)[2..] == rest;
    } else {
      assert Valued(value, flag) + rest == rest;
    }
  }
}

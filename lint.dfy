/**
 * The lint tool: validating its arguments, building the linter's command
 * line, parsing the linter's "file:line:rule:severity: message" lines into
 * diagnostics, counting severities, and projecting and summarising them.
 */
module Lint {
  import opened Wrappers
  import opened Text
  import opened Host
  import opened StringSet
  import opened Targets

  const DEFAULT_MAX_DIAGNOSTICS: nat := 500
  const U64_MAX: nat := 0xFFFF_FFFF_FFFF_FFFF

  /** One parsed diagnostic. The linter reports no column, so its JSON `column` is always null. */
  datatype Diagnostic = Diagnostic(file: string, line: nat, rule: string, severity: string, message: string)

  // ---------------------------------------------------------------- parsing

  /** `text` is "file:lineNo:rule:severity: message" for `d`, with `lineNo` the digits as written. */
  predicate LineShape(text: string, d: Diagnostic, lineNo: string) {
    && text == d.file + ":" + lineNo + ":" + d.rule + ":" + d.severity + ": " + d.message
    && ':' !in lineNo && ':' !in d.rule && ':' !in d.severity
    && ParseUnsigned(lineNo, U64_MAX) == Ok(d.line)
  }

  /**
   * The body of the loop of `parse_lint_diagnostics` for one line: trim it,
   * cut it at the first ": ", split the header at its last three ':' (the
   * file keeps any further ':'), and parse the line number as a u64; any
   * failure skips the line.
   */
  function ParseLintLine(line: string): (r: Option<Diagnostic>)
    ensures r.Some? ==> exists lineNo :: LineShape(Trim(line), r.value, lineNo)
  {
    var trimmed := Trim(line);
    if trimmed == [] then None
    else match SplitOnce(trimmed, ": ")
      case None => None
      case Some((header, message)) =>
        match RSplitOnce(header, ':')
        case None => None
        case Some((rest, severity)) =>
          match RSplitOnce(rest, ':')
          case None => None
          case Some((fileAndLine, rule)) =>
            match RSplitOnce(fileAndLine, ':')
            case None => None
            case Some((file, lineNo)) =>
              match ParseUnsigned(lineNo, U64_MAX)
              case Err(_) => None
              case Ok(n) =>
                var d := Diagnostic(file, n, rule, severity, message);
                assert LineShape(trimmed, d, lineNo);
                Some(d)
  }

  /** The diagnostics of the parseable lines, in line order. */
  function ParsedLines(lines: seq<string>): seq<Diagnostic> {
    FilterMap(ParseLintLine, lines)
  }

  /** Every parsed diagnostic is what some line parses to. */
  lemma ParsedLinesSound(lines: seq<string>, k: nat)
    requires k < |ParsedLines(lines)|
    ensures exists i :: 0 <= i < |lines| && ParseLintLine(lines[i]) == Some(ParsedLines(lines)[k])
  {
    FilterMapSound(ParseLintLine, lines, k);
  }

  /** `parse_lint_diagnostics`: one pass over the lines of the linter's stdout. */
  method ParseLintDiagnostics(stdout: string) returns (diagnostics: seq<Diagnostic>)
    ensures diagnostics == ParsedLines(Lines(stdout))
  {
    var lines := Lines(stdout);
    diagnostics := [];
    assert lines[0..] == lines;
    for i := 0 to |lines|
      invariant ParsedLines(lines) == diagnostics + ParsedLines(lines[i..])
    {
      var parsed := ParseLintLine(lines[i]);
      ParsedLinesStep(lines, i, diagnostics);
      if parsed.Some? {
        diagnostics := diagnostics + [parsed.value];
      }
    }
  }

  /** One more line of the loop: its diagnostic, if any, joins those already parsed. */
  lemma ParsedLinesStep(lines: seq<string>, i: nat, done: seq<Diagnostic>)
    requires i < |lines| && ParsedLines(lines) == done + ParsedLines(lines[i..])
    ensures ParsedLines(lines)
         == done + (if ParseLintLine(lines[i]).Some? then [ParseLintLine(lines[i]).value] else []) + ParsedLines(lines[i + 1..])
  {
    SuffixCons(lines, i);
    ParsedLinesCons(lines[i], lines[i + 1..]);
    Associative(done, if ParseLintLine(lines[i]).Some? then [ParseLintLine(lines[i]).value] else [],
                ParsedLines(lines[i + 1..]));
  }


  /** The header the linter prints before ": ". */
  function Header(d: Diagnostic): string {
    d.file + ":" + Decimal(d.line) + ":" + d.rule + ":" + d.severity
  }

  /** The line the linter prints for `d`. */
  function RenderLine(d: Diagnostic): string {
    Header(d) + ": " + d.message
  }

  /**
   * What a diagnostic must look like to survive printing and parsing: a
   * u64 line, no ':' in the rule or severity, no ": " in the header, no line
   * break anywhere, and no whitespace at either end of the printed line.
   */
  predicate WellFormed(d: Diagnostic) {
    && d.line <= U64_MAX
    && ':' !in d.rule && ':' !in d.severity
    && !Contains(Header(d), ": ")
    && '\n' !in d.file && '\n' !in d.rule && '\n' !in d.severity && '\n' !in d.message
    && (d.file == [] || !IsWhitespace(d.file[0]))
    && d.message != [] && !IsWhitespace(d.message[|d.message| - 1])
  }

  lemma NoSeparatorInHeader(h: string, m: string)
    requires !Contains(h, ": ")
    ensures forall j :: 0 <= j < |h| ==> !OccursAt(h + ": " + m, ": ", j)
  {
    var s := h + ": " + m;
    forall j | 0 <= j < |h| ensures !OccursAt(s, ": ", j) {
      if j + 2 <= |h| {
        assert s[j..j + 2] == h[j..j + 2];
        assert !OccursAt(h, ": ", j);
      } else {
        assert s[j + 1] == ':';
        assert s[j..j + 2][1] == s[j + 1];
      }
    }
  }

  /** Printing a well-formed diagnostic and parsing the line gives it back. */
  lemma ParseRenderedLine(d: Diagnostic)
    requires WellFormed(d)
    ensures ParseLintLine(RenderLine(d)) == Some(d)
  {
    var dec := Decimal(d.line);
    var h := Header(d);
    var line := RenderLine(d);
    assert line[0] == h[0];
    assert line[|line| - 1] == d.message[|d.message| - 1];
    TrimNoop(line);
    NoSeparatorInHeader(h, d.message);
    SplitOnceAt(h, ": ", d.message);
    RSplitOnceOf(d.file + ":" + dec + ":" + d.rule, ':', d.severity);
    RSplitOnceOf(d.file + ":" + dec, ':', d.rule);
    assert ':' !in dec by {
      assert forall i :: 0 <= i < |dec| ==> IsDigit(dec[i]);
    }
    RSplitOnceOf(d.file, ':', dec);
    ParseDecimal(d.line, U64_MAX);
  }

  /** The linter's stdout for `ds`: one line per diagnostic, each ended by '\n'. */
  function RenderOutput(ds: seq<Diagnostic>): string {
    if ds == [] then "" else RenderLine(ds[0]) + "\n" + RenderOutput(ds[1..])
  }

  /** A well-formed diagnostic prints as exactly one line. */
  lemma RenderedLineIsOneLine(d: Diagnostic)
    requires WellFormed(d)
    ensures '\n' !in RenderLine(d)
    ensures RenderLine(d)[|RenderLine(d)| - 1] != '\r'
  {
    var dec := Decimal(d.line);
    assert '\n' !in dec by {
      assert forall i :: 0 <= i < |dec| ==> IsDigit(dec[i]);
    }
    var line := RenderLine(d);
    assert line[|line| - 1] == d.message[|d.message| - 1];
  }

  lemma ParsedLinesCons(line: string, lines: seq<string>)
    ensures ParsedLines([line] + lines)
         == (if ParseLintLine(line).Some? then [ParseLintLine(line).value] else []) + ParsedLines(lines)
  {
    FilterMapCons(ParseLintLine, line, lines);
  }

  /** One more printed line in front parses into one more diagnostic in front. */
  lemma ParseRenderedCons(d: Diagnostic, ds: seq<Diagnostic>)
    requires WellFormed(d)
    requires ParsedLines(Lines(RenderOutput(ds))) == ds
    ensures ParsedLines(Lines(RenderOutput([d] + ds))) == [d] + ds
  {
    var rest := RenderOutput(ds);
    var line := RenderLine(d);
    assert ([d] + ds)[1..] == ds;
    assert RenderOutput([d] + ds) == line + "\n" + rest;
    RenderedLineIsOneLine(d);
    LinesCons(line, rest);
    ParseRenderedLine(d);
    ParsedLinesCons(line, Lines(rest));
  }

  /** Parsing the printed lines of well-formed diagnostics gives them back, in order. */
  lemma {:induction false} ParseRenderedOutput(ds: seq<Diagnostic>)
    requires forall i :: 0 <= i < |ds| ==> WellFormed(ds[i])
    ensures ParsedLines(Lines(RenderOutput(ds))) == ds
  {
    if ds != [] {
      ParseRenderedOutput(ds[1..]);
      ParseRenderedCons(ds[0], ds[1..]);
      assert [ds[0]] + ds[1..] == ds;
    }
  }

  // ---------------------------------------------------------------- projection and counts

  /** `project_lint_diagnostics`: the first `max` items, and whether any were cut. */
  function ProjectLintDiagnostics<T>(ds: seq<T>, max: nat): (r: (seq<T>, bool))
    ensures |r.0| == Min(|ds|, max) && r.0 <= ds
    ensures r.1 <==> |ds| > max
  {
    var projected := ds[..Min(|ds|, max)];
    (projected, |ds| > |projected|)
  }

  /** The number of diagnostics whose severity is `severity`. */
  function SeverityCount(ds: seq<Diagnostic>, severity: string): (n: nat)
    ensures n <= |ds|
    ensures n == 0 <==> forall i :: 0 <= i < |ds| ==> ds[i].severity != severity
    ensures n == |ds| <==> forall i :: 0 <= i < |ds| ==> ds[i].severity == severity
  {
    if ds == [] then 0
    else
      assert forall i :: 0 < i < |ds| ==> ds[i] == ds[1..][i - 1];
      (if ds[0].severity == severity then 1 else 0) + SeverityCount(ds[1..], severity)
  }

  /** No diagnostic is counted both as an error and as a warning. */
  lemma {:induction false} ErrorsAndWarningsWithinTotal(ds: seq<Diagnostic>)
    ensures SeverityCount(ds, "error") + SeverityCount(ds, "warning") <= |ds|
  {
    if ds != [] {
      ErrorsAndWarningsWithinTotal(ds[1..]);
    }
  }

  // ---------------------------------------------------------------- the tool

  /** `LintToolResult`. */
  datatype LintToolResult = LintToolResult(
    success: bool,
    exitCode: int,
    stdout: string,
    stderr: string,
    diagnostics: seq<Diagnostic>,
    includeRawOutput: bool,
    maxDiagnostics: nat,
    errorCount: nat,
    warningCount: nat)

  /** `render_lint_summary`. */
  function RenderLintSummary(result: LintToolResult): (s: string)
    ensures "Lint completed successfully. " <= s <==> result.success
    ensures "Lint failed. " <= s <==> !result.success
    ensures exists head :: s == head + Counters(result)
  {
    var head := "Lint " + (if result.success then "completed successfully" else "failed") + ". ";
    HeadDecides(head, result.success, Counters(result));
    head + Counters(result)
  }

  /** Which of the two openings a summary has is decided by its first word after "Lint ". */
  lemma HeadDecides(head: string, success: bool, tail: string)
    requires head == "Lint " + (if success then "completed successfully" else "failed") + ". "
    ensures "Lint completed successfully. " <= head + tail <==> success
    ensures "Lint failed. " <= head + tail <==> !success
  {
    var s := head + tail;
    assert s[..|head|] == head;
    if success {
      assert s[5] == 'c' && "Lint failed. "[5] == 'f';
      assert s[..|"Lint completed successfully. "|] == "Lint completed successfully. ";
    } else {
      assert s[5] == 'f' && "Lint completed successfully. "[5] == 'c';
      assert s[..|"Lint failed. "|] == "Lint failed. ";
    }
  }

  /** The counters at the end of the summary. */
  function Counters(result: LintToolResult): string {
    "diagnostics: total=" + Decimal(|result.diagnostics|)
      + ", errors=" + Decimal(result.errorCount) + ", warnings=" + Decimal(result.warningCount)
  }

  /** The options of a lint call, as its getters read them. */
  datatype LintOptions = LintOptions(
    disableRules: Option<string>,
    maxLineLength: Option<int>,
    listRules: bool,
    pretty: bool,
    includeRawOutput: bool,
    maxDiagnostics: Option<nat>)

  /** The getters of `call_gdscript_lint`, in the order they run; the first error wins. */
  function LintOptionsOf(args: Args): (r: Result<LintOptions, string>)
    ensures r.Ok? ==> && GetOptionalString(args, "disable_rules") == Ok(r.value.disableRules)
                      && GetOptionalI64(args, "max_line_length") == Ok(r.value.maxLineLength)
                      && GetBool(args, "list_rules") == Ok(r.value.listRules)
                      && GetBool(args, "pretty") == Ok(r.value.pretty)
                      && GetBool(args, "include_raw_output") == Ok(r.value.includeRawOutput)
                      && GetOptionalUsize(args, "max_diagnostics") == Ok(r.value.maxDiagnostics)
    ensures r.Ok? <==> && GetOptionalString(args, "disable_rules").Ok?
                       && GetOptionalI64(args, "max_line_length").Ok?
                       && GetBool(args, "list_rules").Ok?
                       && GetBool(args, "pretty").Ok?
                       && GetBool(args, "include_raw_output").Ok?
                       && GetOptionalUsize(args, "max_diagnostics").Ok?
    // The first argument that fails to read decides the error.
    ensures GetOptionalString(args, "disable_rules").Err? ==>
              r == Err(GetOptionalString(args, "disable_rules").error)
    ensures GetOptionalString(args, "disable_rules").Ok? && GetOptionalI64(args, "max_line_length").Err? ==>
              r == Err(GetOptionalI64(args, "max_line_length").error)
    ensures && GetOptionalString(args, "disable_rules").Ok? && GetOptionalI64(args, "max_line_length").Ok?
            && GetBool(args, "list_rules").Err? ==>
              r == Err(GetBool(args, "list_rules").error)
    ensures && GetOptionalString(args, "disable_rules").Ok? && GetOptionalI64(args, "max_line_length").Ok?
            && GetBool(args, "list_rules").Ok? && GetBool(args, "pretty").Err? ==>
              r == Err(GetBool(args, "pretty").error)
    ensures && GetOptionalString(args, "disable_rules").Ok? && GetOptionalI64(args, "max_line_length").Ok?
            && GetBool(args, "list_rules").Ok? && GetBool(args, "pretty").Ok?
            && GetBool(args, "include_raw_output").Err? ==>
              r == Err(GetBool(args, "include_raw_output").error)
    ensures && GetOptionalString(args, "disable_rules").Ok? && GetOptionalI64(args, "max_line_length").Ok?
            && GetBool(args, "list_rules").Ok? && GetBool(args, "pretty").Ok?
            && GetBool(args, "include_raw_output").Ok? && GetOptionalUsize(args, "max_diagnostics").Err? ==>
              r == Err(GetOptionalUsize(args, "max_diagnostics").error)
  {
    match GetOptionalString(args, "disable_rules")
    case Err(e) => Err(e)
    case Ok(disableRules) =>
      match GetOptionalI64(args, "max_line_length")
      case Err(e) => Err(e)
      case Ok(maxLineLength) =>
        match GetBool(args, "list_rules")
        case Err(e) => Err(e)
        case Ok(listRules) =>
          match GetBool(args, "pretty")
          case Err(e) => Err(e)
          case Ok(pretty) =>
            match GetBool(args, "include_raw_output")
            case Err(e) => Err(e)
            case Ok(includeRawOutput) =>
              match GetOptionalUsize(args, "max_diagnostics")
              case Err(e) => Err(e)
              case Ok(maxDiagnostics) =>
                Ok(LintOptions(disableRules, maxLineLength, listRules, pretty, includeRawOutput, maxDiagnostics))
  }

  /** The validated arguments of a lint call. */
  datatype LintRequest = LintRequest(
    files: seq<string>,
    disableRules: Option<string>,
    maxLineLength: Option<int>,
    listRules: bool,
    pretty: bool,
    includeRawOutput: bool,
    maxDiagnostics: nat)

  /** The two checks on the options, then the defaults. */
  function Validate(files: seq<string>, opts: LintOptions): Result<LintRequest, string> {
    if opts.maxLineLength.Some? && opts.maxLineLength.value < 1 then
      Err("`max_line_length` must be at least 1")
    else if files == [] && !opts.listRules then
      Err("Either `files` or `dir` must resolve to at least one file unless `list_rules` is true")
    else
      Ok(LintRequest(files, opts.disableRules, opts.maxLineLength, opts.listRules, opts.pretty,
                     opts.includeRawOutput, opts.maxDiagnostics.UnwrapOr(DEFAULT_MAX_DIAGNOSTICS)))
  }

  /**
   * The argument handling of `call_gdscript_lint`: target resolution (not
   * required), then the getters, then the two checks.
   */
  ghost function LintRequestOf(args: Args, tree: FileTree): Result<LintRequest, string> {
    match Resolution(args, false, tree)
    case Err(e) => Err(e)
    case Ok(files) =>
      match LintOptionsOf(args)
      case Err(e) => Err(e)
      case Ok(opts) => Validate(SortedList(files), opts)
  }

  /** The options a linter command line carries, values as written. */
  datatype LintFlags = LintFlags(disable: Option<string>, maxLineLength: Option<string>, listRules: bool, pretty: bool)

  /**
   * Reads the options part of a linter command line back, each option at
   * most once and in the order the command line is built in; anything else
   * left over is not a command line the linter call writes.
   */
  function ReadLintFlags(flags: seq<string>): Option<LintFlags> {
    var (disable, a) := ReadValued(flags, "--disable");
    var (maxLineLength, b) := ReadValued(a, "--max-line-length");
    var (listRules, c) := ReadSwitch(b, "--list-rules");
    var (pretty, rest) := ReadSwitch(c, "--pretty");
    if rest == [] then Some(LintFlags(disable, maxLineLength, listRules, pretty)) else None
  }

  /** Reading the options is the four reads in turn, with nothing left after the last. */
  lemma ReadLintFlagsOf(flags: seq<string>, disable: Option<string>, a: seq<string>, maxLineLength: Option<string>,
                        b: seq<string>, listRules: bool, c: seq<string>, pretty: bool)
    requires ReadValued(flags, "--disable") == (disable, a)
    requires ReadValued(a, "--max-line-length") == (maxLineLength, b)
    requires ReadSwitch(b, "--list-rules") == (listRules, c)
    requires ReadSwitch(c, "--pretty") == (pretty, [])
    ensures ReadLintFlags(flags) == Some(LintFlags(disable, maxLineLength, listRules, pretty))
  {
  }

  /** The linter's command line: `lint`, the options in a fixed order, then the files. */
  function LintArgv(req: LintRequest): (argv: seq<string>)
    ensures |argv| > |req.files| && argv[0] == "lint" && argv[|argv| - |req.files|..] == req.files
    ensures ReadLintFlags(argv[1..|argv| - |req.files|])
         == Some(LintFlags(req.disableRules,
                           if req.maxLineLength.Some? then Some(IntText(req.maxLineLength.value)) else None,
                           req.listRules, req.pretty))
  {
    var maxLineLength := if req.maxLineLength.Some? then Some(IntText(req.maxLineLength.value)) else None;
    var pretty := Switch(req.pretty, "--pretty");
    var afterList := Switch(req.listRules, "--list-rules") + pretty;
    var afterMax := Valued(maxLineLength, "--max-line-length") + afterList;
    var options := Valued(req.disableRules, "--disable") + afterMax;
    assert pretty + [] == pretty;
    SwitchReadBack(req.pretty, "--pretty", []);
    SwitchReadBack(req.listRules, "--list-rules", pretty);
    ValuedReadBack(maxLineLength, "--max-line-length", afterList);
    ValuedReadBack(req.disableRules, "--disable", afterMax);
    ReadLintFlagsOf(options, req.disableRules, afterMax, maxLineLength, afterList, req.listRules, pretty, req.pretty);
    var argv := ["lint"] + options + req.files;
    assert argv[1..|argv| - |req.files|] == options;
    argv
  }

  /** The command that `call_gdscript_lint` assembles one argument at a time. */
  method BuildLintCommand(program: Path, req: LintRequest) returns (command: Invocation)
    ensures command == Invocation(program, LintArgv(req))
  {
    var maxLineLength := if req.maxLineLength.Some? then Some(IntText(req.maxLineLength.value)) else None;
    var args := ["lint"];
    if req.disableRules.Some? {
      args := args + ["--disable", req.disableRules.value];
    }
    assert args == ["lint"] + Valued(req.disableRules, "--disable");
    ghost var stage := args;
    if req.maxLineLength.Some? {
      args := args + ["--max-line-length", IntText(req.maxLineLength.value)];
    }
    assert args == stage + Valued(maxLineLength, "--max-line-length");
    stage := args;
    if req.listRules {
      args := args + ["--list-rules"];
    }
    assert args == stage + Switch(req.listRules, "--list-rules");
    stage := args;
    if req.pretty {
      args := args + ["--pretty"];
    }
    assert args == stage + Switch(req.pretty, "--pretty");
    ghost var options := Valued(req.disableRules, "--disable")
                         + (Valued(maxLineLength, "--max-line-length")
                            + (Switch(req.listRules, "--list-rules") + Switch(req.pretty, "--pretty")));
    assert args == ["lint"] + options;
    assert LintArgv(req) == ["lint"] + options + req.files;
    args := args + req.files;
    command := Invocation(program, args);
  }

  /** The result built from the linter's output. */
  function LintResultOf(req: LintRequest, out: Output): (result: LintToolResult)
    ensures result.success <==> out.status.Success()
    ensures result.exitCode == (if out.status.code.Some? then out.status.code.value else -1)
    ensures result.diagnostics == ParsedLines(Lines(out.stdout))
    ensures result.errorCount == SeverityCount(result.diagnostics, "error")
    ensures result.warningCount == SeverityCount(result.diagnostics, "warning")
    ensures result.errorCount + result.warningCount <= |result.diagnostics|
    ensures result.stdout == out.stdout && result.stderr == out.stderr
    ensures result.includeRawOutput == req.includeRawOutput && result.maxDiagnostics == req.maxDiagnostics
  {
    var diagnostics := ParsedLines(Lines(out.stdout));
    ErrorsAndWarningsWithinTotal(diagnostics);
    LintToolResult(out.status.Success(), out.status.code.UnwrapOr(-1), out.stdout, out.stderr, diagnostics,
                   req.includeRawOutput, req.maxDiagnostics,
                   SeverityCount(diagnostics, "error"), SeverityCount(diagnostics, "warning"))
  }

  /**
   * What `call_gdscript_lint` returns, given what `ensure_binary` would
   * return and what running the linter does: argument errors come before
   * the binary is acquired.
   */
  ghost function LintOutcome(args: Args, tree: FileTree, binary: Result<Path, string>, run: Runner)
    : Result<LintToolResult, string>
  {
    match LintRequestOf(args, tree)
    case Err(e) => Err(e)
    case Ok(req) =>
      match binary
      case Err(e) => Err(e)
      case Ok(program) =>
        match run(Invocation(program, LintArgv(req)))
        case Err(e) => Err("Failed to execute linter: " + e)
        case Ok(out) => Ok(LintResultOf(req, out))
  }

  /** The argument handling at the start of `call_gdscript_lint`. */
  method ReadLintRequest(args: Args, tree: FileTree) returns (r: Result<LintRequest, string>)
    ensures r == LintRequestOf(args, tree)
  {
    var files := ResolveTargetFiles(args, false, tree);
    if files.Err? {
      return Err(files.error);
    }
    SortedUnique(files.value, SortedList(Elements(files.value)));
    var opts := LintOptionsOf(args);
    if opts.Err? {
      return Err(opts.error);
    }
    return Validate(files.value, opts.value);
  }

  /** `call_gdscript_lint`. */
  method CallGdscriptLint(args: Args, tree: FileTree, binary: Result<Path, string>, run: Runner)
    returns (r: Result<LintToolResult, string>)
    ensures r == LintOutcome(args, tree, binary, run)
  {
    var request := ReadLintRequest(args, tree);
    if request.Err? {
      return Err(request.error);
    }
    var req := request.value;
    if binary.Err? {
      return Err(binary.error);
    }
    var command := BuildLintCommand(binary.value, req);
    var output := run(command);
    if output.Err? {
      return Err("Failed to execute linter: " + output.error);
    }
    var out := output.value;
    var diagnostics := ParseLintDiagnostics(out.stdout);
    var errorCount := SeverityCount(diagnostics, "error");
    var warningCount := SeverityCount(diagnostics, "warning");
    var success := out.status.Success();
    var exitCode := out.status.code.UnwrapOr(-1);
    return Ok(LintToolResult(success, exitCode, out.stdout, out.stderr, diagnostics,
                             req.includeRawOutput, req.maxDiagnostics, errorCount, warningCount));
  }

  // ---------------------------------------------------------------- validation properties

  /** A `max_line_length` below 1 is rejected whatever the targets. */
  lemma MaxLineLengthAtLeastOne(args: Args, tree: FileTree)
    requires Resolution(args, false, tree).Ok? && LintOptionsOf(args).Ok?
    requires LintOptionsOf(args).value.maxLineLength.Some? && LintOptionsOf(args).value.maxLineLength.value < 1
    ensures LintRequestOf(args, tree) == Err("`max_line_length` must be at least 1")
  {
  }

  /** With a valid `max_line_length`, no target files is an error exactly when the rules are not just listed. */
  lemma EmptyTargetsNeedListRules(args: Args, tree: FileTree)
    requires Resolution(args, false, tree) == Ok({}) && LintOptionsOf(args).Ok?
    requires LintOptionsOf(args).value.maxLineLength.Some? ==> LintOptionsOf(args).value.maxLineLength.value >= 1
    ensures LintRequestOf(args, tree).Err? <==> !LintOptionsOf(args).value.listRules
  {
    ElementsEmpty(SortedList({}));
  }

  /** An absent `max_diagnostics` means 500; the files are the resolved set, ascending. */
  lemma LintRequestDefaults(args: Args, tree: FileTree)
    requires LintRequestOf(args, tree).Ok?
    ensures "max_diagnostics" !in args ==> LintRequestOf(args, tree).value.maxDiagnostics == DEFAULT_MAX_DIAGNOSTICS
    ensures StrictlySorted(LintRequestOf(args, tree).value.files)
    ensures Elements(LintRequestOf(args, tree).value.files) == Resolution(args, false, tree).value
  {
    var files := Resolution(args, false, tree).value;
    var opts := LintOptionsOf(args).value;
    assert LintRequestOf(args, tree) == Validate(SortedList(files), opts);
    ValidatedFields(SortedList(files), opts);
    if "max_diagnostics" !in args {
      AbsentKeyDefaults(args, "max_diagnostics");
    }
  }

  /** A validated request keeps the files and takes the `max_diagnostics` default. */
  lemma ValidatedFields(files: seq<string>, opts: LintOptions)
    requires Validate(files, opts).Ok?
    ensures Validate(files, opts).value.files == files
    ensures Validate(files, opts).value.maxDiagnostics == opts.maxDiagnostics.UnwrapOr(DEFAULT_MAX_DIAGNOSTICS)
  {
  }
}

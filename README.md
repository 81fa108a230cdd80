# gdscript-formatter-mcp, modelled in Dafny

gdscript-formatter-mcp is a Model Context Protocol (MCP) server. It speaks
JSON-RPC 2.0 over stdin/stdout, with `Content-Length` framing. It offers two
tools that run the external GDScript formatter binary:

- `gdscript_format` formats (or checks) `.gd` files one file at a time and
  reports each failure with a cleaned-up reason.
- `gdscript_lint` runs the linter once over all the files. It parses its
  `file:line:rule:severity: message` output into diagnostics and returns the
  first `max_diagnostics` of them.

The binary comes from `GDSCRIPT_FORMATTER_PATH`, or from a per-platform cache.
The cache is refreshed from the latest GitHub release, and the cached copy is
used when the refresh fails.

The model has one module per source file:

| module | file | what it holds |
|---|---|---|
| `Protocol` | `src/protocol.rs` | The reader is a `class` over a byte stream with a position. `ReadMcpMessage` is its header loop and body read. It is proved against the function `ReadMessage`. Frame lemmas show that every frame the `Writer` emits is read back, and that a cut frame is an error. |
| `Targets` | `src/targets.rs` | The argument getters and the directory scan. Target resolution goes into an ordered set, a strictly ascending `seq<string>` standing for Rust's `BTreeSet<String>` (module `StringSet`). |
| `Lint` | `src/tools/lint.rs` | Parsing of the linter's output, with a round-trip lemma: printing well-formed diagnostics and parsing them gives them back. Also projection, the counters, the summary, the option checks and the command line. |
| `Format` | `src/tools/format.rs` | Reason normalisation (collapsed whitespace, idempotent), the three-tier reason extraction, the per-file loop and the structured content. |
| `FormatterManager` | `src/formatter_manager.rs` | The cache-root search, platform detection and asset selection. A `Disk` class with directories, files and executable bits is updated in place by `ensure_binary`, `download_and_extract_asset` and their helpers. |
| `Mcp` | `src/mcp.rs` | `handle_request` and `tools/call`, over the executors' outcomes. |

Shared modules:

- `Wrappers`: `Option`, `Result` and `filter_map`.
- `Text`: the Rust `str` operations the core uses, with the Unicode `White_Space` set, `lines`, `split_whitespace`, `split_once` and integer parsing.
- `Json`: an abstract `serde_json::Value`.
- `Host`: paths, process invocations and outputs.

Things outside the program become parameters:

- the environment variables (`Env`);
- the compile-time OS and architecture;
- the file system, with its failures (`Disk` and `Faults`);
- the directory walk and glob matching (`FileTree`);
- the HTTP fetch of the latest release (`fetch`);
- the asset download (`Downloader`);
- running a command (`Runner`);
- JSON parsing and serialisation (`Parser` and `serialize`).

## Model

| member | source | states |
|---|---|---|
| Protocol.ContentLengthOf | src/protocol.rs:26-34 | A header is a length header exactly when the text before its first ':' equals `Content-Length` ignoring ASCII case; its value is accepted exactly when the trimmed value parses as a usize, and is then that number; otherwise the error is `Invalid Content-Length header: ` and the parse error |
| Protocol.LengthInAnyCase | src/protocol.rs:26-34 | Any letter case of `Content-Length`, a ':' and a value that parses gives that length |
| Protocol.ReadBody | src/protocol.rs:39-54 | Without a length: `Missing Content-Length header in MCP message` and nothing consumed; with fewer bytes left than the length: `failed to fill whole buffer` and the rest consumed; otherwise exactly that many bytes are consumed and the result is their parse, or `Invalid JSON body in MCP message: ` and the parser's error |
| Protocol.ScanHeaders | src/protocol.rs:7-37 | The header loop never moves backwards, and when it meets end of file it is at the end of the input |
| Protocol.ScanLine | src/protocol.rs:8-36 | One header line always consumes at least one byte |
| Protocol.ReadMessage | src/protocol.rs:4-55 | Reading a message never moves backwards and stays inside the input |
| Protocol.Reader.ReadLine | src/protocol.rs:9 | `read_line` returns the bytes up to and including the next '\n', or to the end of input, and moves past them |
| Protocol.Reader.ReadExact | src/protocol.rs:46-47 | `read_exact` returns exactly `n` bytes and advances by `n`, or fails with `UnexpectedEof` having drained the stream |
| Protocol.ReadHeaders | src/protocol.rs:5-37 | The header loop over the reader ends where, and with what, `ScanHeaders` says |
| Protocol.ReadMcpMessage | src/protocol.rs:4-55 | `read_mcp_message` returns what `ReadMessage` gives and leaves the reader where it says |
| Protocol.ReadMessageBody | src/protocol.rs:39-54 | After the empty line: missing length error, or exactly `len` bytes parsed as JSON, as `ReadBody` says |
| Protocol.ScanBlankLine | src/protocol.rs:21-24 | An empty line (CRLF) ends the headers with the length seen so far |
| Protocol.ScanLengthLine | src/protocol.rs:26-35 | A `Content-Length` line sets the length whatever came before, and the loop goes on after it |
| Protocol.ScanOtherLine | src/protocol.rs:26-28 | A header line that is not `Content-Length` is skipped |
| Protocol.LengthLine | src/protocol.rs:64 | The length header written is a one-line header text |
| Protocol.EncodeFrame | src/protocol.rs:57-66 | A frame ends with the serialised body, after a non-empty header block |
| Protocol.Writer.WriteMcpMessage | src/protocol.rs:57-67 | Writing appends exactly the frame of the serialised value to what was already written |
| Protocol.LengthLineAnnounces | src/protocol.rs:29-35 | The written `Content-Length: n` header is read back as length `n` |
| Protocol.ReadWrittenFrame | src/protocol.rs:4-67 | Round trip: a frame written at any position of a stream is read back as its body parsed (or the parse error), and the reader stops right after it, whatever follows |
| Protocol.ReadTruncatedFrame | src/protocol.rs:46-47 | A written frame cut anywhere inside its body is an error that drains the stream |
| Protocol.EofAfterLength | src/protocol.rs:10-18 | End of input after a `Content-Length` header is the `EOF while reading MCP headers` error, not the end of the message stream |
| Protocol.EofAfterOtherHeader | src/protocol.rs:10-12 | End of input after headers that set no length is the end of the message stream (`None`) |
| Protocol.OtherHeaderIgnored | src/protocol.rs:26-36 | Reading from a header line that is not `Content-Length` is the same as reading from the line after it |
| Protocol.SuccessResponse | src/protocol.rs:69-75 | A success envelope holds exactly `jsonrpc` "2.0", the id and the result |
| Protocol.ErrorResponse | src/protocol.rs:77-86 | An error envelope holds exactly `jsonrpc`, the id and an `error` object with the code and the message |
| Protocol.EnvelopesAreExclusive | src/protocol.rs:69-86 | A response carries `result` or `error`, never both, and answers the id it was built for |
| Targets.AsObject | src/targets.rs:7-13 | Absent arguments are the empty object, an object is itself, anything else is the `arguments` error |
| Targets.GetOptionalUsize | src/targets.rs:34-48 | An absent key is `None`; a negative integer is the `must be >= 0` error; the i64 getter's errors pass through; a non-negative integer is accepted as `Some` of itself, and any value returned is the i64 read |
| Targets.AbsentKeyDefaults | src/targets.rs:15-80 | Every getter gives its default for an absent key: false, or None |
| Targets.WrongTypeErrors | src/targets.rs:15-76 | A present value of the wrong JSON type gives each getter's own error message naming the key |
| Targets.Strings | src/targets.rs:72-78 | The copied array holds the strings of the items, in order |
| Targets.GetOptionalStringArray | src/targets.rs:61-80 | The element-by-element copy returns every string in order, or the key's error for the first non-string |
| Targets.GlobSetError | src/targets.rs:82-92 | Building a glob set fails exactly when one of its patterns does not compile |
| Targets.Scan | src/targets.rs:110-136 | The walk succeeds exactly when no walk entry is an error, and then returns exactly the regular files matching an include and no exclude pattern |
| Targets.CollectDirFiles | src/targets.rs:94-137 | The `dir` checks, the glob sets, then one pass over the walk, giving what `DirFiles` says |
| Targets.InsertAll | src/targets.rs:149-152 | Inserting items into an ordered set keeps it ascending and adds exactly those items |
| Targets.ResolveTargetFiles | src/targets.rs:139-168 | The resolved list fails exactly when `Resolution` does, with its error, and otherwise is ascending with exactly the resolved files |
| Targets.UnionFiles | src/targets.rs:149-167 | The explicit files and the scanned ones go into one ordered set; `required` rejects an empty set |
| Targets.ScanInto | src/targets.rs:154-161 | The scan's files are added, its error is returned, and `include`/`exclude` without `dir` is an error |
| Targets.IncludeNeedsDir | src/targets.rs:159-160 | `include` or `exclude` without `dir` is an error even when `files` is given |
| Targets.EmptyResolution | src/targets.rs:163-165 | The targets that resolve to nothing without `required` are the `must resolve to at least one file` error with it |
| Targets.ResolvedListIsCanonical | src/targets.rs:149-167 | Target resolution has a single possible result list: any two ascending lists of the resolved set are equal |
| StringSet.Insert | src/targets.rs:151 | `BTreeSet::insert` keeps the list strictly ascending and adds exactly the new element |
| StringSet.SortedUnique | src/targets.rs:167 | Two strictly ascending lists with the same elements are equal |
| StringSet.SortedList | src/targets.rs:167 | Iterating a set gives its elements, strictly ascending |
| StringSet.LessTotal | src/targets.rs:149 | String order is total, so the set's iteration order is defined |
| Lint.ParseLintLine | src/tools/lint.rs:26-60 | A parsed line is a trimmed `file:line:rule:severity: message` whose line number parses as a u64 and whose rule and severity hold no ':' |
| Lint.ParsedLinesSound | src/tools/lint.rs:25-61 | Every parsed diagnostic comes from one of the output lines |
| Lint.ParseLintDiagnostics | src/tools/lint.rs:22-64 | The loop over the stdout lines gives the diagnostics of the parseable lines, in line order |
| Lint.ParseRenderedLine | src/tools/lint.rs:31-60 | Round trip: printing a well-formed diagnostic as one linter line and parsing it gives it back |
| Lint.ParseRenderedOutput | src/tools/lint.rs:22-64 | Round trip: the linter's output for well-formed diagnostics parses back to exactly those diagnostics, in order |
| Lint.ProjectLintDiagnostics | src/tools/lint.rs:66-77 | The projection is the first `min(len, max)` diagnostics, and is truncated exactly when there were more than `max` |
| Lint.SeverityCount | src/tools/lint.rs:142-149 | A severity count is zero exactly when no diagnostic has it, and the total exactly when all have it |
| Lint.ErrorsAndWarningsWithinTotal | src/tools/lint.rs:142-149 | Errors plus warnings never exceed the number of diagnostics |
| Lint.RenderLintSummary | src/tools/lint.rs:79-91 | The summary opens with `Lint completed successfully. ` exactly on success and `Lint failed. ` otherwise, then gives the counters |
| Lint.LintOptionsOf | src/tools/lint.rs:98-104 | The options are read exactly when every getter succeeds, and are then what each getter reads; otherwise the error is that of the first getter to fail, in the source's order |
| Lint.LintArgv | src/tools/lint.rs:119-134 | The command line starts with `lint` and ends with exactly the target files; the options between read back as the request's own (`--disable` and its rules, `--max-line-length` and the decimal limit, `--list-rules`, `--pretty`, each present exactly when requested) |
| Lint.BuildLintCommand | src/tools/lint.rs:119-134 | The command built argument by argument runs the binary with `LintArgv` |
| Lint.LintResultOf | src/tools/lint.rs:139-163 | The result succeeds exactly when the exit status does, takes exit code -1 without a code, keeps stdout and stderr, holds the parsed diagnostics, and counts exactly the diagnostics of severity `error` and of severity `warning` |
| Lint.ReadLintRequest | src/tools/lint.rs:97-116 | Target resolution, the getters and the two checks, as `LintRequestOf` says |
| Lint.CallGdscriptLint | src/tools/lint.rs:93-164 | `call_gdscript_lint` returns what `LintOutcome` says, from the binary's outcome and the run |
| Lint.MaxLineLengthAtLeastOne | src/tools/lint.rs:106-110 | A `max_line_length` below 1 is rejected whatever the targets |
| Lint.EmptyTargetsNeedListRules | src/tools/lint.rs:111-116 | No target files is an error exactly when `list_rules` is not set |
| Lint.LintRequestDefaults | src/tools/lint.rs:97-104 | A missing `max_diagnostics` means 500, and the files are the resolved set, ascending |
| Format.NormalizeReason | src/tools/format.rs:55-67 | A normalised reason is non-empty with collapsed whitespace and has the words of the text, or is `Unknown formatting error` when the text has none |
| Format.NormalizeReasonIdempotent | src/tools/format.rs:55-67 | Normalising twice is normalising once |
| Format.CollapsedIsJoinOfWords | src/tools/format.rs:56-61 | A collapsed text is the single-space join of its words, so normalisation leaves it unchanged |
| Format.UnknownReasonIsCollapsed | src/tools/format.rs:63 | The fallback reason is itself a normalised text of three words |
| Format.FirstPick | src/tools/format.rs:70-86 | A line scan gives nothing exactly when no line is accepted, and otherwise the first accepted line's reason |
| Format.QuotedError | src/tools/format.rs:71-76 | The first tier accepts exactly the lines holding `Error: "`, and gives a clean reason |
| Format.QuotedErrorOf | src/tools/format.rs:71-74 | On a line `pre` `Error: "` `context: message"` with no earlier marker and no ": " in the context, the reason is the message, normalised, without the closing quote |
| Format.QuotedErrorWithoutContext | src/tools/format.rs:71-76 | On a line `pre` `Error: "message"` whose message has no ": ", the reason is the whole message, normalised, without the closing quote |
| Format.FailedFile | src/tools/format.rs:81-84 | The second tier only accepts lines holding `Failed to format file `, and gives a clean reason |
| Format.FailedFileOf | src/tools/format.rs:81-84 | On a line `pre` `Failed to format file path:message` with no earlier marker and no ':' in the path, the reason is the message with its quotes trimmed, normalised |
| Format.ExtractFormatFailureReason | src/tools/format.rs:69-94 | The extracted reason is always non-empty and collapsed; with blank stderr and stdout it is `Unknown formatting error` |
| Format.ReasonFallback | src/tools/format.rs:88-93 | When no stderr line carries a quoted error or a failed file, the reason is stderr normalised unless that is the placeholder, and then stdout normalised |
| Format.ScansAreClean | src/tools/format.rs:70-86 | A reason found by either line scan is clean and comes from a non-blank stderr |
| Format.QuotedErrorWins | src/tools/format.rs:70-78 | The first stderr line holding `Error: "` decides the reason |
| Format.FailedFileWins | src/tools/format.rs:80-86 | Without any `Error: "` line, the first accepted `Failed to format file` line decides the reason |
| Format.QuotedLineReason | src/tools/format.rs:69-77 | A stderr of one quoted error line gives its message, normalised |
| Format.TopiaryFailureReason | src/tools/format.rs:201-206 | The formatter's stderr (written as the concatenation of its parts) `Formatting 1 file...Error: "Failed to format file /tmp/bad.gd: Topiary formatting failed"` gives the reason `Topiary formatting failed` |
| Format.ReadErrorReason | src/tools/format.rs:208-213 | The formatter's stderr (written as the concatenation of its parts) `Formatting 1 file...Error: "Failed to read file /tmp/missing.gd: No such file or directory (os error 2)"` gives the reason `No such file or directory (os error 2)` |
| Format.PickedReasonIsClean | src/tools/format.rs:70-86 | A scan whose accepted reasons are all clean returns a clean reason |
| Format.RenderFormatSummary | src/tools/format.rs:96-102 | The summary is `Format ok.` exactly on success, else it gives the failure count |
| Format.FormatStructuredContent | src/tools/format.rs:104-131 | On success only `ok` and the processed count; else the counts, `failures_truncated` true above 20 failures and false otherwise, and the first 20 failures in order |
| Format.FormatFlagArgs | src/tools/format.rs:33-51 | The flags read back as the request's own: `--check`, `--stdout`, `--use-spaces`, `--indent-size` and the decimal size, `--reorder-code`, `--safe`, each present exactly when requested |
| Format.FormatArgv | src/tools/format.rs:31-52 | The formatter's command line ends with exactly the files, and what comes before them reads back as the request's flags |
| Format.BuildFormatCommand | src/tools/format.rs:21-53 | The command built flag by flag runs the binary with `FormatArgv` |
| Format.FileFailure | src/tools/format.rs:154-185 | A file fails exactly when its run could not start or exited unsuccessfully; the failure names it, its reason is `Failed to execute formatter: ` and the spawn error normalised when the run could not start, and the reason extracted from its output otherwise |
| Format.Failed | src/tools/format.rs:172-184 | The failures pushed are no more than the outcomes |
| Format.FailedSound | src/tools/format.rs:172-184 | Every reported failure is the outcome of some file |
| Format.FailedComplete | src/tools/format.rs:172-184 | Every failed outcome is reported |
| Format.FailedInFileOrder | src/tools/format.rs:154-186 | Failures over ascending files are reported in ascending file order |
| Format.ReadFormatRequest | src/tools/format.rs:137-149 | Target resolution (required), the getters and the indent check, as `FormatRequestOf` says |
| Format.FormatFile | src/tools/format.rs:155-185 | One pass of the loop gives the file's failure, as `FileFailure` says |
| Format.FormatFiles | src/tools/format.rs:152-186 | The loop pushes exactly the failures of the outcomes, in file order |
| Format.CallGdscriptFormat | src/tools/format.rs:133-195 | `call_gdscript_format` returns what `FormatOutcome` says, from the binary's outcome and the runs |
| Format.FailuresAreTheFailingFiles | src/tools/format.rs:152-186 | The failures are exactly the failing target files, each with its own failure, in ascending file order |
| Format.FailedOfOutcomes | src/tools/format.rs:152-186 | Over ascending files, the failures are exactly the failed outcomes, ascending by file |
| Format.FormatOutcomeSummary | src/tools/format.rs:188-194 | Every file is counted as processed, and the call succeeds exactly when no file failed |
| Format.FormatRequestFilesSorted | src/tools/format.rs:137 | The files formatted are the target set, in ascending order |
| Format.IndentSizeCheckedFirst | src/tools/format.rs:145-151 | An `indent_size` below 1 is reported before the binary is acquired, whatever that would give |
| FormatterManager.DetectPlatform | src/formatter_manager.rs:271-296 | A platform is detected exactly for linux/macos/windows on x86_64/aarch64, with the binary name ending in `.exe` exactly on Windows |
| FormatterManager.DefaultCacheRoot | src/formatter_manager.rs:298-306 | `XDG_CACHE_HOME/gdscript-formatter-mcp`, else `HOME/.cache/gdscript-formatter-mcp`, else `.gdscript-formatter-mcp-cache` |
| Host.JoinDisplay | src/formatter_manager.rs:300-303 | A joined path shows its parent, then one '/' unless the parent is empty or already ends in '/', then the component |
| Host.JoinDisplayCases | src/formatter_manager.rs:322-326 | Joining onto `/tmp/` or `/tmp` both give `/tmp/x`, and joining onto an empty parent gives the bare component |
| FormatterManager.CacheCandidates | src/formatter_manager.rs:321-326 | The default root first, the current directory's cache when there is one, the temporary directory last |
| FormatterManager.FirstCreatable | src/formatter_manager.rs:328-334 | The result is the first candidate that can be created, or else every candidate, each with its error, in order |
| FormatterManager.Disk.CreateDirAll | src/formatter_manager.rs:81 | `create_dir_all` adds the directory or reports the fault, and touches no file |
| FormatterManager.Disk.Write | src/formatter_manager.rs:107 | `fs::write` replaces the file's contents or reports the fault |
| FormatterManager.Disk.Rename | src/formatter_manager.rs:248 | `fs::rename` moves the file and its executable bit onto the target, or changes nothing |
| FormatterManager.ResolveCacheRoot | src/formatter_manager.rs:308-340 | The cache root is the custom directory (with no fallback) or the first creatable candidate, and that directory is created; no file changes |
| FormatterManager.CreateFirstCandidate | src/formatter_manager.rs:328-339 | The loop creates the first creatable candidate, or lists every candidate and its error |
| FormatterManager.FirstPlatformAsset | src/formatter_manager.rs:347-354 | The index found is the first asset whose name matches the platform |
| FormatterManager.SelectAssetForPlatform | src/formatter_manager.rs:342-361 | An asset is found exactly when one matches `gdscript-formatter-*-os-arch*.zip`, and it is the first; else the error names the platform and the tag |
| FormatterManager.WithExtension | src/formatter_manager.rs:235 | The temporary file sits beside the binary, with the `.download` extension |
| FormatterManager.PickEntry | src/formatter_manager.rs:218-265 | The entry installed is the first file entry named like the binary; else the error for the first unreadable entry, all entries before it being readable and not the binary, or `not found in downloaded zip asset` when every entry is readable and none is the binary |
| FormatterManager.SetExecutablePermissions | src/formatter_manager.rs:363-379 | On Unix the file gets its executable bit or the error; elsewhere nothing changes |
| FormatterManager.InstallEntry | src/formatter_manager.rs:235-254 | On success the binary holds the entry's data and (on Unix) is executable, and the temporary file is gone; on failure only the temporary file may have changed |
| FormatterManager.PlaceBinary | src/formatter_manager.rs:244-254 | Copy, chmod and rename of the temporary file, with the same success and failure states as `InstallEntry` |
| FormatterManager.ExtractBinary | src/formatter_manager.rs:218-265 | The entry loop installs the entry `PickEntry` chooses, and changes nothing when none is found |
| FormatterManager.DownloadAndExtractAsset | src/formatter_manager.rs:166-268 | The binary then holds the downloaded entry's contents, or the call fails having changed at most the temporary file |
| FormatterManager.InstallPathsDistinct | src/formatter_manager.rs:89-90 | The binary, the VERSION file and the temporary download are three different files |
| FormatterManager.New | src/formatter_manager.rs:42-56 | The manager gets the build's platform and a cache root that was created |
| FormatterManager.UpdateBinary | src/formatter_manager.rs:94-117 | Up to date changes nothing; a failed download leaves VERSION as it was; an update leaves the new binary and VERSION `tag\n` |
| FormatterManager.InstallRelease | src/formatter_manager.rs:96-116 | The update step once the asset is known: skip when up to date, else install then record |
| FormatterManager.InstallAndRecord | src/formatter_manager.rs:106-116 | VERSION is written only after the binary is in place |
| FormatterManager.EnsureBinary | src/formatter_manager.rs:58-148 | The override wins outright; an unknown platform is an error; a cache directory that cannot be created is the error and nothing changes; a failed fetch falls back to the cached binary exactly when it exists; after a fetch the binary is returned when the update succeeds or a binary remains, else `Failed to update formatter and no cached formatter found: ` and the update error; an up-to-date binary is returned untouched; a failed download leaves VERSION as it was; a successful update of an outdated cache leaves the downloaded binary and VERSION `tag\n` on disk |
| FormatterManager.EnsureCached | src/formatter_manager.rs:78-147 | A cache directory failure is an error that changes nothing; after that, as `UpdateOrFallBack`, including what the disk holds after a download that fails or an update that succeeds |
| FormatterManager.UpdateOrFallBack | src/formatter_manager.rs:92-147 | The updated binary, or else the cached one when it exists, else the error with the update or fetch reason; a failed download leaves VERSION as it was, and a successful update of an outdated cache leaves the downloaded binary and VERSION `tag\n` |
| Mcp.LintStructuredContent | src/mcp.rs:222-247 | The counters over all diagnostics, the projected prefix, the truncation flag, and the raw output exactly when asked for |
| Mcp.FormatResult | src/mcp.rs:180-216 | Always a result; `isError` exactly when the call failed or formatting failed; the summary and structured content of the run |
| Mcp.LintResult | src/mcp.rs:218-278 | Always a result; `isError` exactly when the call failed or linting failed; an executor error's text is the content |
| Mcp.ToolsCall | src/mcp.rs:168-281 | Bad `arguments` is an invalid-params error before the tool name is looked at; otherwise the named tool's result |
| Mcp.Dispatch | src/mcp.rs:138-284 | Every answer is a JSON-RPC envelope for the id, an error exactly for an unknown method or a bad tool call |
| Mcp.HandleRequest | src/mcp.rs:133-136 | A request without an id or a string method gets no answer; any other is dispatched on its method |
| Mcp.InitializeEchoesVersion | src/mcp.rs:139-160 | `initialize` echoes the client's string `protocolVersion`, else answers `2024-11-05`, with static tools |
| Mcp.UnknownMethodNotFound | src/mcp.rs:283 | Any other method is the -32601 `Method not found` error |
| Mcp.UnknownToolName | src/mcp.rs:169-172 | A tool name that is neither tool, a missing name included, is the -32602 `Unknown tool name` error |
| Mcp.FormatErrorIsOneInternalFailure | src/mcp.rs:196-215 | A failed format call reads as a failed run with one `<internal>` failure, without `processed_count` |
| Mcp.LintErrorIsEmptyFailedRun | src/mcp.rs:259-277 | A failed lint call reads as a failed run with no diagnostics, exit code -1 and the default maximum |
| Mcp.LintDiagnosticsArePrefix | src/mcp.rs:222-234 | The diagnostics shown are the first at most `max_diagnostics` reported, truncated exactly when some are left out |
| Text.TrimStart | src/tools/lint.rs:26 | `trim_start` drops exactly the leading whitespace |
| Text.TrimEnd | src/tools/lint.rs:26 | `trim_end` drops exactly the trailing whitespace |
| Text.TrimNoop | src/tools/format.rs:60 | A text with non-whitespace ends is its own trim |
| Text.SplitOnce | src/tools/lint.rs:31 | `split_once` cuts at the first occurrence of the pattern, and fails only without one |
| Text.RSplitOnce | src/tools/lint.rs:35-47 | `rsplit_once` cuts at the last occurrence of the character |
| Text.Lines | src/tools/lint.rs:25 | `lines` yields lines without '\n' |
| Text.LinesCons | src/tools/lint.rs:25 | A line ended by '\n' is the first of the lines |
| Text.Words | src/tools/format.rs:57 | `split_whitespace` yields whitespace-free, non-empty words |
| Text.WordsOfJoin | src/tools/format.rs:56-59 | Splitting words joined by single spaces gives the words back |
| Text.JoinWordsCollapsed | src/tools/format.rs:56-61 | Words joined by single spaces have collapsed whitespace |
| Text.Decimal | src/tools/lint.rs:126 | `to_string` of a number is a non-empty digit string |
| Text.ParseDecimal | src/tools/lint.rs:49 | Parsing what `to_string` prints gives the number back |
| Wrappers.FilterMap | src/tools/lint.rs:25-61 | Filtering keeps at most as many items as it was given |
| Wrappers.FilterMapSound | src/tools/lint.rs:25-61 | Every kept value is the image of some item |

## Left out

- Targets.GetOptionalUsize: `usize` is taken to be 64 bits wide. The source's `is too large` branch cannot happen for a non-negative i64 there, so it is not modelled.
- Protocol: header lines are read one character per byte. The UTF-8 validation that `read_line` performs on them is not modelled, so a non-UTF-8 header line does not fail in the model.
- Protocol.Writer.WriteMcpMessage: serialisation is a total function, so the `Failed to serialize JSON response` error is not modelled. Write and flush I/O errors are not modelled either.
- Targets: `WalkDir` and `globset` are given as a `FileTree`: the walk's items, in order, and each pattern's compile error and match. Symlink handling, walk order and glob syntax are theirs.
- Targets: the `dir` exists and is-directory checks and the relative path come from the `FileTree`. Path normalisation and `to_string_lossy` are not modelled.
- FormatterManager: the HTTP client, the GitHub API request and the asset download are parameters. `fetch` is a `Release` or one of the three fetch failures. The `Downloader` gives the archive's entries or one of the download failures (request, status, body, temporary directory, zip write, open or read). The temporary directory itself and its removal are not modelled.
- FormatterManager.New: building the HTTP client cannot fail in the model, so the `Failed to create HTTP client` error is left out.
- FormatterManager: a file-system fault is a function of the path only. Faults do not depend on earlier operations, permissions or races between processes.
- FormatterManager.Disk.ReadToString: any read error, invalid UTF-8 included, reads as no file. This is what `.ok()` turns it into.
- Host.Path.Display: Unix paths only. On Windows `join` puts '\\' between the parts and also accepts '\\' as an existing separator. A component that is an absolute path would replace its parent, but every component joined here is relative.
- FormatterManager.WithExtension: stated for paths built by `join` (`Child`). A bare root path is returned unchanged, since the binary path is always a child of the platform directory.
- FormatterManager.SetExecutablePermissions: the Unix/non-Unix `cfg` choice is the `unix` parameter, taken from the platform's OS.
- FormatterManager.EnsureBinary: the `eprintln!` warnings about using the cached binary are not modelled.
- Mcp: the `tools/list` schema (`tools_definition`) and the crate version are given as the `Server` value. The tool descriptions are not modelled.
- Mcp: `call_gdscript_format` and `call_gdscript_lint` are passed in as the functions `format` and `lint`. They are connected to the `Format` and `Lint` models through their outcomes.
- Lint.LintResultOf, Format.FileFailure: process output is taken as already-decoded text, so `from_utf8_lossy` is not modelled. The exit code is the `code` the status reports.
- Lint.LintResultOf: `i32`/`usize` widths of the counts and exit code are not modelled (counts are unbounded naturals).
- Targets.GlobSetError: only the compile error of each pattern is modelled. The `Failed to build glob set from` error of `GlobSetBuilder::build` is not, since the `FileTree` has no way to say when building a set of valid globs fails.
- Protocol.ContentLengthOf: `str::trim` also drops non-ASCII whitespace such as U+0085 or U+00A0 written in UTF-8. The model reads a header line one character per byte, so the UTF-8 encoding of such a character around the value leaves a lead byte that is not whitespace, and the value reads as an invalid digit.
- Protocol.ReadBody: allocating the body buffer cannot fail in the model. A `Content-Length` too large to allocate is read as a short body.
- `src/main.rs` (the stdin/stdout loop, the JSON parse error response and notifications) is not part of this model.
- Protocol.ReadMessage: end of input while reading headers is `None` whenever no `Content-Length` has been seen yet. This holds even after other header lines were read, as the code does (`EofAfterOtherHeader`).

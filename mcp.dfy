/**
 * Request dispatch of the MCP server: from one JSON-RPC request to at most
 * one response. The two tool executors are parameters: what each returns
 * for the call's `arguments` object.
 */
module Mcp {
  import opened Wrappers
  import opened Json
  import opened Targets
  import opened Lint
  import opened Format
  import Protocol
  import FormatterManager
  import Text

  /** The protocol version answered when the client names none. */
  const PROTOCOL_VERSION: string := "2024-11-05"

  /** JSON-RPC 2.0 error codes (section 5.1 of the JSON-RPC 2.0 specification). */
  const METHOD_NOT_FOUND: int := -32601
  const INVALID_PARAMS: int := -32602

  /**
   * What the server reports about itself: its package version, fixed when
   * it is built, and the literal list of tool definitions.
   */
  datatype Server = Server(version: string, tools: Json)

  /** `call_gdscript_format` and `call_gdscript_lint` for one `arguments` object. */
  type FormatCall = Args -> Result<FormatToolResult, string>
  type LintCall = Args -> Result<LintToolResult, string>

  // ---------------------------------------------------------------- reading the request

  /** `params.and_then(|v| v.get(key))`. */
  function Param(params: Option<Json>, key: string): Option<Json> {
    if params.Some? then Get(params.value, key) else None
  }

  /** `params.and_then(|v| v.get(key)).and_then(Value::as_str)`. */
  function ParamString(params: Option<Json>, key: string): Option<string> {
    match Param(params, key)
    case None => None
    case Some(v) => AsStr(v)
  }

  /** `request.get("method")?.as_str()`. */
  function MethodOf(request: Json): Option<string> {
    match Get(request, "method")
    case None => None
    case Some(m) => AsStr(m)
  }

  // ---------------------------------------------------------------- tool results

  /** One text item of a tool result's `content`. */
  function TextItem(text: string): Json {
    JObject(map["type" := JString("text"), "text" := JString(text)])
  }

  /** The members of every tool result. */
  const TOOL_RESULT_KEYS: set<string> := {"isError", "content", "structuredContent"}

  /** A tool result: the flag, one text item, and the structured content. */
  function ToolResult(isError: bool, text: string, structured: Json): Json {
    JObject(map["isError" := JBool(isError), "content" := JArray([TextItem(text)]), "structuredContent" := structured])
  }

  /** The members of the structured content of every lint result, before the raw output. */
  const LINT_CONTENT_KEYS: set<string> := {
    "ok", "exit_code", "total_diagnostics", "error_count", "warning_count",
    "max_diagnostics", "diagnostics_truncated", "diagnostics"}

  /** The two members holding the linter's raw output. */
  const RAW_OUTPUT_KEYS: set<string> := {"raw_stdout", "raw_stderr"}

  /** The JSON object of one lint diagnostic; the linter reports no column. */
  function DiagnosticJson(d: Diagnostic): Json {
    JObject(map[
      "file" := JString(d.file), "line" := JInt(d.line), "column" := JNull,
      "rule" := JString(d.rule), "severity" := JString(d.severity), "message" := JString(d.message)])
  }

  /**
   * The structured content of a lint result: the counters over all the
   * diagnostics, but only the projected prefix of them, and the raw output
   * only when it was asked for.
   */
  function LintStructuredContent(result: LintToolResult): (v: Json)
    ensures v.JObject? && v.fields.Keys == LINT_CONTENT_KEYS + (if result.includeRawOutput then RAW_OUTPUT_KEYS else {})
    ensures v.fields["ok"] == JBool(result.success) && v.fields["exit_code"] == JInt(result.exitCode)
    ensures v.fields["total_diagnostics"] == JInt(|result.diagnostics|)
    ensures v.fields["error_count"] == JInt(result.errorCount) && v.fields["warning_count"] == JInt(result.warningCount)
    ensures v.fields["max_diagnostics"] == JInt(result.maxDiagnostics)
    ensures v.fields["diagnostics_truncated"] == JBool(|result.diagnostics| > result.maxDiagnostics)
    ensures v.fields["diagnostics"].JArray?
    ensures |v.fields["diagnostics"].items| == Min(|result.diagnostics|, result.maxDiagnostics)
    ensures forall k :: 0 <= k < |v.fields["diagnostics"].items| ==>
              v.fields["diagnostics"].items[k] == DiagnosticJson(result.diagnostics[k])
    ensures result.includeRawOutput ==>
              v.fields["raw_stdout"] == JString(result.stdout) && v.fields["raw_stderr"] == JString(result.stderr)
  {
    var (shown, truncated) := ProjectLintDiagnostics(result.diagnostics, result.maxDiagnostics);
    var fields := map[
      "ok" := JBool(result.success),
      "exit_code" := JInt(result.exitCode),
      "total_diagnostics" := JInt(|result.diagnostics|),
      "error_count" := JInt(result.errorCount),
      "warning_count" := JInt(result.warningCount),
      "max_diagnostics" := JInt(result.maxDiagnostics),
      "diagnostics_truncated" := JBool(truncated),
      "diagnostics" := JArray(seq(|shown|, k requires 0 <= k < |shown| => DiagnosticJson(shown[k])))];
    if result.includeRawOutput then
      JObject(fields["raw_stdout" := JString(result.stdout)]["raw_stderr" := JString(result.stderr)])
    else
      JObject(fields)
  }

  /** The structured content of a format call whose executor failed: one failure for the file `<internal>`. */
  function FormatErrorContent(text: string): Json {
    JObject(map[
      "ok" := JBool(false),
      "failed_count" := JInt(1),
      "failures_truncated" := JBool(false),
      "failures" := JArray([FailureJson(FormatFailure("<internal>", text))])])
  }

  /** The structured content of a lint call whose executor failed: no diagnostics, exit code -1. */
  function LintErrorContent(): Json {
    JObject(map[
      "ok" := JBool(false),
      "exit_code" := JInt(-1),
      "total_diagnostics" := JInt(0),
      "error_count" := JInt(0),
      "warning_count" := JInt(0),
      "max_diagnostics" := JInt(DEFAULT_MAX_DIAGNOSTICS),
      "diagnostics_truncated" := JBool(false),
      "diagnostics" := JArray([])])
  }

  /** The `gdscript_format` answer: always a success response; `isError` says whether formatting failed. */
  function FormatResult(outcome: Result<FormatToolResult, string>): (v: Json)
    ensures v.JObject? && v.fields.Keys == TOOL_RESULT_KEYS
    ensures v.fields["isError"] == JBool(outcome.Err? || !outcome.value.success)
    ensures outcome.Ok? ==> v.fields["content"] == JArray([TextItem(RenderFormatSummary(outcome.value))])
                            && v.fields["structuredContent"] == FormatStructuredContent(outcome.value)
  {
    match outcome
    case Ok(result) => ToolResult(!result.success, RenderFormatSummary(result), FormatStructuredContent(result))
    case Err(text) => ToolResult(true, "Format failed. failed_count=1.", FormatErrorContent(text))
  }

  /** The `gdscript_lint` answer: always a success response; `isError` says whether linting failed. */
  function LintResult(outcome: Result<LintToolResult, string>): (v: Json)
    ensures v.JObject? && v.fields.Keys == TOOL_RESULT_KEYS
    ensures v.fields["isError"] == JBool(outcome.Err? || !outcome.value.success)
    ensures outcome.Ok? ==> v.fields["content"] == JArray([TextItem(RenderLintSummary(outcome.value))])
                            && v.fields["structuredContent"] == LintStructuredContent(outcome.value)
    ensures outcome.Err? ==> v.fields["content"] == JArray([TextItem(outcome.error)])
  {
    match outcome
    case Ok(result) => ToolResult(!result.success, RenderLintSummary(result), LintStructuredContent(result))
    case Err(text) => ToolResult(true, text, LintErrorContent())
  }

  // ---------------------------------------------------------------- dispatch

  /** Whether `tools/call` with these params is refused at the transport level. */
  predicate BadToolCall(params: Option<Json>) {
    AsObject(Param(params, "arguments")).Err?
    || ParamString(params, "name").UnwrapOr("") !in {"gdscript_format", "gdscript_lint"}
  }

  /**
   * `tools/call`: the `arguments` object is checked before the tool name;
   * a missing name is the empty name, which no tool has.
   */
  function ToolsCall(id: Json, params: Option<Json>, format: FormatCall, lint: LintCall): (r: Json)
    ensures r.JObject? && r.fields.Keys == {"jsonrpc", "id", if BadToolCall(params) then "error" else "result"}
    ensures AsObject(Param(params, "arguments")).Err? ==>
              r == Protocol.ErrorResponse(id, INVALID_PARAMS, AsObject(Param(params, "arguments")).error)
    ensures !BadToolCall(params) ==>
              var args := AsObject(Param(params, "arguments")).value;
              r.fields["result"] == if ParamString(params, "name") == Some("gdscript_format")
                                    then FormatResult(format(args)) else LintResult(lint(args))
  {
    var name := ParamString(params, "name").UnwrapOr("");
    match AsObject(Param(params, "arguments"))
    case Err(message) => Protocol.ErrorResponse(id, INVALID_PARAMS, message)
    case Ok(args) =>
      if name == "gdscript_format" then Protocol.SuccessResponse(id, FormatResult(format(args)))
      else if name == "gdscript_lint" then Protocol.SuccessResponse(id, LintResult(lint(args)))
      else Protocol.ErrorResponse(id, INVALID_PARAMS, "Unknown tool name")
  }

  /** The result of `initialize`: the client's protocol version echoed, tools that never change, and who we are. */
  function InitializeResult(protocolVersion: string, server: Server): Json {
    JObject(map[
      "protocolVersion" := JString(protocolVersion),
      "capabilities" := JObject(map["tools" := JObject(map["listChanged" := JBool(false)])]),
      "serverInfo" := JObject(map["name" := JString(FormatterManager.SERVER_NAME), "version" := JString(server.version)])])
  }

  /** Whether a request is answered with a JSON-RPC error rather than a result. */
  predicate TransportError(rpcMethod: string, params: Option<Json>) {
    rpcMethod !in {"initialize", "ping", "tools/list", "tools/call"}
    || (rpcMethod == "tools/call" && BadToolCall(params))
  }

  /** The answer to a request with an id and a method name. */
  function Dispatch(id: Json, rpcMethod: string, params: Option<Json>, server: Server, format: FormatCall, lint: LintCall)
    : (r: Json)
    ensures r.JObject? && r.fields.Keys == {"jsonrpc", "id", if TransportError(rpcMethod, params) then "error" else "result"}
    ensures r.fields["jsonrpc"] == JString("2.0") && r.fields["id"] == id
  {
    match rpcMethod
    case "initialize" =>
      Protocol.SuccessResponse(id, InitializeResult(ParamString(params, "protocolVersion").UnwrapOr(PROTOCOL_VERSION), server))
    case "ping" => Protocol.SuccessResponse(id, JObject(map[]))
    case "tools/list" => Protocol.SuccessResponse(id, JObject(map["tools" := server.tools]))
    case "tools/call" => ToolsCall(id, params, format, lint)
    case _ => Protocol.ErrorResponse(id, METHOD_NOT_FOUND, "Method not found")
  }

  /**
   * `handle_request`: a message without an `id`, or whose `method` is
   * missing or not a string, is a notification and gets no answer.
   */
  function HandleRequest(request: Json, server: Server, format: FormatCall, lint: LintCall): (r: Option<Json>)
    ensures r.None? <==> Get(request, "id").None? || MethodOf(request).None?
    ensures r.Some? ==> r.value == Dispatch(Get(request, "id").value, MethodOf(request).value, Get(request, "params"),
                                            server, format, lint)
  {
    match Get(request, "id")
    case None => None
    case Some(id) =>
      match MethodOf(request)
      case None => None
      case Some(rpcMethod) => Some(Dispatch(id, rpcMethod, Get(request, "params"), server, format, lint))
  }

  // ---------------------------------------------------------------- properties

  /** `initialize` echoes a string `protocolVersion` of the client, else answers its own, and never lists tool changes. */
  lemma InitializeEchoesVersion(id: Json, params: Option<Json>, server: Server, format: FormatCall, lint: LintCall)
    ensures var r := Dispatch(id, "initialize", params, server, format, lint);
            var result := r.fields["result"];
            && result.JObject? && result.fields.Keys == {"protocolVersion", "capabilities", "serverInfo"}
            && result.fields["protocolVersion"]
                 == JString(if ParamString(params, "protocolVersion").Some? then ParamString(params, "protocolVersion").value
                            else PROTOCOL_VERSION)
            && result.fields["capabilities"] == JObject(map["tools" := JObject(map["listChanged" := JBool(false)])])
  {
  }

  /** `ping` answers the empty object. */
  lemma PingAnswersEmptyObject(id: Json, params: Option<Json>, server: Server, format: FormatCall, lint: LintCall)
    ensures Dispatch(id, "ping", params, server, format, lint).fields["result"] == JObject(map[])
  {
  }

  /** Any method the server does not know is "Method not found", whatever the params. */
  lemma UnknownMethodNotFound(id: Json, rpcMethod: string, params: Option<Json>, server: Server,
                              format: FormatCall, lint: LintCall)
    requires rpcMethod !in {"initialize", "ping", "tools/list", "tools/call"}
    ensures Dispatch(id, rpcMethod, params, server, format, lint) == Protocol.ErrorResponse(id, METHOD_NOT_FOUND, "Method not found")
  {
  }

  /** A tool name other than the two tools, the missing name included, is an invalid-params error. */
  lemma UnknownToolName(id: Json, params: Option<Json>, format: FormatCall, lint: LintCall)
    requires AsObject(Param(params, "arguments")).Ok?
    requires ParamString(params, "name").UnwrapOr("") !in {"gdscript_format", "gdscript_lint"}
    ensures ToolsCall(id, params, format, lint) == Protocol.ErrorResponse(id, INVALID_PARAMS, "Unknown tool name")
  {
  }

  /**
   * A failing format executor is reported as a failed format run with the
   * one failure `<internal>`: the same summary and the same content as
   * such a run, except that no processed count is given.
   */
  lemma FormatErrorIsOneInternalFailure(text: string, processed: nat)
    ensures var run := FormatToolResult(false, processed, [FormatFailure("<internal>", text)]);
            var v := FormatResult(Err(text));
            && v.fields["content"] == JArray([TextItem(RenderFormatSummary(run))])
            && v.fields["structuredContent"].JObject?
            && v.fields["structuredContent"].fields == FormatStructuredContent(run).fields - {"processed_count"}
  {
    var run := FormatToolResult(false, processed, [FormatFailure("<internal>", text)]);
    assert Text.Decimal(1) == "1";
    var content := FormatStructuredContent(run);
    assert content.fields["failures"].items == [FailureJson(FormatFailure("<internal>", text))];
    assert RenderFormatSummary(run) == "Format failed. failed_count=1.";
    var expected := FormatErrorContent(text).fields;
    assert (content.fields - {"processed_count"}).Keys == expected.Keys;
    assert forall k :: k in expected ==> (content.fields - {"processed_count"})[k] == expected[k];
  }

  /**
   * A failing lint executor is reported like a failed linter run that
   * printed nothing and gave no exit code, with the default cap and
   * without raw output.
   */
  lemma LintErrorIsEmptyFailedRun(text: string)
    ensures var run := LintToolResult(false, -1, "", "", [], false, DEFAULT_MAX_DIAGNOSTICS, 0, 0);
            LintResult(Err(text)).fields["structuredContent"] == LintStructuredContent(run)
  {
    var run := LintToolResult(false, -1, "", "", [], false, DEFAULT_MAX_DIAGNOSTICS, 0, 0);
    assert LintStructuredContent(run).fields["diagnostics"].items == [];
  }

  /** The diagnostics returned are the first ones the linter reported, at most `max_diagnostics` of them. */
  lemma LintDiagnosticsArePrefix(result: LintToolResult)
    ensures var shown := LintStructuredContent(result).fields["diagnostics"].items;
            && |shown| <= result.maxDiagnostics && |shown| <= |result.diagnostics|
            && (|shown| < |result.diagnostics| <==> LintStructuredContent(result).fields["diagnostics_truncated"] == JBool(true))
            && forall k :: 0 <= k < |shown| ==> shown[k] == DiagnosticJson(result.diagnostics[k])
  {
  }
}

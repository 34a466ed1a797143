/**
  The request dispatcher of app/core/mcp_core.py: a tool registry built from a list of
  tools, the guarded execution of one tool, and `process_request`, which answers
  `initialize`, runs a named tool or reports that nothing matched, with or without the
  JSON-RPC 2.0 envelope.
 */
module McpCore {
  import opened Wrappers
  import opened Json
  import opened Seqs

  /** Stands for the Python callable a tool wraps. */
  type HandlerId = nat

  datatype Tool = Tool(name: string, description: string, handler: HandlerId, inputSchema: Value)

  /** What calling a tool's callable does: return a value or raise an exception whose
      `str()` is `message`. */
  datatype ToolOutcome = Returned(value: Value) | Raised(message: string)

  /** The behaviour of every callable; the callables themselves are not part of this model. */
  type Runner = (HandlerId, Value) -> ToolOutcome

  type Request = map<string, Value>
  type Response = map<string, Value>

  function ToolErrorText(t: Tool, message: string): string {
    "Error in tool " + t.name + ": " + message
  }

  /** `MCPTool.execute`: the callable's value, or an error dict naming the tool when it
      raises; it never raises itself. */
  function Execute(t: Tool, params: Value, run: Runner): (r: Value)
    ensures run(t.handler, params).Returned? ==> r == run(t.handler, params).value
    ensures run(t.handler, params).Raised? ==>
      && r.Obj? && r.fields.Keys == {"error"}
      && r.fields["error"] == Str(ToolErrorText(t, run(t.handler, params).message))
  {
    match run(t.handler, params)
    case Returned(v) => v
    case Raised(msg) => Obj(map["error" := Str(ToolErrorText(t, msg))])
  }

  // ---------------------------------------------------------------------------
  // The registry

  /** `MCPModel.tools`: the tool names in dict insertion order and the dict itself. */
  datatype Registry = Registry(names: seq<string>, tools: map<string, Tool>)

  predicate WellFormed(r: Registry) {
    && Distinct(r.names)
    && (forall n :: n in r.names ==> n in r.tools)
    && (forall n :: n in r.tools ==> n in r.names)
    && (forall n :: n in r.tools ==> r.tools[n].name == n)
  }

  /** One step of `{tool.name: tool for tool in tools}`: a new name is appended to the
      key order, a repeated one keeps its place and takes the new tool. */
  function Register(r: Registry, t: Tool): Registry {
    if t.name in r.tools then Registry(r.names, r.tools[t.name := t])
    else Registry(r.names + [t.name], r.tools[t.name := t])
  }

  /** `MCPModel.__init__` */
  function NewRegistry(ts: seq<Tool>): (r: Registry)
    ensures WellFormed(r)
    decreases |ts|
  {
    if ts == [] then Registry([], map[])
    else
      var prev := NewRegistry(ts[..|ts| - 1]);
      var t := ts[|ts| - 1];
      assert t.name !in prev.tools ==> Distinct(prev.names + [t.name]) by {
        if t.name !in prev.tools {
          DistinctSnoc(prev.names, t.name);
        }
      }
      Register(prev, t)
  }

  /** The last tool of `ts` called `n`, if any. */
  function LastNamed(ts: seq<Tool>, n: string): Option<Tool>
    decreases |ts|
  {
    if ts == [] then None
    else if ts[|ts| - 1].name == n then Some(ts[|ts| - 1])
    else LastNamed(ts[..|ts| - 1], n)
  }

  /** The position of the first tool of `ts` called `n`; `|ts|` when there is none. */
  function FirstIndex(ts: seq<Tool>, n: string): (i: nat)
    ensures i <= |ts|
    ensures i < |ts| ==> ts[i].name == n
    ensures forall j :: 0 <= j < i ==> ts[j].name != n
    decreases |ts|
  {
    if ts == [] then 0
    else if ts[0].name == n then 0
    else 1 + FirstIndex(ts[1..], n)
  }

  lemma FirstIndexSnoc(ts: seq<Tool>, t: Tool, n: string)
    ensures FirstIndex(ts + [t], n) ==
      if FirstIndex(ts, n) < |ts| then FirstIndex(ts, n) else if t.name == n then |ts| else |ts| + 1
  {
    var k := FirstIndex(ts + [t], n);
    if FirstIndex(ts, n) < |ts| {
      assert (ts + [t])[FirstIndex(ts, n)].name == n;
    } else if t.name == n {
      assert (ts + [t])[|ts|].name == n;
      assert forall j :: 0 <= j < |ts| ==> (ts + [t])[j].name != n;
    } else {
      assert forall j :: 0 <= j < |ts| + 1 ==> (ts + [t])[j].name != n;
    }
  }

  /** A duplicated name keeps the tool listed last: the dict holds exactly the names of
      the list, each bound to the last tool of that name. */
  lemma {:induction false} RegistryLastWins(ts: seq<Tool>, n: string)
    ensures n in NewRegistry(ts).tools <==> LastNamed(ts, n).Some?
    ensures n in NewRegistry(ts).tools ==> NewRegistry(ts).tools[n] == LastNamed(ts, n).value
    decreases |ts|
  {
    if ts != [] {
      RegistryLastWins(ts[..|ts| - 1], n);
    }
  }

  /** `NewRegistry` one tool at a time. */
  lemma NewRegistrySnoc(prefix: seq<Tool>, t: Tool)
    ensures NewRegistry(prefix + [t]) == Register(NewRegistry(prefix), t)
  {
    assert (prefix + [t])[..|prefix|] == prefix;
  }

  /** The dict holds exactly the names that occur in the list. */
  lemma {:induction false} RegistryKeys(ts: seq<Tool>)
    ensures forall n :: n in NewRegistry(ts).tools <==> FirstIndex(ts, n) < |ts|
    decreases |ts|
  {
    if ts != [] {
      var prefix, t := ts[..|ts| - 1], ts[|ts| - 1];
      assert ts == prefix + [t];
      RegistryKeys(prefix);
      NewRegistrySnoc(prefix, t);
      forall n ensures n in NewRegistry(ts).tools <==> FirstIndex(ts, n) < |ts| {
        FirstIndexSnoc(prefix, t, n);
      }
    }
  }

  /** The key order is the order in which names first occur in the list. */
  lemma {:induction false} RegistryOrder(ts: seq<Tool>)
    ensures forall i, j :: 0 <= i < j < |NewRegistry(ts).names| ==>
      FirstIndex(ts, NewRegistry(ts).names[i]) < FirstIndex(ts, NewRegistry(ts).names[j])
    decreases |ts|
  {
    if ts != [] {
      var prefix, t := ts[..|ts| - 1], ts[|ts| - 1];
      assert ts == prefix + [t];
      RegistryOrder(prefix);
      RegistryKeys(prefix);
      NewRegistrySnoc(prefix, t);
      var prev, names := NewRegistry(prefix).names, NewRegistry(ts).names;
      forall i, j | 0 <= i < j < |names| ensures FirstIndex(ts, names[i]) < FirstIndex(ts, names[j]) {
        FirstIndexSnoc(prefix, t, names[i]);
        FirstIndexSnoc(prefix, t, names[j]);
        if j < |prev| {
          assert names[i] == prev[i] && names[j] == prev[j];
        } else {
          assert names[i] == prev[i] && names[i] in NewRegistry(prefix).tools;
          assert names == prev + [t.name] && names[j] == t.name;
        }
      }
    }
  }

  // ---------------------------------------------------------------------------
  // initialize

  /** One entry of `toolDefinitions`. */
  function ToolDefinition(t: Tool): (d: Value)
    ensures d.Obj?
    ensures d.fields.Keys == if Truthy(t.inputSchema) then {"name", "description", "inputSchema"} else {"name", "description"}
    ensures d.fields["name"] == Str(t.name) && d.fields["description"] == Str(t.description)
    ensures "inputSchema" in d.fields ==> d.fields["inputSchema"] == t.inputSchema
  {
    var base := map["name" := Str(t.name), "description" := Str(t.description)];
    Obj(if Truthy(t.inputSchema) then base["inputSchema" := t.inputSchema] else base)
  }

  /** `tool_list_for_client`: one definition per registered tool, in key order. */
  function ToolDefinitions(r: Registry): (defs: seq<Value>)
    requires WellFormed(r)
    ensures |defs| == |r.names|
    ensures forall i :: 0 <= i < |defs| ==> defs[i] == ToolDefinition(r.tools[r.names[i]])
  {
    seq(|r.names|, i requires 0 <= i < |r.names| => ToolDefinition(r.tools[r.names[i]]))
  }

  /** The append loop that builds `tool_list_for_client`. */
  method ListTools(r: Registry) returns (defs: seq<Value>)
    requires WellFormed(r)
    ensures defs == ToolDefinitions(r)
  {
    defs := [];
    var i := 0;
    while i < |r.names|
      invariant 0 <= i <= |r.names|
      invariant defs == ToolDefinitions(r)[..i]
    {
      defs := defs + [ToolDefinition(r.tools[r.names[i]])];
      i := i + 1;
    }
  }

  const ProtocolVersion: string := "0.1.0-py-placeholder"

  /** `server_capabilities` */
  function InitializeResult(r: Registry): (v: Value)
    requires WellFormed(r)
    ensures v.Obj? && v.fields.Keys == {"protocolVersion", "capabilities"}
    ensures v.fields["protocolVersion"] == Str(ProtocolVersion)
    ensures var caps := v.fields["capabilities"];
      && caps.Obj? && caps.fields.Keys == {"tools"} && caps.fields["tools"].Obj?
      && caps.fields["tools"].fields.Keys == {"dynamicRegistration", "toolProvider", "toolDefinitions"}
      && caps.fields["tools"].fields["dynamicRegistration"] == Bool(false)
      && caps.fields["tools"].fields["toolProvider"] == Bool(true)
      && caps.fields["tools"].fields["toolDefinitions"] == Arr(ToolDefinitions(r))
  {
    Obj(map[
      "protocolVersion" := Str(ProtocolVersion),
      "capabilities" := Obj(map[
        "tools" := Obj(map[
          "dynamicRegistration" := Bool(false),
          "toolProvider" := Bool(true),
          "toolDefinitions" := Arr(ToolDefinitions(r))])])])
  }

  // ---------------------------------------------------------------------------
  // Reading the request

  function RequestId(req: Request): Value {
    GetOr(req, "id", Null)
  }

  predicate IsJsonRpc(req: Request) {
    "jsonrpc" in req
  }

  function Method(req: Request): Value {
    GetOr(req, "method", Null)
  }

  function ToolNameDirect(req: Request): Value {
    GetOr(req, "tool_name", Null)
  }

  /** `params.tool_name`, looked up only when `params` is a dict. */
  function ToolNameFromParams(req: Request): Value {
    if "params" in req && req["params"].Obj? then GetOr(req["params"].fields, "tool_name", Null) else Null
  }

  function EffectiveToolName(req: Request): Value {
    Or(ToolNameDirect(req), ToolNameFromParams(req))
  }

  /** `actual_tool_params` */
  function ToolParams(req: Request): Value {
    var params := GetOr(req, "params", Obj(map[]));
    if Truthy(ToolNameFromParams(req)) && params.Obj? then GetOr(params.fields, "parameters", params) else params
  }

  /** Adds `"jsonrpc": "2.0"` and the request's id to a response of a JSON-RPC request. */
  function WithEnvelope(resp: Response, req: Request): Response {
    if IsJsonRpc(req) then resp["jsonrpc" := Str("2.0")]["id" := RequestId(req)] else resp
  }

  // ---------------------------------------------------------------------------
  // Routing

  /** The three branches of `process_request`. */
  datatype Branch = Initialize | RunTool(tool: Tool, params: Value) | NoMatch

  /** Which branch a request takes; naming a tool by a list or a dict raises the
      `TypeError` of an unhashable dict key. */
  function Route(r: Registry, req: Request): (b: Result<Branch, PyError>)
    ensures b == Ok(Initialize) <==> Method(req) == Str("initialize")
    ensures b.Err? <==> Method(req) != Str("initialize") && Truthy(EffectiveToolName(req))
                        && (EffectiveToolName(req).Arr? || EffectiveToolName(req).Obj?)
    ensures b.Ok? && b.value.RunTool? <==>
      && Method(req) != Str("initialize") && EffectiveToolName(req).Str?
      && EffectiveToolName(req).s != "" && EffectiveToolName(req).s in r.tools
    ensures b.Ok? && b.value.RunTool? ==>
      b.value.tool == r.tools[EffectiveToolName(req).s] && b.value.params == ToolParams(req)
  {
    if Method(req) == Str("initialize") then Ok(Initialize)
    else
      var name := EffectiveToolName(req);
      if !Truthy(name) then Ok(NoMatch)
      else
        match DictHas(r.tools, name)
        case Err(e) => Err(e)
        case Ok(found) => if found then Ok(RunTool(r.tools[name.s], ToolParams(req))) else Ok(NoMatch)
  }

  function NotFoundMessage(req: Request): string {
    "Method '" + PyStr(Method(req)) + "' not handled or tool '" + PyStr(EffectiveToolName(req)) + "' not found."
  }

  /** The fallback branch: a -32601 error object under JSON-RPC, a bare message otherwise. */
  function NotFoundResponse(req: Request): (resp: Response)
    ensures "error" in resp && "result" !in resp
    ensures IsJsonRpc(req) ==>
      && resp.Keys == {"jsonrpc", "id", "error"} && resp["id"] == RequestId(req)
      && resp["error"].Obj? && "code" in resp["error"].fields && resp["error"].fields["code"] == Int(-32601)
    ensures !IsJsonRpc(req) ==> resp.Keys == {"error"} && resp["error"].Str?
  {
    if IsJsonRpc(req) then
      WithEnvelope(map["error" := Obj(map["code" := Int(-32601), "message" := Str(NotFoundMessage(req))])], req)
    else map["error" := Str(NotFoundMessage(req))]
  }

  /** An error response carrying the -32000 server error with the tool's error as data. */
  function WrappedToolError(id: Value, err: Value): Response {
    map["jsonrpc" := Str("2.0"), "id" := id,
        "error" := Obj(map["code" := Int(-32000), "message" := Str("Tool execution error"), "data" := err])]
  }

  function PassedToolError(id: Value, err: Value): Response {
    map["jsonrpc" := Str("2.0"), "id" := id, "error" := err]
  }

  /** The JSON-RPC error for a tool result `{"error": err}`: passed through when it is
      already an error object with a code, wrapped as -32000 otherwise. */
  function RpcToolError(id: Value, err: Value): (resp: Response)
    ensures resp.Keys == {"jsonrpc", "id", "error"} && resp["jsonrpc"] == Str("2.0") && resp["id"] == id
    ensures resp["error"].Obj? && "code" in resp["error"].fields
    ensures err.Obj? && "code" in err.fields ==> resp["error"] == err
    ensures !(err.Obj? && "code" in err.fields) ==>
      resp["error"] == Obj(map["code" := Int(-32000), "message" := Str("Tool execution error"), "data" := err])
  {
    if err.Obj? && "code" in err.fields then PassedToolError(id, err) else WrappedToolError(id, err)
  }

  /** The same decision as the code writes it, with Python's `in`: a substring test on
      a string error and a TypeError on a null, boolean or integer one. */
  function RpcToolErrorAsWritten(id: Value, err: Value): (r: Result<Response, PyError>)
    ensures r.Err? <==> err.Null? || err.Bool? || err.Int?
    ensures err.Str? && IsSubstring("code", err.s) ==> r == Ok(PassedToolError(id, err))
    ensures err.Str? && !IsSubstring("code", err.s) ==> r == Ok(WrappedToolError(id, err))
    ensures err.Arr? ==> r == Ok(if Str("code") in err.items then PassedToolError(id, err) else WrappedToolError(id, err))
    ensures err.Obj? ==> r == Ok(RpcToolError(id, err))
  {
    match Contains(err, "code")
    case Err(e) => Err(e)
    case Ok(hasCode) => Ok(if hasCode then PassedToolError(id, err) else WrappedToolError(id, err))
  }

  predicate IsToolError(result: Value) {
    result.Obj? && "error" in result.fields
  }

  /** The tool branch's response for the value `execute` returned. */
  function ToolResponse(req: Request, result: Value): (resp: Response)
    ensures !(IsJsonRpc(req) && IsToolError(result)) ==> "result" in resp && resp["result"] == result && "error" !in resp
    ensures IsJsonRpc(req) && IsToolError(result) ==>
      && resp.Keys == {"jsonrpc", "id", "error"} && resp["id"] == RequestId(req)
      && resp["error"].Obj? && "code" in resp["error"].fields
  {
    if IsJsonRpc(req) && IsToolError(result) then RpcToolError(RequestId(req), result.fields["error"])
    else WithEnvelope(map["result" := result], req)
  }

  function ToolResponseAsWritten(req: Request, result: Value): Result<Response, PyError> {
    if IsJsonRpc(req) && IsToolError(result) then RpcToolErrorAsWritten(RequestId(req), result.fields["error"])
    else Ok(WithEnvelope(map["result" := result], req))
  }

  /** `MCPModel.process_request`, with the tool error test as evidently intended. */
  function ProcessRequest(r: Registry, req: Request, run: Runner): (res: Result<Response, PyError>)
    requires WellFormed(r)
    ensures res.Err? <==> Route(r, req).Err?
  {
    match Route(r, req)
    case Err(e) => Err(e)
    case Ok(Initialize) => Ok(WithEnvelope(map["result" := InitializeResult(r)], req))
    case Ok(RunTool(t, params)) => Ok(ToolResponse(req, Execute(t, params, run)))
    case Ok(NoMatch) => Ok(NotFoundResponse(req))
  }

  /** `MCPModel.process_request` as written. */
  function ProcessRequestAsWritten(r: Registry, req: Request, run: Runner): (res: Result<Response, PyError>)
    requires WellFormed(r)
    ensures Route(r, req).Err? ==> res.Err?
    ensures !(Route(r, req).Ok? && Route(r, req).value.RunTool?) ==> res == ProcessRequest(r, req, run)
  {
    match Route(r, req)
    case Err(e) => Err(e)
    case Ok(Initialize) => Ok(WithEnvelope(map["result" := InitializeResult(r)], req))
    case Ok(RunTool(t, params)) => ToolResponseAsWritten(req, Execute(t, params, run))
    case Ok(NoMatch) => Ok(NotFoundResponse(req))
  }

  // ---------------------------------------------------------------------------
  // Properties of the corrected dispatcher `ProcessRequest`

  /** `initialize` is answered before any tool lookup, whatever tool names the request
      carries, with one definition per registered tool. */
  lemma InitializeHandledFirst(r: Registry, req: Request, run: Runner)
    requires WellFormed(r) && Method(req) == Str("initialize")
    ensures ProcessRequest(r, req, run).Ok?
    ensures var resp := ProcessRequest(r, req, run).value;
      && "result" in resp && "error" !in resp
      && resp["result"].fields["capabilities"].fields["tools"].fields["toolDefinitions"] == Arr(ToolDefinitions(r))
      && resp["result"].fields["protocolVersion"] == Str(ProtocolVersion)
  {
  }

  /** The tool name: a truthy top-level `tool_name` wins; `params.tool_name` is used
      otherwise, and only when `params` is a dict. */
  lemma ToolNamePrecedence(req: Request)
    ensures Truthy(ToolNameDirect(req)) ==> EffectiveToolName(req) == ToolNameDirect(req)
    ensures !Truthy(ToolNameDirect(req)) ==> EffectiveToolName(req) == ToolNameFromParams(req)
    ensures !("params" in req && req["params"].Obj?) ==> ToolNameFromParams(req) == Null
  {
  }

  /** What the tool receives: `params["parameters"]` (or all of `params`) whenever
      `params` is a dict carrying a truthy `tool_name`, even when a top-level
      `tool_name` picked the tool; otherwise `params` as sent, `{}` when absent. */
  lemma ToolParamsChoice(req: Request)
    ensures Truthy(ToolNameFromParams(req)) ==>
      && "params" in req && req["params"].Obj?
      && ToolParams(req) == GetOr(req["params"].fields, "parameters", req["params"])
    ensures !Truthy(ToolNameFromParams(req)) ==> ToolParams(req) == GetOr(req, "params", Obj(map[]))
  {
  }

  /** A request naming a registered tool runs that tool on `ToolParams`. */
  lemma NamedToolRuns(r: Registry, req: Request, run: Runner, n: string)
    requires WellFormed(r) && Method(req) != Str("initialize")
    requires EffectiveToolName(req) == Str(n) && n in r.tools && n != ""
    ensures ProcessRequest(r, req, run) == Ok(ToolResponse(req, Execute(r.tools[n], ToolParams(req), run)))
  {
  }

  /** The request fails only when it is not `initialize` and names its tool by a truthy
      list or dict; otherwise every request gets a response. */
  lemma RaisesOnlyForUnhashableName(r: Registry, req: Request, run: Runner)
    requires WellFormed(r)
    ensures ProcessRequest(r, req, run).Err? <==>
      Method(req) != Str("initialize") && Truthy(EffectiveToolName(req))
      && (EffectiveToolName(req).Arr? || EffectiveToolName(req).Obj?)
  {
  }

  /** A request that is not `initialize` and names no registered tool gets the
      not-found response: -32601 under JSON-RPC, a bare message otherwise. */
  lemma UnknownToolNotFound(r: Registry, req: Request, run: Runner)
    requires WellFormed(r) && Method(req) != Str("initialize")
    requires !Truthy(EffectiveToolName(req)) || EffectiveToolName(req).Null? || EffectiveToolName(req).Bool?
      || EffectiveToolName(req).Int? || (EffectiveToolName(req).Str? && EffectiveToolName(req).s !in r.tools)
    ensures ProcessRequest(r, req, run) == Ok(NotFoundResponse(req))
    ensures IsJsonRpc(req) ==>
      NotFoundResponse(req)["error"] == Obj(map["code" := Int(-32601), "message" := Str(NotFoundMessage(req))])
    ensures !IsJsonRpc(req) ==> NotFoundResponse(req) == map["error" := Str(NotFoundMessage(req))]
  {
  }

  /** Every response to a JSON-RPC request carries `"jsonrpc": "2.0"` and the request's
      id; a response to any other request has neither and is a single-key dict. */
  lemma EnvelopeInEveryBranch(r: Registry, req: Request, run: Runner)
    requires WellFormed(r) && ProcessRequest(r, req, run).Ok?
    ensures var resp := ProcessRequest(r, req, run).value;
      && (IsJsonRpc(req) ==> "jsonrpc" in resp && resp["jsonrpc"] == Str("2.0") && "id" in resp && resp["id"] == RequestId(req))
      && (!IsJsonRpc(req) ==> "jsonrpc" !in resp && "id" !in resp && |resp.Keys| == 1)
  {
    var resp := ProcessRequest(r, req, run).value;
    if !IsJsonRpc(req) {
      assert resp.Keys == {"result"} || resp.Keys == {"error"};
    }
  }

  /** Every response holds exactly one of `result` and `error`. */
  lemma ResultXorError(r: Registry, req: Request, run: Runner)
    requires WellFormed(r) && ProcessRequest(r, req, run).Ok?
    ensures var resp := ProcessRequest(r, req, run).value;
      ("result" in resp) != ("error" in resp)
  {
  }

  /** Under JSON-RPC every error is an object with a `code`. */
  lemma RpcErrorsCarryCode(r: Registry, req: Request, run: Runner)
    requires WellFormed(r) && IsJsonRpc(req) && ProcessRequest(r, req, run).Ok?
    ensures var resp := ProcessRequest(r, req, run).value;
      "error" in resp ==> resp["error"].Obj? && "code" in resp["error"].fields
  {
  }

  /** Under JSON-RPC, a tool result `{"error": e}` becomes an error response: passed
      through when `e` is an object with a code, wrapped as -32000 with `e` as data
      otherwise. Other requests get `{"result": ...}` whatever the tool returned. */
  lemma ToolErrorMapping(req: Request, result: Value)
    ensures IsJsonRpc(req) && IsToolError(result) ==>
      var e := result.fields["error"];
      ToolResponse(req, result) ==
        if e.Obj? && "code" in e.fields then map["jsonrpc" := Str("2.0"), "id" := RequestId(req), "error" := e]
        else map["jsonrpc" := Str("2.0"), "id" := RequestId(req),
                 "error" := Obj(map["code" := Int(-32000), "message" := Str("Tool execution error"), "data" := e])]
    ensures !IsJsonRpc(req) ==> ToolResponse(req, result) == map["result" := result]
    ensures IsJsonRpc(req) && !IsToolError(result) ==>
      ToolResponse(req, result) == map["result" := result, "jsonrpc" := Str("2.0"), "id" := RequestId(req)]
  {
  }

  /** The code as written agrees with the corrected dispatcher except when the tool's
      error is not a dict: a string or list error that mentions "code" is passed
      through bare, and a null, boolean or integer error raises. */
  lemma AsWrittenAgreesOnDictErrors(r: Registry, req: Request, run: Runner)
    requires WellFormed(r)
    requires forall t, p :: Route(r, req) == Ok(RunTool(t, p)) && IsToolError(Execute(t, p, run)) ==>
      Execute(t, p, run).fields["error"].Obj?
    ensures ProcessRequestAsWritten(r, req, run) == ProcessRequest(r, req, run)
  {
  }

  lemma SingleToolRegistry(t: Tool)
    ensures NewRegistry([t]) == Registry([t.name], map[t.name := t])
  {
    assert [t][..0] == [];
  }

  const DecodeFailure: string := "'utf-8' codec can't decode byte 0xff"

  /** The decoding error's message, as `execute` reports it, contains "code". */
  lemma {:induction false} CodecTextMentionsCode(t: Tool)
    ensures IsSubstring("code", ToolErrorText(t, DecodeFailure))
  {
    var head := "Error in tool " + t.name + ": ";
    var text := ToolErrorText(t, DecodeFailure);
    assert text == head + DecodeFailure;
    var i := |head| + 8;
    assert DecodeFailure[8] == 'c' && DecodeFailure[9] == 'o' && DecodeFailure[10] == 'd' && DecodeFailure[11] == 'e';
    assert text[i..i + 4] == DecodeFailure[8..12] == "code";
    SubstringAt("code", text, i);
  }

  /** A registry holding one tool runs that tool for every request naming it, in both
      versions of the dispatcher. */
  lemma SoleToolRuns(t: Tool, req: Request, run: Runner)
    requires Method(req) != Str("initialize") && EffectiveToolName(req) == Str(t.name) && t.name != ""
    ensures WellFormed(NewRegistry([t]))
    ensures ProcessRequest(NewRegistry([t]), req, run) == Ok(ToolResponse(req, Execute(t, ToolParams(req), run)))
    ensures ProcessRequestAsWritten(NewRegistry([t]), req, run) == ToolResponseAsWritten(req, Execute(t, ToolParams(req), run))
  {
    SingleToolRegistry(t);
    assert Route(NewRegistry([t]), req) == Ok(RunTool(t, ToolParams(req)));
  }

  /** The tool of the first counterexample and the request that calls it. */
  const Reader := Tool("reader", "reads a file", 0, Null)
  const ReaderRequest: Request :=
    map["jsonrpc" := Str("2.0"), "id" := Int(7), "method" := Str("call"), "tool_name" := Str("reader")]

  lemma ReaderRequestShape()
    ensures Method(ReaderRequest) == Str("call") && EffectiveToolName(ReaderRequest) == Str("reader")
    ensures IsJsonRpc(ReaderRequest) && RequestId(ReaderRequest) == Int(7)
  {
    assert ToolNameDirect(ReaderRequest) == Str("reader");
  }

  /** The counterexample: a tool that raises a decoding error under JSON-RPC. `execute`
      turns it into `{"error": "Error in tool reader: 'utf-8' codec can't decode ..."}`;
      the message contains "code", so the code as written puts the bare string in
      `error`, where JSON-RPC requires an object. */
  lemma CodecErrorPassesThroughBare()
    ensures WellFormed(NewRegistry([Reader]))
    ensures var run := (h: HandlerId, p: Value) => Raised(DecodeFailure);
      var text := Str(ToolErrorText(Reader, DecodeFailure));
      && ProcessRequestAsWritten(NewRegistry([Reader]), ReaderRequest, run)
           == Ok(map["jsonrpc" := Str("2.0"), "id" := Int(7), "error" := text])
      && ProcessRequest(NewRegistry([Reader]), ReaderRequest, run) == Ok(WrappedToolError(Int(7), text))
  {
    var run := (h: HandlerId, p: Value) => Raised(DecodeFailure);
    var text := ToolErrorText(Reader, DecodeFailure);
    ReaderRequestShape();
    SoleToolRuns(Reader, ReaderRequest, run);
    var result := Execute(Reader, ToolParams(ReaderRequest), run);
    assert result == Obj(map["error" := Str(text)]);
    CodecTextMentionsCode(Reader);
    assert ToolResponseAsWritten(ReaderRequest, result) == Ok(PassedToolError(Int(7), Str(text)));
  }

  /** The tool of the second counterexample and the request that calls it. */
  const Probe := Tool("probe", "returns no error text", 0, Null)
  const ProbeRequest: Request := map["jsonrpc" := Str("2.0"), "id" := Null, "tool_name" := Str("probe")]

  lemma ProbeRequestShape()
    ensures Method(ProbeRequest) == Null && EffectiveToolName(ProbeRequest) == Str("probe")
    ensures IsJsonRpc(ProbeRequest) && RequestId(ProbeRequest) == Null
  {
    assert ToolNameDirect(ProbeRequest) == Str("probe");
  }

  /** The second counterexample: a tool returning `{"error": None}` under JSON-RPC makes
      the code as written raise `TypeError` instead of answering. */
  lemma NullErrorRaises()
    ensures WellFormed(NewRegistry([Probe]))
    ensures var run := (h: HandlerId, p: Value) => Returned(Obj(map["error" := Null]));
      && ProcessRequestAsWritten(NewRegistry([Probe]), ProbeRequest, run).Err?
      && ProcessRequest(NewRegistry([Probe]), ProbeRequest, run) == Ok(WrappedToolError(Null, Null))
  {
    var run := (h: HandlerId, p: Value) => Returned(Obj(map["error" := Null]));
    ProbeRequestShape();
    SoleToolRuns(Probe, ProbeRequest, run);
    var result := Execute(Probe, ToolParams(ProbeRequest), run);
    assert result == Obj(map["error" := Null]);
    assert ToolResponseAsWritten(ProbeRequest, result).Err?;
  }
}

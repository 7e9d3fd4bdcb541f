/** `format_text` and the method dispatcher `handle`: one decoded message in,
    at most one response dict out, or the Python exception `handle` raises. */
module Dispatch {
  import opened Wrappers
  import opened Json
  import opened Environment
  import opened Text
  import opened Gateway

  /** The exceptions the model distinguishes. */
  datatype PyException =
    | AttributeError(typeName: string, attribute: string)  // calling a method the value's type lacks
    | DecodeError(message: string)                          // json.JSONDecodeError
    | UnboundLocal(name: string)                            // reading a local never assigned

  /** `str(e)`. */
  function Message(e: PyException): string
  {
    match e
    case AttributeError(t, a) => "'" + t + "' object has no attribute '" + a + "'"
    case DecodeError(m) => m
    case UnboundLocal(n) => "cannot access local variable '" + n + "' where it is not associated with a value"
  }

  const MethodNotFound: int := -32601

  /** The text of a content block: `{"type": "text", "text": t}` gives `t`. */
  function BlockText(block: Json): Option<string>
  {
    if block.JObj? && block.fields.Keys == {"type", "text"} && block.fields["type"] == JStr("text")
       && block.fields["text"].JStr?
    then Some(block.fields["text"].s)
    else None
  }

  /** `format_text(value)`: a text content block carrying `str(value)`; a
      string is carried unchanged. */
  function FormatText(value: Json, repr: Json -> string): (block: Json)
    ensures BlockText(block) == Some(PyStr(value, repr))
    ensures value.JStr? ==> BlockText(block) == Some(value.s)
  {
    JObj(map["type" := JStr("text"), "text" := JStr(PyStr(value, repr))])
  }

  // ---------------------------------------------------------------------
  // Fixed payloads

  const InitializeResult: Json := JObj(map[
    "protocolVersion" := JStr("2024-11-05"),
    "capabilities" := JObj(map["tools" := JObj(map[]), "resources" := JObj(map[]), "prompts" := JObj(map[])]),
    "serverInfo" := JObj(map["name" := JStr("postgres-mcp"), "version" := JStr("1.0.0")])])

  function StringProperty(): Json
  {
    JObj(map["type" := JStr("string")])
  }

  /** The three tool descriptors, in advertised order. */
  const Catalogue: seq<Json> := [
    JObj(map[
      "name" := JStr("query_database"),
      "description" := JStr("Execute SELECT query"),
      "inputSchema" := JObj(map[
        "type" := JStr("object"),
        "properties" := JObj(map["query" := StringProperty()]),
        "required" := JArr([JStr("query")])])]),
    JObj(map[
      "name" := JStr("list_tables"),
      "description" := JStr("List PostgreSQL tables"),
      "inputSchema" := JObj(map["type" := JStr("object")])]),
    JObj(map[
      "name" := JStr("describe_table"),
      "description" := JStr("Describe a table"),
      "inputSchema" := JObj(map[
        "type" := JStr("object"),
        "properties" := JObj(map["table_name" := StringProperty()]),
        "required" := JArr([JStr("table_name")])])])]

  const ToolsListResult: Json := JObj(map["tools" := JArr(Catalogue)])

  // ---------------------------------------------------------------------
  // Response shapes

  function Reply(id: Json, result: Json): map<string, Json>
  {
    map["id" := id, "result" := result]
  }

  function Fault(id: Json, code: int, message: string): map<string, Json>
  {
    map["id" := id, "error" := JObj(map["code" := JInt(code), "message" := JStr(message)])]
  }

  /** A response as `handle` builds it: the request's id and exactly one of
      `result` and `error`, an error carrying an integer code and a text. */
  predicate IsResponse(resp: map<string, Json>, id: Json)
  {
    && "id" in resp && resp["id"] == id
    && (resp.Keys == {"id", "result"} || (resp.Keys == {"id", "error"} && IsErrorObject(resp["error"])))
  }

  predicate IsErrorObject(e: Json)
  {
    e.JObj? && e.fields.Keys == {"code", "message"} && e.fields["code"].JInt? && e.fields["message"].JStr?
  }

  /** The error code of an error response. */
  function ErrorCode(resp: map<string, Json>): Option<int>
  {
    if "error" in resp && IsErrorObject(resp["error"]) then Some(resp["error"].fields["code"].i) else None
  }

  /** The text carried by a tool-call result: one content block, read back. */
  function ToolResultText(resp: map<string, Json>): Option<string>
  {
    if "result" in resp && resp["result"].JObj? && "content" in resp["result"].fields
       && resp["result"].fields["content"].JArr? && |resp["result"].fields["content"].items| == 1
    then BlockText(resp["result"].fields["content"].items[0])
    else None
  }

  // ---------------------------------------------------------------------
  // Dispatch

  /** `msg.get("id")` of a request (None for a notification). */
  function RequestId(msg: Json): Json
  {
    if msg.JObj? then Get(msg.fields, "id") else JNull
  }

  predicate IsNotification(msg: Json)
  {
    msg.JObj? && Get(msg.fields, "method") == JStr("notifications/initialized")
  }

  predicate IsKnownMethod(name: Json)
  {
    name in {JStr("initialize"), JStr("tools/list"), JStr("tools/call"), JStr("notifications/initialized")}
  }

  datatype Tool = QueryDatabase | ListTablesTool | DescribeTableTool

  /** The exact-name match that picks a tool for `tools/call`. */
  function ToolNamed(name: Json): Option<Tool>
  {
    if name == JStr("query_database") then Some(QueryDatabase)
    else if name == JStr("list_tables") then Some(ListTablesTool)
    else if name == JStr("describe_table") then Some(DescribeTableTool)
    else None
  }

  /** The `out` text of the `tools/call` branch, from its `params`. */
  function CallTool(params: Json, db: Database, host: Host): Result<string, PyException>
  {
    if !params.JObj? then Failure(AttributeError(TypeName(params), "get"))
    else
      var tool := Get(params.fields, "name");
      var args := GetOr(params.fields, "arguments", JObj(map[]));
      match ToolNamed(tool)
      case Some(QueryDatabase) =>
        if !args.JObj? then Failure(AttributeError(TypeName(args), "get"))
        else
          var query := GetOr(args.fields, "query", JStr(""));
          if !query.JStr? then Failure(AttributeError(TypeName(query), "strip"))
          else Success(QueryDb(query.s, db, host))
      case Some(ListTablesTool) =>
        Success(ListTables(db))
      case Some(DescribeTableTool) =>
        if !args.JObj? then Failure(AttributeError(TypeName(args), "get"))
        else Success(DescribeTable(GetOr(args.fields, "table_name", JStr("")), db, host))
      case None =>
        Success("Unknown tool: " + PyStr(tool, host.repr))
  }

  /** The messages `handle` accepts without raising: a dict whose `tools/call`
      parameters (if it is one) are a dict, with a dict of arguments for the
      two tools that read them, and a string query for `query_database`.
      Absent `params`, `arguments`, `query` and `table_name` are all fine. */
  predicate WellShaped(msg: Json)
  {
    && msg.JObj?
    && (Get(msg.fields, "method") == JStr("tools/call") ==> CallShaped(GetOr(msg.fields, "params", JObj(map[]))))
  }

  /** The `tools/call` parameters `call_tool` accepts without raising. */
  predicate CallShaped(params: Json)
  {
    && params.JObj?
    && var args := GetOr(params.fields, "arguments", JObj(map[]));
       match ToolNamed(Get(params.fields, "name"))
       case Some(QueryDatabase) => args.JObj? && GetOr(args.fields, "query", JStr("")).JStr?
       case Some(DescribeTableTool) => args.JObj?
       case _ => true
  }

  /** `handle(msg)`. `Success(None)` is the `None` returned for a notification;
      `Failure(e)` is an exception escaping from `handle`. */
  function Handle(msg: Json, db: Database, host: Host): Result<Option<map<string, Json>>, PyException>
  {
    if !msg.JObj? then Failure(AttributeError(TypeName(msg), "get"))
    else
      var name := Get(msg.fields, "method");
      var id := Get(msg.fields, "id");
      var params := GetOr(msg.fields, "params", JObj(map[]));
      if name == JStr("initialize") then
        Success(Some(Reply(id, InitializeResult)))
      else if name == JStr("tools/list") then
        Success(Some(Reply(id, ToolsListResult)))
      else if name == JStr("tools/call") then
        match CallTool(params, db, host)
        case Failure(e) => Failure(e)
        case Success(out) => Success(Some(Reply(id, JObj(map["content" := JArr([FormatText(JStr(out), host.repr)])]))))
      else if name == JStr("notifications/initialized") then
        Success(None)
      else
        Success(Some(Fault(id, MethodNotFound, "Unknown method: " + PyStr(name, host.repr))))
  }

  // ---------------------------------------------------------------------
  // Properties of the dispatcher

  /** What `handle` promises for every message: it raises exactly for a
      message that is not well shaped, and then an `AttributeError`; it
      returns `None` exactly for the notification; every response echoes
      the request id and is a result or an error object; and an error
      response is a method-not-found for a method outside the four. */
  lemma {:induction false} HandleSpec(msg: Json, db: Database, host: Host)
    ensures var r := Handle(msg, db, host);
      && (r.Failure? <==> !WellShaped(msg))
      && (r.Failure? ==> r.error.AttributeError?)
      && (r == Success(None) <==> IsNotification(msg))
      && (r.Success? && r.value.Some? ==> IsResponse(r.value.value, RequestId(msg)))
      && (r.Success? && r.value.Some? && "error" in r.value.value ==>
            ErrorCode(r.value.value) == Some(MethodNotFound) && !IsKnownMethod(Get(msg.fields, "method")))
  {
    if msg.JObj? {
      var name, id := Get(msg.fields, "method"), Get(msg.fields, "id");
      if name == JStr("initialize") {
        ReplyIsResponse(id, InitializeResult);
      } else if name == JStr("tools/list") {
        ReplyIsResponse(id, ToolsListResult);
      } else if name == JStr("tools/call") {
        var params := GetOr(msg.fields, "params", JObj(map[]));
        CallToolSpec(params, db, host);
        if CallTool(params, db, host).Success? {
          ReplyIsResponse(id, JObj(map["content" := JArr([FormatText(JStr(CallTool(params, db, host).value), host.repr)])]));
        }
      } else if name != JStr("notifications/initialized") {
        FaultIsResponse(id, MethodNotFound, "Unknown method: " + PyStr(name, host.repr));
      }
    }
  }

  lemma {:induction false} ReplyIsResponse(id: Json, result: Json)
    ensures IsResponse(Reply(id, result), id) && "error" !in Reply(id, result)
  {
  }

  lemma {:induction false} FaultIsResponse(id: Json, code: int, message: string)
    ensures IsResponse(Fault(id, code, message), id) && ErrorCode(Fault(id, code, message)) == Some(code)
  {
  }

  /** `call_tool` raises exactly for parameters it cannot read, and then an
      `AttributeError`. */
  lemma {:induction false} CallToolSpec(params: Json, db: Database, host: Host)
    ensures CallTool(params, db, host).Failure? <==> !CallShaped(params)
    ensures CallTool(params, db, host).Failure? ==> CallTool(params, db, host).error.AttributeError?
  {
  }

  /** The handshake is answered with the fixed server description, echoing
      the request id, whatever else the message holds. */
  lemma {:induction false} InitializeIsAnswered(msg: Json, db: Database, host: Host)
    requires msg.JObj? && Get(msg.fields, "method") == JStr("initialize")
    ensures Handle(msg, db, host) == Success(Some(Reply(RequestId(msg), InitializeResult)))
  {
  }

  /** `tools/list` is answered with the fixed catalogue, echoing the request id. */
  lemma {:induction false} ToolsListIsAnswered(msg: Json, db: Database, host: Host)
    requires msg.JObj? && Get(msg.fields, "method") == JStr("tools/list")
    ensures Handle(msg, db, host) == Success(Some(Reply(RequestId(msg), ToolsListResult)))
  {
  }

  /** Any method other than the four gets a method-not-found error naming it,
      echoing the request id. */
  lemma {:induction false} UnknownMethodIsMethodNotFound(msg: Json, db: Database, host: Host)
    requires msg.JObj? && !IsKnownMethod(Get(msg.fields, "method"))
    ensures var name := Get(msg.fields, "method");
      Handle(msg, db, host)
        == Success(Some(Fault(RequestId(msg), MethodNotFound, "Unknown method: " + PyStr(name, host.repr))))
  {
  }

  /** `tools/call` never answers with an error response: when `handle` does
      not raise, the response is a result carrying one text block, whose text
      is the tool's output. */
  lemma {:induction false} ToolCallIsSingleTextBlock(msg: Json, db: Database, host: Host)
    requires msg.JObj? && Get(msg.fields, "method") == JStr("tools/call")
    requires Handle(msg, db, host).Success?
    ensures var r := Handle(msg, db, host);
      && r.value.Some?
      && r.value.value.Keys == {"id", "result"}
      && CallTool(GetOr(msg.fields, "params", JObj(map[])), db, host).Success?
      && ToolResultText(r.value.value) == Some(CallTool(GetOr(msg.fields, "params", JObj(map[])), db, host).value)
  {
  }

  /** Each catalogue name is routed to its own database function: the query
      text goes to `query_db` as given, the table name to `describe_table`,
      and `list_tables` takes no argument. */
  lemma {:induction false} ToolCallRoutes(params: map<string, Json>, db: Database, host: Host)
    ensures var tool := Get(params, "name");
      var args := GetOr(params, "arguments", JObj(map[]));
      && (tool == JStr("query_database") && args.JObj? && GetOr(args.fields, "query", JStr("")).JStr? ==>
            CallTool(JObj(params), db, host) == Success(QueryDb(GetOr(args.fields, "query", JStr("")).s, db, host)))
      && (tool == JStr("describe_table") && args.JObj? ==>
            CallTool(JObj(params), db, host) == Success(DescribeTable(GetOr(args.fields, "table_name", JStr("")), db, host)))
      && (tool == JStr("list_tables") ==> CallTool(JObj(params), db, host) == Success(ListTables(db)))
  {
  }

  /** A tool name outside the catalogue, including a missing one, is answered
      with a result (not an error) reading `Unknown tool: <name>`. */
  lemma {:induction false} UnknownToolText(msg: Json, db: Database, host: Host)
    requires msg.JObj? && Get(msg.fields, "method") == JStr("tools/call")
    requires var params := GetOr(msg.fields, "params", JObj(map[]));
      params.JObj? && ToolNamed(Get(params.fields, "name")).None?
    ensures var r := Handle(msg, db, host);
      var name := Get(GetOr(msg.fields, "params", JObj(map[])).fields, "name");
      && r.Success? && r.value.Some? && "error" !in r.value.value
      && ToolResultText(r.value.value) == Some("Unknown tool: " + PyStr(name, host.repr))
      && (name == JNull ==> ToolResultText(r.value.value) == Some("Unknown tool: None"))
  {
    assert "Unknown tool: " + "None" == "Unknown tool: None";
  }

  /** The catalogue advertises exactly the tools the dispatcher recognises,
      in the order query_database, list_tables, describe_table. */
  lemma {:induction false} CatalogueMatchesDispatch(name: Json)
    ensures |Catalogue| == 3
    ensures forall k :: 0 <= k < |Catalogue| ==> Catalogue[k].JObj? && "name" in Catalogue[k].fields
    ensures ToolNamed(Catalogue[0].fields["name"]) == Some(QueryDatabase)
    ensures ToolNamed(Catalogue[1].fields["name"]) == Some(ListTablesTool)
    ensures ToolNamed(Catalogue[2].fields["name"]) == Some(DescribeTableTool)
    ensures ToolNamed(name).Some? <==> exists k :: 0 <= k < |Catalogue| && Catalogue[k].fields["name"] == name
  {
    if ToolNamed(name).Some? {
      var k := if name == JStr("query_database") then 0 else if name == JStr("list_tables") then 1 else 2;
      assert Catalogue[k].fields["name"] == name;
    }
  }

  /** Missing `params` is read as `{}`. */
  lemma {:induction false} MissingParamsIsEmpty(fields: map<string, Json>, db: Database, host: Host)
    requires "params" !in fields
    ensures Handle(JObj(fields), db, host) == Handle(JObj(fields["params" := JObj(map[])]), db, host)
  {
    var m := JObj(fields["params" := JObj(map[])]);
    assert Get(m.fields, "method") == Get(fields, "method");
    assert Get(m.fields, "id") == Get(fields, "id");
  }

  /** Missing `arguments` is read as `{}`. */
  lemma {:induction false} MissingArgumentsIsEmpty(params: map<string, Json>, db: Database, host: Host)
    requires "arguments" !in params
    ensures CallTool(JObj(params), db, host) == CallTool(JObj(params["arguments" := JObj(map[])]), db, host)
  {
    assert Get(params["arguments" := JObj(map[])], "name") == Get(params, "name");
  }

  /** A missing `query` is read as the empty string (which the SELECT guard
      then rejects). */
  lemma {:induction false} MissingQueryIsEmpty(params: map<string, Json>, args: map<string, Json>, db: Database, host: Host)
    requires Get(params, "name") == JStr("query_database") && "query" !in args
    ensures CallTool(JObj(params["arguments" := JObj(args)]), db, host)
         == CallTool(JObj(params["arguments" := JObj(args["query" := JStr("")])]), db, host)
         == Success(SelectOnly)
  {
    assert Get(params["arguments" := JObj(args)], "name") == JStr("query_database");
    assert Get(params["arguments" := JObj(args["query" := JStr("")])], "name") == JStr("query_database");
    assert Strip("") == "";
  }

  /** A missing `table_name` is read as the empty string. */
  lemma {:induction false} MissingTableNameIsEmpty(params: map<string, Json>, args: map<string, Json>, db: Database, host: Host)
    requires Get(params, "name") == JStr("describe_table") && "table_name" !in args
    ensures CallTool(JObj(params["arguments" := JObj(args)]), db, host)
         == CallTool(JObj(params["arguments" := JObj(args["table_name" := JStr("")])]), db, host)
         == Success(DescribeTable(JStr(""), db, host))
  {
    assert Get(params["arguments" := JObj(args)], "name") == JStr("describe_table");
    assert Get(params["arguments" := JObj(args["table_name" := JStr("")])], "name") == JStr("describe_table");
  }

  /** `list_tables` ignores its arguments, whatever they are. */
  lemma {:induction false} ListTablesIgnoresArguments(p1: map<string, Json>, p2: map<string, Json>, db: Database, host: Host)
    requires Get(p1, "name") == JStr("list_tables") && Get(p2, "name") == JStr("list_tables")
    ensures CallTool(JObj(p1), db, host) == CallTool(JObj(p2), db, host) == Success(ListTables(db))
  {
  }
}

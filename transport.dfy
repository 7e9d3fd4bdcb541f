/** `send` and `main`: the line loop that reads requests from standard input
    and writes one JSON object per response to standard output. */
module Transport {
  import opened Wrappers
  import opened Json
  import opened Text
  import opened Environment
  import opened Dispatch

  const ServerError: int := -32000

  /** `send(resp)`: the object written, after `resp.setdefault("jsonrpc", "2.0")`. */
  function Send(resp: map<string, Json>): (line: map<string, Json>)
    ensures line.Keys == resp.Keys + {"jsonrpc"}
    ensures forall k :: k in resp ==> line[k] == resp[k]
    ensures "jsonrpc" !in resp ==> line["jsonrpc"] == JStr("2.0")
  {
    if "jsonrpc" in resp then resp else resp["jsonrpc" := JStr("2.0")]
  }

  /** Stamping twice is stamping once: a `jsonrpc` already present is kept. */
  lemma {:induction false} SendIsIdempotent(resp: map<string, Json>)
    ensures Send(Send(resp)) == Send(resp)
  {
  }

  /** A line of output as the server writes it: version tag, id, and exactly
      one of `result` and `error`; an error carries one of the two codes. */
  predicate IsRpcLine(line: map<string, Json>)
  {
    && "jsonrpc" in line && line["jsonrpc"] == JStr("2.0")
    && (|| line.Keys == {"jsonrpc", "id", "result"}
        || (&& line.Keys == {"jsonrpc", "id", "error"}
            && IsErrorObject(line["error"])
            && (ErrorCode(line) == Some(MethodNotFound) || ErrorCode(line) == Some(ServerError))))
  }

  lemma {:induction false} FaultIsRpcLine(id: Json, text: string)
    ensures IsRpcLine(Send(Fault(id, ServerError, text)))
  {
    var f := Fault(id, ServerError, text);
    assert f.Keys == {"id", "error"};
    assert Send(f)["error"] == f["error"];
  }

  lemma {:induction false} ResponseIsRpcLine(resp: map<string, Json>, id: Json)
    requires IsResponse(resp, id)
    requires "error" in resp ==> ErrorCode(resp) == Some(MethodNotFound)
    ensures IsRpcLine(Send(resp))
  {
    if "error" in resp {
      assert Send(resp)["error"] == resp["error"];
    }
  }

  /** How the loop ended: the input closed, or an exception escaped `main`. */
  datatype Halt = EndOfStream | Crashed(cause: PyException)

  /** The outcome of a run: the objects written, in order, and how it ended. */
  datatype Run = Run(out: seq<map<string, Json>>, halt: Halt)

  function Prepend(out: seq<map<string, Json>>, run: Run): Run
  {
    Run(out + run.out, run.halt)
  }

  /** The outcome of one non-blank line: what it wrote and the new value of
      `msg`, or the exception that ends the loop. */
  datatype Step = Continue(out: seq<map<string, Json>>, msg: Option<Json>) | Die(cause: PyException)

  /** The `except` block of `main`. It reads `msg`: the value `json.loads`
      last returned, in this iteration or an earlier one, or nothing yet. */
  function Except(e: PyException, msg: Option<Json>): Step
  {
    match msg
    case None => Die(UnboundLocal("msg"))
    case Some(m) =>
      if m.JObj? then Continue([Send(Fault(Get(m.fields, "id"), ServerError, Message(e)))], msg)
      else Die(AttributeError(TypeName(m), "get"))
  }

  /** The `try` block of `main` for one stripped, non-blank line. */
  function Cycle(line: string, msg: Option<Json>, db: Database, host: Host): Step
  {
    match host.loads(line)
    case Failure(err) => Except(DecodeError(err), msg)
    case Success(m) =>
      match Handle(m, db, host)
      case Success(None) => Continue([], Some(m))
      case Success(Some(resp)) => Continue([Send(resp)], Some(m))
      case Failure(e) => Except(e, Some(m))
  }

  /** What `main` does with the lines left to read. `n` counts the non-blank
      lines handled so far and picks the database state; reading past the
      end of `lines`, or reading `""`, is end-of-stream. */
  function RunLines(lines: seq<string>, n: nat, msg: Option<Json>, host: Host): Run
    decreases |lines|
  {
    if lines == [] || lines[0] == "" then Run([], EndOfStream)
    else
      var line := Strip(lines[0]);
      if line == "" then RunLines(lines[1..], n, msg, host)
      else
        match Cycle(line, msg, host.db(n), host)
        case Die(e) => Run([], Crashed(e))
        case Continue(out, msg') => Prepend(out, RunLines(lines[1..], n + 1, msg', host))
  }

  lemma {:induction false} PrependTwice(a: seq<map<string, Json>>, b: seq<map<string, Json>>, run: Run)
    ensures Prepend(a, Prepend(b, run)) == Prepend(a + b, run)
  {
    assert a + (b + run.out) == (a + b) + run.out;
  }

  /** An empty read ends the run with nothing written. */
  lemma {:induction false} RunLinesEnd(lines: seq<string>, n: nat, msg: Option<Json>, host: Host)
    requires lines == [] || lines[0] == ""
    ensures RunLines(lines, n, msg, host) == Run([], EndOfStream)
  {
  }

  /** A blank line unfolds the run to the rest of the lines. */
  lemma {:induction false} RunLinesBlank(line: string, rest: seq<string>, n: nat, msg: Option<Json>, host: Host)
    requires line != "" && Strip(line) == ""
    ensures RunLines([line] + rest, n, msg, host) == RunLines(rest, n, msg, host)
  {
    assert ([line] + rest)[1..] == rest;
  }

  /** One non-blank line unfolds the run by one cycle. */
  lemma {:induction false} RunLinesStep(line: string, rest: seq<string>, n: nat, msg: Option<Json>, host: Host)
    requires Strip(line) != ""
    ensures RunLines([line] + rest, n, msg, host) ==
      match Cycle(Strip(line), msg, host.db(n), host)
      case Die(e) => Run([], Crashed(e))
      case Continue(out, msg') => Prepend(out, RunLines(rest, n + 1, msg', host))
  {
    assert ([line] + rest)[1..] == rest;
  }

  /** The `try`/`except` block of `main` for one stripped, non-blank line:
      what it writes, the new value of `msg`, and the exception that escapes
      the `except` block, if any. */
  method HandleLine(line: string, msg: Option<Json>, db: Database, host: Host)
    returns (written: seq<map<string, Json>>, current: Option<Json>, escaped: Option<PyException>)
    ensures Cycle(line, msg, db, host) == (if escaped.Some? then Die(escaped.value) else Continue(written, current))
  {
    written, current, escaped := [], msg, None;
    var raised: Option<PyException> := None;
    match host.loads(line) {
      case Failure(err) =>
        raised := Some(DecodeError(err));
      case Success(m) =>
        current := Some(m);
        match Handle(m, db, host) {
          case Success(response) =>
            if response.Some? {
              written := [Send(response.value)];
            }
          case Failure(e) =>
            raised := Some(e);
        }
    }
    if raised.Some? {
      match current {
        case None =>
          escaped := Some(UnboundLocal("msg"));
        case Some(m) =>
          if m.JObj? {
            written := [Send(Fault(Get(m.fields, "id"), ServerError, Message(raised.value)))];
          } else {
            escaped := Some(AttributeError(TypeName(m), "get"));
          }
      }
    }
  }

  /** `main()`: `input` holds the successive results of `sys.stdin.readline()`. */
  method Serve(input: seq<string>, host: Host) returns (output: seq<map<string, Json>>, halt: Halt)
    ensures Run(output, halt) == RunLines(input, 0, None, host)
  {
    output := [];
    var i, n := 0, 0;
    var msg: Option<Json> := None;
    assert input[i..] == input;
    assert [] + RunLines(input, 0, None, host).out == RunLines(input, 0, None, host).out;
    while true
      invariant i <= |input|
      invariant RunLines(input, 0, None, host) == Prepend(output, RunLines(input[i..], n, msg, host))
      decreases |input| - i
    {
      var line := if i < |input| then input[i] else "";
      if line == "" {
        RunLinesEnd(input[i..], n, msg, host);
        assert output + [] == output;
        break;
      }
      assert input[i..] == [line] + input[i + 1..];
      i := i + 1;
      ghost var read := line;
      line := Strip(line);
      if line == "" {
        RunLinesBlank(read, input[i..], n, msg, host);
        continue;
      }
      RunLinesStep(read, input[i..], n, msg, host);
      var written, current, escaped := HandleLine(line, msg, host.db(n), host);
      if escaped.Some? {
        halt := Crashed(escaped.value);
        assert output + [] == output;
        return;
      }
      PrependTwice(output, written, RunLines(input[i..], n + 1, current, host));
      output, msg, n := output + written, current, n + 1;
    }
    halt := EndOfStream;
  }

  // ---------------------------------------------------------------------
  // Properties of the loop

  /** Every object the loop writes is a well-formed JSON-RPC 2.0 response. */
  lemma {:induction false} RunWritesRpcLines(lines: seq<string>, n: nat, msg: Option<Json>, host: Host)
    ensures forall k :: 0 <= k < |RunLines(lines, n, msg, host).out| ==> IsRpcLine(RunLines(lines, n, msg, host).out[k])
    decreases |lines|
  {
    if lines == [] || lines[0] == "" {
    } else {
      var line := Strip(lines[0]);
      if line == "" {
        RunWritesRpcLines(lines[1..], n, msg, host);
      } else {
        match Cycle(line, msg, host.db(n), host)
        case Die(e) =>
        case Continue(out, msg') =>
          CycleWritesRpcLines(line, msg, host.db(n), host);
          RunWritesRpcLines(lines[1..], n + 1, msg', host);
      }
    }
  }

  lemma {:induction false} CycleWritesRpcLines(line: string, msg: Option<Json>, db: Database, host: Host)
    ensures Cycle(line, msg, db, host).Continue? ==>
      var out := Cycle(line, msg, db, host).out;
      |out| <= 1 && forall k :: 0 <= k < |out| ==> IsRpcLine(out[k])
  {
    match host.loads(line)
    case Failure(err) =>
      if msg.Some? && msg.value.JObj? { FaultIsRpcLine(Get(msg.value.fields, "id"), Message(DecodeError(err))); }
    case Success(m) =>
      HandleSpec(m, db, host);
      match Handle(m, db, host)
      case Success(None) =>
      case Success(Some(resp)) =>
        ResponseIsRpcLine(resp, RequestId(m));
      case Failure(e) =>
        if m.JObj? { FaultIsRpcLine(Get(m.fields, "id"), Message(e)); }
  }

  /** A blank (whitespace-only) line is skipped: the run is the same as if it
      were not there. */
  lemma {:induction false} BlankLineIsSkipped(pre: seq<string>, blank: string, post: seq<string>, n: nat, msg: Option<Json>, host: Host)
    requires blank != "" && AllSpace(blank)
    ensures RunLines(pre + [blank] + post, n, msg, host) == RunLines(pre + post, n, msg, host)
    decreases |pre|
  {
    var xs, ys := pre + [blank] + post, pre + post;
    if pre == [] {
      StripSpec(blank);
      assert xs[0] == blank && xs[1..] == post == ys;
    } else {
      assert xs[0] == ys[0] == pre[0];
      assert xs[1..] == pre[1..] + [blank] + post;
      assert ys[1..] == pre[1..] + post;
      if pre[0] != "" {
        var line := Strip(pre[0]);
        if line == "" {
          BlankLineIsSkipped(pre[1..], blank, post, n, msg, host);
        } else {
          match Cycle(line, msg, host.db(n), host)
          case Die(e) =>
          case Continue(out, msg') =>
            BlankLineIsSkipped(pre[1..], blank, post, n + 1, msg', host);
        }
      }
    }
  }

  /** Nothing after an empty read is ever looked at. */
  lemma {:induction false} EndOfStreamStops(pre: seq<string>, post: seq<string>, n: nat, msg: Option<Json>, host: Host)
    ensures RunLines(pre + [""] + post, n, msg, host) == RunLines(pre, n, msg, host)
    ensures RunLines(pre, n, msg, host).halt.EndOfStream? ==> RunLines(pre + [""] + post, n, msg, host).halt.EndOfStream?
    decreases |pre|
  {
    var xs := pre + [""] + post;
    if pre == [] {
      assert xs[0] == "";
    } else {
      assert xs[0] == pre[0];
      assert xs[1..] == pre[1..] + [""] + post;
      if pre[0] != "" {
        var line := Strip(pre[0]);
        if line == "" {
          EndOfStreamStops(pre[1..], post, n, msg, host);
        } else {
          match Cycle(line, msg, host.db(n), host)
          case Die(e) =>
          case Continue(out, msg') =>
            EndOfStreamStops(pre[1..], post, n + 1, msg', host);
        }
      }
    }
  }

  /** A line carrying the `notifications/initialized` notification writes
      nothing, and the loop goes on. */
  lemma {:induction false} NotificationIsSilent(line: string, rest: seq<string>, n: nat, msg: Option<Json>, host: Host)
    requires Strip(line) != ""
    requires host.loads(Strip(line)).Success? && IsNotification(host.loads(Strip(line)).value)
    ensures RunLines([line] + rest, n, msg, host) == RunLines(rest, n + 1, Some(host.loads(Strip(line)).value), host)
  {
    RunLinesStep(line, rest, n, msg, host);
    assert [] + RunLines(rest, n + 1, Some(host.loads(Strip(line)).value), host).out
        == RunLines(rest, n + 1, Some(host.loads(Strip(line)).value), host).out;
  }

  /** A line that `handle` answers writes exactly that answer, stamped, and
      the loop goes on with `msg` set to the decoded line. */
  lemma {:induction false} AnsweredLineWritesOne(line: string, rest: seq<string>, n: nat, msg: Option<Json>, host: Host)
    requires Strip(line) != "" && host.loads(Strip(line)).Success?
    requires Handle(host.loads(Strip(line)).value, host.db(n), host).Success?
    requires Handle(host.loads(Strip(line)).value, host.db(n), host).value.Some?
    ensures var m := host.loads(Strip(line)).value;
      var resp := Handle(m, host.db(n), host).value.value;
      && RunLines([line] + rest, n, msg, host) == Prepend([Send(resp)], RunLines(rest, n + 1, Some(m), host))
      && Send(resp)["id"] == RequestId(m)
  {
    HandleSpec(host.loads(Strip(line)).value, host.db(n), host);
    RunLinesStep(line, rest, n, msg, host);
  }

  /** An exception raised by `handle` for a dict message is reported with
      code -32000 and that message's id ("method not found" is -32601). */
  lemma {:induction false} HandlerExceptionIsReported(line: string, rest: seq<string>, n: nat, msg: Option<Json>, host: Host)
    requires Strip(line) != "" && host.loads(Strip(line)).Success? && host.loads(Strip(line)).value.JObj?
    requires Handle(host.loads(Strip(line)).value, host.db(n), host).Failure?
    ensures var m := host.loads(Strip(line)).value;
      var e := Handle(m, host.db(n), host).error;
      && RunLines([line] + rest, n, msg, host)
           == Prepend([Send(Fault(RequestId(m), ServerError, Message(e)))], RunLines(rest, n + 1, Some(m), host))
      && ServerError != MethodNotFound
  {
    RunLinesStep(line, rest, n, msg, host);
  }

  // ---------------------------------------------------------------------
  // Behaviour of the `except` block as written

  /** A malformed line read before any line decoded makes the `except` block
      itself fail on the unbound `msg`: the loop dies without writing. */
  lemma {:induction false} MalformedFirstLineCrashes(line: string, rest: seq<string>, n: nat, host: Host)
    requires Strip(line) != "" && host.loads(Strip(line)).Failure?
    ensures RunLines([line] + rest, n, None, host) == Run([], Crashed(UnboundLocal("msg")))
  {
  }

  /** A malformed line read after a dict message has decoded is reported with
      that earlier message's id. */
  lemma {:induction false} MalformedLineGetsStaleId(line: string, rest: seq<string>, n: nat, previous: map<string, Json>, host: Host)
    requires Strip(line) != "" && host.loads(Strip(line)).Failure?
    ensures var err := host.loads(Strip(line)).error;
      RunLines([line] + rest, n, Some(JObj(previous)), host)
        == Prepend([Send(Fault(Get(previous, "id"), ServerError, err))], RunLines(rest, n + 1, Some(JObj(previous)), host))
  {
    RunLinesStep(line, rest, n, Some(JObj(previous)), host);
  }

  /** A line decoding to something other than a dict (a list, a number, ...)
      makes `handle` raise, and the `except` block raise again on
      `msg.get`: the loop dies. */
  lemma {:induction false} NonObjectMessageCrashes(line: string, rest: seq<string>, n: nat, msg: Option<Json>, host: Host)
    requires Strip(line) != "" && host.loads(Strip(line)).Success? && !host.loads(Strip(line)).value.JObj?
    ensures var m := host.loads(Strip(line)).value;
      RunLines([line] + rest, n, msg, host) == Run([], Crashed(AttributeError(TypeName(m), "get")))
  {
  }

  lemma {:induction false} StripOfLine(s: string)
    requires s != [] && !IsSpace(s[0]) && !IsSpace(s[|s| - 1])
    ensures Strip(s + "\n") == s
  {
    StripIgnoresRight(s, "\n");
    StripUnique(s, 0, |s|);
  }

  const ListRequest: string := "{\"id\": 1, \"method\": \"tools/list\"}"
  const ListRequestDecoded: map<string, Json> := map["id" := JInt(1), "method" := JStr("tools/list")]
  const NotJson: string := "oops"

  /** The two lines of the example, as read with their line feeds, strip to
      the texts above. */
  lemma {:induction false} ExampleLinesStrip()
    ensures Strip(ListRequest + "\n") == ListRequest
    ensures Strip(NotJson + "\n") == NotJson
  {
    StripOfLine(ListRequest);
    StripOfLine(NotJson);
  }

  /** Two lines that exhibit the stale id: a `tools/list` request with id 1,
      then a line that is not JSON. The second line is answered with id 1. */
  lemma {:induction false} StaleIdExample(first: string, second: string, host: Host)
    requires Strip(first) == ListRequest && Strip(second) == NotJson
    requires host.loads(ListRequest) == Success(JObj(ListRequestDecoded))
    requires host.loads(NotJson).Failure?
    ensures RunLines([first, second], 0, None, host)
         == Run([Send(Reply(JInt(1), ToolsListResult)), Send(Fault(JInt(1), ServerError, host.loads(NotJson).error))],
                EndOfStream)
  {
    StaleIdFirstLine(first, second, host);
    StaleIdSecondLine(second, host);
  }

  lemma {:induction false} StaleIdFirstLine(first: string, second: string, host: Host)
    requires Strip(first) == ListRequest
    requires host.loads(ListRequest) == Success(JObj(ListRequestDecoded))
    ensures RunLines([first, second], 0, None, host)
         == Prepend([Send(Reply(JInt(1), ToolsListResult))], RunLines([second], 1, Some(JObj(ListRequestDecoded)), host))
  {
    ToolsListIsAnswered(JObj(ListRequestDecoded), host.db(0), host);
    AnsweredLineWritesOne(first, [second], 0, None, host);
    assert [first] + [second] == [first, second];
  }

  lemma {:induction false} StaleIdSecondLine(second: string, host: Host)
    requires Strip(second) == NotJson
    requires host.loads(NotJson).Failure?
    ensures RunLines([second], 1, Some(JObj(ListRequestDecoded)), host)
         == Run([Send(Fault(JInt(1), ServerError, host.loads(NotJson).error))], EndOfStream)
  {
    MalformedLineGetsStaleId(second, [], 1, ListRequestDecoded, host);
    assert [second] + [] == [second];
  }

  // ---------------------------------------------------------------------
  // The loop with the `except` block as evidently intended

  /** The intended handling of one non-blank line: a malformed line is
      reported with a null id, a failing message with its own id, and the
      loop never dies. */
  function CycleFixed(line: string, db: Database, host: Host): seq<map<string, Json>>
  {
    match host.loads(line)
    case Failure(err) => [Send(Fault(JNull, ServerError, err))]
    case Success(m) =>
      match Handle(m, db, host)
      case Success(None) => []
      case Success(Some(resp)) => [Send(resp)]
      case Failure(e) => [Send(Fault(RequestId(m), ServerError, Message(e)))]
  }

  function RunFixed(lines: seq<string>, n: nat, host: Host): seq<map<string, Json>>
    decreases |lines|
  {
    if lines == [] || lines[0] == "" then []
    else
      var line := Strip(lines[0]);
      if line == "" then RunFixed(lines[1..], n, host)
      else CycleFixed(line, host.db(n), host) + RunFixed(lines[1..], n + 1, host)
  }

  /** Corrected: a malformed line is answered with a null id, whatever came
      before it, and the loop goes on. */
  lemma {:induction false} FixedMalformedLineGetsNullId(line: string, rest: seq<string>, n: nat, host: Host)
    requires Strip(line) != "" && host.loads(Strip(line)).Failure?
    ensures RunFixed([line] + rest, n, host)
         == [Send(Fault(JNull, ServerError, host.loads(Strip(line)).error))] + RunFixed(rest, n + 1, host)
  {
    assert ([line] + rest)[1..] == rest;
  }

  /** Corrected: when `handle` raises, the reply carries the message's own
      id, or null when the message is not a dict, and the loop goes on. */
  lemma {:induction false} FixedFailureGetsOwnId(line: string, rest: seq<string>, n: nat, host: Host)
    requires Strip(line) != "" && host.loads(Strip(line)).Success?
    requires Handle(host.loads(Strip(line)).value, host.db(n), host).Failure?
    ensures var m := host.loads(Strip(line)).value;
      var e := Handle(m, host.db(n), host).error;
      && RunFixed([line] + rest, n, host) == [Send(Fault(RequestId(m), ServerError, Message(e)))] + RunFixed(rest, n + 1, host)
      && (!m.JObj? ==> RequestId(m) == JNull)
  {
    assert ([line] + rest)[1..] == rest;
  }

  /** The number of lines before end-of-stream that are owed a reply: every
      non-blank line except a well-formed notification. */
  function Owed(lines: seq<string>, host: Host): nat
    decreases |lines|
  {
    if lines == [] || lines[0] == "" then 0
    else
      var line := Strip(lines[0]);
      if line == "" then Owed(lines[1..], host)
      else
        var owed := if host.loads(line).Success? && IsNotification(host.loads(line).value) then 0 else 1;
        owed + Owed(lines[1..], host)
  }

  /** Corrected: exactly one well-formed reply per line owed one, whatever
      the lines hold; nothing ever ends the loop but end-of-stream. */
  lemma {:induction false} RunFixedRepliesOnce(lines: seq<string>, n: nat, host: Host)
    ensures |RunFixed(lines, n, host)| == Owed(lines, host)
    ensures forall k :: 0 <= k < |RunFixed(lines, n, host)| ==> IsRpcLine(RunFixed(lines, n, host)[k])
    decreases |lines|
  {
    if lines == [] || lines[0] == "" {
    } else {
      var line := Strip(lines[0]);
      if line == "" {
        RunFixedRepliesOnce(lines[1..], n, host);
      } else {
        RunFixedRepliesOnce(lines[1..], n + 1, host);
        CycleFixedRepliesOnce(line, host.db(n), host);
        AllRpcLinesConcat(CycleFixed(line, host.db(n), host), RunFixed(lines[1..], n + 1, host));
      }
    }
  }

  lemma {:induction false} AllRpcLinesConcat(a: seq<map<string, Json>>, b: seq<map<string, Json>>)
    requires forall k :: 0 <= k < |a| ==> IsRpcLine(a[k])
    requires forall k :: 0 <= k < |b| ==> IsRpcLine(b[k])
    ensures forall k :: 0 <= k < |a + b| ==> IsRpcLine((a + b)[k])
  {
    forall k | 0 <= k < |a + b| ensures IsRpcLine((a + b)[k]) {
      if k < |a| { assert (a + b)[k] == a[k]; } else { assert (a + b)[k] == b[k - |a|]; }
    }
  }

  lemma {:induction false} CycleFixedRepliesOnce(line: string, db: Database, host: Host)
    ensures var out := CycleFixed(line, db, host);
      && |out| == (if host.loads(line).Success? && IsNotification(host.loads(line).value) then 0 else 1)
      && forall k :: 0 <= k < |out| ==> IsRpcLine(out[k])
  {
    match host.loads(line)
    case Failure(err) =>
      FaultIsRpcLine(JNull, err);
    case Success(m) =>
      HandleSpec(m, db, host);
      match Handle(m, db, host)
      case Success(None) =>
      case Success(Some(resp)) =>
        ResponseIsRpcLine(resp, RequestId(m));
      case Failure(e) =>
        FaultIsRpcLine(RequestId(m), Message(e));
  }

  /** Every non-blank line before end-of-stream decodes to a dict. */
  predicate DecodesToDicts(lines: seq<string>, host: Host)
    decreases |lines|
  {
    || lines == [] || lines[0] == ""
    || (&& (Strip(lines[0]) == "" || (host.loads(Strip(lines[0])).Success? && host.loads(Strip(lines[0])).value.JObj?))
        && DecodesToDicts(lines[1..], host))
  }

  /** The correction changes nothing on input whose lines all decode to
      dicts: there the program as written never dies and writes what the
      corrected loop writes. */
  lemma {:induction false} FixAgreesOnDicts(lines: seq<string>, n: nat, msg: Option<Json>, host: Host)
    requires DecodesToDicts(lines, host)
    ensures RunLines(lines, n, msg, host) == Run(RunFixed(lines, n, host), EndOfStream)
    decreases |lines|
  {
    if lines == [] || lines[0] == "" {
    } else {
      var line := Strip(lines[0]);
      if line == "" {
        FixAgreesOnDicts(lines[1..], n, msg, host);
      } else {
        var m := host.loads(line).value;
        FixAgreesOnDicts(lines[1..], n + 1, Some(m), host);
      }
    }
  }
}

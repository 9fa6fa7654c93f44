/** The JSON-RPC loop: an object that reads lines, asks clusters and writes responses. */
module McpServer {
  import opened Prelude
  import opened JsonArray
  import opened McpFrames
  import opened McpTools
  import opened McpProtocol
  import ToolRequests

  class Server {
    const setup: Setup
    const tools: seq<Tool>
    var out: seq<Response>
    var calls: seq<Call>

    constructor (setup: Setup)
      ensures this.setup == setup && tools == BuildTools(setup.write) && out == [] && calls == []
    {
      this.setup := setup;
      tools := BuildTools(setup.write);
      out, calls := [], [];
    }

    method FindTool(name: string) returns (t: Option<Tool>)
      ensures t == Find(tools, name)
    {
      for i := 0 to |tools|
        invariant Find(tools, name) == Find(tools[i..], name)
      {
        assert tools[i..][0] == tools[i] && tools[i..][1..] == tools[i + 1..];
        if tools[i].name == name {
          return Some(tools[i]);
        }
      }
      return None;
    }

    /** One tool handler: at most one request, which is logged. */
    method RunTool(plan: Plan) returns (result: Result)
      modifies this`calls
      ensures result == setup.ResultOf(plan, |old(calls)|)
      ensures calls == old(calls) + (if plan.Request? then [plan.call] else [])
    {
      match plan
      case Refuse(why) => return ToolError(why);
      case Names => return Text(setup.codec.names(setup.env.clusters));
      case Request(call) =>
        var n := |calls|;
        calls := calls + [call];
        if call.op.FansOut() {
          match setup.world.fanOut(n, call)
          case Err(e) => return ToolFailed(e);
          case Ok(items) =>
            var text := RawArray(items);
            return Text(text);
        } else {
          match setup.world.single(n, call)
          case Err(e) => return ToolFailed(e);
          case Ok(text) => return Text(text);
        }
    }

    method HandleToolCall(id: string, params: string) returns (resp: Option<Response>)
      requires tools == BuildTools(setup.write)
      modifies this`calls
      ensures var f := Frame(VERSION, id, "tools/call", params);
        && resp == (if setup.Answered(f) then Some(setup.Answer(f, |old(calls)|)) else None)
        && calls == old(calls) + (if setup.CallOf(f).Some? then [setup.CallOf(f).value] else [])
    {
      hide Env.PlanOf, Setup.ResultOf, Find, BuildTools;
      match setup.codec.params(params)
      case None => resp := ErrResponse(id, INVALID_PARAMS);
      case Some(p) =>
        var t := FindTool(p.name);
        if t == None {
          return ErrResponse(id, METHOD_NOT_FOUND);
        }
        var args := if p.arguments == "" then "{}" else p.arguments;
        var result := RunTool(setup.env.PlanOf(t.value.handler, args));
        return OkResponse(id, result);
    }

    method Dispatch(frame: string) returns (resp: Option<Response>)
      requires tools == BuildTools(setup.write)
      modifies this`calls
      ensures var f := Unmarshal(setup.codec.doc(frame));
        && resp == (if setup.Answered(f) then Some(setup.Answer(f, |old(calls)|)) else None)
        && calls == old(calls) + (if setup.CallOf(f).Some? then [setup.CallOf(f).value] else [])
    {
      match Unmarshal(setup.codec.doc(frame))
      case Unread => return Some(Response(VERSION, "null", None, Some(PARSE_ERROR)));
      case Frame(jsonrpc, id, verb, params) =>
        if jsonrpc != VERSION {
          return ErrResponse(id, INVALID_REQUEST);
        }
        var isNotification := id == "";
        if verb == "initialize" {
          return OkResponse(id, Initialized(setup.write));
        } else if verb == "notifications/initialized" || verb == "initialized" {
          return None;
        } else if verb == "ping" {
          return OkResponse(id, Empty);
        } else if verb == "tools/list" {
          return OkResponse(id, ToolList(tools));
        } else if verb == "tools/call" {
          resp := HandleToolCall(id, params);
        } else if isNotification {
          return None;
        } else {
          return ErrResponse(id, METHOD_NOT_FOUND);
        }
    }

    method HandleLine(line: string)
      requires tools == BuildTools(setup.write)
      modifies this
      ensures var f := Unmarshal(setup.codec.doc(line));
        && out == old(out) + (if setup.Answered(f) then [setup.Answer(f, |old(calls)|)] else [])
        && calls == old(calls) + (if setup.CallOf(f).Some? then [setup.CallOf(f).value] else [])
    {
      var resp := Dispatch(line);
      if resp.Some? {
        out := out + [resp.value];
      }
    }

    /** `Serve` over the lines of an input that ends normally. */
    method Serve(lines: seq<string>)
      requires tools == BuildTools(setup.write)
      modifies this
      ensures out == old(out) + setup.Answers(setup.Frames(lines), |old(calls)|)
      ensures calls == old(calls) + setup.Calls(setup.Frames(lines))
      ensures ToolRequests.AllSent(calls) ==
        ToolRequests.AllSent(old(calls)) + ToolRequests.Wires(setup, setup.Frames(lines))
    {
      hide *;
      ghost var out0, calls0 := out, calls;
      setup.NothingServed(lines, out0, calls0);
      for i := 0 to |lines|
        invariant out == out0 + setup.Answers(setup.Frames(lines[..i]), |calls0|)
        invariant calls == calls0 + setup.Calls(setup.Frames(lines[..i]))
      {
        setup.LineServed(lines, i, out0, calls0);
        if lines[i] == "" {
          continue;
        }
        HandleLine(lines[i]);
      }
      assert lines[..|lines|] == lines;
      ToolRequests.TranscriptWires(setup, setup.Frames(lines));
      ToolRequests.SentConcat(calls0, setup.Calls(setup.Frames(lines)));
    }
  }

  /** Whatever the clusters answer, two servers set up alike make the same requests over the same input. */
  method ServeBoth(a: Server, b: Server, lines: seq<string>)
    requires a != b && a.tools == BuildTools(a.setup.write) && b.tools == BuildTools(b.setup.write)
    requires a.calls == b.calls
    requires b.setup == a.setup.(world := b.setup.world)
    modifies a, b
    ensures a.calls == b.calls
  {
    a.Serve(lines);
    b.Serve(lines);
    SameFrames(a.setup, b.setup, lines);
    SameCalls(a.setup, b.setup, a.setup.Frames(lines));
  }

  lemma {:induction false} SameFrames(s: Setup, t: Setup, lines: seq<string>)
    requires t == s.(world := t.world)
    ensures s.Frames(lines) == t.Frames(lines)
  {
    if lines != [] {
      SameFrames(s, t, lines[..|lines| - 1]);
    }
  }

  lemma {:induction false} SameCalls(s: Setup, t: Setup, fs: seq<Frame>)
    requires t == s.(world := t.world)
    ensures s.Calls(fs) == t.Calls(fs)
  {
    if fs != [] {
      SameCalls(s, t, fs[..|fs| - 1]);
    }
  }
}

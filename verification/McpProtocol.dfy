/**
 * What one JSON-RPC frame asks of the server: the answer it is owed and the cluster request it causes.
 * Cutting a line into JSON members, decoding parameters and the replies of the clusters are parameters.
 */
module McpProtocol {
  import opened Prelude
  import opened JsonArray
  import opened McpFrames
  import opened McpTools

  datatype CallParams = CallParams(name: string, arguments: string)

  datatype Outcome<T> = Ok(value: T) | Err(error: string)

  datatype Codec = Codec(
    doc: string -> Doc,
    params: string -> Option<CallParams>,
    names: seq<string> -> string)

  /** The clusters' replies, by how many requests were made before. */
  datatype World = World(
    fanOut: (nat, Call) -> Outcome<seq<string>>,
    single: (nat, Call) -> Outcome<string>)

  datatype Result =
    | Initialized(write: bool)
    | Empty
    | ToolList(tools: seq<Tool>)
    | Text(text: string)
    | ToolError(why: Refusal)
    | ToolFailed(error: string)

  datatype Response = Response(jsonrpc: string, id: string, result: Option<Result>, error: Option<int>)

  const PARSE_ERROR: int := -32700
  const INVALID_REQUEST: int := -32600
  const METHOD_NOT_FOUND: int := -32601
  const INVALID_PARAMS: int := -32602

  const VERSION := "2.0"

  /** Notifications of the protocol's handshake: never answered, not even with an id. */
  predicate Handshake(verb: string) {
    verb == "notifications/initialized" || verb == "initialized"
  }

  function OkResponse(id: string, result: Result): Option<Response> {
    if id == "" then None else Some(Response(VERSION, id, Some(result), None))
  }

  function ErrResponse(id: string, code: int): Option<Response> {
    if id == "" then None else Some(Response(VERSION, id, None, Some(code)))
  }

  datatype Setup = Setup(write: bool, env: Env, codec: Codec, world: World) {

    // ------------------------------------------- what a frame is owed

    /** The tool a frame calls, and the arguments it passes. */
    function ToolCall(f: Frame): Option<(Tool, string)> {
      if f.Unread? || f.jsonrpc != VERSION || f.verb != "tools/call" then None
      else
        match codec.params(f.params)
        case None => None
        case Some(p) =>
          match Find(BuildTools(write), p.name)
          case None => None
          case Some(t) => Some((t, if p.arguments == "" then "{}" else p.arguments))
    }

    function PlanFor(f: Frame): Option<Plan> {
      match ToolCall(f)
      case None => None
      case Some((t, args)) => Some(env.PlanOf(t.handler, args))
    }

    /** The one request to a cluster a frame can cause. */
    function CallOf(f: Frame): Option<Call> {
      match PlanFor(f)
      case Some(Request(call)) => Some(call)
      case _ => None
    }

    function ResultOf(plan: Plan, n: nat): Result {
      match plan
      case Refuse(why) => ToolError(why)
      case Names => Text(codec.names(env.clusters))
      case Request(call) =>
        if call.op.FansOut() then
          match world.fanOut(n, call) {
            case Err(e) => ToolFailed(e)
            case Ok(items) => Text(ArrayText(items))
          }
        else
          match world.single(n, call) {
            case Err(e) => ToolFailed(e)
            case Ok(text) => Text(text)
          }
    }

    /** The error a frame earns before any tool runs. */
    function ErrorOf(f: Frame): Option<int> {
      if f.Unread? then Some(PARSE_ERROR)
      else if f.jsonrpc != VERSION then Some(INVALID_REQUEST)
      else if f.verb in ["initialize", "ping", "tools/list"] then None
      else if f.verb == "tools/call" then
        match codec.params(f.params) {
          case None => Some(INVALID_PARAMS)
          case Some(p) => if Find(BuildTools(write), p.name) == None then Some(METHOD_NOT_FOUND) else None
        }
      else Some(METHOD_NOT_FOUND)
    }

    predicate Answered(f: Frame) {
      f.Unread? || (f.id != "" && (f.jsonrpc != VERSION || !Handshake(f.verb)))
    }

    function IdOf(f: Frame): string {
      if f.Unread? then "null" else f.id
    }

    function ValueOf(f: Frame, n: nat): Result {
      if f.Unread? || f.verb == "ping" then Empty
      else if f.verb == "initialize" then Initialized(write)
      else if f.verb == "tools/list" then ToolList(BuildTools(write))
      else
        match PlanFor(f)
        case None => Empty
        case Some(plan) => ResultOf(plan, n)
    }

    function Answer(f: Frame, n: nat): Response {
      if ErrorOf(f).Some? then Response(VERSION, IdOf(f), None, ErrorOf(f))
      else Response(VERSION, IdOf(f), Some(ValueOf(f, n)), None)
    }

    // ------------------------------------------------ whole transcripts

    /** The frames of a transcript: the scanner's lines without the empty ones. */
    function Frames(lines: seq<string>): seq<Frame> {
      if lines == [] then []
      else
        var last := lines[|lines| - 1];
        Frames(lines[..|lines| - 1]) + (if last == "" then [] else [Unmarshal(codec.doc(last))])
    }

    /** The requests a transcript causes, in order. */
    function Calls(fs: seq<Frame>): seq<Call> {
      if fs == [] then []
      else
        var call := CallOf(fs[|fs| - 1]);
        Calls(fs[..|fs| - 1]) + (if call.Some? then [call.value] else [])
    }

    /** The responses owed to a transcript when `n` requests were made before it. */
    function Answers(fs: seq<Frame>, n: nat): seq<Response> {
      if fs == [] then []
      else
        var last := fs[|fs| - 1];
        Answers(fs[..|fs| - 1], n) +
        (if Answered(last) then [Answer(last, n + |Calls(fs[..|fs| - 1])|)] else [])
    }

    function AnsweredOnly(fs: seq<Frame>): seq<Frame> {
      if fs == [] then []
      else
        var last := fs[|fs| - 1];
        AnsweredOnly(fs[..|fs| - 1]) + (if Answered(last) then [last] else [])
    }

    lemma FramesSnoc(lines: seq<string>, line: string)
      ensures Frames(lines + [line]) == Frames(lines) + (if line == "" then [] else [Unmarshal(codec.doc(line))])
    {
      assert (lines + [line])[..|lines|] == lines;
    }

    lemma AnswersSnoc(fs: seq<Frame>, f: Frame, n: nat)
      ensures Calls(fs + [f]) == Calls(fs) + (if CallOf(f).Some? then [CallOf(f).value] else [])
      ensures Answers(fs + [f], n) ==
        Answers(fs, n) + (if Answered(f) then [Answer(f, n + |Calls(fs)|)] else [])
      ensures AnsweredOnly(fs + [f]) == AnsweredOnly(fs) + (if Answered(f) then [f] else [])
    {
      hide CallOf, Answered, Answer;
      assert (fs + [f])[..|fs|] == fs;
    }

    lemma NothingServed(lines: seq<string>, out: seq<Response>, calls: seq<Call>)
      ensures Calls(Frames(lines[..0])) == [] && Answers(Frames(lines[..0]), |calls|) == []
      ensures out + [] == out && calls + [] == calls
    {
    }

    /** One more line of a transcript, after `out` and `calls` from before it. */
    lemma LineServed(lines: seq<string>, i: nat, out: seq<Response>, calls: seq<Call>)
      requires i < |lines|
      ensures var fs, f, n := Frames(lines[..i]), Unmarshal(codec.doc(lines[i])), |calls|;
        if lines[i] == "" then Frames(lines[..i + 1]) == fs
        else
          && out + Answers(Frames(lines[..i + 1]), n) ==
             out + Answers(fs, n) + (if Answered(f) then [Answer(f, |calls + Calls(fs)|)] else [])
          && calls + Calls(Frames(lines[..i + 1])) ==
             calls + Calls(fs) + (if CallOf(f).Some? then [CallOf(f).value] else [])
    {
      hide Frames, Calls, Answers, CallOf, Answered, Answer;
      assert lines[..i + 1] == lines[..i] + [lines[i]];
      FramesSnoc(lines[..i], lines[i]);
      AnswersSnoc(Frames(lines[..i]), Unmarshal(codec.doc(lines[i])), |calls|);
    }
  }
}

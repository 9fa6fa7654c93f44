/** What holds of every transcript the server can be given. */
module McpTheorems {
  import opened Prelude
  import opened McpFrames
  import opened JsonArray
  import opened McpTools
  import opened McpProtocol

  ghost predicate WellFormed(s: Setup, f: Frame, r: Response) {
    && r.jsonrpc == VERSION
    && r.id == s.IdOf(f)
    && r.error == s.ErrorOf(f)
    && (r.result.Some? <==> r.error.None?)
  }

  /** One response per frame that is owed one, in order, each with the frame's id and a result or an error. */
  lemma {:induction false} OneResponseEach(s: Setup, fs: seq<Frame>, n: nat)
    ensures |s.Answers(fs, n)| == |s.AnsweredOnly(fs)|
    ensures forall k :: 0 <= k < |s.Answers(fs, n)| ==> WellFormed(s, s.AnsweredOnly(fs)[k], s.Answers(fs, n)[k])
    decreases |fs|
  {
    hide s.Answered, s.CallOf, s.ValueOf, s.ErrorOf, s.IdOf;
    if fs != [] {
      OneResponseEach(s, fs[..|fs| - 1], n);
    }
  }

  /** A parse error with a null id is what every unparsable frame gets, and nothing else does. */
  lemma {:induction false} ParseErrorsExact(s: Setup, fs: seq<Frame>, n: nat, k: nat)
    requires k < |s.Answers(fs, n)|
    ensures k < |s.AnsweredOnly(fs)|
    ensures s.AnsweredOnly(fs)[k].Unread? <==> s.Answers(fs, n)[k].error == Some(PARSE_ERROR)
    ensures s.AnsweredOnly(fs)[k].Unread? ==> s.Answers(fs, n)[k].id == "null"
  {
    hide Setup.Answers, Setup.AnsweredOnly;
    OneResponseEach(s, fs, n);
    assert WellFormed(s, s.AnsweredOnly(fs)[k], s.Answers(fs, n)[k]);
  }

  // ------------------------------------------------------- what is answered

  lemma Alone(s: Setup, f: Frame, n: nat)
    ensures s.Answers([f], n) == if s.Answered(f) then [s.Answer(f, n)] else []
  {
    assert [f][..0] == [];
  }

  function Names(tools: seq<Tool>): seq<string> {
    seq(|tools|, i requires 0 <= i < |tools| => tools[i].name)
  }

  /** The requests that are not tool calls: `initialize` tells the mode, `ping` gets an empty object, and the tools
      listed are the ten that read and, in write mode, the ten that write. */
  lemma PlainAnswers(s: Setup, id: string, params: string, n: nat)
    requires id != ""
    ensures s.Answers([Frame("2.0", id, "initialize", params)], n) ==
      [Response("2.0", id, Some(Initialized(s.write)), None)]
    ensures s.Answers([Frame("2.0", id, "ping", params)], n) == [Response("2.0", id, Some(Empty), None)]
    ensures exists tools ::
      && s.Answers([Frame("2.0", id, "tools/list", params)], n) == [Response("2.0", id, Some(ToolList(tools)), None)]
      && Names(tools) == ToolNames(s.write)
  {
    hide ToolNames, BuildTools;
    Alone(s, Frame("2.0", id, "initialize", params), n);
    Alone(s, Frame("2.0", id, "ping", params), n);
    Alone(s, Frame("2.0", id, "tools/list", params), n);
    ListedNames(s.write);
    assert s.Answers([Frame("2.0", id, "tools/list", params)], n) ==
      [Response("2.0", id, Some(ToolList(BuildTools(s.write))), None)];
  }

  function ToolNames(write: bool): seq<string> {
    ["cluster_list", "server_ping", "server_ping_endpoint", "server_endpoint", "account_endpoint",
     "jsm_overview", "stream_list", "stream_info", "consumer_list", "consumer_info"] +
    if !write then []
    else ["server_reload", "server_lame_duck", "server_kick", "stream_update", "stream_purge", "stream_delete",
          "consumer_delete", "meta_stepdown", "stream_stepdown", "consumer_stepdown"]
  }

  lemma ListedNames(write: bool)
    ensures Names(BuildTools(write)) == ToolNames(write)
  {
  }

  /** Everything else that carries an id and the version: an unknown method, unreadable parameters and an unknown
      tool are errors; a tool that refuses or fails answers with a result. */
  lemma CallAnswers(s: Setup, f: Frame, n: nat)
    requires f.Frame? && f.jsonrpc == "2.0" && f.id != ""
    requires f.verb !in ["initialize", "ping", "tools/list", "initialized", "notifications/initialized"]
    ensures s.Answers([f], n) == [s.Answer(f, n)] && s.Answer(f, n).jsonrpc == "2.0" && s.Answer(f, n).id == f.id
    ensures s.Answer(f, n).error ==
      if f.verb != "tools/call" then Some(-32601)
      else if s.codec.params(f.params).None? then Some(-32602)
      else if Find(BuildTools(s.write), s.codec.params(f.params).value.name).None? then Some(-32601)
      else None
    ensures s.CallOf(f).Some? ==>
      var call := s.CallOf(f).value;
      s.Answer(f, n).result == Some(
        if call.op.FansOut() then
          (match s.world.fanOut(n, call) case Ok(items) => Text(ArrayText(items)) case Err(e) => ToolFailed(e))
        else (match s.world.single(n, call) case Ok(text) => Text(text) case Err(e) => ToolFailed(e)))
  {
    hide Env.PlanOf, Find, BuildTools;
    Alone(s, f, n);
  }

  /** Where a logged request came from. */
  lemma {:induction false} CallHasFrame(s: Setup, fs: seq<Frame>, call: Call)
    requires call in s.Calls(fs)
    ensures exists f :: f in fs && s.CallOf(f) == Some(call)
    decreases |fs|
  {
    hide s.CallOf;
    var init, last := fs[..|fs| - 1], fs[|fs| - 1];
    assert last in fs;
    if s.CallOf(last) != Some(call) {
      CallHasFrame(s, init, call);
      var f :| f in init && s.CallOf(f) == Some(call);
      assert f in fs;
    }
  }

  lemma CallHasTool(s: Setup, f: Frame, call: Call)
    requires s.CallOf(f) == Some(call)
    ensures s.ToolCall(f).Some?
    ensures Listed(s.write, s.ToolCall(f).value.0)
    ensures s.env.PlanOf(s.ToolCall(f).value.0.handler, s.ToolCall(f).value.1) == Request(call)
  {
    hide Find, BuildTools;
    var (t, args) := s.ToolCall(f).value;
    FindExact(s.write, t.name, t);
    var p := s.codec.params(f.params).value;
    FindExact(s.write, p.name, t);
  }

  /** A read-only server makes no change to any cluster, over any transcript and any replies. */
  lemma ReadOnlyNeverMutates(s: Setup, fs: seq<Frame>)
    requires !s.write
    ensures forall call :: call in s.Calls(fs) ==> !call.op.Mutates()
  {
    hide *;
    forall call | call in s.Calls(fs) ensures !call.op.Mutates() {
      CallHasFrame(s, fs, call);
      var f :| f in fs && s.CallOf(f) == Some(call);
      CallHasTool(s, f, call);
      ReadToolsNeverMutate(s.env, s.ToolCall(f).value.0, s.ToolCall(f).value.1);
    }
  }

  /** A frame that calls a destructive tool with `confirm` set. */
  ghost predicate Confirmed(s: Setup, f: Frame) {
    s.ToolCall(f).Some? &&
    var (t, args) := s.ToolCall(f).value;
    t.handler.Destructive() && s.env.decode(t.handler, args).Some? && s.env.decode(t.handler, args).value.confirm
  }

  /** Nothing is drained, kicked, purged, deleted or stepped down without write mode and a confirming frame. */
  lemma DestroysOnlyConfirmed(s: Setup, fs: seq<Frame>, call: Call)
    requires call in s.Calls(fs) && call.op.Destroys()
    ensures s.write
    ensures exists f :: f in fs && s.CallOf(f) == Some(call) && Confirmed(s, f)
  {
    hide s.Calls, s.CallOf, s.ToolCall, s.env.PlanOf;
    if !s.write {
      ReadOnlyNeverMutates(s, fs);
    }
    CallHasFrame(s, fs, call);
    var f :| f in fs && s.CallOf(f) == Some(call);
    CallHasTool(s, f, call);
    DestroysNeedsConfirm(s.env, s.ToolCall(f).value.0.handler, s.ToolCall(f).value.1);
    assert Confirmed(s, f);
  }

  /** Serving a transcript in two sittings is serving it in one. */
  lemma {:induction false} TwoSittings(s: Setup, a: seq<Frame>, b: seq<Frame>, n: nat)
    ensures s.Calls(a + b) == s.Calls(a) + s.Calls(b)
    ensures s.Answers(a + b, n) == s.Answers(a, n) + s.Answers(b, n + |s.Calls(a)|)
    decreases |b|
  {
    hide s.Calls, s.Answers, s.CallOf, s.Answered, s.Answer;
    if b == [] {
      assert a + b == a;
      NoFrames(s, n + |s.Calls(a)|);
    } else {
      var init, last := b[..|b| - 1], b[|b| - 1];
      assert b == init + [last] && a + b == (a + init) + [last];
      TwoSittings(s, a, init, n);
      s.AnswersSnoc(a + init, last, n);
      s.AnswersSnoc(init, last, n + |s.Calls(a)|);
    }
  }

  lemma NoFrames(s: Setup, n: nat)
    ensures s.Calls([]) == [] && s.Answers([], n) == []
  {
  }
}

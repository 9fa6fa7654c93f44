/** Which tool sends what to a cluster, tool by tool and name by name. */
module ToolRequests {
  import opened Prelude
  import opened McpFrames
  import opened McpTools
  import opened McpProtocol
  import opened NatsSubjects
  import EnvText
  import GoQuote

  /** A request as it leaves: to which cluster, on which subject, with what, and whether every server answers. */
  datatype Sent = Sent(cluster: string, subject: string, body: Body, fansOut: bool)

  /** The tools by name, the second ten in write mode only. */
  function HandlerFor(write: bool, name: string): Option<Handler> {
    match name
    case "cluster_list" => Some(ClusterList)
    case "server_ping" => Some(ServerPing)
    case "server_ping_endpoint" => Some(ServerPingEndpoint)
    case "server_endpoint" => Some(ServerEndpoint)
    case "account_endpoint" => Some(AccountEndpoint)
    case "jsm_overview" => Some(JsmOverview)
    case "stream_list" => Some(StreamList)
    case "stream_info" => Some(StreamInfo)
    case "consumer_list" => Some(ConsumerList)
    case "consumer_info" => Some(ConsumerInfo)
    case _ => if write then WriteHandlerFor(name) else None
  }

  function WriteHandlerFor(name: string): Option<Handler> {
    match name
    case "server_reload" => Some(ServerReload)
    case "server_lame_duck" => Some(ServerLameDuck)
    case "server_kick" => Some(ServerKick)
    case "stream_update" => Some(StreamUpdate)
    case "stream_purge" => Some(StreamPurge)
    case "stream_delete" => Some(StreamDelete)
    case "consumer_delete" => Some(ConsumerDelete)
    case "meta_stepdown" => Some(MetaStepdown)
    case "stream_stepdown" => Some(StreamStepdown)
    case "consumer_stepdown" => Some(ConsumerStepdown)
    case _ => None
  }

  predicate ServerEndpointName(ep: string) {
    || ep == "VARZ" || ep == "CONNZ" || ep == "ROUTEZ" || ep == "GATEWAYZ" || ep == "LEAFZ" || ep == "SUBSZ"
    || ep == "JSZ" || ep == "ACCOUNTZ" || ep == "HEALTHZ" || ep == "STATSZ"
  }

  predicate AccountEndpointName(ep: string) {
    ep == "CONNZ" || ep == "LEAFZ" || ep == "SUBSZ" || ep == "JSZ" || ep == "INFO"
  }

  /** The request of a tool whose arguments are in order; `ep` is the endpoint in upper case. */
  function WireOf(h: Handler, env: Env, a: Args): Option<Sent> {
    var c, ep := a.cluster, env.upper(a.endpoint);
    match h
    case ClusterList => None
    case ServerPing => Some(Sent(c, "$SYS.REQ.SERVER.PING", Nothing, true))
    case ServerPingEndpoint =>
      if ServerEndpointName(ep) then Some(Sent(c, "$SYS.REQ.SERVER.PING." + ep, Nothing, true)) else None
    case ServerEndpoint =>
      if a.serverId != "" && ServerEndpointName(ep)
      then Some(Sent(c, "$SYS.REQ.SERVER." + a.serverId + "." + ep, Nothing, false)) else None
    case AccountEndpoint =>
      if a.account != "" && AccountEndpointName(ep)
      then Some(Sent(c, "$SYS.REQ.ACCOUNT." + a.account + "." + ep, Nothing, true)) else None
    case JsmOverview =>
      Some(Sent(c, "$SYS.REQ.SERVER.PING.JSZ",
                Json("{\"accounts\":true,\"config\":true,\"consumer\":true,\"raft\":true,\"streams\":true}"), true))
    case StreamList => Some(Sent(c, "$JS.API.STREAM.LIST", Json("{\"offset\":" + Digits(a.offset) + "}"), false))
    case StreamInfo => if a.stream != "" then Some(Sent(c, "$JS.API.STREAM.INFO." + a.stream, Nothing, false)) else None
    case ConsumerList =>
      if a.stream != ""
      then Some(Sent(c, "$JS.API.CONSUMER.LIST." + a.stream, Json("{\"offset\":" + Digits(a.offset) + "}"), false)) else None
    case ConsumerInfo =>
      if a.stream != "" && a.consumer != ""
      then Some(Sent(c, "$JS.API.CONSUMER.INFO." + a.stream + "." + a.consumer, Nothing, false)) else None
    case _ => WriteWireOf(h, env, a)
  }

  function WriteWireOf(h: Handler, env: Env, a: Args): Option<Sent> {
    var c := a.cluster;
    match h
    case ServerReload =>
      if a.serverId != "" then Some(Sent(c, "$SYS.REQ.SERVER." + a.serverId + ".RELOAD", Nothing, false)) else None
    case ServerLameDuck =>
      if a.confirm && a.serverId != "" then Some(Sent(c, "$SYS.REQ.SERVER." + a.serverId + ".LDM", Nothing, false)) else None
    case ServerKick =>
      if a.confirm && a.serverId != "" && a.cid != 0
      then Some(Sent(c, "$SYS.REQ.SERVER." + a.serverId + ".KICK", Json("{\"cid\":" + Digits(a.cid) + "}"), false)) else None
    case StreamUpdate =>
      if a.stream != "" && a.config.Some? &&
         (a.config.value.name == Named(a.stream) ||
          (a.config.value.name == Unnamed && GoQuote.AllEncodable(a.stream, env.printable)))
      then Some(Sent(c, "$JS.API.STREAM.UPDATE." + a.stream, Configuration(StreamConfig(Named(a.stream), a.config.value.rest)), false))
      else None
    case StreamPurge =>
      if a.confirm && a.stream != "" then Some(Sent(c, "$JS.API.STREAM.PURGE." + a.stream, Nothing, false)) else None
    case StreamDelete =>
      if a.confirm && a.stream != "" then Some(Sent(c, "$JS.API.STREAM.DELETE." + a.stream, Nothing, false)) else None
    case ConsumerDelete =>
      if a.confirm && a.stream != "" && a.consumer != ""
      then Some(Sent(c, "$JS.API.CONSUMER.DELETE." + a.stream + "." + a.consumer, Nothing, false)) else None
    case MetaStepdown => if a.confirm then Some(Sent(c, "$JS.API.META.LEADER.STEPDOWN", Nothing, false)) else None
    case StreamStepdown =>
      if a.confirm && a.stream != "" then Some(Sent(c, "$JS.API.STREAM.LEADER.STEPDOWN." + a.stream, Nothing, false)) else None
    case ConsumerStepdown =>
      if a.confirm && a.stream != "" && a.consumer != ""
      then Some(Sent(c, "$JS.API.CONSUMER.LEADER.STEPDOWN." + a.stream + "." + a.consumer, Nothing, false)) else None
    case _ => None
  }

  function Digits(n: nat): string {
    if n < 10 then ["0123456789"[n]] else Digits(n / 10) + ["0123456789"[n % 10]]
  }

  // --------------------------------------------------- handlers and requests

  function SentBy(call: Call): Sent {
    Sent(call.cluster, Subject(call.op), BodyOf(call.op), call.op.FansOut())
  }

  lemma {:induction false} DigitsAreDecimal(n: nat)
    ensures Digits(n) == EnvText.Decimal(n)
  {
    if n >= 10 {
      DigitsAreDecimal(n / 10);
    }
  }

  lemma NumberBodies(n: nat)
    ensures OneNumber("offset", n) == "{\"offset\":" + Digits(n) + "}"
    ensures OneNumber("cid", n) == "{\"cid\":" + Digits(n) + "}"
  {
    DigitsAreDecimal(n);
    assert "{\"" + "offset" + "\":" == "{\"offset\":";
    assert "{\"" + "cid" + "\":" == "{\"cid\":";
  }

  lemma Endpoints(ep: string)
    ensures ep in SERVER_ENDPOINTS <==> ServerEndpointName(ep)
    ensures ep in ACCOUNT_ENDPOINTS <==> AccountEndpointName(ep)
  {
  }

  ghost predicate PlansWire(env: Env, h: Handler, text: string, a: Args) {
    var plan, wire := env.PlanOf(h, text), WireOf(h, env, a);
    && (plan.Request? <==> a.cluster != "" && a.cluster in env.clusters && wire.Some?)
    && (plan.Request? ==> SentBy(plan.call) == wire.value)
  }

  lemma ReadWire(env: Env, h: Handler, text: string, a: Args)
    requires env.decode(h, text) == Some(a)
    requires h.ServerPing? || h.JsmOverview? || h.StreamInfo? || h.ConsumerInfo?
    ensures PlansWire(env, h, text, a)
  {
    hide SERVER_ENDPOINTS, ACCOUNT_ENDPOINTS, ServerEndpointName, AccountEndpointName, Env.PlanUpdate, WriteWireOf;
  }

  lemma EndpointWire(env: Env, h: Handler, text: string, a: Args)
    requires env.decode(h, text) == Some(a) && h.OnEndpoint()
    ensures PlansWire(env, h, text, a)
  {
    hide WriteWireOf, SERVER_ENDPOINTS, ACCOUNT_ENDPOINTS, ServerEndpointName, AccountEndpointName, Env.PlanUpdate;
    Endpoints(env.upper(a.endpoint));
  }

  lemma ListWire(env: Env, h: Handler, text: string, a: Args)
    requires env.decode(h, text) == Some(a) && (h.StreamList? || h.ConsumerList?)
    ensures PlansWire(env, h, text, a)
  {
    hide OneNumber, Digits, Env.PlanUpdate;
    NumberBodies(a.offset);
  }

  lemma ServerWire(env: Env, h: Handler, text: string, a: Args)
    requires env.decode(h, text) == Some(a) && (h.ServerReload? || h.ServerLameDuck? || h.ServerKick?)
    ensures PlansWire(env, h, text, a)
  {
    hide OneNumber, Digits, Env.PlanUpdate;
    NumberBodies(a.cid);
  }

  lemma StreamWire(env: Env, h: Handler, text: string, a: Args)
    requires env.decode(h, text) == Some(a) && (h.StreamPurge? || h.StreamDelete? || h.StreamStepdown? || h.MetaStepdown?)
    ensures PlansWire(env, h, text, a)
  {
    hide Env.PlanUpdate;
  }

  lemma ConsumerWire(env: Env, h: Handler, text: string, a: Args)
    requires env.decode(h, text) == Some(a) && (h.ConsumerDelete? || h.ConsumerStepdown?)
    ensures PlansWire(env, h, text, a)
  {
    hide Env.PlanUpdate;
  }

  lemma UpdateWire(env: Env, h: Handler, text: string, a: Args)
    requires env.decode(h, text) == Some(a) && h.StreamUpdate?
    ensures PlansWire(env, h, text, a)
  {
    hide GoQuote.ParseString, GoQuote.Quote, GoQuote.Meaning, GoQuote.AllEncodable;
    GoQuote.QuoteExact(a.stream, env.printable);
  }

  lemma PlanWire(env: Env, h: Handler, text: string, a: Args)
    requires env.decode(h, text) == Some(a) && !h.ClusterList?
    ensures PlansWire(env, h, text, a)
  {
    hide PlansWire;
    if h.StreamUpdate? {
      UpdateWire(env, h, text, a);
    } else if h.StreamList? || h.ConsumerList? {
      ListWire(env, h, text, a);
    } else if h.ServerReload? || h.ServerLameDuck? || h.ServerKick? {
      ServerWire(env, h, text, a);
    } else if h.ConsumerDelete? || h.ConsumerStepdown? {
      ConsumerWire(env, h, text, a);
    } else if h.Destructive() {
      StreamWire(env, h, text, a);
    } else if h.OnEndpoint() {
      EndpointWire(env, h, text, a);
    } else {
      ReadWire(env, h, text, a);
    }
  }

  // ------------------------------------------------------- names and handlers

  lemma ReadNamed(t: Tool)
    requires t in ReadTools()
    ensures HandlerFor(false, t.name) == Some(t.handler) && HandlerFor(true, t.name) == Some(t.handler)
  {
    var i :| 0 <= i < |ReadTools()| && ReadTools()[i] == t;
  }

  lemma WriteNamed(t: Tool)
    requires t in WriteTools()
    ensures HandlerFor(true, t.name) == Some(t.handler)
  {
    var i :| 0 <= i < |WriteTools()| && WriteTools()[i] == t;
  }

  lemma ReadListed(name: string)
    requires HandlerFor(false, name).Some?
    ensures exists t :: t in ReadTools() && t.name == name
  {
    var tools := ReadTools();
    var i := ReadPosition(name);
    ReadNames10();
    hide ReadTools;
    assert tools[i] in tools && tools[i].name == name;
  }

  function ReadPosition(name: string): (i: nat)
    ensures i < 10
  {
    match name
    case "server_ping" => 1
    case "server_ping_endpoint" => 2
    case "server_endpoint" => 3
    case "account_endpoint" => 4
    case "jsm_overview" => 5
    case "stream_list" => 6
    case "stream_info" => 7
    case "consumer_list" => 8
    case "consumer_info" => 9
    case _ => 0
  }

  lemma ReadNames10()
    ensures var tools := ReadTools();
      && |tools| == 10
      && tools[0].name == "cluster_list" && tools[1].name == "server_ping" && tools[2].name == "server_ping_endpoint"
      && tools[3].name == "server_endpoint" && tools[4].name == "account_endpoint" && tools[5].name == "jsm_overview"
      && tools[6].name == "stream_list" && tools[7].name == "stream_info" && tools[8].name == "consumer_list"
      && tools[9].name == "consumer_info"
  {
  }

  lemma WriteListed(name: string)
    requires WriteHandlerFor(name).Some?
    ensures exists t :: t in WriteTools() && t.name == name
  {
    var tools := WriteTools();
    var i := WritePosition(name);
    WriteNames10();
    hide WriteTools;
    assert tools[i] in tools && tools[i].name == name;
  }

  function WritePosition(name: string): (i: nat)
    ensures i < 10
  {
    match name
    case "server_lame_duck" => 1
    case "server_kick" => 2
    case "stream_update" => 3
    case "stream_purge" => 4
    case "stream_delete" => 5
    case "consumer_delete" => 6
    case "meta_stepdown" => 7
    case "stream_stepdown" => 8
    case "consumer_stepdown" => 9
    case _ => 0
  }

  lemma WriteNames10()
    ensures var tools := WriteTools();
      && |tools| == 10
      && tools[0].name == "server_reload" && tools[1].name == "server_lame_duck" && tools[2].name == "server_kick"
      && tools[3].name == "stream_update" && tools[4].name == "stream_purge" && tools[5].name == "stream_delete"
      && tools[6].name == "consumer_delete" && tools[7].name == "meta_stepdown" && tools[8].name == "stream_stepdown"
      && tools[9].name == "consumer_stepdown"
  {
  }

  /** The registry gives each name its handler, and knows no other names. */
  lemma FindNamed(write: bool, name: string)
    ensures match Find(BuildTools(write), name)
      case None => HandlerFor(write, name) == None
      case Some(t) => HandlerFor(write, name) == Some(t.handler)
  {
    hide ReadTools, WriteTools, Find, WriteHandlerFor;
    match Find(BuildTools(write), name)
    case Some(t) =>
      FindExact(write, name, t);
      if t in ReadTools() {
        ReadNamed(t);
      } else {
        WriteNamed(t);
      }
    case None =>
      if HandlerFor(write, name).Some? {
        NameListed(write, name);
        var t :| Listed(write, t) && t.name == name;
        FindExact(write, name, t);
      }
  }

  lemma NameListed(write: bool, name: string)
    requires HandlerFor(write, name).Some?
    ensures exists t :: Listed(write, t) && t.name == name
  {
    hide ReadTools, WriteTools, WriteHandlerFor;
    if HandlerFor(false, name).Some? {
      ReadListed(name);
      var t :| t in ReadTools() && t.name == name;
      assert Listed(write, t);
    } else {
      WriteListed(name);
      var t :| t in WriteTools() && t.name == name;
      assert Listed(write, t);
    }
  }

  // ------------------------------------------------------------ transcripts

  /** The request a frame makes, if it is a call of a known tool with arguments in order on a configured cluster. */
  function WireOfFrame(s: Setup, f: Frame): Option<Sent> {
    if f.Unread? || f.jsonrpc != "2.0" || f.verb != "tools/call" then None
    else
      match s.codec.params(f.params)
      case None => None
      case Some(p) =>
        match HandlerFor(s.write, p.name)
        case None => None
        case Some(h) =>
          if h.ClusterList? then None
          else
            match s.env.decode(h, if p.arguments == "" then "{}" else p.arguments)
            case None => None
            case Some(a) => if a.cluster != "" && a.cluster in s.env.clusters then WireOf(h, s.env, a) else None
  }

  function Wires(s: Setup, fs: seq<Frame>): seq<Sent> {
    if fs == [] then []
    else
      var w := WireOfFrame(s, fs[|fs| - 1]);
      Wires(s, fs[..|fs| - 1]) + if w.Some? then [w.value] else []
  }

  function AllSent(calls: seq<Call>): seq<Sent> {
    seq(|calls|, i requires 0 <= i < |calls| => SentBy(calls[i]))
  }

  lemma SentConcat(a: seq<Call>, b: seq<Call>)
    ensures AllSent(a + b) == AllSent(a) + AllSent(b)
  {
  }

  lemma FrameWire(s: Setup, f: Frame)
    ensures WireOfFrame(s, f) == match s.CallOf(f) case None => None case Some(call) => Some(SentBy(call))
  {
    hide HandlerFor, WireOf, Find, BuildTools, SentBy, Env.PlanOf;
    if f.Frame? && f.jsonrpc == "2.0" && f.verb == "tools/call" && s.codec.params(f.params).Some? {
      var p := s.codec.params(f.params).value;
      FindNamed(s.write, p.name);
      match Find(BuildTools(s.write), p.name)
      case None =>
      case Some(t) => ToolWire(s, f, t, if p.arguments == "" then "{}" else p.arguments);
    }
  }

  lemma ToolWire(s: Setup, f: Frame, t: Tool, text: string)
    requires s.ToolCall(f) == Some((t, text))
    ensures match s.CallOf(f)
      case None =>
        t.handler.ClusterList? || s.env.decode(t.handler, text).None? ||
        var a := s.env.decode(t.handler, text).value;
        a.cluster == "" || a.cluster !in s.env.clusters || WireOf(t.handler, s.env, a).None?
      case Some(call) =>
        && !t.handler.ClusterList? && s.env.decode(t.handler, text).Some?
        && var a := s.env.decode(t.handler, text).value;
           a.cluster != "" && a.cluster in s.env.clusters && WireOf(t.handler, s.env, a) == Some(SentBy(call))
  {
    hide WireOf, SentBy;
    if !t.handler.ClusterList? && s.env.decode(t.handler, text).Some? {
      hide Env.PlanOf;
      PlanWire(s.env, t.handler, text, s.env.decode(t.handler, text).value);
    } else {
      NoRequest(s.env, t.handler, text);
    }
  }

  lemma NoRequest(env: Env, h: Handler, text: string)
    requires h.ClusterList? || env.decode(h, text).None?
    ensures !env.PlanOf(h, text).Request?
  {
  }

  /** Over any transcript, what the server sends to the clusters is what its frames ask for, one by one. */
  lemma {:induction false} TranscriptWires(s: Setup, fs: seq<Frame>)
    ensures AllSent(s.Calls(fs)) == Wires(s, fs)
  {
    hide SentBy, WireOfFrame;
    if fs != [] {
      hide s.CallOf;
      TranscriptWires(s, fs[..|fs| - 1]);
      FrameWire(s, fs[|fs| - 1]);
    }
  }
}

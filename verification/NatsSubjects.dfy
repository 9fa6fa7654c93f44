/** The NATS request each cluster operation makes, and which subjects can change something. */
module NatsSubjects {
  import opened Prelude
  import opened EnvText
  import opened McpTools
  import opened McpFrames
  import opened McpProtocol
  import McpTheorems

  const SERVER := "$SYS.REQ.SERVER."
  const ACCOUNT := "$SYS.REQ.ACCOUNT."

  /** The wrappers of a cluster connection. */
  function Subject(op: Op): string {
    match op
    case Ping => "$SYS.REQ.SERVER.PING"
    case PingEndpoint(ep) => "$SYS.REQ.SERVER.PING." + ep
    case Endpoint(id, ep) => SERVER + id + "." + ep
    case Account(account, ep) => ACCOUNT + account + "." + ep
    case Overview => "$SYS.REQ.SERVER.PING.JSZ"
    case ListStreams(_) => "$JS.API.STREAM.LIST"
    case InfoStream(s) => "$JS.API.STREAM.INFO." + s
    case ListConsumers(s, _) => "$JS.API.CONSUMER.LIST." + s
    case InfoConsumer(s, c) => "$JS.API.CONSUMER.INFO." + s + "." + c
    case Reload(id) => SERVER + id + ".RELOAD"
    case LameDuck(id) => SERVER + id + ".LDM"
    case Kick(id, _) => SERVER + id + ".KICK"
    case UpdateStream(s, _) => "$JS.API.STREAM.UPDATE." + s
    case PurgeStream(s) => "$JS.API.STREAM.PURGE." + s
    case DeleteStream(s) => "$JS.API.STREAM.DELETE." + s
    case DeleteConsumer(s, c) => "$JS.API.CONSUMER.DELETE." + s + "." + c
    case MetaLeaderStepdown => "$JS.API.META.LEADER.STEPDOWN"
    case StreamLeaderStepdown(s) => "$JS.API.STREAM.LEADER.STEPDOWN." + s
    case ConsumerLeaderStepdown(s, c) => "$JS.API.CONSUMER.LEADER.STEPDOWN." + s + "." + c
  }

  /** What is sent along: nothing, a JSON text, or a stream configuration. */
  datatype Body = Nothing | Json(text: string) | Configuration(config: StreamConfig)

  /** A JSON object of one number. */
  function OneNumber(name: string, n: nat): string {
    "{\"" + name + "\":" + Decimal(n) + "}"
  }

  function BodyOf(op: Op): Body {
    match op
    case Overview => Json("{\"accounts\":true,\"config\":true,\"consumer\":true,\"raft\":true,\"streams\":true}")
    case ListStreams(offset) => Json(OneNumber("offset", offset))
    case ListConsumers(_, offset) => Json(OneNumber("offset", offset))
    case Kick(_, cid) => Json(OneNumber("cid", cid))
    case UpdateStream(_, config) => Configuration(config)
    case _ => Nothing
  }

  // ------------------------------------------------- subjects that change

  predicate Ends(s: string, suffix: string) {
    |suffix| <= |s| && s[|s| - |suffix|..] == suffix
  }

  /** Reload, lame-duck and kick requests to a server. */
  predicate ControlVerb(subject: string) {
    SERVER <= subject && (Ends(subject, ".RELOAD") || Ends(subject, ".LDM") || Ends(subject, ".KICK"))
  }

  /** Changes to streams and consumers, and step-downs. */
  predicate JetStreamChange(subject: string) {
    || "$JS.API.STREAM.UPDATE." <= subject
    || "$JS.API.STREAM.PURGE." <= subject
    || "$JS.API.STREAM.DELETE." <= subject
    || "$JS.API.CONSUMER.DELETE." <= subject
    || "$JS.API.META.LEADER.STEPDOWN" == subject
    || "$JS.API.STREAM.LEADER.STEPDOWN." <= subject
    || "$JS.API.CONSUMER.LEADER.STEPDOWN." <= subject
  }

  /** The subjects on which a NATS server changes something, as a reader of the wire would list them. */
  predicate Mutating(subject: string) {
    ControlVerb(subject) || JetStreamChange(subject)
  }

  predicate EndpointsListed(op: Op) {
    && (op.PingEndpoint? || op.Endpoint? ==> op.endpoint in SERVER_ENDPOINTS)
    && (op.Account? ==> op.endpoint in ACCOUNT_ENDPOINTS)
  }

  /** The text says how it starts and how it ends. */
  lemma Affixes(p: string, x: string, q: string)
    ensures p <= p + x + q && Ends(p + x + q, q)
    ensures q != "" ==> (p + x + q)[|p + x + q| - 1] == q[|q| - 1]
    ensures forall i :: 0 <= i < |p| ==> (p + x + q)[i] == p[i]
  {
  }

  lemma EndpointLetters(ep: string)
    requires ep in SERVER_ENDPOINTS
    ensures ep != "" && ep[|ep| - 1] == 'Z'
  {
    var i :| 0 <= i < |SERVER_ENDPOINTS| && SERVER_ENDPOINTS[i] == ep;
  }

  lemma Differs(p: string, s: string, i: nat)
    requires i < |p| && (i < |s| ==> p[i] != s[i])
    ensures !(p <= s)
  {
  }

  lemma NotJetStream(s: string)
    requires |s| > 1 && s[1] != 'J'
    ensures !JetStreamChange(s)
  {
    Differs("$JS.API.STREAM.UPDATE.", s, 1);
    Differs("$JS.API.STREAM.PURGE.", s, 1);
    Differs("$JS.API.STREAM.DELETE.", s, 1);
    Differs("$JS.API.CONSUMER.DELETE.", s, 1);
    Differs("$JS.API.META.LEADER.STEPDOWN", s, 1);
    Differs("$JS.API.STREAM.LEADER.STEPDOWN.", s, 1);
    Differs("$JS.API.CONSUMER.LEADER.STEPDOWN.", s, 1);
  }

  lemma OtherEnd(s: string, suffix: string)
    requires s != "" && suffix != "" && s[|s| - 1] != suffix[|suffix| - 1]
    ensures !Ends(s, suffix)
  {
    if |suffix| <= |s| {
      assert s[|s| - |suffix|..][|suffix| - 1] == s[|s| - 1];
    }
  }

  lemma NoControlVerb(s: string)
    requires s != "" && s[|s| - 1] != 'D' && s[|s| - 1] != 'M' && s[|s| - 1] != 'K'
    ensures !ControlVerb(s)
  {
    hide Ends;
    OtherEnd(s, ".RELOAD");
    OtherEnd(s, ".LDM");
    OtherEnd(s, ".KICK");
  }

  lemma ChangesServer(op: Op)
    requires op.Reload? || op.LameDuck? || op.Kick?
    ensures ControlVerb(Subject(op))
  {
    hide Ends;
    match op
    case Reload(id) => Affixes(SERVER, id, ".RELOAD");
    case LameDuck(id) => Affixes(SERVER, id, ".LDM");
    case Kick(id, _) => Affixes(SERVER, id, ".KICK");
  }

  /** A server is asked, not told: the subject ends in a letter no control verb ends in. */
  lemma AskedOnly(s: string)
    requires |s| > 1 && s[1] == 'S' && (s[|s| - 1] == 'Z' || s[|s| - 1] == 'G')
    ensures !Mutating(s)
  {
    hide ControlVerb, JetStreamChange;
    NotJetStream(s);
    NoControlVerb(s);
  }

  lemma AsksEndpoint(op: Op)
    requires op.PingEndpoint? || op.Endpoint?
    requires EndpointsListed(op)
    ensures !Mutating(Subject(op))
  {
    hide Mutating, Ends, SERVER_ENDPOINTS;
    var s := Subject(op);
    EndpointLetters(op.endpoint);
    if op.PingEndpoint? {
      Affixes("$SYS.REQ.SERVER.PING.", "", op.endpoint);
      assert "$SYS.REQ.SERVER.PING." + "" + op.endpoint == s;
    } else {
      Affixes(SERVER, op.serverId + ".", op.endpoint);
      assert SERVER + (op.serverId + ".") + op.endpoint == s;
    }
    AskedOnly(s);
  }

  lemma AsksServer(op: Op)
    requires op.Ping? || op.PingEndpoint? || op.Endpoint? || op.Overview?
    requires EndpointsListed(op)
    ensures !Mutating(Subject(op))
  {
    hide Mutating;
    if op.Ping? || op.Overview? {
      AskedOnly(Subject(op));
    } else {
      AsksEndpoint(op);
    }
  }

  lemma AsksAccount(op: Op)
    requires op.Account?
    ensures !Mutating(Subject(op))
  {
    hide JetStreamChange, Ends;
    var s := Subject(op);
    Affixes(ACCOUNT, op.account + ".", op.endpoint);
    assert ACCOUNT + (op.account + ".") + op.endpoint == s;
    assert s[1] == 'S' && s[9] == 'A';
    NotJetStream(s);
    Differs(SERVER, s, 9);
  }

  lemma NotServer(s: string)
    requires |s| > 1 && s[1] == 'J'
    ensures !ControlVerb(s)
  {
    hide Ends;
    Differs(SERVER, s, 1);
  }

  lemma AsksStream(op: Op)
    requires op.ListStreams? || op.InfoStream?
    ensures !Mutating(Subject(op))
  {
    hide ControlVerb;
    var s := Subject(op);
    if op.InfoStream? {
      Affixes("$JS.API.STREAM.INFO.", op.stream, "");
      assert "$JS.API.STREAM.INFO." + op.stream + "" == s;
      assert s[15] == 'I';
    } else {
      assert s[15] == 'L' && s[16] == 'I';
    }
    assert s[1] == 'J' && s[8] == 'S';
    NotServer(s);
    NotStreamChange(s);
  }

  lemma NotStreamChange(s: string)
    requires |s| > 16 && s[8] == 'S'
    requires s[15] == 'I' || (s[15] == 'L' && s[16] == 'I')
    ensures !JetStreamChange(s)
  {
    Differs("$JS.API.STREAM.UPDATE.", s, 15);
    Differs("$JS.API.STREAM.PURGE.", s, 15);
    Differs("$JS.API.STREAM.DELETE.", s, 15);
    Differs("$JS.API.STREAM.LEADER.STEPDOWN.", s, if s[15] == 'I' then 15 else 16);
    Differs("$JS.API.CONSUMER.DELETE.", s, 8);
    Differs("$JS.API.META.LEADER.STEPDOWN", s, 8);
    Differs("$JS.API.CONSUMER.LEADER.STEPDOWN.", s, 8);
  }

  lemma AsksConsumer(op: Op)
    requires op.ListConsumers? || op.InfoConsumer?
    ensures !Mutating(Subject(op))
  {
    hide ControlVerb;
    var s := Subject(op);
    if op.InfoConsumer? {
      Affixes("$JS.API.CONSUMER.INFO.", op.stream + "." + op.consumer, "");
      assert "$JS.API.CONSUMER.INFO." + (op.stream + "." + op.consumer) + "" == s;
      assert s[17] == 'I';
    } else {
      Affixes("$JS.API.CONSUMER.LIST.", op.stream, "");
      assert "$JS.API.CONSUMER.LIST." + op.stream + "" == s;
      assert s[17] == 'L' && s[18] == 'I';
    }
    assert s[1] == 'J' && s[8] == 'C';
    NotServer(s);
    NotConsumerChange(s);
  }

  lemma NotConsumerChange(s: string)
    requires |s| > 18 && s[8] == 'C'
    requires s[17] == 'I' || (s[17] == 'L' && s[18] == 'I')
    ensures !JetStreamChange(s)
  {
    Differs("$JS.API.STREAM.UPDATE.", s, 8);
    Differs("$JS.API.STREAM.PURGE.", s, 8);
    Differs("$JS.API.STREAM.DELETE.", s, 8);
    Differs("$JS.API.STREAM.LEADER.STEPDOWN.", s, 8);
    Differs("$JS.API.META.LEADER.STEPDOWN", s, 8);
    Differs("$JS.API.CONSUMER.DELETE.", s, 17);
    Differs("$JS.API.CONSUMER.LEADER.STEPDOWN.", s, if s[17] == 'I' then 17 else 18);
  }

  lemma PrefixOfAll(p: string, s: string, dot: string, c: string)
    ensures p <= p + s + dot + c
  {
  }

  lemma ChangesConsumer(op: Op)
    requires op.DeleteConsumer? || op.ConsumerLeaderStepdown?
    ensures JetStreamChange(Subject(op))
  {
    if op.DeleteConsumer? {
      PrefixOfAll("$JS.API.CONSUMER.DELETE.", op.stream, ".", op.consumer);
    } else {
      PrefixOfAll("$JS.API.CONSUMER.LEADER.STEPDOWN.", op.stream, ".", op.consumer);
    }
  }

  lemma ChangesStream(op: Op)
    requires op.Mutates() && !op.Reload? && !op.LameDuck? && !op.Kick?
    requires !op.DeleteConsumer? && !op.ConsumerLeaderStepdown?
    ensures JetStreamChange(Subject(op))
  {
  }

  lemma ChangesJetStream(op: Op)
    requires op.Mutates() && !op.Reload? && !op.LameDuck? && !op.Kick?
    ensures JetStreamChange(Subject(op))
  {
    hide Subject, JetStreamChange;
    if op.DeleteConsumer? || op.ConsumerLeaderStepdown? {
      ChangesConsumer(op);
    } else {
      ChangesStream(op);
    }
  }

  /**
   * On the wire as in the program: whatever text the arguments contain, an operation is sent on a mutating
   * subject exactly when it is a mutating one.
   */
  lemma SubjectMutates(op: Op)
    requires EndpointsListed(op)
    ensures Mutating(Subject(op)) <==> op.Mutates()
  {
    hide Subject, ControlVerb, JetStreamChange, EndpointsListed;
    if op.Reload? || op.LameDuck? || op.Kick? {
      ChangesServer(op);
    } else if op.Mutates() {
      ChangesJetStream(op);
    } else if op.Ping? || op.PingEndpoint? || op.Endpoint? || op.Overview? {
      AsksServer(op);
    } else if op.Account? {
      AsksAccount(op);
    } else if op.ListStreams? || op.InfoStream? {
      AsksStream(op);
    } else {
      AsksConsumer(op);
    }
  }

  lemma PlanEndpoints(env: Env, h: Handler, text: string, call: Call)
    requires env.PlanOf(h, text) == Request(call)
    ensures EndpointsListed(call.op)
  {
    hide GoQuote.ParseString, GoQuote.Quote, GoQuote.Meaning;
  }

  /** A read-only server publishes on no mutating subject, over any transcript and any arguments. */
  lemma ReadOnlyWire(s: Setup, fs: seq<Frame>)
    requires !s.write
    ensures forall call :: call in s.Calls(fs) ==> !Mutating(Subject(call.op))
  {
    hide *;
    McpTheorems.ReadOnlyNeverMutates(s, fs);
    forall call | call in s.Calls(fs) ensures !Mutating(Subject(call.op)) {
      McpTheorems.CallHasFrame(s, fs, call);
      var f :| f in fs && s.CallOf(f) == Some(call);
      McpTheorems.CallHasTool(s, f, call);
      PlanEndpoints(s.env, s.ToolCall(f).value.0.handler, s.ToolCall(f).value.1, call);
      SubjectMutates(call.op);
    }
  }
}

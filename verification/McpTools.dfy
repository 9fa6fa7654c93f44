/**
 * The MCP tool registry and what each tool's handler asks of a cluster, given its decoded
 * arguments.  Decoding itself is a parameter: the reading of JSON into the argument record.
 */
module McpTools {
  import opened Prelude
  import GoQuote

  datatype Handler =
    | ClusterList | ServerPing | ServerPingEndpoint | ServerEndpoint | AccountEndpoint | JsmOverview
    | StreamList | StreamInfo | ConsumerList | ConsumerInfo
    | ServerReload | ServerLameDuck | ServerKick | StreamUpdate | StreamPurge | StreamDelete
    | ConsumerDelete | MetaStepdown | StreamStepdown | ConsumerStepdown
  {
    predicate OnServer() { ServerEndpoint? || ServerReload? || ServerLameDuck? || ServerKick? }

    predicate OnStream() {
      StreamInfo? || ConsumerList? || StreamUpdate? || StreamPurge? || StreamDelete? || StreamStepdown? || OnConsumer()
    }

    predicate OnConsumer() { ConsumerInfo? || ConsumerDelete? || ConsumerStepdown? }

    predicate OnEndpoint() { ServerPingEndpoint? || ServerEndpoint? || AccountEndpoint? }

    /** The handlers of the operations that cannot be taken back. */
    predicate Destructive() {
      ServerLameDuck? || ServerKick? || StreamPurge? || StreamDelete? || ConsumerDelete? ||
      MetaStepdown? || StreamStepdown? || ConsumerStepdown?
    }
  }

  /** The input schema is kept as its property names and its required names. */
  datatype Tool = Tool(name: string, properties: seq<string>, required: seq<string>, handler: Handler)

  function ReadTools(): seq<Tool> {
    [ Tool("cluster_list", [], [], ClusterList),
      Tool("server_ping", ["cluster"], ["cluster"], ServerPing),
      Tool("server_ping_endpoint", ["cluster", "endpoint"], ["cluster", "endpoint"], ServerPingEndpoint),
      Tool("server_endpoint", ["cluster", "server_id", "endpoint"], ["cluster", "server_id", "endpoint"],
           ServerEndpoint),
      Tool("account_endpoint", ["cluster", "account", "endpoint"], ["cluster", "account", "endpoint"],
           AccountEndpoint),
      Tool("jsm_overview", ["cluster"], ["cluster"], JsmOverview),
      Tool("stream_list", ["cluster", "offset"], ["cluster"], StreamList),
      Tool("stream_info", ["cluster", "stream"], ["cluster", "stream"], StreamInfo),
      Tool("consumer_list", ["cluster", "stream", "offset"], ["cluster", "stream"], ConsumerList),
      Tool("consumer_info", ["cluster", "stream", "consumer"], ["cluster", "stream", "consumer"], ConsumerInfo) ]
  }

  function WriteTools(): seq<Tool> {
    [ Tool("server_reload", ["cluster", "server_id"], ["cluster", "server_id"], ServerReload),
      Tool("server_lame_duck", ["cluster", "server_id", "confirm"], ["cluster", "server_id", "confirm"],
           ServerLameDuck),
      Tool("server_kick", ["cluster", "server_id", "cid", "confirm"], ["cluster", "server_id", "cid", "confirm"],
           ServerKick),
      Tool("stream_update", ["cluster", "stream", "config"], ["cluster", "stream", "config"], StreamUpdate),
      Tool("stream_purge", ["cluster", "stream", "confirm"], ["cluster", "stream", "confirm"], StreamPurge),
      Tool("stream_delete", ["cluster", "stream", "confirm"], ["cluster", "stream", "confirm"], StreamDelete),
      Tool("consumer_delete", ["cluster", "stream", "consumer", "confirm"],
           ["cluster", "stream", "consumer", "confirm"], ConsumerDelete),
      Tool("meta_stepdown", ["cluster", "confirm"], ["cluster", "confirm"], MetaStepdown),
      Tool("stream_stepdown", ["cluster", "stream", "confirm"], ["cluster", "stream", "confirm"], StreamStepdown),
      Tool("consumer_stepdown", ["cluster", "stream", "consumer", "confirm"],
           ["cluster", "stream", "consumer", "confirm"], ConsumerStepdown) ]
  }

  function BuildTools(write: bool): seq<Tool> {
    if !write then ReadTools() else ReadTools() + WriteTools()
  }

  // ------------------------------------------------------------ arguments

  /** `config.name` as sent: left out, not a string, or a string. */
  datatype ConfigName = Unnamed | Misnamed | Named(name: string)

  datatype StreamConfig = StreamConfig(name: ConfigName, rest: string)

  datatype Args = Args(
    cluster: string, serverId: string, account: string, endpoint: string, stream: string,
    consumer: string, offset: nat, cid: nat, config: Option<StreamConfig>, confirm: bool)

  /** The JSON names of the fields of the struct each handler decodes into; any other name is an error. */
  function Fields(h: Handler): seq<string> {
    match h
    case ClusterList => []
    case ServerPing => ["cluster"]
    case ServerPingEndpoint => ["cluster", "endpoint"]
    case ServerEndpoint => ["cluster", "server_id", "endpoint"]
    case AccountEndpoint => ["cluster", "account", "endpoint"]
    case JsmOverview => ["cluster"]
    case StreamList => ["cluster", "offset"]
    case StreamInfo => ["cluster", "stream"]
    case ConsumerList => ["cluster", "stream", "offset"]
    case ConsumerInfo => ["cluster", "stream", "consumer"]
    case ServerReload => ["cluster", "server_id"]
    case ServerLameDuck => ["cluster", "server_id", "confirm"]
    case ServerKick => ["cluster", "server_id", "cid", "confirm"]
    case StreamUpdate => ["cluster", "stream", "config"]
    case StreamPurge => ["cluster", "stream", "confirm"]
    case StreamDelete => ["cluster", "stream", "confirm"]
    case ConsumerDelete => ["cluster", "stream", "consumer", "confirm"]
    case MetaStepdown => ["cluster", "confirm"]
    case StreamStepdown => ["cluster", "stream", "confirm"]
    case ConsumerStepdown => ["cluster", "stream", "consumer", "confirm"]
  }

  // ----------------------------------------------------- cluster operations

  datatype Op =
    | Ping
    | PingEndpoint(endpoint: string)
    | Endpoint(serverId: string, endpoint: string)
    | Account(account: string, endpoint: string)
    | Overview
    | ListStreams(offset: nat)
    | InfoStream(stream: string)
    | ListConsumers(stream: string, offset: nat)
    | InfoConsumer(stream: string, consumer: string)
    | Reload(serverId: string)
    | LameDuck(serverId: string)
    | Kick(serverId: string, cid: nat)
    | UpdateStream(stream: string, config: StreamConfig)
    | PurgeStream(stream: string)
    | DeleteStream(stream: string)
    | DeleteConsumer(stream: string, consumer: string)
    | MetaLeaderStepdown
    | StreamLeaderStepdown(stream: string)
    | ConsumerLeaderStepdown(stream: string, consumer: string)
  {
    /** The operations that change a server, a stream or a consumer. */
    predicate Mutates() {
      Reload? || UpdateStream? || Destroys()
    }

    /** Lame-duck, kick, purge, delete and step-down. */
    predicate Destroys() {
      LameDuck? || Kick? || PurgeStream? || DeleteStream? || DeleteConsumer? ||
      MetaLeaderStepdown? || StreamLeaderStepdown? || ConsumerLeaderStepdown?
    }

    /** Fan-out requests, answered by a list of replies. */
    predicate FansOut() {
      Ping? || PingEndpoint? || Account? || Overview?
    }
  }

  datatype Call = Call(cluster: string, op: Op)

  datatype Refusal =
    | BadArguments | Unconfirmed | MissingField | UnknownEndpoint | ConfigNameNotString
    | ConfigNameDiffers | ConfigNotEncodable | NoCluster | UnknownCluster

  /** What a handler does with its arguments: refuse, answer from memory, or make one request. */
  datatype Plan = Refuse(why: Refusal) | Names | Request(call: Call)

  const SERVER_ENDPOINTS := ["VARZ", "CONNZ", "ROUTEZ", "GATEWAYZ", "LEAFZ", "SUBSZ", "JSZ", "ACCOUNTZ",
                             "HEALTHZ", "STATSZ"]

  const ACCOUNT_ENDPOINTS := ["CONNZ", "LEAFZ", "SUBSZ", "JSZ", "INFO"]

  /**
   * The library and the configuration a server runs with: `decode` reads the arguments of a tool into
   * its struct, `upper` is `strings.ToUpper`, and `printable` is `strconv.IsPrint` beyond U+00FF.
   */
  datatype Env = Env(
    clusters: seq<string>,
    decode: (Handler, string) -> Option<Args>,
    upper: string -> string,
    printable: char -> bool)
  {
    function At(cluster: string, op: Op): Plan {
      if cluster == "" then Refuse(NoCluster)
      else if cluster !in clusters then Refuse(UnknownCluster)
      else Request(Call(cluster, op))
    }

    /** A configuration without a name gets the stream's, Go-quoted; encoding it then asks whether that is JSON. */
    function PlanUpdate(a: Args): Plan {
      if a.stream == "" || a.config == None then Refuse(MissingField)
      else
        match a.config.value.name
        case Misnamed => Refuse(ConfigNameNotString)
        case Named(n) =>
          if n != a.stream then Refuse(ConfigNameDiffers)
          else At(a.cluster, UpdateStream(a.stream, a.config.value))
        case Unnamed =>
          match GoQuote.ParseString(GoQuote.Quote(a.stream, printable))
          case None => Refuse(ConfigNotEncodable)
          case Some(chars) =>
            At(a.cluster, UpdateStream(a.stream, a.config.value.(name := Named(GoQuote.Meaning(chars)))))
    }

    /** The handlers of the registry, check by check in their order. */
    function PlanOf(h: Handler, text: string): Plan {
      if h.ClusterList? then Names
      else if decode(h, text) == None then Refuse(BadArguments)
      else
        var a := decode(h, text).value;
        match h
        case ClusterList => Names
        case ServerPing => At(a.cluster, Ping)
        case ServerPingEndpoint =>
          if upper(a.endpoint) !in SERVER_ENDPOINTS then Refuse(UnknownEndpoint)
          else At(a.cluster, PingEndpoint(upper(a.endpoint)))
        case ServerEndpoint =>
          if a.serverId == "" then Refuse(MissingField)
          else if upper(a.endpoint) !in SERVER_ENDPOINTS then Refuse(UnknownEndpoint)
          else At(a.cluster, Endpoint(a.serverId, upper(a.endpoint)))
        case AccountEndpoint =>
          if a.account == "" then Refuse(MissingField)
          else if upper(a.endpoint) !in ACCOUNT_ENDPOINTS then Refuse(UnknownEndpoint)
          else At(a.cluster, Account(a.account, upper(a.endpoint)))
        case JsmOverview => At(a.cluster, Overview)
        case StreamList => At(a.cluster, ListStreams(a.offset))
        case StreamInfo => if a.stream == "" then Refuse(MissingField) else At(a.cluster, InfoStream(a.stream))
        case ConsumerList =>
          if a.stream == "" then Refuse(MissingField) else At(a.cluster, ListConsumers(a.stream, a.offset))
        case ConsumerInfo =>
          if a.stream == "" || a.consumer == "" then Refuse(MissingField)
          else At(a.cluster, InfoConsumer(a.stream, a.consumer))
        case ServerReload => if a.serverId == "" then Refuse(MissingField) else At(a.cluster, Reload(a.serverId))
        case ServerLameDuck =>
          if !a.confirm then Refuse(Unconfirmed)
          else if a.serverId == "" then Refuse(MissingField)
          else At(a.cluster, LameDuck(a.serverId))
        case ServerKick =>
          if !a.confirm then Refuse(Unconfirmed)
          else if a.serverId == "" || a.cid == 0 then Refuse(MissingField)
          else At(a.cluster, Kick(a.serverId, a.cid))
        case StreamUpdate => PlanUpdate(a)
        case StreamPurge =>
          if !a.confirm then Refuse(Unconfirmed)
          else if a.stream == "" then Refuse(MissingField)
          else At(a.cluster, PurgeStream(a.stream))
        case StreamDelete =>
          if !a.confirm then Refuse(Unconfirmed)
          else if a.stream == "" then Refuse(MissingField)
          else At(a.cluster, DeleteStream(a.stream))
        case ConsumerDelete =>
          if !a.confirm then Refuse(Unconfirmed)
          else if a.stream == "" || a.consumer == "" then Refuse(MissingField)
          else At(a.cluster, DeleteConsumer(a.stream, a.consumer))
        case MetaStepdown => if !a.confirm then Refuse(Unconfirmed) else At(a.cluster, MetaLeaderStepdown)
        case StreamStepdown =>
          if !a.confirm then Refuse(Unconfirmed)
          else if a.stream == "" then Refuse(MissingField)
          else At(a.cluster, StreamLeaderStepdown(a.stream))
        case ConsumerStepdown =>
          if !a.confirm then Refuse(Unconfirmed)
          else if a.stream == "" || a.consumer == "" then Refuse(MissingField)
          else At(a.cluster, ConsumerLeaderStepdown(a.stream, a.consumer))
    }
  }

  // ------------------------------------------------------------ the registry

  ghost predicate Listed(write: bool, t: Tool) {
    t in BuildTools(write)
  }

  ghost predicate NamesDistinct(tools: seq<Tool>) {
    forall i, j :: 0 <= i < j < |tools| ==> tools[i].name != tools[j].name
  }

  lemma ReadNames()
    ensures NamesDistinct(ReadTools())
  {
  }

  lemma WriteNames()
    ensures NamesDistinct(WriteTools())
  {
  }

  lemma ReadAndWriteNames(i: nat, j: nat)
    requires i < |ReadTools()| && j < |WriteTools()|
    ensures ReadTools()[i].name != WriteTools()[j].name
  {
  }

  lemma RegistryNames(write: bool)
    ensures NamesDistinct(BuildTools(write))
  {
    hide ReadTools, WriteTools;
    ReadNames();
    WriteNames();
    forall i: nat, j: nat | i < |ReadTools()| && j < |WriteTools()|
      ensures ReadTools()[i].name != WriteTools()[j].name
    {
      ReadAndWriteNames(i, j);
    }
  }

  function Find(tools: seq<Tool>, name: string): Option<Tool> {
    if tools == [] then None
    else if tools[0].name == name then Some(tools[0])
    else Find(tools[1..], name)
  }

  lemma LaterDiffers(tools: seq<Tool>, t: Tool)
    requires NamesDistinct(tools) && tools != [] && t in tools[1..]
    ensures t.name != tools[0].name
  {
    var j :| 0 <= j < |tools[1..]| && tools[1..][j] == t;
    assert tools[j + 1] == t;
  }

  lemma {:induction false} FindIn(tools: seq<Tool>, name: string, t: Tool)
    requires NamesDistinct(tools)
    ensures Find(tools, name) == Some(t) <==> t in tools && t.name == name
  {
    if tools != [] {
      assert forall x :: x in tools <==> x == tools[0] || x in tools[1..];
      FindIn(tools[1..], name, t);
      if t in tools[1..] {
        LaterDiffers(tools, t);
      }
    }
  }

  /** Looking a name up is the inverse of listing the registry. */
  lemma FindExact(write: bool, name: string, t: Tool)
    ensures Find(BuildTools(write), name) == Some(t) <==> Listed(write, t) && t.name == name
  {
    hide Find, NamesDistinct, BuildTools;
    RegistryNames(write);
    FindIn(BuildTools(write), name, t);
  }

  /** Without write mode no listed tool can ask for a change, whatever its arguments. */
  lemma ReadToolsNeverMutate(env: Env, t: Tool, text: string)
    requires Listed(false, t)
    ensures env.PlanOf(t.handler, text).Request? ==> !env.PlanOf(t.handler, text).call.op.Mutates()
  {
    var i :| 0 <= i < |ReadTools()| && ReadTools()[i] == t;
  }

  /** Only the destructive handlers destroy, and only with the confirmation in their arguments. */
  lemma DestroysNeedsConfirm(env: Env, h: Handler, text: string)
    requires env.PlanOf(h, text).Request?
    ensures env.PlanOf(h, text).call.op.Destroys() <==> h.Destructive()
    ensures h.Destructive() ==> env.decode(h, text).Some? && env.decode(h, text).value.confirm
  {
    hide GoQuote.ParseString, GoQuote.Quote, GoQuote.Meaning;
  }

  /** A stream is only ever updated with a configuration whose name, as NATS will read it, is the stream's. */
  lemma UpdateCarriesName(env: Env, h: Handler, text: string)
    requires env.PlanOf(h, text).Request? && env.PlanOf(h, text).call.op.UpdateStream?
    ensures var op := env.PlanOf(h, text).call.op;
      op.config.name == Named(op.stream) && op.stream == env.decode(h, text).value.stream != ""
  {
    hide GoQuote.ParseString, GoQuote.Quote, GoQuote.Meaning, GoQuote.AllEncodable;
    GoQuote.QuoteExact(env.decode(h, text).value.stream, env.printable);
  }

  /** And without a name a stream can be updated, all else being in order, exactly when JSON can spell its name
      the way Go does. */
  lemma UnnamedUpdateExact(env: Env, a: Args)
    requires a.stream != "" && a.config.Some? && a.config.value.name == Unnamed
    ensures env.PlanUpdate(a) == Refuse(ConfigNotEncodable) <==> !GoQuote.AllEncodable(a.stream, env.printable)
  {
    hide GoQuote.ParseString, GoQuote.Quote, GoQuote.Meaning, GoQuote.AllEncodable;
    GoQuote.QuoteExact(a.stream, env.printable);
  }

  /** A stream named by the bell character is refused for any printable set. */
  lemma BellRefused(env: Env, a: Args)
    requires a.stream == "\U{07}" && a.config.Some? && a.config.value.name == Unnamed
    ensures env.PlanUpdate(a) == Refuse(ConfigNotEncodable)
  {
    assert !GoQuote.Encodable(a.stream[0], env.printable);
    UnnamedUpdateExact(env, a);
  }

  // ---------------------------------------------- schemas against handlers

  /** The argument has a value other than the one a missing field decodes to. */
  predicate Provided(a: Args, field: string) {
    match field
    case "cluster" => a.cluster != ""
    case "server_id" => a.serverId != ""
    case "account" => a.account != ""
    case "endpoint" => a.endpoint != ""
    case "stream" => a.stream != ""
    case "consumer" => a.consumer != ""
    case "cid" => a.cid != 0
    case "config" => a.config.Some?
    case "confirm" => a.confirm
    case _ => true
  }

  ghost predicate AllProvided(a: Args, fields: seq<string>) {
    forall i :: 0 <= i < |fields| ==> Provided(a, fields[i])
  }

  ghost predicate EndpointKnown(env: Env, h: Handler, a: Args) {
    && (h.ServerPingEndpoint? || h.ServerEndpoint? ==> env.upper(a.endpoint) in SERVER_ENDPOINTS)
    && (h.AccountEndpoint? ==> env.upper(a.endpoint) in ACCOUNT_ENDPOINTS)
  }

  /** An update without a name gets the stream's; one with a name must carry the stream's. */
  ghost predicate ConfigFits(env: Env, h: Handler, a: Args) {
    h.StreamUpdate? && a.config.Some? ==>
      (a.config.value.name == Unnamed && GoQuote.AllEncodable(a.stream, env.printable)) || a.config.value.name == Named(a.stream)
  }

  /** What the schema of each handler's tool requires. */
  function Required(h: Handler): seq<string> {
    match h
    case StreamList => ["cluster"]
    case ConsumerList => ["cluster", "stream"]
    case _ => Fields(h)
  }

  lemma ReadSchemas(t: Tool)
    requires t in ReadTools()
    ensures t.properties == Fields(t.handler) && t.required == Required(t.handler)
  {
    var i :| 0 <= i < |ReadTools()| && ReadTools()[i] == t;
  }

  lemma WriteSchemas(t: Tool)
    requires t in WriteTools()
    ensures t.properties == Fields(t.handler) && t.required == Required(t.handler)
  {
    var i :| 0 <= i < |WriteTools()| && WriteTools()[i] == t;
  }

  /** Each schema names exactly the fields of its handler's struct; only paging offsets are optional. */
  lemma SchemaFields(t: Tool)
    requires Listed(true, t)
    ensures t.properties == Fields(t.handler) && t.required == Required(t.handler)
  {
    hide ReadTools, WriteTools, Fields, Required;
    if t in ReadTools() {
      ReadSchemas(t);
    } else {
      WriteSchemas(t);
    }
  }

  lemma Provided1(a: Args, x: string)
    ensures AllProvided(a, [x]) <==> Provided(a, x)
  {
    hide Provided;
    var s := [x];
    assert s[0] == x;
  }

  lemma Provided2(a: Args, x: string, y: string)
    ensures AllProvided(a, [x, y]) <==> Provided(a, x) && Provided(a, y)
  {
    hide Provided;
    var s := [x, y];
    assert s[0] == x && s[1] == y;
  }

  lemma Provided3(a: Args, x: string, y: string, z: string)
    ensures AllProvided(a, [x, y, z]) <==> Provided(a, x) && Provided(a, y) && Provided(a, z)
  {
    hide Provided;
    var s := [x, y, z];
    assert s[0] == x && s[1] == y && s[2] == z;
  }

  lemma Provided4(a: Args, x: string, y: string, z: string, w: string)
    ensures AllProvided(a, [x, y, z, w]) <==> Provided(a, x) && Provided(a, y) && Provided(a, z) && Provided(a, w)
  {
    hide Provided;
    var s := [x, y, z, w];
    assert s[0] == x && s[1] == y && s[2] == z && s[3] == w;
  }

  lemma ProvidedFields(a: Args)
    ensures Provided(a, "cluster") <==> a.cluster != ""
    ensures Provided(a, "server_id") <==> a.serverId != ""
    ensures Provided(a, "account") <==> a.account != ""
    ensures Provided(a, "endpoint") <==> a.endpoint != ""
    ensures Provided(a, "stream") <==> a.stream != ""
    ensures Provided(a, "consumer") <==> a.consumer != ""
    ensures Provided(a, "cid") <==> a.cid != 0
    ensures Provided(a, "config") <==> a.config.Some?
    ensures Provided(a, "confirm") <==> a.confirm
  {
  }

  /** Confirmed where that is asked for, and no name or number missing. */
  predicate Complete(h: Handler, a: Args) {
    && (h.Destructive() ==> a.confirm)
    && (h.OnServer() ==> a.serverId != "")
    && (h.AccountEndpoint? ==> a.account != "")
    && (h.OnStream() ==> a.stream != "")
    && (h.OnConsumer() ==> a.consumer != "")
    && (h.ServerKick? ==> a.cid != 0)
    && (h.StreamUpdate? ==> a.config.Some?)
  }

  lemma RequiredFields(h: Handler, a: Args)
    requires !h.ClusterList?
    ensures AllProvided(a, Required(h)) <==> a.cluster != "" && Complete(h, a) && (h.OnEndpoint() ==> a.endpoint != "")
  {
    hide Provided, AllProvided;
    ProvidedFields(a);
    match h
    case ServerPing => Provided1(a, "cluster");
    case ServerPingEndpoint => Provided2(a, "cluster", "endpoint");
    case ServerEndpoint => Provided3(a, "cluster", "server_id", "endpoint");
    case AccountEndpoint => Provided3(a, "cluster", "account", "endpoint");
    case JsmOverview => Provided1(a, "cluster");
    case StreamList => Provided1(a, "cluster");
    case StreamInfo => Provided2(a, "cluster", "stream");
    case ConsumerList => Provided2(a, "cluster", "stream");
    case ConsumerInfo => Provided3(a, "cluster", "stream", "consumer");
    case ServerReload => Provided2(a, "cluster", "server_id");
    case ServerLameDuck => Provided3(a, "cluster", "server_id", "confirm");
    case ServerKick => Provided4(a, "cluster", "server_id", "cid", "confirm");
    case StreamUpdate => Provided3(a, "cluster", "stream", "config");
    case StreamPurge => Provided3(a, "cluster", "stream", "confirm");
    case StreamDelete => Provided3(a, "cluster", "stream", "confirm");
    case ConsumerDelete => Provided4(a, "cluster", "stream", "consumer", "confirm");
    case MetaStepdown => Provided2(a, "cluster", "confirm");
    case StreamStepdown => Provided3(a, "cluster", "stream", "confirm");
    case ConsumerStepdown => Provided4(a, "cluster", "stream", "consumer", "confirm");
  }

  lemma EndpointNotEmpty(env: Env, h: Handler, a: Args)
    requires env.upper("") == ""
    requires EndpointKnown(env, h, a)
    ensures h.OnEndpoint() ==> a.endpoint != ""
  {
  }

  /**
   * A tool makes its request exactly when its arguments decode, everything its schema requires is
   * there, the endpoint is a known one, the cluster is configured and a stream configuration carries
   * the stream's name.  The request goes to the cluster the arguments name.
   */
  lemma RequestExact(env: Env, t: Tool, text: string)
    requires Listed(true, t) && !t.handler.ClusterList? && env.upper("") == ""
    ensures env.PlanOf(t.handler, text).Request? <==>
      && env.decode(t.handler, text).Some?
      && var a := env.decode(t.handler, text).value;
         && AllProvided(a, t.required)
         && EndpointKnown(env, t.handler, a)
         && a.cluster in env.clusters
         && ConfigFits(env, t.handler, a)
    ensures env.PlanOf(t.handler, text).Request? ==>
      env.PlanOf(t.handler, text).call.cluster == env.decode(t.handler, text).value.cluster
  {
    hide BuildTools, Required, AllProvided, Fields;
    SchemaFields(t);
    if env.decode(t.handler, text).Some? {
      var a := env.decode(t.handler, text).value;
      RequiredFields(t.handler, a);
      if EndpointKnown(env, t.handler, a) {
        EndpointNotEmpty(env, t.handler, a);
      }
      PlanExact(env, t.handler, text, a);
    }
  }

  lemma PlanExact(env: Env, h: Handler, text: string, a: Args)
    requires env.decode(h, text) == Some(a) && !h.ClusterList?
    ensures env.PlanOf(h, text).Request? ==> env.PlanOf(h, text).call.cluster == a.cluster
    ensures env.PlanOf(h, text).Request? <==>
      && a.cluster != "" && a.cluster in env.clusters
      && EndpointKnown(env, h, a)
      && ConfigFits(env, h, a)
      && Complete(h, a)
  {
    hide GoQuote.ParseString, GoQuote.Quote, GoQuote.Meaning, GoQuote.AllEncodable;
    GoQuote.QuoteExact(a.stream, env.printable);
  }
}

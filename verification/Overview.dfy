/** The JSZ replies the frontend reads and the aggregated view it builds from
    them (frontend/src/types.ts). Absent fields are `None`; an absent list is
    empty. Fields the aggregation only passes along are one `Opaque` value. */
module Overview {
  import opened Prelude

  /** A JSON value that is copied and never inspected. */
  type Opaque = string

  datatype Replica = Replica(name: string, current: bool)

  datatype StreamCluster = StreamCluster(raftGroup: Option<string>, leader: Option<string>, replicas: seq<Replica>)

  datatype StreamState = StreamState(messages: Option<nat>, bytes: Option<nat>, rest: Opaque)

  datatype ConsumerCluster = ConsumerCluster(leader: Option<string>, replicas: seq<Replica>)

  datatype ConsumerDetail = ConsumerDetail(name: Option<string>, config: Opaque, cluster: Option<ConsumerCluster>, rest: Opaque)

  datatype JszStream = JszStream(
    name: string,
    created: Opaque,
    cluster: Option<StreamCluster>,
    config: Opaque,
    state: Option<StreamState>,
    consumers: seq<ConsumerDetail>)

  datatype JszAccount = JszAccount(name: string, info: Opaque, streams: seq<JszStream>)

  datatype MetaCluster = MetaCluster(name: Option<string>, leader: Option<string>)

  datatype Reply = Reply(server: Option<string>, meta: Option<MetaCluster>, accounts: seq<JszAccount>)

  datatype AggregatedConsumer = AggregatedConsumer(stream: string, account: string, detail: ConsumerDetail)

  datatype AggregatedStream = AggregatedStream(
    name: string,
    account: string,
    created: Opaque,
    config: Opaque,
    state: Option<StreamState>,
    cluster: Option<StreamCluster>,
    consumers: seq<AggregatedConsumer>)

  datatype Totals = Totals(streams: nat, consumers: nat, messages: nat, bytes: nat) {
    function Plus(t: Totals): Totals {
      Totals(streams + t.streams, consumers + t.consumers, messages + t.messages, bytes + t.bytes)
    }
  }

  const ZERO := Totals(0, 0, 0, 0)

  datatype AggregatedAccount = AggregatedAccount(name: string, info: Opaque, streams: seq<AggregatedStream>, totals: Totals)

  datatype AggregatedOverview = AggregatedOverview(
    cluster: Option<string>,
    meta: Option<MetaCluster>,
    accountList: seq<AggregatedAccount>,
    totalAccounts: nat,
    totals: Totals)

  /** `x` as a JavaScript condition: present and not the empty string. */
  predicate Truthy(x: Option<string>) {
    x.Some? && x.value != ""
  }

  function LeaderOf(cluster: Option<StreamCluster>): Option<string> {
    match cluster
    case None => None
    case Some(c) => c.leader
  }

  function ConsumerLeader(c: ConsumerDetail): Option<string> {
    match c.cluster
    case None => None
    case Some(cluster) => cluster.leader
  }

  /** The server of this reply is the stream's leader, so its numbers count. */
  predicate IsLeader(server: Option<string>, s: JszStream) {
    Truthy(LeaderOf(s.cluster)) && LeaderOf(s.cluster) == server
  }

  /** A leader's report also answers for consumers that name no other leader. */
  predicate Answers(server: Option<string>, c: ConsumerDetail) {
    !Truthy(ConsumerLeader(c)) || ConsumerLeader(c) == server
  }

  function Messages(s: JszStream): nat {
    match s.state
    case None => 0
    case Some(state) => state.messages.GetOr(0)
  }

  function Bytes(s: JszStream): nat {
    match s.state
    case None => 0
    case Some(state) => state.bytes.GetOr(0)
  }

  /** The key of the stream map. */
  function Key(account: string, stream: string): string {
    account + "/" + stream
  }
}

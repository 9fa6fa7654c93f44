/** The topology view's rows, servers and counts, said of the overview's own fields and of nothing else. */
module TopologyFields {
  import opened Prelude
  import opened Overview
  import opened Topology

  // ----- streams and consumers, in the order they are listed ------------------------------

  function StreamsOf(account: string, streams: seq<AggregatedStream>): seq<(string, AggregatedStream)> {
    seq(|streams|, i requires 0 <= i < |streams| => (account, streams[i]))
  }

  function ListedStreams(list: seq<AggregatedAccount>): seq<(string, AggregatedStream)> {
    if list == [] then []
    else
      var last := list[|list| - 1];
      ListedStreams(list[..|list| - 1]) + StreamsOf(last.name, last.streams)
  }

  function ConsumersOf(p: (string, AggregatedStream)): seq<(string, AggregatedStream, AggregatedConsumer)> {
    seq(|p.1.consumers|, i requires 0 <= i < |p.1.consumers| => (p.0, p.1, p.1.consumers[i]))
  }

  function ConsumersOfAll(streams: seq<(string, AggregatedStream)>): seq<(string, AggregatedStream, AggregatedConsumer)> {
    if streams == [] then []
    else ConsumersOfAll(streams[..|streams| - 1]) + ConsumersOf(streams[|streams| - 1])
  }

  function ListedConsumers(list: seq<AggregatedAccount>): seq<(string, AggregatedStream, AggregatedConsumer)> {
    ConsumersOfAll(ListedStreams(list))
  }

  // ----- rows -----------------------------------------------------------------------------

  predicate HasReplica(replicas: seq<Replica>, name: string) {
    exists i :: 0 <= i < |replicas| && replicas[i].name == name
  }

  /** `replicas[i]` is the last one of its name. */
  predicate LastOfName(replicas: seq<Replica>, i: nat) {
    i < |replicas| && forall j :: i < j < |replicas| ==> replicas[j].name != replicas[i].name
  }

  /** The replicas, the last of each name, and a named leader that is not among them as current. */
  ghost predicate Members(members: map<string, bool>, replicas: seq<Replica>, leader: Option<string>) {
    && (forall name :: name in members <==> HasReplica(replicas, name) || (leader == Some(name) && name != ""))
    && (forall i: nat :: LastOfName(replicas, i) && replicas[i].name in members ==> members[replicas[i].name] == replicas[i].current)
    && (forall name :: name in members && !HasReplica(replicas, name) ==> members[name])
  }

  function OwnReplicas(s: AggregatedStream): seq<Replica> {
    if s.cluster.Some? then s.cluster.value.replicas else []
  }

  function OwnLeader(s: AggregatedStream): Option<string> {
    if s.cluster.Some? then s.cluster.value.leader else None
  }

  ghost predicate StreamFits(row: RaftRow, p: (string, AggregatedStream)) {
    && row.account == Some(p.0) && row.stream == Some(p.1.name)
    && row.leader == OwnLeader(p.1)
    && Members(row.members, OwnReplicas(p.1), OwnLeader(p.1))
  }

  /** A consumer that lists no replicas has its stream's members. */
  ghost predicate ConsumerFits(row: RaftRow, p: (string, AggregatedStream, AggregatedConsumer)) {
    var cluster := p.2.detail.cluster;
    && row.account == Some(p.0) && row.stream == Some(p.1.name)
    && row.leader == (if cluster.Some? then cluster.value.leader else None)
    && if cluster.Some? && cluster.value.replicas != []
       then Members(row.members, cluster.value.replicas, None)
       else Members(row.members, OwnReplicas(p.1), OwnLeader(p.1))
  }

  ghost predicate RowsFit(t: seq<RaftRow>, u: seq<RaftRow>, list: seq<AggregatedAccount>) {
    && |t| == |ListedStreams(list)| && (forall i :: 0 <= i < |t| ==> StreamFits(t[i], ListedStreams(list)[i]))
    && |u| == |ListedConsumers(list)| && (forall i :: 0 <= i < |u| ==> ConsumerFits(u[i], ListedConsumers(list)[i]))
  }

  // ----- servers and counts ----------------------------------------------------------------

  predicate InStream(p: (string, AggregatedStream), name: string) {
    HasReplica(OwnReplicas(p.1), name) || (OwnLeader(p.1) == Some(name) && name != "")
  }

  predicate InConsumer(p: (string, AggregatedStream, AggregatedConsumer), name: string) {
    var cluster := p.2.detail.cluster;
    cluster.Some? && (HasReplica(cluster.value.replicas, name) || (cluster.value.leader == Some(name) && name != ""))
  }

  ghost predicate AnyStream(streams: seq<(string, AggregatedStream)>, name: string) {
    exists i :: 0 <= i < |streams| && InStream(streams[i], name)
  }

  ghost predicate AnyConsumer(consumers: seq<(string, AggregatedStream, AggregatedConsumer)>, name: string) {
    exists i :: 0 <= i < |consumers| && InConsumer(consumers[i], name)
  }

  /** Some stream or consumer names the server as a replica or as its leader. */
  ghost predicate Mentioned(streams: seq<(string, AggregatedStream)>, name: string) {
    AnyStream(streams, name) || AnyConsumer(ConsumersOfAll(streams), name)
  }

  /** The servers shown are those of the replies and those mentioned. */
  ghost predicate ServersFit(servers: seq<string>, serverOrder: seq<string>, list: seq<AggregatedAccount>) {
    forall name :: name in servers <==> name in serverOrder || Mentioned(ListedStreams(list), name)
  }

  function Led(rows: seq<RaftRow>, server: string): set<int> {
    set i | 0 <= i < |rows| && server in rows[i].members && rows[i].leader == Some(server)
  }

  function Followed(rows: seq<RaftRow>, server: string): set<int> {
    set i | 0 <= i < |rows| && server in rows[i].members && rows[i].leader != Some(server)
  }

  /** The chart counts, for one server, the rows it is in as leader and as anything else. */
  ghost predicate Charted(stats: Tally, rows: seq<RaftRow>, server: string) {
    stats.leader == |Led(rows, server)| && stats.follower == |Followed(rows, server)|
  }
}

/** `buildTopology`, `membersOf` and `roleOf` of the topology view
    (frontend/src/components/TopologyView.tsx). */
module Topology {
  import opened Prelude
  import opened Overview

  datatype Role = Leader | Follower | Stale | Absent

  /** A Raft group: `members` maps each member to whether it is current. */
  datatype RaftRow = RaftRow(account: Option<string>, stream: Option<string>, leader: Option<string>, members: map<string, bool>)

  function RoleOf(row: RaftRow, server: string): Role {
    if server !in row.members then Absent
    else if row.leader == Some(server) then Leader
    else if row.members[server] then Follower
    else Stale
  }

  // ----- members ------------------------------------------------------------------------

  /** A Map filled from the replicas in order: the last of equal names wins. */
  function ReplicaMap(replicas: seq<Replica>): map<string, bool> {
    if replicas == [] then map[]
    else
      var last := replicas[|replicas| - 1];
      ReplicaMap(replicas[..|replicas| - 1])[last.name := last.current]
  }

  lemma {:induction false} ReplicaMapKeys(replicas: seq<Replica>)
    ensures forall name :: name in ReplicaMap(replicas) <==> exists r :: r in replicas && r.name == name
  {
    if replicas != [] {
      var init, last := replicas[..|replicas| - 1], replicas[|replicas| - 1];
      ReplicaMapKeys(init);
      assert replicas == init + [last];
      forall name ensures name in ReplicaMap(replicas) <==> exists r :: r in replicas && r.name == name {
        if name in ReplicaMap(init) {
          var r :| r in init && r.name == name;
          assert r in replicas;
        } else if name == last.name {
          assert last in replicas;
        }
      }
    }
  }

  function StreamReplicas(s: AggregatedStream): seq<Replica> {
    match s.cluster
    case None => []
    case Some(c) => c.replicas
  }

  function StreamMembers(s: AggregatedStream): map<string, bool> {
    var members := ReplicaMap(StreamReplicas(s));
    var leader := LeaderOf(s.cluster);
    if Truthy(leader) && leader.value !in members then members[leader.value := true] else members
  }

  function ConsumerReplicas(c: AggregatedConsumer): seq<Replica> {
    match c.detail.cluster
    case None => []
    case Some(cluster) => cluster.replicas
  }

  /** A consumer without replicas of its own has its stream's members. */
  function ConsumerMembers(s: AggregatedStream, c: AggregatedConsumer): map<string, bool> {
    if |ConsumerReplicas(c)| > 0 then ReplicaMap(ConsumerReplicas(c)) else StreamMembers(s)
  }

  method MapOf(replicas: seq<Replica>) returns (members: map<string, bool>)
    ensures members == ReplicaMap(replicas)
  {
    members := map[];
    for i := 0 to |replicas|
      invariant members == ReplicaMap(replicas[..i])
    {
      assert replicas[..i + 1][..i] == replicas[..i];
      members := members[replicas[i].name := replicas[i].current];
    }
    assert replicas[..|replicas|] == replicas;
  }

  method MembersOf(s: AggregatedStream) returns (out: map<string, bool>)
    ensures out == StreamMembers(s)
  {
    out := MapOf(StreamReplicas(s));
    var leader := LeaderOf(s.cluster);
    if Truthy(leader) && leader.value !in out {
      out := out[leader.value := true];
    }
  }

  // ----- rows ---------------------------------------------------------------------------

  /** A stream and the account that lists it. */
  datatype Placed = Placed(account: string, s: AggregatedStream)

  function StreamRow(p: Placed): RaftRow {
    RaftRow(Some(p.account), Some(p.s.name), LeaderOf(p.s.cluster), StreamMembers(p.s))
  }

  function ConsumerRow(p: Placed, c: AggregatedConsumer): RaftRow {
    RaftRow(Some(p.account), Some(p.s.name), ConsumerLeader(c.detail), ConsumerMembers(p.s, c))
  }

  function PlacedIn(account: string, streams: seq<AggregatedStream>): seq<Placed> {
    if streams == [] then []
    else PlacedIn(account, streams[..|streams| - 1]) + [Placed(account, streams[|streams| - 1])]
  }

  /** The streams of an overview, account by account. */
  function AllStreams(accounts: seq<AggregatedAccount>): seq<Placed> {
    if accounts == [] then []
    else
      var last := accounts[|accounts| - 1];
      AllStreams(accounts[..|accounts| - 1]) + PlacedIn(last.name, last.streams)
  }

  function StreamRows(streams: seq<Placed>): seq<RaftRow> {
    if streams == [] then [] else StreamRows(streams[..|streams| - 1]) + [StreamRow(streams[|streams| - 1])]
  }

  function RowsOf(p: Placed, consumers: seq<AggregatedConsumer>): seq<RaftRow> {
    if consumers == [] then []
    else RowsOf(p, consumers[..|consumers| - 1]) + [ConsumerRow(p, consumers[|consumers| - 1])]
  }

  function ConsumerRows(streams: seq<Placed>): seq<RaftRow> {
    if streams == [] then []
    else
      var last := streams[|streams| - 1];
      ConsumerRows(streams[..|streams| - 1]) + RowsOf(last, last.s.consumers)
  }

  // ----- the chart ----------------------------------------------------------------------

  function One(b: bool): nat {
    if b then 1 else 0
  }

  predicate Follows(row: RaftRow, server: string) {
    RoleOf(row, server).Follower? || RoleOf(row, server).Stale?
  }

  /** How many rows of the heatmap show `server` as leader. */
  function LeaderRows(rows: seq<RaftRow>, server: string): nat {
    if rows == [] then 0
    else LeaderRows(rows[..|rows| - 1], server) + One(RoleOf(rows[|rows| - 1], server).Leader?)
  }

  /** How many rows show it as follower, current or stale. */
  function FollowerRows(rows: seq<RaftRow>, server: string): nat {
    if rows == [] then 0
    else FollowerRows(rows[..|rows| - 1], server) + One(Follows(rows[|rows| - 1], server))
  }

  datatype Kind = OfStreams | OfConsumers

  datatype Tally = Tally(leader: nat, follower: nat)

  class ServerStats {
    const name: string
    const metaLeader: bool
    var streams: Tally
    var consumers: Tally

    function Of(kind: Kind): Tally
      reads this
    {
      match kind
      case OfStreams => streams
      case OfConsumers => consumers
    }

    constructor (name: string, metaLeader: bool)
      ensures this.name == name && this.metaLeader == metaLeader
      ensures streams == consumers == Tally(0, 0)
    {
      this.name, this.metaLeader, streams, consumers := name, metaLeader, Tally(0, 0), Tally(0, 0);
    }

    /** Counts one membership. */
    method Add(kind: Kind, isLeader: bool)
      modifies this
      ensures Of(kind) == Tally(old(Of(kind)).leader + One(isLeader), old(Of(kind)).follower + One(!isLeader))
      ensures forall other :: other != kind ==> Of(other) == old(Of(other))
    {
      var t := Of(kind);
      if isLeader {
        t := t.(leader := t.leader + 1);
      } else {
        t := t.(follower := t.follower + 1);
      }
      match kind
      case OfStreams => streams := t;
      case OfConsumers => consumers := t;
    }
  }

  /** A map from server names to their statistics. */
  ghost predicate ByName(stats: map<string, ServerStats>) {
    forall name :: name in stats ==> stats[name].name == name
  }

  /** The inner loop over one row's members, in whatever order the map lists them. */
  method CountRow(row: RaftRow, stats: map<string, ServerStats>, kind: Kind)
    requires ByName(stats)
    modifies stats.Values
    ensures forall name :: name in stats ==>
      && stats[name].Of(kind).leader == old(stats[name].Of(kind)).leader + One(RoleOf(row, name).Leader?)
      && stats[name].Of(kind).follower == old(stats[name].Of(kind)).follower + One(Follows(row, name))
    ensures forall name, other :: name in stats && other != kind ==> stats[name].Of(other) == old(stats[name].Of(other))
  {
    var todo := row.members.Keys;
    while todo != {}
      invariant todo <= row.members.Keys
      invariant forall name :: name in stats ==>
        && stats[name].Of(kind).leader == old(stats[name].Of(kind)).leader + One(name !in todo && RoleOf(row, name).Leader?)
        && stats[name].Of(kind).follower == old(stats[name].Of(kind)).follower + One(name !in todo && Follows(row, name))
      invariant forall name, other :: name in stats && other != kind ==> stats[name].Of(other) == old(stats[name].Of(other))
      decreases todo
    {
      var member :| member in todo;
      if member in stats {
        stats[member].Add(kind, row.leader == Some(member));
      }
      todo := todo - {member};
    }
  }

  /** The loop over the rows: the chart counts what the heatmap shows. */
  method CountRows(rows: seq<RaftRow>, stats: map<string, ServerStats>, kind: Kind)
    requires ByName(stats)
    requires forall name :: name in stats ==> stats[name].Of(kind) == Tally(0, 0)
    modifies stats.Values
    ensures forall name :: name in stats ==> stats[name].Of(kind) == Tally(LeaderRows(rows, name), FollowerRows(rows, name))
    ensures forall name, other :: name in stats && other != kind ==> stats[name].Of(other) == old(stats[name].Of(other))
  {
    for i := 0 to |rows|
      invariant forall name :: name in stats ==>
        stats[name].Of(kind) == Tally(LeaderRows(rows[..i], name), FollowerRows(rows[..i], name))
      invariant forall name, other :: name in stats && other != kind ==> stats[name].Of(other) == old(stats[name].Of(other))
    {
      assert rows[..i + 1][..i] == rows[..i];
      CountRow(rows[i], stats, kind);
    }
    assert rows[..|rows|] == rows;
  }
}

/** What the distribution chart's numbers add up to. */
module TopologyProofs {
  import opened Prelude
  import opened Overview
  import opened Topology

  function SumLeaders(servers: seq<string>, rows: seq<RaftRow>): nat {
    if servers == [] then 0 else SumLeaders(servers[..|servers| - 1], rows) + LeaderRows(rows, servers[|servers| - 1])
  }

  function SumFollowers(servers: seq<string>, rows: seq<RaftRow>): nat {
    if servers == [] then 0 else SumFollowers(servers[..|servers| - 1], rows) + FollowerRows(rows, servers[|servers| - 1])
  }

  /** The members of all rows together. */
  function Memberships(rows: seq<RaftRow>): nat {
    if rows == [] then 0 else Memberships(rows[..|rows| - 1]) + |rows[|rows| - 1].members|
  }

  predicate LedFromWithin(row: RaftRow) {
    row.leader.Some? && row.leader.value in row.members
  }

  /** How many rows have their leader among their members. */
  function LedRows(rows: seq<RaftRow>): nat {
    if rows == [] then 0 else LedRows(rows[..|rows| - 1]) + One(LedFromWithin(rows[|rows| - 1]))
  }

  /** How many of `servers` are in `names`. */
  function CountIn(servers: seq<string>, names: set<string>): nat {
    if servers == [] then 0 else CountIn(servers[..|servers| - 1], names) + One(servers[|servers| - 1] in names)
  }

  lemma {:induction false} CountInAll(servers: seq<string>, names: set<string>)
    requires Distinct(servers) && forall name :: name in names ==> name in servers
    ensures CountIn(servers, names) == |names|
  {
    if servers == [] {
      assert names == {};
    } else {
      var init, last := servers[..|servers| - 1], servers[|servers| - 1];
      assert servers == init + [last];
      CountInAll(init, names - {last});
      CountInWithout(init, names, last);
    }
  }

  lemma {:induction false} CountInWithout(servers: seq<string>, names: set<string>, name: string)
    requires name !in servers
    ensures CountIn(servers, names - {name}) == CountIn(servers, names)
  {
    if servers != [] {
      CountInWithout(servers[..|servers| - 1], names, name);
    }
  }

  /** What one more row adds to the two sums. */
  lemma {:induction false} SumsSnoc(servers: seq<string>, rows: seq<RaftRow>)
    requires rows != []
    ensures var init, row := rows[..|rows| - 1], rows[|rows| - 1]; var led := if LedFromWithin(row) then {row.leader.value} else {};
      && SumLeaders(servers, rows) == SumLeaders(servers, init) + CountIn(servers, led)
      && SumFollowers(servers, rows) == SumFollowers(servers, init) + CountIn(servers, row.members.Keys - led)
  {
    if servers != [] {
      SumsSnoc(servers[..|servers| - 1], rows);
    }
  }

  /** Every membership is counted once: as a leader in the rows led from within,
      as a follower otherwise. */
  lemma {:induction false} MembershipsConserved(servers: seq<string>, rows: seq<RaftRow>)
    requires Distinct(servers)
    requires forall i, m :: 0 <= i < |rows| && m in rows[i].members ==> m in servers
    ensures SumLeaders(servers, rows) == LedRows(rows)
    ensures SumLeaders(servers, rows) + SumFollowers(servers, rows) == Memberships(rows)
  {
    if rows == [] {
      NoRows(servers);
    } else {
      var row := rows[|rows| - 1];
      MembershipsConserved(servers, rows[..|rows| - 1]);
      SumsSnoc(servers, rows);
      var led := if LedFromWithin(row) then {row.leader.value} else {};
      CountInAll(servers, led);
      CountInAll(servers, row.members.Keys - led);
      assert |row.members.Keys - led| == |row.members| - |led|;
    }
  }

  lemma {:induction false} NoRows(servers: seq<string>)
    ensures SumLeaders(servers, []) == SumFollowers(servers, []) == 0
  {
    if servers != [] {
      NoRows(servers[..|servers| - 1]);
    }
  }

  /** How many streams name a leader. */
  function WithLeader(streams: seq<Placed>): nat {
    if streams == [] then 0
    else WithLeader(streams[..|streams| - 1]) + One(Truthy(LeaderOf(streams[|streams| - 1].s.cluster)))
  }

  ghost predicate NamedReplicas(s: AggregatedStream) {
    forall r :: r in StreamReplicas(s) ==> r.name != ""
  }

  /** A stream row is led from within exactly when its leader has a name, or when
      leader and some replica both have the empty name. */
  lemma StreamRowLed(p: Placed)
    ensures LedFromWithin(StreamRow(p)) <==>
      Truthy(LeaderOf(p.s.cluster)) || (LeaderOf(p.s.cluster) == Some("") && exists r :: r in StreamReplicas(p.s) && r.name == "")
  {
    ReplicaMapKeys(StreamReplicas(p.s));
  }

  /** With named replicas the leaders counted are the streams that have a leader. */
  lemma {:induction false} LeadersAreLedStreams(streams: seq<Placed>)
    requires forall i :: 0 <= i < |streams| ==> NamedReplicas(streams[i].s)
    ensures LedRows(StreamRows(streams)) == WithLeader(streams)
    ensures |StreamRows(streams)| == |streams|
  {
    if streams != [] {
      var init, last := streams[..|streams| - 1], streams[|streams| - 1];
      assert NamedReplicas(last.s);
      LeadersAreLedStreams(init);
      StreamRowLed(last);
      assert StreamRows(streams)[..|streams| - 1] == StreamRows(init);
    }
  }

  // ----- every member of every row is a server of the view ---------------------------------

  function ReplicaNames(replicas: seq<Replica>): set<string> {
    if replicas == [] then {} else ReplicaNames(replicas[..|replicas| - 1]) + {replicas[|replicas| - 1].name}
  }

  function LeaderName(leader: Option<string>): set<string> {
    if Truthy(leader) then {leader.value} else {}
  }

  function ConsumerNames(consumers: seq<AggregatedConsumer>): set<string> {
    if consumers == [] then {}
    else
      var last := consumers[|consumers| - 1];
      ConsumerNames(consumers[..|consumers| - 1]) + LeaderName(ConsumerLeader(last.detail)) + ReplicaNames(ConsumerReplicas(last))
  }

  /** The names the streams and consumers mention. */
  function MemberNames(streams: seq<Placed>): set<string> {
    if streams == [] then {}
    else
      var s := streams[|streams| - 1].s;
      MemberNames(streams[..|streams| - 1]) + ReplicaNames(StreamReplicas(s)) + LeaderName(LeaderOf(s.cluster)) +
      ConsumerNames(s.consumers)
  }

  ghost predicate MembersIn(rows: seq<RaftRow>, names: set<string>) {
    forall i :: 0 <= i < |rows| ==> rows[i].members.Keys <= names
  }

  lemma {:induction false} ReplicaMapNames(replicas: seq<Replica>)
    ensures ReplicaMap(replicas).Keys == ReplicaNames(replicas)
  {
    if replicas != [] {
      ReplicaMapNames(replicas[..|replicas| - 1]);
    }
  }

  lemma {:induction false} ConsumerRowsIn(p: Placed, consumers: seq<AggregatedConsumer>)
    ensures MembersIn(RowsOf(p, consumers), StreamMembers(p.s).Keys + ConsumerNames(consumers))
  {
    if consumers != [] {
      var init, last := consumers[..|consumers| - 1], consumers[|consumers| - 1];
      ConsumerRowsIn(p, init);
      ReplicaMapNames(ConsumerReplicas(last));
    }
  }

  lemma {:induction false} RowsInMemberNames(streams: seq<Placed>)
    ensures MembersIn(StreamRows(streams), MemberNames(streams))
    ensures MembersIn(ConsumerRows(streams), MemberNames(streams))
  {
    if streams != [] {
      var init, last := streams[..|streams| - 1], streams[|streams| - 1];
      RowsInMemberNames(init);
      ReplicaMapNames(StreamReplicas(last.s));
      ConsumerRowsIn(last, last.s.consumers);
    }
  }

  // ----- what the heatmap shows of a stream ----------------------------------------------

  /** The replica whose entry survives when several have one name. */
  function LastNamed(replicas: seq<Replica>, name: string): Option<Replica> {
    if replicas == [] then None
    else if replicas[|replicas| - 1].name == name then Some(replicas[|replicas| - 1])
    else LastNamed(replicas[..|replicas| - 1], name)
  }

  lemma {:induction false} ReplicaMapLast(replicas: seq<Replica>, name: string)
    ensures name in ReplicaMap(replicas) <==> LastNamed(replicas, name).Some?
    ensures name in ReplicaMap(replicas) ==> ReplicaMap(replicas)[name] == LastNamed(replicas, name).value.current
  {
    if replicas != [] {
      ReplicaMapLast(replicas[..|replicas| - 1], name);
    }
  }

  /** The role of a server for a stream, from the stream's own report: its leader leads even when the replicas
      do not list it, a listed replica follows or lags behind, and any other server takes no part. */
  lemma StreamRoleExact(p: Placed, server: string)
    ensures RoleOf(StreamRow(p), server) ==
      var leader, replica := LeaderOf(p.s.cluster), LastNamed(StreamReplicas(p.s), server);
      if leader == Some(server) && (server != "" || replica.Some?) then Leader
      else if replica.None? then Absent
      else if replica.value.current then Follower
      else Stale
  {
    ReplicaMapLast(StreamReplicas(p.s), server);
  }

  /** A consumer that lists no replicas is shown on its stream's members, under its own leader. */
  lemma ConsumerRoleExact(p: Placed, c: AggregatedConsumer, server: string)
    ensures RoleOf(ConsumerRow(p, c), server) ==
      var leader := ConsumerLeader(c.detail);
      var replica := LastNamed(if ConsumerReplicas(c) != [] then ConsumerReplicas(c) else StreamReplicas(p.s), server);
      var implied := ConsumerReplicas(c) == [] && Truthy(LeaderOf(p.s.cluster)) && LeaderOf(p.s.cluster) == Some(server);
      if replica.None? && !implied then Absent
      else if leader == Some(server) then Leader
      else if replica.None? || replica.value.current then Follower
      else Stale
  {
    ReplicaMapLast(ConsumerReplicas(c), server);
    ReplicaMapLast(StreamReplicas(p.s), server);
  }
}

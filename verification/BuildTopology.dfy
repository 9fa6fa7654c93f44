/** `buildTopology` itself: the loops that gather names, fill rows and count members. */
module BuildTopology {
  import opened Prelude
  import opened Overview
  import opened Topology
  import opened TopologyProofs
  import opened TopologyFields
  import opened TopologyListing

  datatype View = View(
    servers: seq<string>,
    metaRow: RaftRow,
    streamRows: seq<RaftRow>,
    consumerRows: seq<RaftRow>,
    serverStats: seq<ServerStats>)

  function SetOf(list: seq<string>): set<string> {
    set x | x in list
  }

  /** The loops that fill `fromMembers`. */
  method GatherNames(streams: seq<Placed>) returns (names: set<string>)
    ensures names == MemberNames(streams)
  {
    names := {};
    for i := 0 to |streams|
      invariant names == MemberNames(streams[..i])
    {
      var s := streams[i].s;
      var replicas := GatherReplicas(StreamReplicas(s));
      names := names + replicas;
      if Truthy(LeaderOf(s.cluster)) {
        names := names + {LeaderOf(s.cluster).value};
      }
      var consumers := GatherConsumers(s.consumers);
      names := names + consumers;
      assert streams[..i + 1][..i] == streams[..i];
    }
    assert streams[..|streams|] == streams;
  }

  method GatherReplicas(replicas: seq<Replica>) returns (names: set<string>)
    ensures names == ReplicaNames(replicas)
  {
    names := {};
    for i := 0 to |replicas|
      invariant names == ReplicaNames(replicas[..i])
    {
      names := names + {replicas[i].name};
      assert replicas[..i + 1][..i] == replicas[..i];
    }
    assert replicas[..|replicas|] == replicas;
  }

  method GatherConsumers(consumers: seq<AggregatedConsumer>) returns (names: set<string>)
    ensures names == ConsumerNames(consumers)
  {
    names := {};
    for i := 0 to |consumers|
      invariant names == ConsumerNames(consumers[..i])
    {
      var leader := ConsumerLeader(consumers[i].detail);
      if Truthy(leader) {
        names := names + {leader.value};
      }
      var replicas := GatherReplicas(ConsumerReplicas(consumers[i]));
      names := names + replicas;
      assert consumers[..i + 1][..i] == consumers[..i];
    }
    assert consumers[..|consumers|] == consumers;
  }

  /** A set as a list without repetition; which order it is sorted in is left open. */
  method Listed(names: set<string>) returns (list: seq<string>)
    ensures Distinct(list) && SetOf(list) == names
  {
    list := [];
    var todo := names;
    while todo != {}
      invariant todo <= names && SetOf(list) == names - todo && Distinct(list)
      decreases todo
    {
      var x :| x in todo;
      assert SetOf(list + [x]) == SetOf(list) + {x};
      list, todo := list + [x], todo - {x};
    }
  }

  /** The streams of an overview in the order the row loops visit them. */
  method Streams(accounts: seq<AggregatedAccount>) returns (streams: seq<Placed>)
    ensures streams == AllStreams(accounts)
  {
    streams := [];
    for i := 0 to |accounts|
      invariant streams == AllStreams(accounts[..i])
    {
      var a := accounts[i];
      ghost var before := streams;
      for j := 0 to |a.streams|
        invariant streams == before + PlacedIn(a.name, a.streams[..j])
      {
        streams := streams + [Placed(a.name, a.streams[j])];
        assert a.streams[..j + 1][..j] == a.streams[..j];
      }
      assert a.streams[..|a.streams|] == a.streams;
      assert accounts[..i + 1][..i] == accounts[..i];
    }
    assert accounts[..|accounts|] == accounts;
  }

  /** The consumer loop inside the stream loop. */
  method RowsFor(p: Placed, members: map<string, bool>) returns (rows: seq<RaftRow>)
    requires members == StreamMembers(p.s)
    ensures rows == RowsOf(p, p.s.consumers)
  {
    rows := [];
    for j := 0 to |p.s.consumers|
      invariant rows == RowsOf(p, p.s.consumers[..j])
    {
      var c := p.s.consumers[j];
      var own := members;
      if |ConsumerReplicas(c)| > 0 {
        own := MapOf(ConsumerReplicas(c));
      }
      rows := rows + [RaftRow(Some(p.account), Some(p.s.name), ConsumerLeader(c.detail), own)];
      assert p.s.consumers[..j + 1][..j] == p.s.consumers[..j];
    }
    assert p.s.consumers[..|p.s.consumers|] == p.s.consumers;
  }

  method Rows(streams: seq<Placed>) returns (streamRows: seq<RaftRow>, consumerRows: seq<RaftRow>)
    ensures streamRows == StreamRows(streams) && consumerRows == ConsumerRows(streams)
  {
    streamRows, consumerRows := [], [];
    for i := 0 to |streams|
      invariant streamRows == StreamRows(streams[..i]) && consumerRows == ConsumerRows(streams[..i])
    {
      var p := streams[i];
      var members := MembersOf(p.s);
      streamRows := streamRows + [RaftRow(Some(p.account), Some(p.s.name), LeaderOf(p.s.cluster), members)];
      var more := RowsFor(p, members);
      consumerRows := consumerRows + more;
      assert streams[..i + 1][..i] == streams[..i];
    }
    assert streams[..|streams|] == streams;
  }

  /** The chart's record of each server, and the map to them by name. */
  method NewStats(servers: seq<string>, metaLeader: Option<string>) returns (list: seq<ServerStats>, stats: map<string, ServerStats>)
    requires Distinct(servers)
    ensures |list| == |servers| && stats.Keys == SetOf(servers) && ByName(stats)
    ensures forall name :: name in stats ==> fresh(stats[name])
    ensures forall i :: 0 <= i < |servers| ==>
      && servers[i] in stats && list[i] == stats[servers[i]] && list[i].name == servers[i]
      && list[i].metaLeader == (metaLeader == Some(servers[i]))
      && list[i].streams == list[i].consumers == Tally(0, 0)
  {
    list, stats := [], map[];
    for i := 0 to |servers|
      invariant |list| == i && stats.Keys == SetOf(servers[..i]) && ByName(stats)
      invariant forall name :: name in stats ==> fresh(stats[name])
      invariant forall k :: 0 <= k < i ==>
        && servers[k] in stats && list[k] == stats[servers[k]] && list[k].name == servers[k]
        && list[k].metaLeader == (metaLeader == Some(servers[k]))
        && list[k].streams == list[k].consumers == Tally(0, 0)
    {
      var s := new ServerStats(servers[i], metaLeader == Some(servers[i]));
      assert servers[..i + 1] == servers[..i] + [servers[i]];
      list, stats := list + [s], stats[servers[i] := s];
    }
    assert servers[..|servers|] == servers;
  }

  lemma TallyCharted(rows: seq<RaftRow>, server: string)
    ensures Charted(Tally(LeaderRows(rows, server), FollowerRows(rows, server)), rows, server)
  {
    RowsCounted(rows, server);
  }

  method Chart(servers: seq<string>, metaLeader: Option<string>, streamRows: seq<RaftRow>, consumerRows: seq<RaftRow>)
    returns (list: seq<ServerStats>)
    requires Distinct(servers)
    ensures |list| == |servers|
    ensures forall i :: 0 <= i < |servers| ==>
      && list[i].name == servers[i] && list[i].metaLeader == (metaLeader == Some(servers[i]))
      && list[i].streams == Tally(LeaderRows(streamRows, servers[i]), FollowerRows(streamRows, servers[i]))
      && list[i].consumers == Tally(LeaderRows(consumerRows, servers[i]), FollowerRows(consumerRows, servers[i]))
      && Charted(list[i].streams, streamRows, servers[i]) && Charted(list[i].consumers, consumerRows, servers[i])
  {
    hide LeaderRows, FollowerRows, Charted;
    var stats;
    list, stats := NewStats(servers, metaLeader);
    assert forall name :: name in stats ==> name in servers;
    assert forall name :: name in stats ==> stats[name].Of(OfStreams) == stats[name].Of(OfConsumers) == Tally(0, 0);
    CountRows(streamRows, stats, OfStreams);
    assert forall name :: name in stats ==> stats[name].Of(OfConsumers) == Tally(0, 0);
    CountRows(consumerRows, stats, OfConsumers);
    forall i | 0 <= i < |servers|
      ensures list[i].streams == Tally(LeaderRows(streamRows, servers[i]), FollowerRows(streamRows, servers[i]))
      ensures list[i].consumers == Tally(LeaderRows(consumerRows, servers[i]), FollowerRows(consumerRows, servers[i]))
      ensures Charted(list[i].streams, streamRows, servers[i]) && Charted(list[i].consumers, consumerRows, servers[i])
    {
      TallyCharted(streamRows, servers[i]);
      TallyCharted(consumerRows, servers[i]);
      assert servers[i] in stats;
      assert list[i].Of(OfStreams) == list[i].streams && list[i].Of(OfConsumers) == list[i].consumers;
    }
  }

  /** Every server is a peer of the meta group. */
  function MetaRow(servers: seq<string>, leader: Option<string>): (row: RaftRow)
    ensures row.leader == leader
    ensures forall name :: (name in row.members <==> name in servers) && (name in servers ==> row.members[name])
  {
    RaftRow(None, None, leader, map s | s in servers :: true)
  }

  lemma ServersListed(servers: seq<string>, serverOrder: seq<string>, list: seq<AggregatedAccount>)
    requires SetOf(servers) == SetOf(serverOrder) + MemberNames(AllStreams(list))
    ensures ServersFit(servers, serverOrder, list)
  {
    hide Mentioned, ListedStreams, AllStreams, MemberNames;
    AllPairs(list);
    forall name ensures name in servers <==> name in serverOrder || Mentioned(ListedStreams(list), name) {
      NamesMentioned(AllStreams(list), name);
      assert name in servers <==> name in SetOf(servers);
      assert name in serverOrder <==> name in SetOf(serverOrder);
    }
  }

  /** The heatmap's rows and the chart's numbers are about the same memberships. */
  method BuildTopology(o: AggregatedOverview, serverOrder: seq<string>) returns (t: View)
    ensures Distinct(t.servers) && SetOf(t.servers) == SetOf(serverOrder) + MemberNames(AllStreams(o.accountList))
    ensures t.streamRows == StreamRows(AllStreams(o.accountList))
    ensures t.consumerRows == ConsumerRows(AllStreams(o.accountList))
    ensures MembersIn(t.streamRows, SetOf(t.servers)) && MembersIn(t.consumerRows, SetOf(t.servers))
    ensures |t.serverStats| == |t.servers|
    ensures forall i :: 0 <= i < |t.servers| ==>
      && t.serverStats[i].name == t.servers[i]
      && t.serverStats[i].streams == Tally(LeaderRows(t.streamRows, t.servers[i]), FollowerRows(t.streamRows, t.servers[i]))
      && t.serverStats[i].consumers == Tally(LeaderRows(t.consumerRows, t.servers[i]), FollowerRows(t.consumerRows, t.servers[i]))
      && RoleOf(t.metaRow, t.servers[i]) == if t.serverStats[i].metaLeader then Leader else Follower
    ensures RowsFit(t.streamRows, t.consumerRows, o.accountList)
    ensures ServersFit(t.servers, serverOrder, o.accountList)
    ensures forall i :: 0 <= i < |t.servers| ==>
      && Charted(t.serverStats[i].streams, t.streamRows, t.servers[i])
      && Charted(t.serverStats[i].consumers, t.consumerRows, t.servers[i])
      && (t.serverStats[i].metaLeader <==> o.meta.Some? && o.meta.value.leader == Some(t.servers[i]))
    ensures t.metaRow.leader == (if o.meta.Some? then o.meta.value.leader else None)
    ensures forall name :: (name in t.metaRow.members <==> name in t.servers) && (name in t.servers ==> t.metaRow.members[name])
  {
    hide RowsFit, ServersFit, Charted, StreamRows, ConsumerRows, AllStreams, LeaderRows, FollowerRows, MetaRow;
    var streams := Streams(o.accountList);
    var fromMembers := GatherNames(streams);
    // Without a server order the list is fromMembers, which is the same set.
    var servers := Listed(if |serverOrder| > 0 then SetOf(serverOrder) + fromMembers else fromMembers);
    var metaLeader := match o.meta case None => None case Some(m) => m.leader;
    var metaRow := MetaRow(servers, metaLeader);
    var streamRows, consumerRows := Rows(streams);
    RowsInMemberNames(streams);
    var list := Chart(servers, metaLeader, streamRows, consumerRows);
    t := View(servers, metaRow, streamRows, consumerRows, list);
    AllRowsFit(o.accountList);
    ServersListed(servers, serverOrder, o.accountList);
  }
}

/** The rows as built against the overview's own fields. */
module TopologyListing {
  import opened Prelude
  import opened Overview
  import opened Topology
  import opened TopologyProofs
  import opened TopologyFields

  function Pair(p: Placed): (string, AggregatedStream) { (p.account, p.s) }

  function Pairs(streams: seq<Placed>): seq<(string, AggregatedStream)> {
    seq(|streams|, i requires 0 <= i < |streams| => Pair(streams[i]))
  }

  lemma {:induction false} PlacedAt(account: string, streams: seq<AggregatedStream>)
    ensures |PlacedIn(account, streams)| == |streams|
    ensures forall i :: 0 <= i < |streams| ==> PlacedIn(account, streams)[i] == Placed(account, streams[i])
  {
    if streams != [] {
      PlacedAt(account, streams[..|streams| - 1]);
    }
  }

  lemma PairsConcat(a: seq<Placed>, b: seq<Placed>)
    ensures Pairs(a + b) == Pairs(a) + Pairs(b)
  {
  }

  lemma {:induction false} AllPairs(list: seq<AggregatedAccount>)
    ensures Pairs(AllStreams(list)) == ListedStreams(list)
  {
    hide Pairs, PlacedIn;
    if list == [] {
      assert Pairs([]) == [] by { NoPairs(); }
    } else {
      var init, last := list[..|list| - 1], list[|list| - 1];
      AllPairs(init);
      PairsConcat(AllStreams(init), PlacedIn(last.name, last.streams));
      PairsIn(last.name, last.streams);
    }
  }

  lemma NoPairs()
    ensures Pairs([]) == []
  {
  }

  lemma PairsIn(account: string, streams: seq<AggregatedStream>)
    ensures Pairs(PlacedIn(account, streams)) == StreamsOf(account, streams)
  {
    PlacedAt(account, streams);
  }

  // ----- members ----------------------------------------------------------------------------

  lemma {:induction false} LastNamedHas(replicas: seq<Replica>, name: string)
    ensures LastNamed(replicas, name).Some? <==> HasReplica(replicas, name)
  {
    if replicas != [] && replicas[|replicas| - 1].name != name {
      var init := replicas[..|replicas| - 1];
      LastNamedHas(init, name);
      if HasReplica(init, name) {
        var i :| 0 <= i < |init| && init[i].name == name;
        assert replicas[i].name == name;
      }
    }
  }

  lemma {:induction false} LastNamedAt(replicas: seq<Replica>, i: nat)
    requires LastOfName(replicas, i)
    ensures LastNamed(replicas, replicas[i].name) == Some(replicas[i])
  {
    if i < |replicas| - 1 {
      LastNamedAt(replicas[..|replicas| - 1], i);
    }
  }

  lemma MapMembers(replicas: seq<Replica>)
    ensures Members(ReplicaMap(replicas), replicas, None)
  {
    hide LastOfName, HasReplica, ReplicaMap, LastNamed;
    LastInRange(replicas);
    forall name ensures name in ReplicaMap(replicas) <==> HasReplica(replicas, name) {
      ReplicaMapLast(replicas, name);
      LastNamedHas(replicas, name);
    }
    forall i: nat | i < |replicas| && LastOfName(replicas, i)
      ensures replicas[i].name in ReplicaMap(replicas) && ReplicaMap(replicas)[replicas[i].name] == replicas[i].current
    {
      LastNamedAt(replicas, i);
      ReplicaMapLast(replicas, replicas[i].name);
    }
  }

  lemma LastInRange(replicas: seq<Replica>)
    ensures forall i: nat :: LastOfName(replicas, i) ==> i < |replicas|
  {
  }

  lemma WithLeader(s: AggregatedStream)
    ensures Members(StreamMembers(s), OwnReplicas(s), OwnLeader(s))
  {
    hide HasReplica, LastOfName;
    MapMembers(OwnReplicas(s));
    assert OwnReplicas(s) == StreamReplicas(s) && OwnLeader(s) == LeaderOf(s.cluster);
    MembersHaveLast(OwnReplicas(s));
  }

  lemma MembersHaveLast(replicas: seq<Replica>)
    ensures forall i: nat :: LastOfName(replicas, i) ==> HasReplica(replicas, replicas[i].name)
  {
  }

  lemma ConsumerFit(p: Placed, c: AggregatedConsumer)
    ensures ConsumerFits(ConsumerRow(p, c), (p.account, p.s, c))
  {
    hide Members, StreamMembers;
    WithLeader(p.s);
    MapMembers(ConsumerReplicas(c));
  }

  lemma {:induction false} ConsumersFit(p: Placed, consumers: seq<AggregatedConsumer>)
    ensures |RowsOf(p, consumers)| == |consumers|
    ensures forall i :: 0 <= i < |consumers| ==> ConsumerFits(RowsOf(p, consumers)[i], (p.account, p.s, consumers[i]))
  {
    hide ConsumerFits, ConsumerRow;
    if consumers != [] {
      ConsumersFit(p, consumers[..|consumers| - 1]);
      ConsumerFit(p, consumers[|consumers| - 1]);
    }
  }

  lemma StreamFit(p: Placed)
    ensures StreamFits(StreamRow(p), Pair(p))
  {
    hide Members, StreamMembers;
    WithLeader(p.s);
  }

  lemma {:induction false} StreamsFit(streams: seq<Placed>)
    ensures |StreamRows(streams)| == |streams|
    ensures forall i :: 0 <= i < |streams| ==> StreamFits(StreamRows(streams)[i], Pair(streams[i]))
  {
    hide StreamFits, StreamRow, Pair;
    if streams != [] {
      StreamsFit(streams[..|streams| - 1]);
      StreamFit(streams[|streams| - 1]);
    }
  }

  lemma {:induction false} AllConsumersFit(streams: seq<Placed>)
    ensures |ConsumerRows(streams)| == |ConsumersOfAll(Pairs(streams))|
    ensures forall i :: 0 <= i < |ConsumerRows(streams)| ==> ConsumerFits(ConsumerRows(streams)[i], ConsumersOfAll(Pairs(streams))[i])
  {
    hide ConsumerFits, RowsOf;
    if streams != [] {
      var init, last := streams[..|streams| - 1], streams[|streams| - 1];
      AllConsumersFit(init);
      ConsumersFit(last, last.s.consumers);
      var pairs := Pairs(streams);
      assert pairs[..|pairs| - 1] == Pairs(init) && pairs[|pairs| - 1] == Pair(last);
    }
  }

  /** The rows are, one by one and in order, those of the listed streams and consumers. */
  lemma AllRowsFit(list: seq<AggregatedAccount>)
    ensures RowsFit(StreamRows(AllStreams(list)), ConsumerRows(AllStreams(list)), list)
  {
    hide StreamFits, ConsumerFits, ConsumersOfAll, StreamRows, ConsumerRows, AllStreams, ListedStreams;
    var streams := AllStreams(list);
    AllPairs(list);
    StreamsFit(streams);
    AllConsumersFit(streams);
    forall i | 0 <= i < |streams| ensures Pair(streams[i]) == ListedStreams(list)[i] {
      assert Pairs(streams)[i] == Pair(streams[i]);
    }
  }

  // ----- servers ------------------------------------------------------------------------------

  lemma {:induction false} NamesOfReplicas(replicas: seq<Replica>, name: string)
    ensures name in ReplicaNames(replicas) <==> HasReplica(replicas, name)
  {
    if replicas != [] {
      var init := replicas[..|replicas| - 1];
      NamesOfReplicas(init, name);
      if HasReplica(init, name) {
        var i :| 0 <= i < |init| && init[i].name == name;
        assert replicas[i].name == name;
      }
      assert replicas[|init|] == replicas[|replicas| - 1];
    }
  }

  lemma AnyConsumerConcat(a: seq<(string, AggregatedStream, AggregatedConsumer)>, b: seq<(string, AggregatedStream, AggregatedConsumer)>,
                     name: string)
    ensures AnyConsumer(a + b, name) <==> AnyConsumer(a, name) || AnyConsumer(b, name)
  {
    hide InConsumer;
    if AnyConsumer(a, name) {
      var i :| 0 <= i < |a| && InConsumer(a[i], name);
      assert (a + b)[i] == a[i];
    }
    if AnyConsumer(b, name) {
      var i :| 0 <= i < |b| && InConsumer(b[i], name);
      assert (a + b)[|a| + i] == b[i];
    }
  }

  lemma {:induction false} NamesOfConsumers(p: (string, AggregatedStream), consumers: seq<AggregatedConsumer>, name: string)
    ensures name in ConsumerNames(consumers) <==> AnyConsumer(ConsumersOf((p.0, p.1.(consumers := consumers))), name)
  {
    var all := ConsumersOf((p.0, p.1.(consumers := consumers)));
    if consumers != [] {
      var init, last := consumers[..|consumers| - 1], consumers[|consumers| - 1];
      NamesOfConsumers(p, init, name);
      NamesOfReplicas(ConsumerReplicas(last), name);
      var before := ConsumersOf((p.0, p.1.(consumers := init)));
      forall i | 0 <= i < |init| ensures InConsumer(all[i], name) <==> InConsumer(before[i], name) {
      }
      LastConsumer(all[|init|], last, name);
      if AnyConsumer(before, name) {
        var i :| 0 <= i < |before| && InConsumer(before[i], name);
        assert InConsumer(all[i], name);
      }
    }
  }

  lemma LastConsumer(p: (string, AggregatedStream, AggregatedConsumer), c: AggregatedConsumer, name: string)
    requires p.2 == c
    ensures InConsumer(p, name) <==> name in LeaderName(ConsumerLeader(c.detail)) + ReplicaNames(ConsumerReplicas(c))
  {
    NamesOfReplicas(ConsumerReplicas(c), name);
    if c.detail.cluster.None? {
      assert !HasReplica([], name);
    }
  }

  lemma {:induction false} NamesMentioned(streams: seq<Placed>, name: string)
    ensures name in MemberNames(streams) <==> Mentioned(Pairs(streams), name)
  {
    hide ConsumersOf, InConsumer, InStream, ConsumerNames;
    if streams != [] {
      var init, last := streams[..|streams| - 1], streams[|streams| - 1];
      var pairs := Pairs(streams);
      NamesMentioned(init, name);
      assert pairs[..|pairs| - 1] == Pairs(init) && pairs[|pairs| - 1] == Pair(last);
      AnyConsumerConcat(ConsumersOfAll(Pairs(init)), ConsumersOf(Pair(last)), name);
      NamesOfConsumers(Pair(last), last.s.consumers, name);
      StreamNames(last, name);
      MentionedSnoc(Pairs(init), Pair(last), name);
      assert pairs == Pairs(init) + [Pair(last)];
    }
  }

  lemma StreamNames(p: Placed, name: string)
    ensures InStream(Pair(p), name) <==> name in ReplicaNames(StreamReplicas(p.s)) + LeaderName(LeaderOf(p.s.cluster))
  {
    NamesOfReplicas(StreamReplicas(p.s), name);
  }

  lemma AnyStreamSnoc(streams: seq<(string, AggregatedStream)>, p: (string, AggregatedStream), name: string)
    ensures AnyStream(streams + [p], name) <==> AnyStream(streams, name) || InStream(p, name)
  {
    hide InStream;
    var all := streams + [p];
    if AnyStream(streams, name) {
      var i :| 0 <= i < |streams| && InStream(streams[i], name);
      assert InStream(all[i], name);
    }
    if InStream(p, name) {
      assert InStream(all[|streams|], name);
    }
  }

  lemma MentionedSnoc(streams: seq<(string, AggregatedStream)>, p: (string, AggregatedStream), name: string)
    ensures Mentioned(streams + [p], name) <==>
      Mentioned(streams, name) || InStream(p, name) || AnyConsumer(ConsumersOf(p), name)
  {
    hide InStream, InConsumer, ConsumersOf, AnyStream, AnyConsumer;
    var all := streams + [p];
    assert all[..|all| - 1] == streams && all[|all| - 1] == p;
    AnyConsumerConcat(ConsumersOfAll(streams), ConsumersOf(p), name);
    AnyStreamSnoc(streams, p, name);
  }

  // ----- counts -------------------------------------------------------------------------------

  lemma {:induction false} RowsCounted(rows: seq<RaftRow>, server: string)
    ensures LeaderRows(rows, server) == |Led(rows, server)|
    ensures FollowerRows(rows, server) == |Followed(rows, server)|
  {
    if rows != [] {
      var init, n := rows[..|rows| - 1], |rows| - 1;
      RowsCounted(init, server);
      LastCounted(rows, server);
      assert n !in Led(init, server) && n !in Followed(init, server);
    }
  }

  lemma LastCounted(rows: seq<RaftRow>, server: string)
    requires rows != []
    ensures var init, n := rows[..|rows| - 1], |rows| - 1;
      && Led(rows, server) == (if RoleOf(rows[n], server).Leader? then Led(init, server) + {n} else Led(init, server))
      && Followed(rows, server) == (if Follows(rows[n], server) then Followed(init, server) + {n} else Followed(init, server))
  {
  }
}

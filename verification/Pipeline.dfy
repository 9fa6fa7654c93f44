/** `aggregateOverview` feeding `buildTopology`: from server replies to the rows and
    numbers of the topology view. */
module Pipeline {
  import opened Prelude
  import opened Counting
  import opened Overview
  import opened Topology
  import opened TopologyProofs
  import opened BuildTopology
  import AggregateSpec
  import AggregateTheorems
  import AggregateConsumers
  import AggregateOverview
  import PipelineLeaders

  function StreamConsumers(s: AggregatedStream): nat {
    |s.consumers|
  }

  function AccountConsumers(a: AggregatedAccount): nat {
    CountOf(a.streams, StreamConsumers)
  }

  // ----- consumer rows are listed consumers ------------------------------------------------

  lemma {:induction false} RowsOfCount(p: Placed, consumers: seq<AggregatedConsumer>)
    ensures |RowsOf(p, consumers)| == |consumers|
  {
    if consumers != [] {
      RowsOfCount(p, consumers[..|consumers| - 1]);
    }
  }

  lemma ConsumerRowsSnoc(streams: seq<Placed>, p: Placed)
    ensures |ConsumerRows(streams + [p])| == |ConsumerRows(streams)| + |p.s.consumers|
  {
    assert (streams + [p])[..|streams|] == streams;
    RowsOfCount(p, p.s.consumers);
  }

  lemma {:induction false} ConsumerRowsConcat(streams: seq<Placed>, account: string, more: seq<AggregatedStream>)
    ensures |ConsumerRows(streams + PlacedIn(account, more))| == |ConsumerRows(streams)| + CountOf(more, StreamConsumers)
  {
    hide ConsumerRows;
    if more == [] {
      assert streams + PlacedIn(account, more) == streams;
    } else {
      var init, last := more[..|more| - 1], more[|more| - 1];
      ConsumerRowsConcat(streams, account, init);
      ConsumerRowsSnoc(streams + PlacedIn(account, init), Placed(account, last));
      assert streams + PlacedIn(account, more) == (streams + PlacedIn(account, init)) + [Placed(account, last)];
    }
  }

  lemma {:induction false} ConsumerRowCount(list: seq<AggregatedAccount>)
    ensures |ConsumerRows(AllStreams(list))| == CountOf(list, AccountConsumers)
  {
    if list != [] {
      var init, last := list[..|list| - 1], list[|list| - 1];
      ConsumerRowCount(init);
      ConsumerRowsConcat(AllStreams(init), last.name, last.streams);
    }
  }

  // ----- listed consumers of the aggregated view ---------------------------------------------

  lemma {:induction false} StreamValuesCount(m: AggregateSpec.Model, keys: seq<string>)
    ensures CountOf(AggregateSpec.StreamValues(m, keys), StreamConsumers) == AggregateConsumers.KeyRows(keys, m.entries)
  {
    if keys != [] {
      var init, last := keys[..|keys| - 1], keys[|keys| - 1];
      StreamValuesCount(m, init);
      var values := AggregateSpec.StreamValues(m, keys);
      if last in m.entries {
        assert values[..|values| - 1] == AggregateSpec.StreamValues(m, init);
      } else {
        assert values == AggregateSpec.StreamValues(m, init);
      }
    }
  }

  lemma {:induction false} AccountValuesCount(m: AggregateSpec.Model, order: seq<string>)
    requires forall a :: a in order ==> a in m.accounts
    ensures CountOf(AggregateSpec.AccountValues(m, order), AccountConsumers) == AggregateConsumers.Rows(order, m)
  {
    if order != [] {
      var init, a := order[..|order| - 1], order[|order| - 1];
      AccountValuesCount(m, init);
      StreamValuesCount(m, m.accounts[a].keys);
      var values := AggregateSpec.AccountValues(m, order);
      assert values[..|values| - 1] == AggregateSpec.AccountValues(m, init);
    }
  }

  /** At most one reply speaks as the leader of any stream. */
  ghost predicate SingleLeaders(replies: seq<Reply>) {
    forall key :: AggregateSpec.LeaderCount(AggregateSpec.Events(replies), key) <= 1
  }

  /** The whole pipeline: the consumer rows never outnumber the consumers counted in
      the totals, and match them when no stream has two leaders; every membership
      shown by the heatmap is counted once by the chart. */
  method OverviewTopology(replies: seq<Reply>, serverOrder: seq<string>) returns (o: AggregatedOverview, t: View)
    ensures o.totals == AggregateSpec.TotalsOf(AggregateSpec.Events(replies), None)
    ensures |t.consumerRows| <= o.totals.consumers
    ensures SingleLeaders(replies) ==> |t.consumerRows| == o.totals.consumers
    ensures SumLeaders(t.servers, t.streamRows) + SumFollowers(t.servers, t.streamRows) == Memberships(t.streamRows)
    ensures SumLeaders(t.servers, t.consumerRows) + SumFollowers(t.servers, t.consumerRows) == Memberships(t.consumerRows)
    ensures SingleLeaders(replies) ==> o.totals.streams <= SumLeaders(t.servers, t.streamRows)
    ensures SingleLeaders(replies) ==>
      (o.totals.streams == SumLeaders(t.servers, t.streamRows) <==>
        PipelineLeaders.LeadersHeard(AggregateSpec.Events(replies)))
    ensures forall i :: 0 <= i < |t.serverStats| && i < |t.servers| ==>
      && t.serverStats[i].streams == Tally(LeaderRows(t.streamRows, t.servers[i]), FollowerRows(t.streamRows, t.servers[i]))
      && t.serverStats[i].consumers == Tally(LeaderRows(t.consumerRows, t.servers[i]), FollowerRows(t.consumerRows, t.servers[i]))
  {
    hide AggregateSpec.Run, AggregateSpec.Events;
    o := AggregateOverview.AggregateOverview(replies);
    t := BuildTopology.BuildTopology(o, serverOrder);
    ghost var events := AggregateSpec.Events(replies);
    ghost var m := AggregateSpec.Run(events);
    AggregateTheorems.EventsOrdered(replies);
    AggregateConsumers.ListedAtMostCounted(events);
    AccountValuesCount(m, m.order);
    CountPermuted(o.accountList, AggregateSpec.AccountValues(m, m.order), AccountConsumers);
    ConsumerRowCount(o.accountList);
    MembershipsConserved(t.servers, t.streamRows);
    MembershipsConserved(t.servers, t.consumerRows);
    CountPermuted(o.accountList, AggregateSpec.AccountValues(m, m.order), PipelineLeaders.AccountLed);
    PipelineLeaders.LedRowCount(o.accountList);
    PipelineLeaders.LedStreams(events);
  }
}

/** The streams the header counts, against the leaderships the chart counts. */
module PipelineLeaders {
  import opened Prelude
  import opened Counting
  import opened Overview
  import opened Topology
  import opened TopologyProofs
  import opened AggregateSpec
  import opened AggregateProofs
  import opened AggregateTheorems
  import opened AggregateConsumers

  // ----- leader reports, key by key ---------------------------------------------------------

  function LeaderSum(keys: seq<string>, events: seq<Event>): nat {
    if keys == [] then 0 else LeaderSum(keys[..|keys| - 1], events) + LeaderCount(events, keys[|keys| - 1])
  }

  /** How many of `keys` the visit is a leader's report of. */
  function LeadsAmong(keys: seq<string>, e: Event): nat {
    if keys == [] then 0 else LeadsAmong(keys[..|keys| - 1], e) + One(Leads(e, keys[|keys| - 1]))
  }

  lemma {:induction false} LeaderSumSnoc(keys: seq<string>, events: seq<Event>)
    requires events != []
    ensures LeaderSum(keys, events) == LeaderSum(keys, events[..|events| - 1]) + LeadsAmong(keys, events[|events| - 1])
  {
    hide Leads;
    if keys != [] {
      LeaderSumSnoc(keys[..|keys| - 1], events);
    }
  }

  lemma {:induction false} NoLeaderYet(keys: seq<string>)
    ensures LeaderSum(keys, []) == 0
  {
    if keys != [] {
      NoLeaderYet(keys[..|keys| - 1]);
    }
  }

  /** A leader's report is one of exactly one key. */
  lemma {:induction false} LeadsOnce(keys: seq<string>, e: Event)
    requires Distinct(keys)
    ensures LeadsAmong(keys, e) ==
      One(e.Stream? && IsLeader(e.server, e.s) && Key(e.account, e.s.name) in keys)
  {
    hide IsLeader, Key;
    if keys != [] {
      var init, last := keys[..|keys| - 1], keys[|keys| - 1];
      assert keys == init + [last];
      LeadsOnce(init, e);
    }
  }

  /** The streams of the overall totals are the leader reports, summed over any list of keys that has them all. */
  lemma {:induction false} LeaderSumTotal(keys: seq<string>, events: seq<Event>)
    requires Distinct(keys)
    requires forall e :: e in events && e.Stream? ==> Key(e.account, e.s.name) in keys
    ensures LeaderSum(keys, events) == TotalsOf(events, None).streams
  {
    hide Key, IsLeader, Leads, LedConsumers;
    if events == [] {
      NoLeaderYet(keys);
    } else {
      var init, e := events[..|events| - 1], events[|events| - 1];
      assert e in events && forall x :: x in init ==> x in events;
      LeaderSumTotal(keys, init);
      LeaderSumSnoc(keys, events);
      LeadsOnce(keys, e);
    }
  }

  // ----- all keys of the fold ---------------------------------------------------------------

  function AllKeys(order: seq<string>, m: Model): seq<string> {
    if order == [] then [] else AllKeys(order[..|order| - 1], m) + KeysOf(m, order[|order| - 1])
  }

  lemma {:induction false} InAllKeys(order: seq<string>, m: Model, key: string)
    ensures key in AllKeys(order, m) <==> exists a :: a in order && key in KeysOf(m, a)
  {
    if order != [] {
      var init, last := order[..|order| - 1], order[|order| - 1];
      assert order == init + [last];
      assert forall a :: a in order <==> a in init || a == last;
      InAllKeys(init, m, key);
      var all, before := AllKeys(order, m), AllKeys(init, m);
      assert all == before + KeysOf(m, last);
      assert key in all <==> key in before || key in KeysOf(m, last);
      if key in before {
        var a :| a in init && key in KeysOf(m, a);
        assert a in order && key in KeysOf(m, a);
      } else if key in KeysOf(m, last) {
        assert last in order && key in KeysOf(m, last);
      }
    }
  }

  ghost predicate KeysApart(order: seq<string>, m: Model) {
    && (forall a :: a in order ==> Distinct(KeysOf(m, a)))
    && (forall a, b, key :: key in KeysOf(m, a) && key in KeysOf(m, b) ==> a == b)
  }

  lemma DistinctConcat<T>(a: seq<T>, b: seq<T>)
    requires Distinct(a) && Distinct(b) && forall x :: x in a ==> x !in b
    ensures Distinct(a + b)
  {
    var ab := a + b;
    forall i, j | 0 <= i < j < |ab| ensures ab[i] != ab[j] {
      if i < |a| <= j {
        assert ab[i] == a[i] && ab[j] == b[j - |a|] && a[i] in a;
      }
    }
  }

  lemma {:induction false} AllKeysDistinct(order: seq<string>, m: Model)
    requires Distinct(order) && KeysApart(order, m)
    ensures Distinct(AllKeys(order, m))
  {
    if order != [] {
      var init, last := order[..|order| - 1], order[|order| - 1];
      assert order == init + [last];
      AllKeysDistinct(init, m);
      var before, more := AllKeys(init, m), KeysOf(m, last);
      assert Distinct(more) by { assert last in order; }
      forall key | key in before ensures key !in more {
        InAllKeys(init, m, key);
      }
      DistinctConcat(before, more);
    }
  }

  lemma RunKeys(events: seq<Event>)
    requires Ordered(events)
    ensures Distinct(AllKeys(Run(events).order, Run(events)))
    ensures forall key :: key in AllKeys(Run(events).order, Run(events)) <==> key in Run(events).entries
    ensures forall e :: e in events && e.Stream? ==> Key(e.account, e.s.name) in Run(events).entries
  {
    hide Run, Ordered, Key, AllKeys;
    var m := Run(events);
    OrderDistinct(events);
    forall a | a in m.order ensures Distinct(KeysOf(m, a)) {
      KeysDistinct(events, a);
    }
    forall a, b, key | key in KeysOf(m, a) && key in KeysOf(m, b) ensures a == b {
      KeyListed(events, a, key);
      KeyListed(events, b, key);
    }
    AllKeysDistinct(m.order, m);
    forall key ensures key in AllKeys(m.order, m) <==> key in m.entries {
      InAllKeys(m.order, m, key);
      EntryAuthoritative(events, key);
      if key in m.entries {
        KeyListed(events, FirstReport(events, key).value.account, key);
      }
      forall a | key in KeysOf(m, a) ensures key in m.entries {
        KeyListed(events, a, key);
      }
    }
    forall e | e in events && e.Stream? ensures Key(e.account, e.s.name) in m.entries {
      var key := Key(e.account, e.s.name);
      FirstReportIn(events, key);
      EntryAuthoritative(events, key);
      assert Reports(e, key);
    }
  }

  // ----- rows led from within ---------------------------------------------------------------

  /** The stream's row is one its leader is a member of. */
  predicate Led(s: AggregatedStream) {
    LedFromWithin(StreamRow(Placed("", s)))
  }

  function StreamLed(s: AggregatedStream): nat {
    One(Led(s))
  }

  function AccountLed(a: AggregatedAccount): nat {
    CountOf(a.streams, StreamLed)
  }

  lemma LedRowsSnoc(streams: seq<Placed>, account: string, s: AggregatedStream)
    ensures LedRows(StreamRows(streams + [Placed(account, s)])) == LedRows(StreamRows(streams)) + StreamLed(s)
  {
    var all := streams + [Placed(account, s)];
    assert all[..|all| - 1] == streams;
    var rows := StreamRows(all);
    assert rows == StreamRows(streams) + [StreamRow(Placed(account, s))];
    assert rows[..|rows| - 1] == StreamRows(streams);
  }

  lemma {:induction false} LedRowsConcat(streams: seq<Placed>, account: string, more: seq<AggregatedStream>)
    ensures LedRows(StreamRows(streams + PlacedIn(account, more))) == LedRows(StreamRows(streams)) + CountOf(more, StreamLed)
  {
    hide LedRows, StreamRows, StreamLed;
    if more == [] {
      assert streams + PlacedIn(account, more) == streams;
    } else {
      var init, last := more[..|more| - 1], more[|more| - 1];
      LedRowsConcat(streams, account, init);
      LedRowsSnoc(streams + PlacedIn(account, init), account, last);
      assert streams + PlacedIn(account, more) == streams + PlacedIn(account, init) + [Placed(account, last)];
    }
  }

  lemma {:induction false} LedRowCount(list: seq<AggregatedAccount>)
    ensures LedRows(StreamRows(AllStreams(list))) == CountOf(list, AccountLed)
  {
    if list != [] {
      var init, last := list[..|list| - 1], list[|list| - 1];
      LedRowCount(init);
      LedRowsConcat(AllStreams(init), last.name, last.streams);
    }
  }

  function LedKeys(keys: seq<string>, m: Model): nat {
    if keys == [] then 0
    else
      var last := keys[|keys| - 1];
      LedKeys(keys[..|keys| - 1], m) + One(last in m.entries && Led(m.entries[last]))
  }

  lemma {:induction false} LedKeysConcat(keys: seq<string>, more: seq<string>, m: Model)
    ensures LedKeys(keys + more, m) == LedKeys(keys, m) + LedKeys(more, m)
  {
    hide Led;
    if more == [] {
      assert keys + more == keys;
    } else {
      var all := keys + more;
      assert all[..|all| - 1] == keys + more[..|more| - 1];
      LedKeysConcat(keys, more[..|more| - 1], m);
    }
  }

  lemma {:induction false} LedValues(m: Model, keys: seq<string>)
    ensures CountOf(StreamValues(m, keys), StreamLed) == LedKeys(keys, m)
  {
    hide Led;
    if keys != [] {
      var init, last := keys[..|keys| - 1], keys[|keys| - 1];
      LedValues(m, init);
      if last in m.entries {
        CountSnoc(StreamValues(m, init), m.entries[last], StreamLed);
      } else {
        assert StreamValues(m, keys) == StreamValues(m, init);
      }
    }
  }

  lemma {:induction false} LedAccounts(m: Model, order: seq<string>)
    requires forall a :: a in order ==> a in m.accounts
    ensures CountOf(AccountValues(m, order), AccountLed) == LedKeys(AllKeys(order, m), m)
  {
    hide LedKeys, StreamValues;
    if order == [] {
      NoLedKeys(m);
    } else {
      var init, a := order[..|order| - 1], order[|order| - 1];
      LedAccounts(m, init);
      LedValues(m, m.accounts[a].keys);
      LedKeysConcat(AllKeys(init, m), KeysOf(m, a), m);
      var value := AggregatedAccount(a, m.accounts[a].info, StreamValues(m, m.accounts[a].keys), m.accounts[a].totals);
      CountSnoc(AccountValues(m, init), value, AccountLed);
    }
  }

  lemma NoLedKeys(m: Model)
    ensures LedKeys([], m) == 0
  {
  }

  // ----- the two counts ---------------------------------------------------------------------

  /** The report says who leads the stream: a named server, or a nameless one among nameless replicas. */
  ghost predicate NamesLeader(e: Event)
    requires e.Stream?
  {
    match e.s.cluster
    case None => false
    case Some(c) => Truthy(c.leader) || (c.leader == Some("") && exists r :: r in c.replicas && r.name == "")
  }

  ghost predicate FirstNamesLeader(events: seq<Event>, key: string) {
    var first := FirstReport(events, key);
    first.Some? && first.value.Stream? && NamesLeader(first.value)
  }

  /** Of every stream whose first report names a leader some report came from its leader. */
  ghost predicate LeadersHeard(events: seq<Event>) {
    forall key :: FirstNamesLeader(events, key) ==> LastLeader(events, key).Some?
  }

  ghost predicate ShownLed(m: Model, key: string) {
    key in m.entries && Led(m.entries[key])
  }

  /** A stream no leader reported is shown with the leader its first report names. */
  lemma UnheardIsLed(events: seq<Event>, key: string)
    requires Ordered(events) && LastLeader(events, key).None?
    ensures ShownLed(Run(events), key) <==> FirstNamesLeader(events, key)
  {
    hide Run, Ordered, Key;
    EntryAuthoritative(events, key);
    if key in Run(events).entries {
      StreamRowLed(Placed("", Run(events).entries[key]));
    }
  }

  ghost predicate ShownHeard(events: seq<Event>, m: Model) {
    forall key :: ShownLed(m, key) ==> LastLeader(events, key).Some?
  }

  /** So the condition is about the streams shown. */
  lemma LeadersHeardShown(events: seq<Event>)
    requires Ordered(events)
    ensures LeadersHeard(events) <==> ShownHeard(events, Run(events))
  {
    hide Run, Ordered, ShownLed, FirstNamesLeader, LastLeader;
    var m := Run(events);
    forall key ensures (ShownLed(m, key) ==> LastLeader(events, key).Some?) <==>
                       (FirstNamesLeader(events, key) ==> LastLeader(events, key).Some?)
    {
      if LastLeader(events, key).None? {
        UnheardIsLed(events, key);
      }
    }
    if LeadersHeard(events) {
      assert ShownHeard(events, m);
    }
    if ShownHeard(events, m) {
      assert LeadersHeard(events);
    }
  }

  /** A leader's report makes its stream's row one that is led from within. */
  lemma HeardIsLed(events: seq<Event>, key: string)
    requires Ordered(events) && LastLeader(events, key).Some?
    ensures ShownLed(Run(events), key)
  {
    hide Run, Ordered, Key;
    LeadersReport(events, key);
    EntryAuthoritative(events, key);
    StreamRowLed(Placed("", Run(events).entries[key]));
  }

  lemma {:induction false} CompareKeys(events: seq<Event>, keys: seq<string>)
    requires Ordered(events) && forall key :: LeaderCount(events, key) <= 1
    requires forall key :: key in keys ==> key in Run(events).entries
    ensures LeaderSum(keys, events) <= LedKeys(keys, Run(events))
    ensures LeaderSum(keys, events) == LedKeys(keys, Run(events)) <==>
      forall key :: key in keys && ShownLed(Run(events), key) ==> LastLeader(events, key).Some?
  {
    hide Run, Ordered, Led, LeaderCount, LastLeader;
    if keys != [] {
      var init, last := keys[..|keys| - 1], keys[|keys| - 1];
      assert keys == init + [last];
      CompareKeys(events, init);
      LeadersReport(events, last);
      if LastLeader(events, last).Some? {
        HeardIsLed(events, last);
      }
    }
  }

  /** When no stream has two leaders, the streams counted are at most the rows led from within, and as many
      exactly when every leader named by a first report was heard. */
  lemma LedStreams(events: seq<Event>)
    requires Ordered(events)
    ensures forall a :: a in Run(events).order ==> a in Run(events).accounts
    ensures (forall key :: LeaderCount(events, key) <= 1) ==>
      var led := CountOf(AccountValues(Run(events), Run(events).order), AccountLed);
      && TotalsOf(events, None).streams <= led
      && (TotalsOf(events, None).streams == led <==> LeadersHeard(events))
  {
    hide Run, Ordered, Key, LeadersHeard, AccountValues, AllKeys, LedKeys, LeaderSum, Led, LeaderCount, LastLeader, TotalsOf, AccountLed;
    var m := Run(events);
    OrderDistinct(events);
    RunKeys(events);
    var keys := AllKeys(m.order, m);
    LeaderSumTotal(keys, events);
    LedAccounts(m, m.order);
    LeadersHeardShown(events);
    if forall key :: LeaderCount(events, key) <= 1 {
      CompareKeys(events, keys);
    }
  }
}

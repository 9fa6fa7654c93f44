/** How many consumers the aggregated view lists, against how many it counts. */
module AggregateConsumers {
  import opened Prelude
  import opened Overview
  import opened AggregateSpec
  import opened AggregateProofs
  import opened AggregateTheorems

  type Entries = map<string, AggregatedStream>

  function Listed(entries: Entries, key: string): nat {
    if key in entries then |entries[key].consumers| else 0
  }

  /** The consumers listed under `keys`. */
  function KeyRows(keys: seq<string>, entries: Entries): nat {
    if keys == [] then 0 else KeyRows(keys[..|keys| - 1], entries) + Listed(entries, keys[|keys| - 1])
  }

  function KeysOf(m: Model, a: string): seq<string> {
    if a in m.accounts then m.accounts[a].keys else []
  }

  /** The consumers listed under the accounts in `order`. */
  function Rows(order: seq<string>, m: Model): nat {
    if order == [] then 0 else Rows(order[..|order| - 1], m) + KeyRows(KeysOf(m, order[|order| - 1]), m.entries)
  }

  lemma {:induction false} KeyRowsSame(keys: seq<string>, entries: Entries, entries': Entries, key: string)
    requires key !in keys && forall k :: k != key ==> Listed(entries', k) == Listed(entries, k)
    ensures KeyRows(keys, entries') == KeyRows(keys, entries)
  {
    if keys != [] {
      KeyRowsSame(keys[..|keys| - 1], entries, entries', key);
    }
  }

  lemma {:induction false} KeyRowsOnce(keys: seq<string>, entries: Entries, entries': Entries, key: string)
    requires Distinct(keys) && key in keys && forall k :: k != key ==> Listed(entries', k) == Listed(entries, k)
    ensures KeyRows(keys, entries') - KeyRows(keys, entries) == Listed(entries', key) - Listed(entries, key)
  {
    var init, last := keys[..|keys| - 1], keys[|keys| - 1];
    assert keys == init + [last];
    if key == last {
      KeyRowsSame(init, entries, entries', key);
    } else {
      KeyRowsOnce(init, entries, entries', key);
    }
  }

  /** A visit that touches one key changes the rows of the one account listing it. */
  lemma {:induction false} RowsChange(order: seq<string>, m: Model, m': Model, key: string, home: string)
    requires Distinct(order)
    requires forall k :: k != key ==> Listed(m'.entries, k) == Listed(m.entries, k)
    requires forall a :: a != home ==> KeysOf(m', a) == KeysOf(m, a) && key !in KeysOf(m, a)
    ensures Rows(order, m') - Rows(order, m) ==
      if home in order then KeyRows(KeysOf(m', home), m'.entries) - KeyRows(KeysOf(m, home), m.entries) else 0
  {
    if order != [] {
      var init, last := order[..|order| - 1], order[|order| - 1];
      RowsChange(init, m, m', key, home);
      assert order == init + [last];
      if last != home {
        KeyRowsSame(KeysOf(m, last), m.entries, m'.entries, key);
      }
    }
  }

  lemma {:induction false} RowsOfNewAccount(order: seq<string>, m: Model, m': Model)
    requires m'.entries == m.entries && forall a :: KeysOf(m', a) == KeysOf(m, a)
    ensures Rows(order, m') == Rows(order, m)
  {
    if order != [] {
      RowsOfNewAccount(order[..|order| - 1], m, m');
    }
  }

  /** The account listing a key before or after the visit that reports it. */
  lemma OrderedInit(events: seq<Event>, e: Event)
    requires Ordered(events + [e])
    ensures Ordered(events) && (e.Stream? ==> FirstVisit(events, e.account).Some?)
  {
    assert (events + [e])[..|events|] == events;
  }

  /** The account that lists the key of the report `e`, once `e` is visited. */
  function Home(events: seq<Event>, e: Event): string
    requires e.Stream?
  {
    match FirstReport(events, Key(e.account, e.s.name))
    case Some(first) => first.account
    case None => e.account
  }

  /** The key lists before and after a report: its key is listed once, by the account of its first report. */
  lemma ReportedKeys(events: seq<Event>, e: Event)
    requires Ordered(events + [e]) && e.Stream?
    ensures var m, m' := Run(events), Visit(Run(events), e); var key := Key(e.account, e.s.name);
      var home := Home(events, e);
      && m'.order == m.order && home in m.order
      && (forall a :: a != home ==> KeysOf(m', a) == KeysOf(m, a) && key !in KeysOf(m, a))
      && KeysOf(m', home) == (if key in m.entries then KeysOf(m, home) else KeysOf(m, home) + [key])
      && (key in KeysOf(m, home) <==> key in m.entries)
      && (forall k :: k != key ==> Listed(m'.entries, k) == Listed(m.entries, k))
  {
    hide Report, Promoted, NewEntry, Key, IsLeader, Run, Ordered, FirstReport;
    var m, m' := Run(events), Visit(Run(events), e);
    var key := Key(e.account, e.s.name);
    OrderedInit(events, e);
    AccountVisited(events, e.account);
    OrderDistinct(events);
    EntryAuthoritative(events, key);
    var home := Home(events, e);
    forall a | a != home ensures KeysOf(m', a) == KeysOf(m, a) && key !in KeysOf(m, a) {
      KeyListed(events, a, key);
    }
    KeyListed(events, home, key);
  }

  lemma ReportedRows(events: seq<Event>, e: Event)
    requires Ordered(events + [e]) && e.Stream?
    ensures var m, m' := Run(events), Visit(Run(events), e); var key := Key(e.account, e.s.name);
      m'.order == m.order && Rows(m.order, m') - Rows(m.order, m) == Listed(m'.entries, key) - Listed(m.entries, key)
  {
    hide Key, Run, Ordered, FirstReport, Visit, Home;
    var m, m' := Run(events), Visit(Run(events), e);
    var key := Key(e.account, e.s.name);
    OrderedInit(events, e);
    OrderDistinct(events);
    ReportedKeys(events, e);
    var home := Home(events, e);
    var keys := KeysOf(m, home);
    KeysDistinct(events, home);
    RowsChange(m.order, m, m', key, home);
    if key in m.entries {
      KeyRowsOnce(keys, m.entries, m'.entries, key);
    } else {
      KeyRowsSame(keys, m.entries, m'.entries, key);
      assert (keys + [key])[..|keys|] == keys;
    }
  }

  /** One visit adds at least as many consumers to the totals as to the lists, and
      equally many when it is the first leader's report of its stream. */
  lemma VisitRows(events: seq<Event>, e: Event)
    requires Ordered(events + [e]) && e.Stream?
    ensures var m, m' := Run(events), Visit(Run(events), e); var key := Key(e.account, e.s.name);
      && Listed(m'.entries, key) - Listed(m.entries, key) <= Contribution(e, None).consumers
      && (LeaderCount(events + [e], key) <= 1 ==>
            Listed(m'.entries, key) - Listed(m.entries, key) == Contribution(e, None).consumers)
  {
    hide Key, IsLeader, LedConsumers;
    assert (events + [e])[..|events|] == events;
    var key := Key(e.account, e.s.name);
    AccountVisited(events, e.account);
    EntryAuthoritative(events, key);
    LeadersReport(events, key);
  }

  /** The lists never hold more consumers than the totals count, and they hold
      exactly as many when every stream has at most one leader's report. */
  lemma {:induction false} ListedAtMostCounted(events: seq<Event>)
    requires Ordered(events)
    ensures forall a :: a in Run(events).order ==> a in Run(events).accounts
    ensures Rows(Run(events).order, Run(events)) <= TotalsOf(events, None).consumers
    ensures (forall key :: LeaderCount(events, key) <= 1) ==> Rows(Run(events).order, Run(events)) == TotalsOf(events, None).consumers
  {
    hide Key, Contribution, VisitStream, Listed;
    OrderDistinct(events);
    if events != [] {
      var init, e := events[..|events| - 1], events[|events| - 1];
      assert events == init + [e];
      var m, m' := Run(init), Run(events);
      ListedAtMostCounted(init);
      forall key ensures LeaderCount(init, key) <= LeaderCount(events, key) {
      }
      if e.Stream? {
        ReportedRows(init, e);
        VisitRows(init, e);
      } else {
        AccountRows(m, e);
      }
    }
  }

  lemma AccountRows(m: Model, e: Event)
    requires e.Account?
    ensures Rows(Visit(m, e).order, Visit(m, e)) == Rows(m.order, m)
    ensures Contribution(e, None) == ZERO
  {
    var m' := Visit(m, e);
    RowsOfNewAccount(m.order, m, m');
    if e.account !in m.accounts {
      assert m'.order[..|m'.order| - 1] == m.order;
    }
  }

  /** The same for any replies. */
  lemma ConsumerRows(replies: seq<Reply>)
    ensures var m := Run(Events(replies));
      && (forall a :: a in m.order ==> a in m.accounts)
      && Rows(m.order, m) <= SumAccounts(m.order, m.accounts).consumers
      && ((forall key :: LeaderCount(Events(replies), key) <= 1) ==> Rows(m.order, m) == SumAccounts(m.order, m.accounts).consumers)
  {
    EventsOrdered(replies);
    ListedAtMostCounted(Events(replies));
    OverallTotals(Events(replies));
  }
}

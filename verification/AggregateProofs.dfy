/** The fold of `AggregateSpec` meets the definitions that do not mention it. */
module AggregateProofs {
  import opened Prelude
  import opened Overview
  import opened AggregateSpec

  // ----- accounts -----------------------------------------------------------------

  /** There is one account per visited name, with the info of its first visit. */
  lemma {:induction false} AccountVisited(events: seq<Event>, a: string)
    requires Ordered(events)
    ensures a in Run(events).order <==> a in Run(events).accounts
    ensures a in Run(events).accounts <==> FirstVisit(events, a).Some?
    ensures a in Run(events).accounts ==> FirstVisit(events, a) == Some(Run(events).accounts[a].info)
  {
    hide Report, Promoted, NewEntry, Key;
    if events != [] {
      AccountVisited(events[..|events| - 1], a);
    }
  }

  lemma {:induction false} OrderDistinct(events: seq<Event>)
    requires Ordered(events)
    ensures Distinct(Run(events).order)
    ensures forall a :: a in Run(events).order <==> a in Run(events).accounts
  {
    hide Report, Promoted, NewEntry, Key;
    if events != [] {
      OrderDistinct(events[..|events| - 1]);
    }
  }

  function TotalsIn(m: Model, a: string): Totals {
    if a in m.accounts then m.accounts[a].totals else ZERO
  }

  lemma EmptyTotals(a: string)
    ensures TotalsIn(Run([]), a) == ZERO
  {
  }

  lemma LeaderVisitTotals(m: Model, account: string, server: Option<string>, s: JszStream, a: string)
    requires account in m.accounts && IsLeader(server, s)
    ensures TotalsIn(VisitStream(m, server, account, s), a) ==
      if account == a then TotalsIn(m, a).Plus(Report(server, account, s)) else TotalsIn(m, a)
  {
    hide Report, Key, IsLeader, Promoted, NewEntry;
  }

  lemma OtherVisitTotals(m: Model, account: string, server: Option<string>, s: JszStream, a: string)
    requires account in m.accounts && !IsLeader(server, s)
    ensures TotalsIn(VisitStream(m, server, account, s), a) == TotalsIn(m, a)
  {
    hide Report, Key, IsLeader, Promoted, NewEntry;
  }

  lemma PlusZero(t: Totals)
    ensures t.Plus(ZERO) == t
  {
  }

  lemma VisitTotals(m: Model, e: Event, a: string)
    requires e.Stream? ==> e.account in m.accounts
    ensures TotalsIn(Visit(m, e), a) == TotalsIn(m, a).Plus(Contribution(e, Some(a)))
  {
    hide *;
    PlusZero(TotalsIn(m, a));
    VisitContribution(m, e, a);
  }

  lemma VisitContribution(m: Model, e: Event, a: string)
    requires e.Stream? ==> e.account in m.accounts
    ensures if e.Stream? && IsLeader(e.server, e.s) && e.account == a
      then TotalsIn(Visit(m, e), a) == TotalsIn(m, a).Plus(Report(e.server, a, e.s)) && Contribution(e, Some(a)) == Report(e.server, a, e.s)
      else TotalsIn(Visit(m, e), a) == TotalsIn(m, a) && Contribution(e, Some(a)) == ZERO
  {
    hide Report, Key, IsLeader, VisitStream;
    match e
    case Account(_, _) =>
    case Stream(server, account, s) =>
      if IsLeader(server, s) {
        LeaderVisitTotals(m, account, server, s, a);
      } else {
        OtherVisitTotals(m, account, server, s, a);
      }
  }

  /** The totals of each account are the sum of its leaders' reports. */
  lemma {:induction false} AccountTotals(events: seq<Event>, a: string)
    requires Ordered(events)
    ensures TotalsIn(Run(events), a) == TotalsOf(events, Some(a))
  {
    hide Visit, TotalsIn, Contribution;
    if events == [] {
      EmptyTotals(a);
    } else {
      var init, e := events[..|events| - 1], events[|events| - 1];
      AccountTotals(init, a);
      AccountVisited(init, e.account);
      VisitTotals(Run(init), e, a);
    }
  }

  function SumAccounts(order: seq<string>, accounts: map<string, AccountState>): Totals
    requires forall a :: a in order ==> a in accounts
  {
    if order == [] then ZERO
    else SumAccounts(order[..|order| - 1], accounts).Plus(accounts[order[|order| - 1]].totals)
  }

  lemma {:induction false} SumAccountsAdd(order: seq<string>, accounts: map<string, AccountState>,
                                          accounts': map<string, AccountState>, a: string, t: Totals)
    requires Distinct(order) && forall x :: x in order ==> x in accounts
    requires a in accounts && accounts'.Keys == accounts.Keys
    requires forall x :: x in accounts && x != a ==> accounts'[x].totals == accounts[x].totals
    requires accounts'[a].totals == accounts[a].totals.Plus(t)
    ensures SumAccounts(order, accounts') == if a in order then SumAccounts(order, accounts).Plus(t) else SumAccounts(order, accounts)
  {
    if order != [] {
      SumAccountsAdd(order[..|order| - 1], accounts, accounts', a, t);
      assert a in order <==> a in order[..|order| - 1] || a == order[|order| - 1];
    }
  }

  lemma VisitAccountSum(m: Model, account: string, info: Opaque)
    requires forall a :: a in m.order <==> a in m.accounts
    ensures var m' := VisitAccount(m, account, info);
      && (forall a :: a in m'.order ==> a in m'.accounts)
      && SumAccounts(m'.order, m'.accounts) == SumAccounts(m.order, m.accounts)
  {
    hide Totals.Plus, SumAccounts;
    var m' := VisitAccount(m, account, info);
    SumAccountsSame(m.order, m.accounts, m'.accounts);
    if account !in m.accounts {
      SumAccountsSnoc(m.order, m'.accounts, account);
      PlusZero(SumAccounts(m.order, m.accounts));
    }
  }

  lemma SumAccountsSnoc(order: seq<string>, accounts: map<string, AccountState>, a: string)
    requires a in accounts && forall x :: x in order ==> x in accounts
    ensures SumAccounts(order + [a], accounts) == SumAccounts(order, accounts).Plus(accounts[a].totals)
  {
    assert (order + [a])[..|order|] == order;
  }

  lemma VisitStreamSum(m: Model, server: Option<string>, account: string, s: JszStream)
    requires Distinct(m.order) && forall a :: a in m.order <==> a in m.accounts
    requires account in m.accounts
    ensures var m' := VisitStream(m, server, account, s);
      && (forall a :: a in m'.order ==> a in m'.accounts)
      && SumAccounts(m'.order, m'.accounts) ==
           SumAccounts(m.order, m.accounts).Plus(if IsLeader(server, s) then Report(server, account, s) else ZERO)
  {
    hide Report, Promoted, NewEntry, Key, IsLeader, SumAccounts;
    var m' := VisitStream(m, server, account, s);
    var t := if IsLeader(server, s) then Report(server, account, s) else ZERO;
    PlusZero(m.accounts[account].totals);
    SumAccountsAdd(m.order, m.accounts, m'.accounts, account, t);
  }

  lemma VisitSum(m: Model, e: Event)
    requires Distinct(m.order) && forall a :: a in m.order <==> a in m.accounts
    requires e.Stream? ==> e.account in m.accounts
    ensures var m' := Visit(m, e);
      && (forall a :: a in m'.order ==> a in m'.accounts)
      && SumAccounts(m'.order, m'.accounts) == SumAccounts(m.order, m.accounts).Plus(Contribution(e, None))
  {
    hide Report, VisitStream, VisitAccount, IsLeader, SumAccounts;
    match e
    case Account(account, info) =>
      VisitAccountSum(m, account, info);
      PlusZero(SumAccounts(m.order, m.accounts));
    case Stream(server, account, s) => VisitStreamSum(m, server, account, s);
  }

  /** The sum over the accounts is the sum over all leaders' reports. */
  lemma {:induction false} OverallTotals(events: seq<Event>)
    requires Ordered(events)
    ensures forall a :: a in Run(events).order ==> a in Run(events).accounts
    ensures SumAccounts(Run(events).order, Run(events).accounts) == TotalsOf(events, None)
  {
    hide Visit, Contribution;
    if events != [] {
      var init, e := events[..|events| - 1], events[|events| - 1];
      OrderDistinct(init);
      OverallTotals(init);
      AccountVisited(init, e.account);
      VisitSum(Run(init), e);
    }
  }

  lemma {:induction false} SumAccountsSame(order: seq<string>, accounts: map<string, AccountState>, accounts': map<string, AccountState>)
    requires forall x :: x in order ==> x in accounts && x in accounts' && accounts'[x] == accounts[x]
    ensures SumAccounts(order, accounts') == SumAccounts(order, accounts)
  {
    if order != [] {
      SumAccountsSame(order[..|order| - 1], accounts, accounts');
    }
  }

  // ----- streams --------------------------------------------------------------------

  lemma {:induction false} LeadersReport(events: seq<Event>, key: string)
    ensures FirstReport(events, key).Some? ==> Reports(FirstReport(events, key).value, key)
    ensures LastLeader(events, key).Some? ==> Leads(LastLeader(events, key).value, key)
    ensures LastLeader(events, key).Some? ==> FirstReport(events, key).Some?
    ensures LeaderCount(events, key) == 0 <==> LastLeader(events, key).None?
  {
    if events != [] {
      LeadersReport(events[..|events| - 1], key);
    }
  }

  /** Each key of the stream map holds the authoritative report of that key. */
  lemma {:induction false} EntryAuthoritative(events: seq<Event>, key: string)
    requires Ordered(events)
    ensures key in Run(events).entries <==> FirstReport(events, key).Some?
    ensures FirstReport(events, key).Some? ==> FirstReport(events, key).value.Stream?
    ensures LastLeader(events, key).Some? ==> LastLeader(events, key).value.Stream?
    ensures key in Run(events).entries ==>
      Run(events).entries[key] == Authoritative(FirstReport(events, key).value, LastLeader(events, key))
  {
    hide Report, Key;
    LeadersReport(events, key);
    if events != [] {
      var init, e := events[..|events| - 1], events[|events| - 1];
      AccountVisited(init, e.account);
      LeadersReport(init, key);
      EntryAuthoritative(init, key);
    }
  }

  /** A key is listed by the account of its first report and no other. */
  lemma {:induction false} KeyListed(events: seq<Event>, a: string, key: string)
    requires Ordered(events)
    ensures (a in Run(events).accounts && key in Run(events).accounts[a].keys) <==>
      FirstReport(events, key).Some? && FirstReport(events, key).value.account == a
  {
    hide Report, Promoted, NewEntry, Key;
    if events != [] {
      var init, e := events[..|events| - 1], events[|events| - 1];
      AccountVisited(init, e.account);
      EntryAuthoritative(init, key);
      KeyListed(init, a, key);
    }
  }

  /** No account lists a key twice. */
  lemma {:induction false} KeysDistinct(events: seq<Event>, a: string)
    requires Ordered(events) && a in Run(events).accounts
    ensures Distinct(Run(events).accounts[a].keys)
  {
    hide Report, Promoted, NewEntry;
    var init, e := events[..|events| - 1], events[|events| - 1];
    AccountVisited(init, e.account);
    if a in Run(init).accounts {
      KeysDistinct(init, a);
      if e.Stream? {
        var key := Key(e.account, e.s.name);
        EntryAuthoritative(init, key);
        KeyListed(init, a, key);
      }
    }
  }
}

/** The promises of `aggregateOverview` about any list of replies. */
module AggregateTheorems {
  import opened Prelude
  import opened Overview
  import opened AggregateSpec
  import opened AggregateProofs

  // ----- the visits of any replies are in order --------------------------------------

  lemma OrderedSnoc(events: seq<Event>, e: Event)
    requires Ordered(events) && (e.Stream? ==> FirstVisit(events, e.account).Some?)
    ensures Ordered(events + [e])
    ensures forall a :: FirstVisit(events, a).Some? ==> FirstVisit(events + [e], a).Some?
    ensures e.Account? ==> FirstVisit(events + [e], e.account).Some?
  {
    assert (events + [e])[..|events|] == events;
  }

  lemma {:induction false} StreamsOrdered(events: seq<Event>, server: Option<string>, account: string, streams: seq<JszStream>, n: nat)
    requires Ordered(events) && FirstVisit(events, account).Some? && n <= |streams|
    ensures Ordered(events + StreamEvents(server, account, streams)[..n])
    ensures FirstVisit(events + StreamEvents(server, account, streams)[..n], account).Some?
  {
    var all := StreamEvents(server, account, streams);
    if n == 0 {
      assert events + all[..0] == events;
    } else {
      StreamsOrdered(events, server, account, streams, n - 1);
      assert events + all[..n] == (events + all[..n - 1]) + [all[n - 1]];
      OrderedSnoc(events + all[..n - 1], all[n - 1]);
    }
  }

  lemma AccountOrdered(events: seq<Event>, server: Option<string>, a: JszAccount)
    requires Ordered(events)
    ensures Ordered(events + AccountEvents(server, a))
  {
    hide Ordered, StreamEvents;
    var visit := events + [Account(a.name, a.info)];
    var all := StreamEvents(server, a.name, a.streams);
    OrderedSnoc(events, Account(a.name, a.info));
    StreamsOrdered(visit, server, a.name, a.streams, |all|);
    assert all[..|all|] == all;
    assert events + AccountEvents(server, a) == visit + all;
  }

  lemma {:induction false} AccountsOrdered(events: seq<Event>, server: Option<string>, accounts: seq<JszAccount>)
    requires Ordered(events)
    ensures Ordered(events + AccountsEvents(server, accounts))
  {
    hide Ordered, AccountEvents;
    if accounts == [] {
      assert events + [] == events;
    } else {
      var init, a := accounts[..|accounts| - 1], accounts[|accounts| - 1];
      AccountsOrdered(events, server, init);
      AccountOrdered(events + AccountsEvents(server, init), server, a);
      assert events + AccountsEvents(server, accounts) == (events + AccountsEvents(server, init)) + AccountEvents(server, a);
    }
  }

  lemma {:induction false} EventsOrdered(replies: seq<Reply>)
    ensures Ordered(Events(replies))
  {
    if replies != [] {
      EventsOrdered(replies[..|replies| - 1]);
      var last := replies[|replies| - 1];
      AccountsOrdered(Events(replies[..|replies| - 1]), last.server, last.accounts);
    }
  }

  // ----- totals -------------------------------------------------------------------------

  /** For every input: an account appears exactly if some reply lists it, its totals
      are the sum over its leaders' reports, and the totals over all accounts are
      the sum over all leaders' reports. */
  lemma TotalsAreLeaderSums(replies: seq<Reply>, a: string)
    ensures var m := Run(Events(replies));
      && Distinct(m.order) && (forall x :: x in m.order <==> x in m.accounts)
      && (a in m.accounts <==> FirstVisit(Events(replies), a).Some?)
      && (a in m.accounts ==> m.accounts[a].totals == TotalsOf(Events(replies), Some(a)))
      && SumAccounts(m.order, m.accounts) == TotalsOf(Events(replies), None)
  {
    var events := Events(replies);
    EventsOrdered(replies);
    OrderDistinct(events);
    AccountVisited(events, a);
    AccountTotals(events, a);
    OverallTotals(events);
  }

  // ----- independence of reply order --------------------------------------------------

  lemma PlusSwap(t: Totals, u: Totals, v: Totals)
    ensures t.Plus(u).Plus(v) == t.Plus(v).Plus(u)
  {
  }

  lemma {:induction false} TotalsRemoved(events: seq<Event>, j: nat, which: Option<string>)
    requires j < |events|
    ensures TotalsOf(events, which) == TotalsOf(Without(events, j), which).Plus(Contribution(events[j], which))
  {
    hide Contribution;
    if j == |events| - 1 {
      assert Without(events, j) == events[..|events| - 1];
    } else {
      var init, last := events[..|events| - 1], events[|events| - 1];
      TotalsRemoved(init, j, which);
      WithoutLast(events, j);
      PlusSwap(TotalsOf(Without(init, j), which), Contribution(events[j], which), Contribution(last, which));
    }
  }

  lemma {:induction false} TotalsPermuted(events: seq<Event>, events': seq<Event>, which: Option<string>)
    requires multiset(events) == multiset(events')
    ensures TotalsOf(events, which) == TotalsOf(events', which)
  {
    hide Contribution;
    if events == [] {
      assert |multiset(events')| == 0;
    } else {
      var init, last := events[..|events| - 1], events[|events| - 1];
      assert last in multiset(events');
      var j :| 0 <= j < |events'| && events'[j] == last;
      WithoutMultiset(events', j);
      WithoutMultiset(events, |events| - 1);
      assert Without(events, |events| - 1) == init;
      Cancel(multiset(init), multiset(Without(events', j)), last);
      TotalsPermuted(init, Without(events', j), which);
      TotalsRemoved(events', j, which);
    }
  }

  lemma {:induction false} EventsRemoved(replies: seq<Reply>, j: nat)
    requires j < |replies|
    ensures multiset(Events(replies)) == multiset(Events(Without(replies, j))) + multiset(ReplyEvents(replies[j]))
  {
    hide ReplyEvents;
    if j == |replies| - 1 {
      assert Without(replies, j) == replies[..|replies| - 1];
    } else {
      EventsRemoved(replies[..|replies| - 1], j);
      WithoutLast(replies, j);
    }
  }

  lemma {:induction false} EventsPermuted(replies: seq<Reply>, replies': seq<Reply>)
    requires multiset(replies) == multiset(replies')
    ensures multiset(Events(replies)) == multiset(Events(replies'))
  {
    if replies == [] {
      assert |multiset(replies')| == 0;
    } else {
      var init, last := replies[..|replies| - 1], replies[|replies| - 1];
      assert last in multiset(replies');
      var j :| 0 <= j < |replies'| && replies'[j] == last;
      WithoutMultiset(replies', j);
      WithoutMultiset(replies, |replies| - 1);
      assert Without(replies, |replies| - 1) == init;
      Cancel(multiset(init), multiset(Without(replies', j)), last);
      EventsPermuted(init, Without(replies', j));
      EventsRemoved(replies', j);
    }
  }

  lemma {:induction false} VisitedIff(events: seq<Event>, a: string)
    ensures FirstVisit(events, a).Some? <==> exists info :: Account(a, info) in events
  {
    if events != [] {
      var init, last := events[..|events| - 1], events[|events| - 1];
      VisitedIff(init, a);
      assert events == init + [last];
      forall info ensures Account(a, info) in events <==> Account(a, info) in init || Account(a, info) == last {
      }
      if last.Account? && last.account == a {
        assert Account(a, last.info) in events;
      }
    }
  }

  /** Whatever order the servers answer in, the same accounts appear with the same
      totals, and the overall totals are the same. */
  lemma ReplyOrderKeepsTotals(replies: seq<Reply>, replies': seq<Reply>, a: string)
    requires multiset(replies) == multiset(replies')
    ensures var m, m' := Run(Events(replies)), Run(Events(replies'));
      && (a in m.accounts <==> a in m'.accounts)
      && (a in m.accounts ==> m.accounts[a].totals == m'.accounts[a].totals)
    ensures TotalsOf(Events(replies), None) == TotalsOf(Events(replies'), None)
  {
    hide Run, Ordered;
    var events, events' := Events(replies), Events(replies');
    EventsPermuted(replies, replies');
    TotalsAreLeaderSums(replies, a);
    TotalsAreLeaderSums(replies', a);
    TotalsPermuted(events, events', Some(a));
    TotalsPermuted(events, events', None);
    VisitedIff(events, a);
    VisitedIff(events', a);
    assert forall e :: e in events <==> e in multiset(events);
    assert forall e :: e in events' <==> e in multiset(events');
  }

  lemma {:induction false} LastLeaderIn(events: seq<Event>, key: string)
    ensures match LastLeader(events, key)
      case Some(e) => e in events && Leads(e, key)
      case None => forall e :: e in events ==> !Leads(e, key)
  {
    if events != [] {
      var init, last := events[..|events| - 1], events[|events| - 1];
      LastLeaderIn(init, key);
      assert events == init + [last];
    }
  }

  lemma {:induction false} OneLeader(events: seq<Event>, key: string, e: Event, e': Event)
    requires e in events && e' in events && Leads(e, key) && Leads(e', key)
    ensures LeaderCount(events, key) >= 1
    ensures e != e' ==> LeaderCount(events, key) >= 2
  {
    var init, last := events[..|events| - 1], events[|events| - 1];
    assert events == init + [last];
    if e in init {
      OneLeader(init, key, e, if e' in init then e' else e);
    } else if e' in init {
      OneLeader(init, key, e', e');
    }
  }

  /** When exactly one reply speaks as a stream's leader, its state, cluster,
      configuration and consumers do not depend on the order of the replies. */
  lemma ReplyOrderKeepsLedStream(replies: seq<Reply>, replies': seq<Reply>, key: string)
    requires multiset(replies) == multiset(replies')
    requires LeaderCount(Events(replies), key) == 1
    ensures var m, m' := Run(Events(replies)), Run(Events(replies'));
      && key in m.entries && key in m'.entries
      && m.entries[key].state == m'.entries[key].state
      && m.entries[key].cluster == m'.entries[key].cluster
      && m.entries[key].config == m'.entries[key].config
      && m.entries[key].consumers == m'.entries[key].consumers
  {
    hide Run, Ordered;
    var events, events' := Events(replies), Events(replies');
    EventsPermuted(replies, replies');
    EventsOrdered(replies);
    EventsOrdered(replies');
    EntryAuthoritative(events, key);
    EntryAuthoritative(events', key);
    LeadersReport(events, key);
    LeadersReport(events', key);
    LastLeaderIn(events, key);
    LastLeaderIn(events', key);
    var e := LastLeader(events, key).value;
    assert e in multiset(events');
    var e' := LastLeader(events', key).value;
    assert e' in multiset(events);
    OneLeader(events, key, e, e');
  }

  // ----- one entry per stream -----------------------------------------------------------

  predicate SlashFree(s: string) {
    '/' !in s
  }

  lemma LongerAccountHasSlash(a: string, s: string, a': string, s': string)
    requires Key(a, s) == Key(a', s') && |a| < |a'|
    ensures '/' in s
  {
    var k := Key(a, s);
    assert k[|a'|] == '/' == s[|a'| - |a| - 1];
  }

  /** The key separates accounts from streams whenever stream names have no slash. */
  lemma KeyInjective(a: string, s: string, a': string, s': string)
    requires SlashFree(s) && SlashFree(s')
    ensures Key(a, s) == Key(a', s') <==> a == a' && s == s'
  {
    if Key(a, s) == Key(a', s') {
      if |a| < |a'| {
        LongerAccountHasSlash(a, s, a', s');
      } else if |a'| < |a| {
        LongerAccountHasSlash(a', s', a, s);
      } else {
        var k := Key(a, s);
        assert a == k[..|a|] == a' && s == k[|a| + 1..] == s';
      }
    }
  }

  /** In general two keys agree exactly when a slash in one stream name can be read
      as the separator of the other. */
  lemma KeyCollides(a: string, s: string, a': string, s': string)
    requires |a| < |a'|
    ensures Key(a, s) == Key(a', s') <==>
      exists p: string :: |p| < |s| && a' == a + "/" + p && s == p + "/" + s'
  {
    if Key(a, s) == Key(a', s') {
      var k := Key(a, s);
      var p := a'[|a| + 1..];
      assert a' == k[..|a'|] && a == k[..|a|] && k[|a|] == '/';
      assert a' == a + "/" + p;
      assert s == k[|a| + 1..];
      assert s == p + "/" + s';
      assert |p| < |s|;
    }
    if p: string :| |p| < |s| && a' == a + "/" + p && s == p + "/" + s' {
      assert Key(a, s) == Key(a', s');
    }
  }

  /** No two different streams of the replies share a key. */
  ghost predicate NoCollision(events: seq<Event>) {
    forall i, j :: 0 <= i < |events| && 0 <= j < |events| && events[i].Stream? && events[j].Stream?
      && Key(events[i].account, events[i].s.name) == Key(events[j].account, events[j].s.name)
      ==> events[i].account == events[j].account && events[i].s.name == events[j].s.name
  }

  lemma {:induction false} FirstReportIn(events: seq<Event>, key: string)
    ensures match FirstReport(events, key)
      case Some(e) => e in events && Reports(e, key)
      case None => forall e :: e in events ==> !Reports(e, key)
  {
    if events != [] {
      var init, last := events[..|events| - 1], events[|events| - 1];
      FirstReportIn(init, key);
      assert events == init + [last];
    }
  }

  /** Without collisions each stream of each account has exactly one entry, under
      its own name, listed once by its own account and by no other, and holding its
      authoritative report. */
  lemma StreamsInTheirAccount(replies: seq<Reply>, i: nat)
    requires i < |Events(replies)| && Events(replies)[i].Stream?
    requires NoCollision(Events(replies))
    ensures var events := Events(replies); var m := Run(events); var e := events[i]; var key := Key(e.account, e.s.name);
      && key in m.entries && m.entries[key].account == e.account && m.entries[key].name == e.s.name
      && e.account in m.accounts && key in m.accounts[e.account].keys && Distinct(m.accounts[e.account].keys)
      && (forall a :: a in m.accounts && key in m.accounts[a].keys ==> a == e.account)
    ensures var events := Events(replies); var key := Key(events[i].account, events[i].s.name);
      && FirstReport(events, key).Some? && FirstReport(events, key).value.Stream?
      && (LastLeader(events, key).Some? ==> LastLeader(events, key).value.Stream?)
      && Run(events).entries[key] == Authoritative(FirstReport(events, key).value, LastLeader(events, key))
  {
    hide Run, Ordered, Key;
    var events := Events(replies);
    var e := events[i];
    var key := Key(e.account, e.s.name);
    EventsOrdered(replies);
    FirstReportIn(events, key);
    EntryAuthoritative(events, key);
    assert e in events && Reports(e, key);
    var first := FirstReport(events, key).value;
    var j :| 0 <= j < |events| && events[j] == first;
    assert first.account == e.account && first.s.name == e.s.name;
    KeyListed(events, e.account, key);
    KeysDistinct(events, e.account);
    forall a ensures a in Run(events).accounts && key in Run(events).accounts[a].keys ==> a == e.account {
      KeyListed(events, a, key);
    }
  }

  /** And a collision always loses one of the two streams: the key cannot be listed
      by both accounts. */
  lemma CollisionLosesStream(replies: seq<Reply>, i: nat, j: nat)
    requires i < |Events(replies)| && j < |Events(replies)| && Events(replies)[i].Stream? && Events(replies)[j].Stream?
    requires var e, f := Events(replies)[i], Events(replies)[j];
      Key(e.account, e.s.name) == Key(f.account, f.s.name) && e.account != f.account
    ensures var m := Run(Events(replies)); var e, f := Events(replies)[i], Events(replies)[j]; var key := Key(e.account, e.s.name);
      !(e.account in m.accounts && key in m.accounts[e.account].keys && f.account in m.accounts && key in m.accounts[f.account].keys)
  {
    hide Run, Ordered, Key;
    var events := Events(replies);
    EventsOrdered(replies);
    KeyListed(events, events[i].account, Key(events[i].account, events[i].s.name));
    KeyListed(events, events[j].account, Key(events[i].account, events[i].s.name));
  }

  /** Slash-free stream names rule collisions out. */
  lemma SlashFreeNoCollision(events: seq<Event>)
    requires forall i :: 0 <= i < |events| && events[i].Stream? ==> SlashFree(events[i].s.name)
    ensures NoCollision(events)
  {
    hide Key;
    forall i, j | 0 <= i < |events| && 0 <= j < |events| && events[i].Stream? && events[j].Stream?
      && Key(events[i].account, events[i].s.name) == Key(events[j].account, events[j].s.name)
      ensures events[i].account == events[j].account && events[i].s.name == events[j].s.name
    {
      KeyInjective(events[i].account, events[i].s.name, events[j].account, events[j].s.name);
    }
  }

  /** So with slash-free stream names every reported stream has its one entry, under its own name, listed once
      by its own account and by no other, and holding its authoritative report. */
  lemma SlashFreeStreams(replies: seq<Reply>, i: nat)
    requires i < |Events(replies)| && Events(replies)[i].Stream?
    requires forall j :: 0 <= j < |Events(replies)| && Events(replies)[j].Stream? ==> SlashFree(Events(replies)[j].s.name)
    ensures var events := Events(replies); var m := Run(events); var e := events[i]; var key := Key(e.account, e.s.name);
      && key in m.entries && m.entries[key].account == e.account && m.entries[key].name == e.s.name
      && (forall a :: a in m.accounts && key in m.accounts[a].keys <==> a == e.account)
      && Distinct(m.accounts[e.account].keys)
      && FirstReport(events, key).Some? && FirstReport(events, key).value.Stream?
      && (LastLeader(events, key).Some? ==> LastLeader(events, key).value.Stream?)
      && m.entries[key] == Authoritative(FirstReport(events, key).value, LastLeader(events, key))
  {
    hide Run, Ordered, Key, NoCollision, Events, SlashFree;
    SlashFreeNoCollision(Events(replies));
    StreamsInTheirAccount(replies, i);
  }

  // ----- two streams that share a key -----------------------------------------------------

  const BARE := JszStream("", "", None, "", None, [])

  /** Account "A" with stream "B/C", then account "A/B" with stream "C". */
  const COLLIDING := [
    Reply(Some("n1"), None, [JszAccount("A", "", [BARE.(name := "B/C")])]),
    Reply(Some("n2"), None, [JszAccount("A/B", "", [BARE.(name := "C")])])]

  lemma CollidingEvents()
    ensures Events(COLLIDING) ==
      [Account("A", ""), Stream(Some("n1"), "A", BARE.(name := "B/C")),
       Account("A/B", ""), Stream(Some("n2"), "A/B", BARE.(name := "C"))]
  {
    var r, s := COLLIDING[0], COLLIDING[1];
    assert COLLIDING[..1] == [r] && [r][..0] == [];
    OneAccount(r);
    OneAccount(s);
    assert Events([r]) == Events([]) + ReplyEvents(r);
  }

  lemma OneAccount(r: Reply)
    requires |r.accounts| == 1 && |r.accounts[0].streams| == 1
    ensures var a := r.accounts[0];
      ReplyEvents(r) == [Account(a.name, a.info), Stream(r.server, a.name, a.streams[0])]
  {
    var a := r.accounts[0];
    assert r.accounts == [a] && [a][..0] == [];
    assert ReplyEvents(r) == AccountsEvents(r.server, []) + AccountEvents(r.server, a);
    assert StreamEvents(r.server, a.name, a.streams) == [Stream(r.server, a.name, a.streams[0])];
  }

  /** The second account is left without its stream: it lists nothing, and no entry anywhere has the stream's name. */
  lemma CollisionHappens()
    ensures var m := Run(Events(COLLIDING));
      && "A/B" in m.accounts && m.accounts["A/B"].keys == []
      && forall key :: key in m.entries ==> m.entries[key].name != "C"
  {
    hide Events, Ordered;
    CollidingEvents();
    var events := Events(COLLIDING);
    var e, f := events[1], events[3];
    assert Key("A", "B/C") == "A/B/C" == Key("A/B", "C");
    var m1 := VisitAccount(EMPTY, "A", "");
    var m2 := VisitStream(m1, e.server, "A", e.s);
    var m3 := VisitAccount(m2, "A/B", "");
    RunSnoc([], events[0]);
    RunSnoc([events[0]], e);
    RunSnoc([events[0], e], events[2]);
    RunSnoc([events[0], e, events[2]], f);
    assert [events[0]] + [e] == [events[0], e];
    assert [events[0], e] + [events[2]] == [events[0], e, events[2]];
    assert events == [events[0], e, events[2]] + [f];
  }
}

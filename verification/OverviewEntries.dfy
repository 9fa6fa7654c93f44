/** The listed accounts and streams against the replies' own fields. */
module OverviewEntries {
  import opened Prelude
  import opened Overview
  import opened OverviewFields
  import S = AggregateSpec
  import P = AggregateProofs
  import T = AggregateTheorems
  import Proofs = OverviewProofs

  // ----- visits and reports -----------------------------------------------------------

  function Only(events: seq<S.Event>): seq<Report> {
    if events == [] then []
    else
      var e := events[|events| - 1];
      Only(events[..|events| - 1]) + if e.Stream? then [Report(e.server, e.account, e.s)] else []
  }

  lemma {:induction false} OnlyConcat(a: seq<S.Event>, b: seq<S.Event>)
    ensures Only(a + b) == Only(a) + Only(b)
  {
    if b == [] {
      assert a + b == a;
    } else {
      assert (a + b)[..|a + b| - 1] == a + b[..|b| - 1];
      OnlyConcat(a, b[..|b| - 1]);
    }
  }

  lemma {:induction false} OnlyStreams(server: Option<string>, account: string, streams: seq<JszStream>)
    ensures Only(S.StreamEvents(server, account, streams)) == StreamReports(server, account, streams)
  {
    if streams != [] {
      var init, events := streams[..|streams| - 1], S.StreamEvents(server, account, streams);
      OnlyStreams(server, account, init);
      assert events[..|events| - 1] == S.StreamEvents(server, account, init);
    }
  }

  lemma {:induction false} OnlyAccounts(server: Option<string>, accounts: seq<JszAccount>)
    ensures Only(S.AccountsEvents(server, accounts)) == AccountReports(server, accounts)
  {
    hide StreamReports, S.StreamEvents;
    if accounts != [] {
      var init, a := accounts[..|accounts| - 1], accounts[|accounts| - 1];
      OnlyAccounts(server, init);
      OnlyConcat(S.AccountsEvents(server, init), S.AccountEvents(server, a));
      var mention := [S.Account(a.name, a.info)];
      assert mention[..0] == [];
      assert Only(mention) == [];
      OnlyConcat(mention, S.StreamEvents(server, a.name, a.streams));
      OnlyStreams(server, a.name, a.streams);
    }
  }

  lemma {:induction false} OnlyReplies(replies: seq<Reply>)
    ensures Only(S.Events(replies)) == Reports(replies)
  {
    hide AccountReports, S.AccountsEvents;
    if replies != [] {
      var init, r := replies[..|replies| - 1], replies[|replies| - 1];
      OnlyReplies(init);
      OnlyConcat(S.Events(init), S.ReplyEvents(r));
      OnlyAccounts(r.server, r.accounts);
    }
  }

  /** The key is that stream's and no other's. */
  ghost predicate KeyIs(reports: seq<Report>, key: string, account: string, stream: string) {
    forall i :: 0 <= i < |reports| ==> (Key(reports[i].account, reports[i].s.name) == key <==> Of(reports[i], account, stream))
  }

  lemma KeyIsInit(reports: seq<Report>, r: Report, key: string, account: string, stream: string)
    requires KeyIs(reports + [r], key, account, stream)
    ensures KeyIs(reports, key, account, stream)
    ensures Key(r.account, r.s.name) == key <==> Of(r, account, stream)
  {
    hide Key, Of;
    forall i | 0 <= i < |reports|
      ensures Key(reports[i].account, reports[i].s.name) == key <==> Of(reports[i], account, stream)
    {
      assert (reports + [r])[i] == reports[i];
    }
    assert (reports + [r])[|reports|] == r;
  }

  lemma {:induction false} FirstLink(events: seq<S.Event>, key: string, account: string, stream: string)
    requires KeyIs(Only(events), key, account, stream)
    ensures match S.FirstReport(events, key)
      case None => forall i :: 0 <= i < |Only(events)| ==> !Of(Only(events)[i], account, stream)
      case Some(e) => e.Stream? && exists i: nat ::
        First(Only(events), account, stream, i) && Only(events)[i] == Report(e.server, e.account, e.s)
  {
    hide Key, Of;
    if events != [] {
      var init, e := events[..|events| - 1], events[|events| - 1];
      var before := Only(init);
      if e.Stream? {
        KeyIsInit(before, Report(e.server, e.account, e.s), key, account, stream);
      } else {
        assert Only(events) == before;
      }
      FirstLink(init, key, account, stream);
      if S.FirstReport(init, key).Some? {
        var f := S.FirstReport(init, key).value;
        var i: nat :| First(before, account, stream, i) && before[i] == Report(f.server, f.account, f.s);
        assert First(Only(events), account, stream, i) && Only(events)[i] == before[i];
      } else if S.Reports(e, key) {
        assert First(Only(events), account, stream, |before|);
      }
    }
  }

  lemma {:induction false} LastLink(events: seq<S.Event>, key: string, account: string, stream: string)
    requires KeyIs(Only(events), key, account, stream)
    ensures match S.LastLeader(events, key)
      case None => NoneLed(Only(events), account, stream)
      case Some(e) => e.Stream? && exists i: nat ::
        LastLed(Only(events), account, stream, i) && Only(events)[i] == Report(e.server, e.account, e.s)
  {
    hide Key, Of;
    if events != [] {
      var init, e := events[..|events| - 1], events[|events| - 1];
      var before := Only(init);
      if e.Stream? {
        KeyIsInit(before, Report(e.server, e.account, e.s), key, account, stream);
        assert Speaks(e.server, e.s) <==> IsLeader(e.server, e.s);
      } else {
        assert Only(events) == before;
      }
      LastLink(init, key, account, stream);
      if S.Leads(e, key) {
        assert LastLed(Only(events), account, stream, |before|);
      } else if S.LastLeader(init, key).Some? {
        var f := S.LastLeader(init, key).value;
        var i: nat :| LastLed(before, account, stream, i) && before[i] == Report(f.server, f.account, f.s);
        assert LastLed(Only(events), account, stream, i) && Only(events)[i] == before[i];
      }
    }
  }

  // ----- entries ------------------------------------------------------------------------

  lemma {:induction false} OnlyHas(events: seq<S.Event>, e: S.Event)
    requires e in events && e.Stream?
    ensures Report(e.server, e.account, e.s) in Only(events)
  {
    var init, last := events[..|events| - 1], events[|events| - 1];
    assert events == init + [last];
    if e != last {
      OnlyHas(init, e);
    }
  }

  /** Where joined names are apart, a key is that of the first stream reported under it. */
  lemma KeyApart(events: seq<S.Event>, key: string)
    requires Apart(Only(events)) && S.FirstReport(events, key).Some?
    ensures var e := S.FirstReport(events, key).value;
      e.Stream? && KeyIs(Only(events), key, e.account, e.s.name)
  {
    T.FirstReportIn(events, key);
    var e := S.FirstReport(events, key).value;
    OnlyHas(events, e);
    var reports := Only(events);
    var j :| 0 <= j < |reports| && reports[j] == Report(e.server, e.account, e.s);
    forall i | 0 <= i < |reports|
      ensures Key(reports[i].account, reports[i].s.name) == key <==> Of(reports[i], e.account, e.s.name)
    {
      assert reports[i].account + "/" + reports[i].s.name == reports[j].account + "/" + reports[j].s.name ==>
        reports[i].account == reports[j].account && reports[i].s.name == reports[j].s.name;
    }
  }

  lemma FirstUnique(reports: seq<Report>, account: string, stream: string)
    ensures forall i: nat, j: nat :: First(reports, account, stream, i) && First(reports, account, stream, j) ==> i == j
    ensures forall i: nat, j: nat :: LastLed(reports, account, stream, i) && LastLed(reports, account, stream, j) ==> i == j
    ensures forall i: nat :: LastLed(reports, account, stream, i) ==> !NoneLed(reports, account, stream)
  {
    hide Of, Speaks;
  }

  lemma EntryFields(events: seq<S.Event>, key: string)
    requires S.Ordered(events) && Apart(Only(events)) && key in S.Run(events).entries
    ensures EntryOf(S.Run(events).entries[key], Only(events))
  {
    hide S.Run, S.Ordered, Apart, Of, Speaks, OwnConsumers, EntryOf;
    hide KeyIs, NoneLed, S.LedConsumers;
    P.EntryAuthoritative(events, key);
    KeyApart(events, key);
    var reports, e, x := Only(events), S.FirstReport(events, key).value, S.Run(events).entries[key];
    FirstLink(events, key, e.account, e.s.name);
    LastLink(events, key, e.account, e.s.name);
    P.LeadersReport(events, key);
    var first: nat :|
      First(reports, e.account, e.s.name, first) && first < |reports| && reports[first] == Report(e.server, e.account, e.s);
    if S.LastLeader(events, key).Some? {
      var l := S.LastLeader(events, key).value;
      LeaderIsOf(events, key, e, l);
      Proofs.LedOwn(l.server, l.account, l.s, l.s.consumers);
      var last: nat :|
        LastLed(reports, e.account, e.s.name, last) && last < |reports| && reports[last] == Report(l.server, l.account, l.s);
      LedEntry(x, reports, first, last);
    } else {
      UnledEntry(x, reports, first);
    }
  }

  lemma LedEntry(x: AggregatedStream, reports: seq<Report>, first: nat, last: nat)
    requires First(reports, x.account, x.name, first) && x.created == reports[first].s.created
    requires LastLed(reports, x.account, x.name, last)
    requires var r := reports[last];
      && x.state == r.s.state && x.config == r.s.config && x.cluster == r.s.cluster
      && |x.consumers| == |OwnConsumers(r.server, r.s.consumers)|
      && forall k :: 0 <= k < |x.consumers| ==>
           x.consumers[k] == AggregatedConsumer(x.name, x.account, OwnConsumers(r.server, r.s.consumers)[k])
    ensures EntryOf(x, reports)
  {
    hide Of, Speaks, OwnConsumers;
    FirstUnique(reports, x.account, x.name);
  }

  lemma UnledEntry(x: AggregatedStream, reports: seq<Report>, first: nat)
    requires First(reports, x.account, x.name, first) && NoneLed(reports, x.account, x.name)
    requires var s := reports[first].s;
      x.created == s.created && x.state == s.state && x.config == s.config && x.cluster == s.cluster && x.consumers == []
    ensures EntryOf(x, reports)
  {
    hide Of, Speaks, OwnConsumers;
    FirstUnique(reports, x.account, x.name);
  }

  lemma LeaderIsOf(events: seq<S.Event>, key: string, e: S.Event, l: S.Event)
    requires e.Stream? && KeyIs(Only(events), key, e.account, e.s.name) && S.LastLeader(events, key) == Some(l)
    ensures l.Stream? && l.account == e.account && l.s.name == e.s.name
  {
    LastLink(events, key, e.account, e.s.name);
  }

  // ----- the lists ------------------------------------------------------------------------

  lemma {:induction false} ValuesAt(m: S.Model, keys: seq<string>)
    requires forall k :: k in keys ==> k in m.entries
    ensures |S.StreamValues(m, keys)| == |keys|
    ensures forall i :: 0 <= i < |keys| ==> S.StreamValues(m, keys)[i] == m.entries[keys[i]]
  {
    if keys != [] {
      assert keys[|keys| - 1] in keys;
      ValuesAt(m, keys[..|keys| - 1]);
    }
  }

  /** What the list of account `a` holds. */
  lemma KeyOfEntry(events: seq<S.Event>, a: string, key: string)
    requires S.Ordered(events) && a in S.Run(events).accounts && key in S.Run(events).accounts[a].keys
    ensures key in S.Run(events).entries
    ensures var x := S.Run(events).entries[key];
      x.account == a && Key(a, x.name) == key && Reported(Only(events), a, x.name)
  {
    hide S.Run, S.Ordered, Key;
    P.KeyListed(events, a, key);
    P.EntryAuthoritative(events, key);
    P.LeadersReport(events, key);
    var e := S.FirstReport(events, key).value;
    T.FirstReportIn(events, key);
    OnlyHas(events, e);
    var j :| 0 <= j < |Only(events)| && Only(events)[j] == Report(e.server, e.account, e.s);
    assert Of(Only(events)[j], a, S.Run(events).entries[key].name);
  }

  lemma {:induction false} ReportVisited(events: seq<S.Event>, r: Report)
    requires r in Only(events)
    ensures S.Stream(r.server, r.account, r.s) in events
  {
    var init, last := events[..|events| - 1], events[|events| - 1];
    assert events == init + [last];
    if r in Only(init) {
      ReportVisited(init, r);
    }
  }

  /** Every stream reported of an account is in its list. */
  lemma ReportIsListed(events: seq<S.Event>, j: nat)
    requires S.Ordered(events) && Apart(Only(events)) && j < |Only(events)|
    ensures var r := Only(events)[j]; var key := Key(r.account, r.s.name); var m := S.Run(events);
      && r.account in m.accounts && key in m.accounts[r.account].keys
      && key in m.entries && m.entries[key].name == r.s.name
  {
    hide S.Run, S.Ordered, Apart;
    var r := Only(events)[j];
    var key := Key(r.account, r.s.name);
    ReportVisited(events, r);
    assert S.Reports(S.Stream(r.server, r.account, r.s), key);
    T.FirstReportIn(events, key);
    KeyApart(events, key);
    P.EntryAuthoritative(events, key);
    P.LeadersReport(events, key);
    assert Of(r, S.FirstReport(events, key).value.account, S.FirstReport(events, key).value.s.name);
    P.KeyListed(events, r.account, key);
  }

  lemma StreamsListed(events: seq<S.Event>, a: AggregatedAccount)
    requires S.Ordered(events) && Apart(Only(events)) && a.name in S.Run(events).accounts
    requires a.streams == S.StreamValues(S.Run(events), S.Run(events).accounts[a.name].keys)
    ensures ListsStreams(a, Only(events))
  {
    hide S.Run, S.Ordered, Apart, EntryOf, S.StreamValues, Reported, Only;
    var m := S.Run(events);
    var keys := m.accounts[a.name].keys;
    forall key | key in keys ensures key in m.entries && EntryOf(m.entries[key], Only(events)) {
      KeyOfEntry(events, a.name, key);
      EntryFields(events, key);
    }
    ValuesAt(m, keys);
    P.KeysDistinct(events, a.name);
    forall i | 0 <= i < |keys|
      ensures Key(a.name, a.streams[i].name) == keys[i] && a.streams[i].account == a.name
      ensures Reported(Only(events), a.name, a.streams[i].name)
    {
      KeyOfEntry(events, a.name, keys[i]);
    }
    forall j | 0 <= j < |Only(events)| && Only(events)[j].account == a.name
      ensures Lists(a.streams, Only(events)[j].s.name)
    {
      ReportIsListed(events, j);
      var key := Key(a.name, Only(events)[j].s.name);
      var i :| 0 <= i < |keys| && keys[i] == key;
      assert a.streams[i].name == Only(events)[j].s.name;
    }
  }

  /** The accounts mentioned, in order. */
  function Mentions(events: seq<S.Event>): seq<(string, Opaque)> {
    if events == [] then []
    else
      var e := events[|events| - 1];
      Mentions(events[..|events| - 1]) + if e.Account? then [(e.account, e.info)] else []
  }

  function Names(accounts: seq<JszAccount>): seq<(string, Opaque)> {
    seq(|accounts|, i requires 0 <= i < |accounts| => (accounts[i].name, accounts[i].info))
  }

  lemma {:induction false} MentionsConcat(a: seq<S.Event>, b: seq<S.Event>)
    ensures Mentions(a + b) == Mentions(a) + Mentions(b)
  {
    if b == [] {
      assert a + b == a;
    } else {
      assert (a + b)[..|a + b| - 1] == a + b[..|b| - 1];
      MentionsConcat(a, b[..|b| - 1]);
    }
  }

  lemma {:induction false} NoMentions(server: Option<string>, account: string, streams: seq<JszStream>)
    ensures Mentions(S.StreamEvents(server, account, streams)) == []
  {
    if streams != [] {
      var init, events := streams[..|streams| - 1], S.StreamEvents(server, account, streams);
      NoMentions(server, account, init);
      assert events[..|events| - 1] == S.StreamEvents(server, account, init);
    }
  }

  lemma {:induction false} AccountMentions(server: Option<string>, accounts: seq<JszAccount>)
    ensures Mentions(S.AccountsEvents(server, accounts)) == Names(accounts)
  {
    hide S.StreamEvents;
    if accounts != [] {
      var init, a := accounts[..|accounts| - 1], accounts[|accounts| - 1];
      AccountMentions(server, init);
      MentionsConcat(S.AccountsEvents(server, init), S.AccountEvents(server, a));
      var mention := [S.Account(a.name, a.info)];
      assert mention[..0] == [];
      assert Mentions(mention) == [(a.name, a.info)];
      MentionsConcat(mention, S.StreamEvents(server, a.name, a.streams));
      NoMentions(server, a.name, a.streams);
      assert Names(accounts) == Names(init) + [(a.name, a.info)];
    }
  }

  lemma {:induction false} ReplyMentions(replies: seq<Reply>)
    ensures Mentions(S.Events(replies)) == Names(AllAccounts(replies))
  {
    hide S.AccountsEvents;
    if replies != [] {
      var init, r := replies[..|replies| - 1], replies[|replies| - 1];
      ReplyMentions(init);
      MentionsConcat(S.Events(init), S.ReplyEvents(r));
      AccountMentions(r.server, r.accounts);
    }
  }

  /** `ms[j]` is the first mention of `a`. */
  ghost predicate FirstMention(ms: seq<(string, Opaque)>, a: string, j: nat) {
    j < |ms| && ms[j].0 == a && forall k :: 0 <= k < j ==> ms[k].0 != a
  }

  lemma {:induction false} VisitMention(events: seq<S.Event>, a: string)
    ensures match S.FirstVisit(events, a)
      case None => forall j :: 0 <= j < |Mentions(events)| ==> Mentions(events)[j].0 != a
      case Some(info) => exists j: nat :: FirstMention(Mentions(events), a, j) && Mentions(events)[j].1 == info
  {
    if events != [] {
      var init, e := events[..|events| - 1], events[|events| - 1];
      var before := Mentions(init);
      VisitMention(init, a);
      if S.FirstVisit(init, a).Some? {
        var j: nat :| FirstMention(before, a, j) && j < |before| && before[j].1 == S.FirstVisit(init, a).value;
        assert FirstMention(Mentions(events), a, j) && Mentions(events)[j] == before[j];
      } else if e.Account? && e.account == a {
        assert FirstMention(Mentions(events), a, |before|);
      }
    }
  }

  // ----- the account list, in whatever order -----------------------------------------------

  function ValueOf(m: S.Model, a: string): AggregatedAccount
    requires a in m.accounts
  {
    AggregatedAccount(a, m.accounts[a].info, S.StreamValues(m, m.accounts[a].keys), m.accounts[a].totals)
  }

  lemma {:induction false} AccountsAt(m: S.Model, order: seq<string>)
    requires forall a :: a in order ==> a in m.accounts
    ensures |S.AccountValues(m, order)| == |order|
    ensures forall i :: 0 <= i < |order| ==> S.AccountValues(m, order)[i] == ValueOf(m, order[i])
  {
    hide S.StreamValues;
    if order != [] {
      assert order[|order| - 1] in order;
      AccountsAt(m, order[..|order| - 1]);
    }
  }

  ghost predicate NamesApart(list: seq<AggregatedAccount>) {
    forall i, j :: 0 <= i < j < |list| ==> list[i].name != list[j].name
  }

  lemma {:induction false} NamesPermuted(xs: seq<AggregatedAccount>, ys: seq<AggregatedAccount>)
    requires multiset(xs) == multiset(ys) && NamesApart(xs)
    ensures NamesApart(ys)
  {
    if xs == [] {
      assert |multiset(ys)| == 0;
    } else {
      var init, last := xs[..|xs| - 1], xs[|xs| - 1];
      assert last in multiset(ys);
      var j :| 0 <= j < |ys| && ys[j] == last;
      WithoutMultiset(ys, j);
      WithoutMultiset(xs, |xs| - 1);
      assert Without(xs, |xs| - 1) == init;
      Cancel(multiset(init), multiset(Without(ys, j)), last);
      NamesPermuted(init, Without(ys, j));
      forall y | y in Without(ys, j) ensures y.name != last.name {
        assert y in multiset(init);
      }
      NamesAround(ys, j);
    }
  }

  lemma NamesAround(ys: seq<AggregatedAccount>, j: nat)
    requires j < |ys| && NamesApart(Without(ys, j))
    requires forall y :: y in Without(ys, j) ==> y.name != ys[j].name
    ensures NamesApart(ys)
  {
    var rest := Without(ys, j);
    forall i, k | 0 <= i < k < |ys| ensures ys[i].name != ys[k].name {
      assert i != j ==> ys[i] == rest[if i < j then i else i - 1];
      assert k != j ==> ys[k] == rest[if k < j then k else k - 1];
    }
  }

  /** Each listed account is one of the fold's. */
  lemma ListedAccount(events: seq<S.Event>, list: seq<AggregatedAccount>, i: nat)
    requires S.Ordered(events) && i < |list|
    requires multiset(list) == multiset(S.AccountValues(S.Run(events), S.Run(events).order))
    ensures list[i].name in S.Run(events).accounts && list[i] == ValueOf(S.Run(events), list[i].name)
  {
    hide S.Run, S.Ordered, S.StreamValues, S.AccountValues;
    var m := S.Run(events);
    P.OrderDistinct(events);
    AccountsAt(m, m.order);
    assert list[i] in multiset(S.AccountValues(m, m.order));
  }

  lemma AccountsListed(events: seq<S.Event>, list: seq<AggregatedAccount>, accounts: seq<JszAccount>)
    requires S.Ordered(events) && Mentions(events) == Names(accounts)
    requires multiset(list) == multiset(S.AccountValues(S.Run(events), S.Run(events).order))
    ensures ListsAccounts(list, accounts)
  {
    hide S.Run, S.Ordered, S.StreamValues, S.AccountValues, Mentions, FirstSays;
    var m := S.Run(events);
    var values := S.AccountValues(m, m.order);
    P.OrderDistinct(events);
    AccountsAt(m, m.order);
    NamesPermuted(values, list);
    forall i | 0 <= i < |list|
      ensures FirstSays(accounts, list[i].name, list[i].info)
    {
      ListedAccount(events, list, i);
      FirstMentioned(events, accounts, list[i].name);
    }
    assert NamesApart(list);
    forall j | 0 <= j < |accounts| ensures HasAccount(list, accounts[j].name) {
      VisitMention(events, accounts[j].name);
      assert Names(accounts)[j].0 == accounts[j].name;
      P.AccountVisited(events, accounts[j].name);
      var k :| 0 <= k < |m.order| && m.order[k] == accounts[j].name;
      assert values[k] in multiset(list);
      var i :| 0 <= i < |list| && list[i] == values[k];
      assert list[i].name == accounts[j].name;
    }
  }

  lemma FirstMentioned(events: seq<S.Event>, accounts: seq<JszAccount>, a: string)
    requires S.Ordered(events) && Mentions(events) == Names(accounts) && a in S.Run(events).accounts
    ensures FirstSays(accounts, a, S.Run(events).accounts[a].info)
  {
    hide S.Run, S.Ordered, Mentions;
    P.AccountVisited(events, a);
    VisitMention(events, a);
    var j: nat :| FirstMention(Names(accounts), a, j) && j < |accounts| && Names(accounts)[j].1 == S.Run(events).accounts[a].info;
    forall k | 0 <= k < j ensures accounts[k].name != a {
      assert Names(accounts)[k].0 == accounts[k].name;
    }
  }

  /** What `aggregateOverview` lists, of the replies themselves. */
  lemma ListDescribed(replies: seq<Reply>, list: seq<AggregatedAccount>)
    requires multiset(list) == multiset(S.AccountValues(S.Run(S.Events(replies)), S.Run(S.Events(replies)).order))
    ensures ListsAccounts(list, AllAccounts(replies))
    ensures forall i :: 0 <= i < |list| ==> CountsOf(list[i].totals, replies, Some(list[i].name))
    ensures Apart(Reports(replies)) ==> forall i :: 0 <= i < |list| ==> ListsStreams(list[i], Reports(replies))
  {
    hide S.Run, S.Ordered, S.StreamValues, S.AccountValues, Apart, ListsAccounts, ListsStreams, CountsOf, S.Events;
    var events := S.Events(replies);
    T.EventsOrdered(replies);
    ReplyMentions(replies);
    OnlyReplies(replies);
    AccountsListed(events, list, AllAccounts(replies));
    forall i | 0 <= i < |list|
      ensures CountsOf(list[i].totals, replies, Some(list[i].name))
      ensures Apart(Reports(replies)) ==> ListsStreams(list[i], Reports(replies))
    {
      ListedAccount(events, list, i);
      T.TotalsAreLeaderSums(replies, list[i].name);
      Proofs.ReplyTotals(replies, Some(list[i].name));
      if Apart(Reports(replies)) {
        StreamsListed(events, list[i]);
      }
    }
  }
}

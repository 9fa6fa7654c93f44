/** The fold of `aggregateOverview` against the replies' own fields. */
module OverviewProofs {
  import opened Prelude
  import opened Overview
  import opened OverviewFields
  import S = AggregateSpec

  // ----- totals -------------------------------------------------------------------------

  lemma PlusPlus(t: Totals, u: Totals, v: Totals)
    ensures t.Plus(u).Plus(v) == t.Plus(u.Plus(v)) && t.Plus(ZERO) == ZERO.Plus(t) == t
  {
  }

  lemma {:induction false} TotalsConcat(a: seq<S.Event>, b: seq<S.Event>, which: Option<string>)
    ensures S.TotalsOf(a + b, which) == S.TotalsOf(a, which).Plus(S.TotalsOf(b, which))
  {
    hide S.Contribution, Totals.Plus;
    var ab, ta, tb := a + b, S.TotalsOf(a, which), S.TotalsOf(b, which);
    if b == [] {
      assert ab == a;
      PlusPlus(ta, ta, ta);
    } else {
      var init, last := b[..|b| - 1], b[|b| - 1];
      TotalsConcat(a, init, which);
      assert ab[..|ab| - 1] == a + init && ab[|ab| - 1] == last;
      PlusPlus(ta, S.TotalsOf(init, which), S.Contribution(last, which));
    }
  }

  lemma {:induction false} LedOwn(server: Option<string>, account: string, s: JszStream, consumers: seq<ConsumerDetail>)
    ensures var led, own := S.LedConsumers(server, account, s, consumers), OwnConsumers(server, consumers);
      |led| == |own| && forall k :: 0 <= k < |led| ==> led[k] == AggregatedConsumer(s.name, account, own[k])
  {
    if consumers != [] {
      LedOwn(server, account, s, consumers[..|consumers| - 1]);
    }
  }

  // The four sums, as one record.

  function WorthOf(server: Option<string>, s: JszStream): Totals {
    Totals(Worth(Streams, server, s), Worth(Consumers, server, s), Worth(MessageCount, server, s), Worth(ByteCount, server, s))
  }

  function StreamSums(server: Option<string>, streams: seq<JszStream>): Totals {
    Totals(InStreams(Streams, server, streams), InStreams(Consumers, server, streams),
           InStreams(MessageCount, server, streams), InStreams(ByteCount, server, streams))
  }

  function AccountSums(server: Option<string>, accounts: seq<JszAccount>, which: Option<string>): Totals {
    Totals(InAccounts(Streams, server, accounts, which), InAccounts(Consumers, server, accounts, which),
           InAccounts(MessageCount, server, accounts, which), InAccounts(ByteCount, server, accounts, which))
  }

  function ReplySums(replies: seq<Reply>, which: Option<string>): Totals {
    Totals(InReplies(Streams, replies, which), InReplies(Consumers, replies, which),
           InReplies(MessageCount, replies, which), InReplies(ByteCount, replies, which))
  }

  predicate Counts(which: Option<string>, account: string) {
    which.None? || which.value == account
  }

  lemma StreamWorth(server: Option<string>, account: string, s: JszStream, which: Option<string>)
    ensures S.Contribution(S.Stream(server, account, s), which) == if Counts(which, account) then WorthOf(server, s) else ZERO
  {
    LedOwn(server, account, s, s.consumers);
  }

  lemma StreamSumsSnoc(server: Option<string>, streams: seq<JszStream>)
    requires streams != []
    ensures StreamSums(server, streams) ==
      StreamSums(server, streams[..|streams| - 1]).Plus(WorthOf(server, streams[|streams| - 1]))
  {
    hide Worth;
  }

  lemma {:induction false} StreamTotals(server: Option<string>, account: string, streams: seq<JszStream>, which: Option<string>)
    ensures S.TotalsOf(S.StreamEvents(server, account, streams), which) ==
      if Counts(which, account) then StreamSums(server, streams) else ZERO
  {
    hide WorthOf, S.Contribution, StreamSums, Totals.Plus;
    if streams == [] {
      assert StreamSums(server, []) == ZERO by { NoStreams(server); }
    } else {
      var init, last := streams[..|streams| - 1], streams[|streams| - 1];
      StreamTotals(server, account, init, which);
      StreamWorth(server, account, last, which);
      StreamSumsSnoc(server, streams);
      PlusPlus(ZERO, ZERO, ZERO);
      var events := S.StreamEvents(server, account, streams);
      assert events[..|events| - 1] == S.StreamEvents(server, account, init);
      assert events[|events| - 1] == S.Stream(server, account, last);
    }
  }

  lemma NoStreams(server: Option<string>)
    ensures StreamSums(server, []) == ZERO
  {
  }

  lemma OneAccount(server: Option<string>, a: JszAccount, which: Option<string>)
    ensures S.TotalsOf(S.AccountEvents(server, a), which) ==
      if Counts(which, a.name) then StreamSums(server, a.streams) else ZERO
  {
    hide StreamSums, S.StreamEvents, Counts, Totals.Plus;
    var mention := [S.Account(a.name, a.info)];
    MentionTotals(a.name, a.info, which);
    TotalsConcat(mention, S.StreamEvents(server, a.name, a.streams), which);
    StreamTotals(server, a.name, a.streams, which);
    PlusPlus(S.TotalsOf(S.StreamEvents(server, a.name, a.streams), which), ZERO, ZERO);
  }

  lemma MentionTotals(account: string, info: Opaque, which: Option<string>)
    ensures S.TotalsOf([S.Account(account, info)], which) == ZERO
  {
    var mention := [S.Account(account, info)];
    assert mention[..0] == [];
    assert S.TotalsOf([], which) == ZERO;
    assert S.Contribution(mention[0], which) == ZERO;
  }

  lemma AccountSumsSnoc(server: Option<string>, accounts: seq<JszAccount>, which: Option<string>)
    requires accounts != []
    ensures var last := accounts[|accounts| - 1];
      AccountSums(server, accounts, which) ==
      AccountSums(server, accounts[..|accounts| - 1], which).Plus(
        if Counts(which, last.name) then StreamSums(server, last.streams) else ZERO)
  {
    hide InStreams;
  }

  lemma {:induction false} AccountTotals(server: Option<string>, accounts: seq<JszAccount>, which: Option<string>)
    ensures S.TotalsOf(S.AccountsEvents(server, accounts), which) == AccountSums(server, accounts, which)
  {
    hide S.AccountEvents, StreamSums, Counts, Totals.Plus;
    if accounts == [] {
      assert InAccounts(Streams, server, [], which) == 0;
    } else {
      hide AccountSums;
      var init, a := accounts[..|accounts| - 1], accounts[|accounts| - 1];
      AccountTotals(server, init, which);
      TotalsConcat(S.AccountsEvents(server, init), S.AccountEvents(server, a), which);
      OneAccount(server, a, which);
      AccountSumsSnoc(server, accounts, which);
    }
  }

  lemma ReplySumsSnoc(replies: seq<Reply>, which: Option<string>)
    requires replies != []
    ensures var last := replies[|replies| - 1];
      ReplySums(replies, which) == ReplySums(replies[..|replies| - 1], which).Plus(AccountSums(last.server, last.accounts, which))
  {
    hide InAccounts;
  }

  lemma {:induction false} ReplyTotals(replies: seq<Reply>, which: Option<string>)
    ensures S.TotalsOf(S.Events(replies), which) == ReplySums(replies, which)
    ensures CountsOf(S.TotalsOf(S.Events(replies), which), replies, which)
  {
    hide AccountSums, Totals.Plus, S.ReplyEvents;
    if replies != [] {
      hide ReplySums;
      var init, r := replies[..|replies| - 1], replies[|replies| - 1];
      ReplyTotals(init, which);
      TotalsConcat(S.Events(init), S.ReplyEvents(r), which);
      ReplyAccounts(r, which);
      ReplySumsSnoc(replies, which);
    }
    SumsCount(replies, which);
  }

  lemma ReplyAccounts(r: Reply, which: Option<string>)
    ensures S.TotalsOf(S.ReplyEvents(r), which) == AccountSums(r.server, r.accounts, which)
  {
    AccountTotals(r.server, r.accounts, which);
  }

  lemma SumsCount(replies: seq<Reply>, which: Option<string>)
    ensures CountsOf(ReplySums(replies, which), replies, which)
  {
  }
}

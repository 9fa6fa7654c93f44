/** What `aggregateOverview` (frontend/src/api.ts) computes, as a left fold over
    the accounts and streams it visits, and as sums and last-report-wins
    definitions that do not mention the fold. */
module AggregateSpec {
  import opened Prelude
  import opened Overview

  /** One visit of the nested loops, in the order they happen. */
  datatype Event =
    | Account(account: string, info: Opaque)
    | Stream(server: Option<string>, account: string, s: JszStream)

  function StreamEvents(server: Option<string>, account: string, streams: seq<JszStream>): (events: seq<Event>)
    ensures |events| == |streams|
  {
    seq(|streams|, i requires 0 <= i < |streams| => Stream(server, account, streams[i]))
  }

  function AccountEvents(server: Option<string>, a: JszAccount): seq<Event> {
    [Account(a.name, a.info)] + StreamEvents(server, a.name, a.streams)
  }

  function AccountsEvents(server: Option<string>, accounts: seq<JszAccount>): seq<Event> {
    if accounts == [] then []
    else
      AccountsEvents(server, accounts[..|accounts| - 1]) + AccountEvents(server, accounts[|accounts| - 1])
  }

  function ReplyEvents(r: Reply): seq<Event> {
    AccountsEvents(r.server, r.accounts)
  }

  function Events(replies: seq<Reply>): seq<Event> {
    if replies == [] then [] else Events(replies[..|replies| - 1]) + ReplyEvents(replies[|replies| - 1])
  }

  // ----- the fold ---------------------------------------------------------------

  datatype AccountState = AccountState(info: Opaque, keys: seq<string>, totals: Totals)

  /** `accountMap` with its insertion order, and `streamMap`. An account's stream
      list is the list of its keys in `streamMap`. */
  datatype Model = Model(order: seq<string>, accounts: map<string, AccountState>, entries: map<string, AggregatedStream>)

  const EMPTY := Model([], map[], map[])

  function LedConsumers(server: Option<string>, account: string, s: JszStream, consumers: seq<ConsumerDetail>): seq<AggregatedConsumer> {
    if consumers == [] then []
    else
      var last := consumers[|consumers| - 1];
      LedConsumers(server, account, s, consumers[..|consumers| - 1]) +
      if Answers(server, last) then [AggregatedConsumer(s.name, account, last)] else []
  }

  /** What a leader's report adds to its account's totals. */
  function Report(server: Option<string>, account: string, s: JszStream): Totals {
    Totals(1, |LedConsumers(server, account, s, s.consumers)|, Messages(s), Bytes(s))
  }

  function NewEntry(account: string, s: JszStream): AggregatedStream {
    AggregatedStream(s.name, account, s.created, s.config, s.state, s.cluster, [])
  }

  function Promoted(entry: AggregatedStream, server: Option<string>, account: string, s: JszStream): AggregatedStream {
    entry.(state := s.state, cluster := s.cluster, config := s.config,
           consumers := LedConsumers(server, account, s, s.consumers))
  }

  function VisitAccount(m: Model, account: string, info: Opaque): Model {
    if account in m.accounts then m
    else m.(order := m.order + [account], accounts := m.accounts[account := AccountState(info, [], ZERO)])
  }

  function VisitStream(m: Model, server: Option<string>, account: string, s: JszStream): Model
    requires account in m.accounts
  {
    var key := Key(account, s.name);
    var acct := m.accounts[account];
    var isNew := key !in m.entries;
    var entry := if isNew then NewEntry(account, s) else m.entries[key];
    var acct' := if isNew then acct.(keys := acct.keys + [key]) else acct;
    if IsLeader(server, s) then
      m.(accounts := m.accounts[account := acct'.(totals := acct'.totals.Plus(Report(server, account, s)))],
         entries := m.entries[key := Promoted(entry, server, account, s)])
    else
      m.(accounts := m.accounts[account := acct'], entries := m.entries[key := entry])
  }

  function Visit(m: Model, e: Event): Model {
    match e
    case Account(account, info) => VisitAccount(m, account, info)
    case Stream(server, account, s) => if account in m.accounts then VisitStream(m, server, account, s) else m
  }

  function Run(events: seq<Event>): Model {
    if events == [] then EMPTY else Visit(Run(events[..|events| - 1]), events[|events| - 1])
  }

  lemma RunSnoc(events: seq<Event>, e: Event)
    ensures Run(events + [e]) == Visit(Run(events), e)
  {
    assert (events + [e])[..|events|] == events;
  }

  /** The info of the first visit of an account. */
  function FirstVisit(events: seq<Event>, account: string): Option<Opaque> {
    if events == [] then None
    else
      var earlier := FirstVisit(events[..|events| - 1], account);
      var last := events[|events| - 1];
      if earlier.Some? then earlier
      else if last.Account? && last.account == account then Some(last.info) else None
  }

  /** Each stream is visited after its account. */
  predicate Ordered(events: seq<Event>) {
    events != [] ==>
      && Ordered(events[..|events| - 1])
      && (events[|events| - 1].Stream? ==> FirstVisit(events[..|events| - 1], events[|events| - 1].account).Some?)
  }

  // ----- sums over reports, whatever their order -----------------------------------

  /** What one visit adds to the totals of account `which`, or overall for `None`:
      a leader's report counts, any other visit does not. */
  function Contribution(e: Event, which: Option<string>): Totals {
    if e.Stream? && IsLeader(e.server, e.s) && (which.None? || which.value == e.account)
    then Report(e.server, e.account, e.s)
    else ZERO
  }

  function TotalsOf(events: seq<Event>, which: Option<string>): Totals {
    if events == [] then ZERO
    else TotalsOf(events[..|events| - 1], which).Plus(Contribution(events[|events| - 1], which))
  }

  // ----- the authoritative report of a stream ---------------------------------------

  predicate Reports(e: Event, key: string) {
    e.Stream? && Key(e.account, e.s.name) == key
  }

  predicate Leads(e: Event, key: string) {
    Reports(e, key) && IsLeader(e.server, e.s)
  }

  /** The first visit of a stream. */
  function FirstReport(events: seq<Event>, key: string): Option<Event> {
    if events == [] then None
    else
      var earlier := FirstReport(events[..|events| - 1], key);
      var last := events[|events| - 1];
      if earlier.Some? then earlier else if Reports(last, key) then Some(last) else None
  }

  /** The last visit of a stream by its leader. */
  function LastLeader(events: seq<Event>, key: string): Option<Event> {
    if events == [] then None
    else if Leads(events[|events| - 1], key) then Some(events[|events| - 1])
    else LastLeader(events[..|events| - 1], key)
  }

  function LeaderCount(events: seq<Event>, key: string): nat {
    if events == [] then 0
    else LeaderCount(events[..|events| - 1], key) + if Leads(events[|events| - 1], key) then 1 else 0
  }

  /** Name, account and creation time from the first report; the rest from the
      leader's last report, or without one from the first, with no consumers. */
  function Authoritative(first: Event, leader: Option<Event>): AggregatedStream
    requires first.Stream? && (leader.Some? ==> leader.value.Stream?)
  {
    match leader
    case None => NewEntry(first.account, first.s)
    case Some(l) =>
      AggregatedStream(first.s.name, first.account, first.s.created, l.s.config, l.s.state, l.s.cluster,
                       LedConsumers(l.server, l.account, l.s, l.s.consumers))
  }

  // ----- the values read off at the end ---------------------------------------------

  function StreamValues(m: Model, keys: seq<string>): seq<AggregatedStream> {
    if keys == [] then []
    else
      var last := keys[|keys| - 1];
      StreamValues(m, keys[..|keys| - 1]) + if last in m.entries then [m.entries[last]] else []
  }

  function AccountValues(m: Model, order: seq<string>): seq<AggregatedAccount> {
    if order == [] then []
    else
      var a := order[|order| - 1];
      AccountValues(m, order[..|order| - 1]) +
      if a in m.accounts
      then [AggregatedAccount(a, m.accounts[a].info, StreamValues(m, m.accounts[a].keys), m.accounts[a].totals)]
      else []
  }
}

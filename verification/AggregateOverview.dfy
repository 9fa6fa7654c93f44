/** `aggregateOverview` (frontend/src/api.ts) over the mutable records it builds:
    a stream record is shared by the stream map and by its account's list, and an
    account record by the account map and the loop that fills it. */
module AggregateOverview {
  import opened Prelude
  import opened Overview
  import opened AggregateSpec
  import opened AggregateProofs
  import opened AggregateTheorems
  import opened StableSort
  import F = OverviewFields
  import OverviewProofs
  import OverviewEntries

  class StreamRecord {
    const name: string
    const account: string
    const created: Opaque
    var config: Opaque
    var state: Option<StreamState>
    var cluster: Option<StreamCluster>
    var consumers: seq<AggregatedConsumer>

    function Value(): AggregatedStream
      reads this
    {
      AggregatedStream(name, account, created, config, state, cluster, consumers)
    }

    constructor (account: string, s: JszStream)
      ensures Value() == NewEntry(account, s)
    {
      this.name, this.account, this.created := s.name, account, s.created;
      config, state, cluster, consumers := s.config, s.state, s.cluster, [];
    }

    /** A leader's report replaces the fields and refills the consumers, and counts
        each consumer as it is pushed. */
    method Promote(server: Option<string>, account: string, s: JszStream) returns (added: Totals)
      modifies this
      ensures Value() == Promoted(old(Value()), server, account, s)
      ensures added == Report(server, account, s)
    {
      state, cluster, config := s.state, s.cluster, s.config;
      added := Totals(1, 0, Messages(s), Bytes(s));
      consumers := [];
      for i := 0 to |s.consumers|
        invariant consumers == LedConsumers(server, account, s, s.consumers[..i])
        invariant added == Totals(1, |consumers|, Messages(s), Bytes(s))
        invariant state == s.state && cluster == s.cluster && config == s.config
      {
        assert s.consumers[..i + 1][..i] == s.consumers[..i];
        if Answers(server, s.consumers[i]) {
          consumers := consumers + [AggregatedConsumer(s.name, account, s.consumers[i])];
          added := added.(consumers := added.consumers + 1);
        }
      }
      assert s.consumers[..|s.consumers|] == s.consumers;
    }
  }

  class AccountRecord {
    const name: string
    const info: Opaque
    var streams: seq<StreamRecord>
    var totals: Totals
    /** The keys of `streams` in the stream map. */
    ghost var keys: seq<string>

    ghost function State(): AccountState
      reads this
    {
      AccountState(info, keys, totals)
    }

    constructor (name: string, info: Opaque)
      ensures this.name == name && this.info == info && streams == [] && keys == [] && totals == ZERO
    {
      this.name, this.info, streams, keys, totals := name, info, [], [], ZERO;
    }
  }

  /** `streams` are the records of `keys`. */
  ghost predicate Lists(streamMap: map<string, StreamRecord>, streams: seq<StreamRecord>, keys: seq<string>) {
    |streams| == |keys| && forall i :: 0 <= i < |keys| ==> keys[i] in streamMap && streams[i] == streamMap[keys[i]]
  }

  lemma EmptyLists(streamMap: map<string, StreamRecord>)
    ensures Lists(streamMap, [], [])
  {
  }

  lemma ListsGrow(streamMap: map<string, StreamRecord>, streams: seq<StreamRecord>, keys: seq<string>, key: string, entry: StreamRecord)
    requires Lists(streamMap, streams, keys) && key !in streamMap
    ensures Lists(streamMap[key := entry], streams, keys)
    ensures Lists(streamMap[key := entry], streams + [entry], keys + [key])
  {
  }

  /** The two maps of the function. */
  class Accumulator {
    /** The keys of `accountMap` in insertion order, which its iteration follows. */
    var order: seq<string>
    var accountMap: map<string, AccountRecord>
    var streamMap: map<string, StreamRecord>
    /** What the records of the two maps hold. */
    ghost var accounts: map<string, AccountState>
    ghost var entries: map<string, AggregatedStream>
    ghost var accountOwner: map<AccountRecord, string>
    ghost var streamOwner: map<StreamRecord, string>

    ghost function Folded(): Model
      reads this
    {
      Model(order, accounts, entries)
    }

    ghost predicate AccountOk(a: string)
      reads `accountMap, `accounts, `accountOwner, `streamMap, accountOwner.Keys
      requires a in accountMap && a in accounts
    {
      var r := accountMap[a];
      && r in accountOwner && accountOwner[r] == a
      && r.name == a && r.State() == accounts[a]
      && Lists(streamMap, r.streams, r.keys)
    }

    ghost predicate StreamOk(key: string)
      reads `streamMap, `entries, `streamOwner, streamOwner.Keys
      requires key in streamMap && key in entries
    {
      var r := streamMap[key];
      r in streamOwner && streamOwner[r] == key && r.Value() == entries[key]
    }

    ghost predicate AccountsOk()
      reads `accountMap, `accounts, `accountOwner, `streamMap, accountOwner.Keys
    {
      accountMap.Keys == accounts.Keys && forall a :: a in accountMap ==> AccountOk(a)
    }

    ghost predicate StreamsOk()
      reads `streamMap, `entries, `streamOwner, streamOwner.Keys
    {
      streamMap.Keys == entries.Keys && forall key :: key in streamMap ==> StreamOk(key)
    }

    /** The records hold what the fold says, and no record serves two names. */
    ghost predicate Valid()
      reads this, accountOwner.Keys, streamOwner.Keys
    {
      AccountsOk() && StreamsOk()
    }

    lemma AccountAt(a: string)
      requires AccountsOk()
      ensures a in accountMap <==> a in accounts
      ensures a in accountMap ==> AccountOk(a)
    {
    }

    lemma StreamAt(key: string)
      requires StreamsOk()
      ensures key in streamMap <==> key in entries
      ensures key in streamMap ==> StreamOk(key)
    {
    }

    constructor ()
      ensures Valid() && Folded() == EMPTY && fresh(accountOwner.Keys) && fresh(streamOwner.Keys)
    {
      order, accountMap, streamMap := [], map[], map[];
      accounts, entries, accountOwner, streamOwner := map[], map[], map[], map[];
    }

    /** `accountMap.set(a.name, acct)`. */
    method AddAccount(a: JszAccount, acct: AccountRecord)
      requires AccountsOk() && a.name !in accountMap && acct !in accountOwner
      requires acct.name == a.name && acct.info == a.info && acct.streams == [] && acct.keys == [] && acct.totals == ZERO
      modifies `order, `accountMap, `accounts, `accountOwner
      ensures AccountsOk() && Folded() == VisitAccount(old(Folded()), a.name, a.info)
      ensures accountMap == old(accountMap)[a.name := acct] && accountOwner == old(accountOwner)[acct := a.name]
    {
      hide Lists;
      order, accountMap := order + [a.name], accountMap[a.name := acct];
      accounts, accountOwner := accounts[a.name := AccountState(a.info, [], ZERO)], accountOwner[acct := a.name];
      EmptyLists(streamMap);
      forall x | x in accountMap ensures AccountOk(x) {
        assert x != a.name ==> old(AccountOk(x));
      }
    }

    method FindAccount(a: JszAccount) returns (acct: AccountRecord)
      requires Valid()
      modifies `order, `accountMap, `accounts, `accountOwner
      ensures Valid() && Folded() == VisitAccount(old(Folded()), a.name, a.info)
      ensures a.name in accountMap && acct == accountMap[a.name]
      ensures fresh(accountOwner.Keys - old(accountOwner.Keys))
    {
      hide AccountsOk, StreamsOk;
      AccountAt(a.name);
      if a.name in accountMap {
        acct := accountMap[a.name];
      } else {
        acct := new AccountRecord(a.name, a.info);
        AddAccount(a, acct);
      }
    }

    /** The entry of a stream, made and listed on its first visit. */
    method FindStream(a: JszAccount, acct: AccountRecord, s: JszStream) returns (entry: StreamRecord)
      requires Valid() && a.name in accountMap && acct == accountMap[a.name]
      modifies `streamMap, `entries, `streamOwner, `accounts, acct
      ensures Valid() && Folded() == WithEntry(old(Folded()), a.name, s)
      ensures Key(a.name, s.name) in streamMap && entry == streamMap[Key(a.name, s.name)]
      ensures fresh(streamOwner.Keys - old(streamOwner.Keys))
    {
      hide WithEntry, Key, NewEntry, AccountsOk, StreamsOk, AccountOk;
      AccountAt(a.name);
      StreamAt(Key(a.name, s.name));
      if Key(a.name, s.name) in streamMap {
        entry := streamMap[Key(a.name, s.name)];
        SeenStream(Folded(), a.name, s);
      } else {
        WithEntryInSteps(Folded(), a.name, s);
        entry := new StreamRecord(a.name, s);
        ListStream(a.name, acct, Key(a.name, s.name), entry);
      }
    }

    /** A new record, in the stream map and at the end of its account's list. */
    method ListStream(account: string, acct: AccountRecord, key: string, entry: StreamRecord)
      requires Valid() && account in accountMap && acct == accountMap[account] && account in accounts
      requires key !in streamMap && entry !in streamOwner
      modifies `streamMap, `entries, `streamOwner, `accounts, acct
      ensures Valid()
      ensures entries == old(entries)[key := entry.Value()]
      ensures streamMap == old(streamMap)[key := entry] && streamOwner == old(streamOwner)[entry := key]
      ensures accounts == old(accounts)[
        account := AccountState(old(accounts)[account].info, old(accounts)[account].keys + [key], old(accounts)[account].totals)]
    {
      hide AccountsOk, StreamsOk, Lists, StreamRecord.Value;
      AccountAt(account);
      PutStream(key, entry);
      ListsGrow(old(streamMap), acct.streams, acct.keys, key, entry);
      SetAccount(account, acct, acct.streams + [entry], acct.keys + [key], acct.totals);
    }

    /** `streamMap.set(key, entry)`. */
    method PutStream(key: string, entry: StreamRecord)
      requires Valid() && key !in streamMap && entry !in streamOwner
      modifies `streamMap, `entries, `streamOwner
      ensures Valid()
      ensures entries == old(entries)[key := entry.Value()]
      ensures streamMap == old(streamMap)[key := entry] && streamOwner == old(streamOwner)[entry := key]
    {
      hide Lists, StreamRecord.Value;
      StreamAt(key);
      streamMap, entries := streamMap[key := entry], entries[key := entry.Value()];
      streamOwner := streamOwner[entry := key];
      forall x | x in accountMap ensures AccountOk(x) {
        assert old(AccountOk(x));
        ListsGrow(old(streamMap), accountMap[x].streams, accountMap[x].keys, key, entry);
      }
      forall k | k in streamMap ensures StreamOk(k) {
        assert k != key ==> old(StreamOk(k));
      }
    }

    /** Updates one account record and what is known of it. */
    method SetAccount(a: string, acct: AccountRecord, streams: seq<StreamRecord>, ghost keys: seq<string>, totals: Totals)
      requires AccountsOk() && a in accountMap && acct == accountMap[a] && Lists(streamMap, streams, keys)
      modifies `accounts, acct
      ensures AccountsOk()
      ensures accounts == old(accounts)[a := AccountState(old(accounts)[a].info, keys, totals)]
    {
      hide Lists;
      assert AccountOk(a);
      acct.streams, acct.keys, acct.totals := streams, keys, totals;
      accounts := accounts[a := AccountState(accounts[a].info, keys, totals)];
      forall x | x in accountMap ensures AccountOk(x) {
        assert old(AccountOk(x));
      }
    }

    /** A leader's report: its stream's fields are replaced, its account's totals grow. */
    method Lead(server: Option<string>, a: JszAccount, acct: AccountRecord, s: JszStream, entry: StreamRecord)
      requires Valid() && a.name in accountMap && acct == accountMap[a.name]
      requires Key(a.name, s.name) in streamMap && entry == streamMap[Key(a.name, s.name)]
      modifies `entries, `accounts, acct, entry
      ensures Valid() && Folded() == WithReport(old(Folded()), server, a.name, s)
    {
      hide Promoted, Report, Lists, Key, AccountsOk, StreamsOk, Totals.Plus;
      AccountAt(a.name);
      StreamAt(Key(a.name, s.name));
      var added := PromoteStream(server, a.name, s, Key(a.name, s.name), entry);
      SetAccount(a.name, acct, acct.streams, acct.keys, acct.totals.Plus(added));
    }

    method PromoteStream(server: Option<string>, account: string, s: JszStream, key: string, entry: StreamRecord)
      returns (added: Totals)
      requires StreamsOk() && key in streamMap && entry == streamMap[key]
      modifies `entries, entry
      ensures StreamsOk() && added == Report(server, account, s)
      ensures entries == old(entries)[key := Promoted(old(entries)[key], server, account, s)]
    {
      hide Promoted, Report, StreamRecord.Value;
      assert StreamOk(key);
      added := entry.Promote(server, account, s);
      entries := entries[key := Promoted(entries[key], server, account, s)];
      forall k | k in streamMap ensures StreamOk(k) {
        assert old(StreamOk(k));
      }
    }

    method VisitStreamReport(server: Option<string>, a: JszAccount, acct: AccountRecord, s: JszStream)
      requires Valid() && a.name in accountMap && acct == accountMap[a.name]
      modifies `streamMap, `entries, `streamOwner, `accounts, accountOwner.Keys, streamOwner.Keys
      ensures Valid() && Folded() == VisitStream(old(Folded()), server, a.name, s)
      ensures fresh(streamOwner.Keys - old(streamOwner.Keys))
    {
      hide VisitStream, WithEntry, WithReport, IsLeader, Key, AccountsOk, StreamsOk;
      AccountAt(a.name);
      VisitInSteps(Folded(), server, a.name, s);
      var entry := FindStream(a, acct, s);
      StreamAt(Key(a.name, s.name));
      if IsLeader(server, s) {
        Lead(server, a, acct, s, entry);
      }
    }

    /** The loop over an account's streams. */
    method VisitStreams(ghost events: seq<Event>, server: Option<string>, a: JszAccount, acct: AccountRecord)
      requires Valid() && Folded() == Run(events) && a.name in accountMap && acct == accountMap[a.name]
      modifies `streamMap, `entries, `streamOwner, `accounts, accountOwner.Keys, streamOwner.Keys
      ensures Valid() && Folded() == Run(events + StreamEvents(server, a.name, a.streams))
      ensures fresh(streamOwner.Keys - old(streamOwner.Keys))
    {
      hide Run, VisitStream, StreamEvents, AccountsOk, StreamsOk;
      ghost var all := StreamEvents(server, a.name, a.streams);
      assert events + all[..0] == events;
      for i := 0 to |a.streams|
        invariant Valid() && Folded() == Run(events + all[..i])
        invariant fresh(streamOwner.Keys - old(streamOwner.Keys))
      {
        AccountAt(a.name);
        VisitStreamReport(server, a, acct, a.streams[i]);
        StreamEventAt(server, a.name, a.streams, i);
        RunSnoc(events + all[..i], all[i]);
        assert events + all[..i + 1] == (events + all[..i]) + [all[i]];
      }
      assert all[..|all|] == all;
    }

    /** One account of a reply: its record, then its streams. */
    method VisitAccountReport(ghost events: seq<Event>, server: Option<string>, a: JszAccount)
      requires Valid() && Folded() == Run(events)
      modifies this, accountOwner.Keys, streamOwner.Keys
      ensures Valid() && Folded() == Run(events + AccountEvents(server, a))
      ensures fresh(accountOwner.Keys - old(accountOwner.Keys)) && fresh(streamOwner.Keys - old(streamOwner.Keys))
    {
      hide Run, VisitAccount, StreamEvents, AccountsOk, StreamsOk;
      var acct := FindAccount(a);
      RunSnoc(events, Account(a.name, a.info));
      VisitStreams(events + [Account(a.name, a.info)], server, a, acct);
      assert events + AccountEvents(server, a) == events + [Account(a.name, a.info)] + StreamEvents(server, a.name, a.streams);
    }

    /** The loop over a reply's accounts. */
    method VisitReply(ghost events: seq<Event>, r: Reply)
      requires Valid() && Folded() == Run(events)
      modifies this, accountOwner.Keys, streamOwner.Keys
      ensures Valid() && Folded() == Run(events + ReplyEvents(r))
      ensures fresh(accountOwner.Keys - old(accountOwner.Keys)) && fresh(streamOwner.Keys - old(streamOwner.Keys))
    {
      hide Run, AccountEvents, AccountsOk, StreamsOk;
      assert events + [] == events;
      for i := 0 to |r.accounts|
        invariant Valid() && Folded() == Run(events + AccountsEvents(r.server, r.accounts[..i]))
        invariant fresh(accountOwner.Keys - old(accountOwner.Keys)) && fresh(streamOwner.Keys - old(streamOwner.Keys))
      {
        VisitAccountReport(events + AccountsEvents(r.server, r.accounts[..i]), r.server, r.accounts[i]);
        NextAccount(events, r, i);
      }
      assert r.accounts[..|r.accounts|] == r.accounts;
    }

    /** The records of the account map, as values. */
    method Accounts() returns (list: seq<AggregatedAccount>)
      requires Valid() && forall a :: a in order ==> a in accountMap
      requires forall a, key :: a in accounts && key in accounts[a].keys ==> key in entries
      ensures list == AccountValues(Folded(), order)
    {
      list := [];
      for i := 0 to |order|
        invariant list == AccountValues(Folded(), order[..i])
      {
        var acct := accountMap[order[i]];
        assert AccountOk(order[i]);
        var streams: seq<AggregatedStream> := [];
        for j := 0 to |acct.streams|
          invariant streams == StreamValues(Folded(), acct.keys[..j])
        {
          assert StreamOk(acct.keys[j]);
          streams := streams + [acct.streams[j].Value()];
          assert acct.keys[..j + 1][..j] == acct.keys[..j];
        }
        assert acct.keys[..|acct.streams|] == acct.keys;
        list := list + [AggregatedAccount(acct.name, acct.info, streams, acct.totals)];
        assert order[..i + 1][..i] == order[..i];
      }
      assert order[..|order|] == order;
    }
  }

  lemma NextAccount(events: seq<Event>, r: Reply, i: nat)
    requires i < |r.accounts|
    ensures events + AccountsEvents(r.server, r.accounts[..i]) + AccountEvents(r.server, r.accounts[i]) ==
      events + AccountsEvents(r.server, r.accounts[..i + 1])
  {
    hide AccountEvents;
    assert r.accounts[..i + 1][..i] == r.accounts[..i];
  }

  // ----- the model, in the steps of the methods ----------------------------------------

  function WithEntry(m: Model, account: string, s: JszStream): Model
    requires account in m.accounts
  {
    var key := Key(account, s.name);
    if key in m.entries then m
    else
      var acct := m.accounts[account];
      m.(accounts := m.accounts[account := acct.(keys := acct.keys + [key])],
         entries := m.entries[key := NewEntry(account, s)])
  }

  function WithReport(m: Model, server: Option<string>, account: string, s: JszStream): Model
    requires account in m.accounts && Key(account, s.name) in m.entries
  {
    var key := Key(account, s.name);
    var acct := m.accounts[account];
    m.(accounts := m.accounts[account := acct.(totals := acct.totals.Plus(Report(server, account, s)))],
       entries := m.entries[key := Promoted(m.entries[key], server, account, s)])
  }

  lemma WithEntryInSteps(m: Model, account: string, s: JszStream)
    requires account in m.accounts && Key(account, s.name) !in m.entries
    ensures var key := Key(account, s.name);
      WithEntry(m, account, s) == m.(
        entries := m.entries[key := NewEntry(account, s)],
        accounts := m.accounts[account := AccountState(m.accounts[account].info, m.accounts[account].keys + [key],
                                                       m.accounts[account].totals)])
  {
  }

  lemma SeenStream(m: Model, account: string, s: JszStream)
    requires account in m.accounts && Key(account, s.name) in m.entries
    ensures WithEntry(m, account, s) == m
  {
  }

  lemma VisitInSteps(m: Model, server: Option<string>, account: string, s: JszStream)
    requires account in m.accounts
    ensures account in WithEntry(m, account, s).accounts && Key(account, s.name) in WithEntry(m, account, s).entries
    ensures VisitStream(m, server, account, s) ==
      if IsLeader(server, s) then WithReport(WithEntry(m, account, s), server, account, s) else WithEntry(m, account, s)
  {
    hide Report, Promoted, NewEntry, Key, IsLeader;
  }

  // ----- the account list ------------------------------------------------------------------

  /** `list.sort((a, b) => b.totals.streams - a.totals.streams)`. */
  function SortedByStreams(list: seq<AggregatedAccount>): seq<AggregatedAccount> {
    Sorted(list, StreamCount)
  }

  function StreamCount(a: AggregatedAccount): int {
    a.totals.streams
  }

  /** The reduces over the account list. */
  function ListTotals(list: seq<AggregatedAccount>): Totals {
    if list == [] then ZERO else ListTotals(list[..|list| - 1]).Plus(list[|list| - 1].totals)
  }

  lemma {:induction false} InsertedTotals(sorted: seq<AggregatedAccount>, a: AggregatedAccount, key: AggregatedAccount -> int)
    ensures ListTotals(Inserted(sorted, a, key)) == ListTotals(sorted).Plus(a.totals)
  {
    if sorted == [] || key(sorted[|sorted| - 1]) >= key(a) {
      assert (sorted + [a])[..|sorted|] == sorted;
    } else {
      var init, last := sorted[..|sorted| - 1], sorted[|sorted| - 1];
      InsertedTotals(init, a, key);
      var rest := Inserted(init, a, key);
      assert (rest + [last])[..|rest|] == rest;
      PlusSwap(ListTotals(init), a.totals, last.totals);
    }
  }

  lemma {:induction false} SortedTotals(list: seq<AggregatedAccount>, key: AggregatedAccount -> int)
    ensures ListTotals(Sorted(list, key)) == ListTotals(list)
  {
    if list != [] {
      SortedTotals(list[..|list| - 1], key);
      InsertedTotals(Sorted(list[..|list| - 1], key), list[|list| - 1], key);
    }
  }

  // ----- the function ----------------------------------------------------------------------

  /** The first meta cluster any reply carries. */
  function FirstMeta(replies: seq<Reply>): Option<MetaCluster> {
    if replies == [] then None
    else
      var earlier := FirstMeta(replies[..|replies| - 1]);
      if earlier.Some? then earlier else replies[|replies| - 1].meta
  }

  function NameOf(meta: Option<MetaCluster>): Option<string> {
    match meta
    case None => None
    case Some(m) => m.name
  }

  /** The cluster name is read from `meta` before each reply's own meta cluster is
      taken up: it stays unknown when only the last of several replies has one. */
  function ClusterName(replies: seq<Reply>): Option<string> {
    if |replies| <= 1 then NameOf(FirstMeta(replies)) else NameOf(FirstMeta(replies[..|replies| - 1]))
  }

  /** The name of the view's own meta cluster is reported as the cluster's, except when of several replies only
      the last has a meta cluster and that one has a name. */
  lemma ClusterNameExact(replies: seq<Reply>)
    ensures ClusterName(replies) == NameOf(FirstMeta(replies)) <==>
      || |replies| <= 1
      || FirstMeta(replies[..|replies| - 1]).Some?
      || NameOf(replies[|replies| - 1].meta).None?
  {
  }

  /** Two servers answer, the second one with the meta cluster: the view has its meta cluster but not its name. */
  method ClusterNameLost() returns (o: AggregatedOverview)
    ensures o.meta == Some(MetaCluster(Some("prod"), None)) && o.cluster == None
  {
    var replies := [Reply(Some("n1"), None, []), Reply(Some("n2"), Some(MetaCluster(Some("prod"), None)), [])];
    assert replies[..1] == [replies[0]] && replies[..1][..0] == [];
    o := AggregateOverview(replies);
  }

  lemma StreamEventAt(server: Option<string>, account: string, streams: seq<JszStream>, i: nat)
    requires i < |streams|
    ensures StreamEvents(server, account, streams)[i] == Stream(server, account, streams[i])
  {
  }

  lemma EmptyRun()
    ensures Run(Events([])) == EMPTY
  {
  }

  lemma EventsSnoc(replies: seq<Reply>, i: nat)
    requires i < |replies|
    ensures Events(replies[..i + 1]) == Events(replies[..i]) + ReplyEvents(replies[i])
  {
    assert replies[..i + 1][..i] == replies[..i];
  }

  /** What `meta` is before reply `i` is looked at. */
  function MetaBefore(replies: seq<Reply>, i: nat): Option<MetaCluster>
    requires i <= |replies|
  {
    if i == 0 && replies != [] then replies[0].meta else FirstMeta(replies[..i])
  }

  /** What `cluster` is before reply `i` is looked at. */
  function ClusterBefore(replies: seq<Reply>, i: nat): Option<string>
    requires i <= |replies|
  {
    if i == 0 then None else ClusterName(replies[..i])
  }

  /** One turn of the loop, as far as `meta` and `cluster` go. */
  lemma MetaStep(replies: seq<Reply>, i: nat)
    requires i < |replies|
    ensures MetaBefore(replies, i + 1) == if MetaBefore(replies, i).Some? then MetaBefore(replies, i) else replies[i].meta
    ensures ClusterBefore(replies, i + 1) ==
      if ClusterBefore(replies, i).Some? then ClusterBefore(replies, i) else NameOf(MetaBefore(replies, i))
  {
    var next := replies[..i + 1];
    assert next[..|next| - 1] == replies[..i] && next[|next| - 1] == replies[i];
    assert FirstMeta(next) == if FirstMeta(replies[..i]).Some? then FirstMeta(replies[..i]) else replies[i].meta;
    if i > 1 {
      assert replies[..i][..i - 1] == replies[..i - 1];
    }
  }

  lemma MetaAtStart(replies: seq<Reply>)
    ensures MetaBefore(replies, 0) == if |replies| > 0 then replies[0].meta else None
    ensures ClusterBefore(replies, 0) == None
  {
  }

  /** What the function returns for both. */
  lemma MetaAtEnd(replies: seq<Reply>)
    ensures MetaBefore(replies, |replies|) == FirstMeta(replies)
    ensures ClusterName(replies) ==
      if ClusterBefore(replies, |replies|).Some? then ClusterBefore(replies, |replies|)
      else if |replies| > 0 then NameOf(replies[0].meta) else None
  {
    assert replies[..|replies|] == replies;
    if |replies| > 0 {
      FirstMetaFirst(replies);
      if |replies| > 1 {
        FirstMetaFirst(replies[..|replies| - 1]);
      }
    }
  }

  lemma {:induction false} FirstMetaFirst(replies: seq<Reply>)
    requires replies != []
    ensures replies[0].meta.Some? ==> FirstMeta(replies) == replies[0].meta
  {
    if |replies| > 1 {
      FirstMetaFirst(replies[..|replies| - 1]);
    }
  }

  lemma {:induction false} ListTotalsOf(m: Model, order: seq<string>)
    requires forall a :: a in order ==> a in m.accounts
    ensures |AccountValues(m, order)| == |order|
    ensures ListTotals(AccountValues(m, order)) == SumAccounts(order, m.accounts)
  {
    if order != [] {
      var init := order[..|order| - 1];
      ListTotalsOf(m, init);
      var list := AccountValues(m, order);
      assert list[..|list| - 1] == AccountValues(m, init);
    }
  }

  lemma {:induction false} FirstMetaIs(replies: seq<Reply>, i: nat)
    requires i < |replies| && replies[i].meta.Some? && forall j :: 0 <= j < i ==> replies[j].meta.None?
    ensures FirstMeta(replies) == replies[i].meta
  {
    if i < |replies| - 1 {
      FirstMetaIs(replies[..|replies| - 1], i);
    } else {
      NoMeta(replies[..|replies| - 1]);
    }
  }

  lemma {:induction false} NoMeta(replies: seq<Reply>)
    requires forall i :: 0 <= i < |replies| ==> replies[i].meta.None?
    ensures FirstMeta(replies) == None
  {
    if replies != [] {
      NoMeta(replies[..|replies| - 1]);
    }
  }

  lemma MetaDescribed(o: AggregatedOverview, replies: seq<Reply>)
    requires o.meta == FirstMeta(replies) && o.cluster == ClusterName(replies)
    ensures F.MetaOf(o, replies)
  {
    hide FirstMeta;
    var init := if replies == [] then [] else replies[..|replies| - 1];
    if forall i :: 0 <= i < |replies| ==> replies[i].meta.None? {
      NoMeta(replies);
      NoMeta(init);
    }
    forall i | 0 <= i < |replies| && replies[i].meta.Some? && (forall j :: 0 <= j < i ==> replies[j].meta.None?)
      ensures o.meta == replies[i].meta
      ensures o.cluster == if i == 0 || i < |replies| - 1 then replies[i].meta.value.name else None
    {
      FirstMetaIs(replies, i);
      if i < |replies| - 1 {
        FirstMetaIs(init, i);
      } else {
        NoMeta(init);
      }
    }
  }

  method AggregateOverview(replies: seq<Reply>) returns (o: AggregatedOverview)
    ensures multiset(o.accountList) == multiset(AccountValues(Run(Events(replies)), Run(Events(replies)).order))
    ensures Descending(o.accountList, StreamCount)
    ensures var values := AccountValues(Run(Events(replies)), Run(Events(replies)).order);
      forall k :: WithKey(o.accountList, StreamCount, k) == WithKey(values, StreamCount, k)
    ensures o.totalAccounts == |o.accountList| == |Run(Events(replies)).order|
    ensures o.totals == TotalsOf(Events(replies), None)
    ensures o.meta == FirstMeta(replies)
    ensures o.cluster == ClusterName(replies)
    ensures F.CountsOf(o.totals, replies, None) && F.MetaOf(o, replies)
    ensures F.ListsAccounts(o.accountList, F.AllAccounts(replies))
    ensures forall i :: 0 <= i < |o.accountList| ==> F.CountsOf(o.accountList[i].totals, replies, Some(o.accountList[i].name))
    ensures forall i, j :: 0 <= i < j < |o.accountList| ==> o.accountList[i].totals.streams >= o.accountList[j].totals.streams
    ensures F.Apart(F.Reports(replies)) ==>
      forall i :: 0 <= i < |o.accountList| ==> F.ListsStreams(o.accountList[i], F.Reports(replies))
  {
    hide F.CountsOf, F.ListsAccounts, F.ListsStreams, F.Apart, F.MetaOf, AccountValues;
    hide Run, Ordered, Events, ReplyEvents, FirstMeta, ClusterName, MetaBefore, ClusterBefore, NameOf;
    var acc := new Accumulator();
    var meta := if |replies| > 0 then replies[0].meta else None;
    var cluster: Option<string> := None;
    EmptyRun();
    MetaAtStart(replies);
    for i := 0 to |replies|
      invariant acc.Valid() && fresh(acc) && fresh(acc.accountOwner.Keys) && fresh(acc.streamOwner.Keys)
      invariant acc.Folded() == Run(Events(replies[..i]))
      invariant meta == MetaBefore(replies, i) && cluster == ClusterBefore(replies, i)
    {
      var r := replies[i];
      MetaStep(replies, i);
      if cluster == None {
        cluster := NameOf(meta);
      }
      if meta == None {
        meta := r.meta;
      }
      acc.VisitReply(Events(replies[..i]), r);
      EventsSnoc(replies, i);
    }
    assert replies[..|replies|] == replies;
    MetaAtEnd(replies);
    ghost var events := Events(replies);
    EventsOrdered(replies);
    OrderDistinct(events);
    OverallTotals(events);
    forall a, key | a in acc.accounts && key in acc.accounts[a].keys ensures key in acc.entries {
      KeyListed(events, a, key);
      EntryAuthoritative(events, key);
    }
    var list := acc.Accounts();
    ListTotalsOf(acc.Folded(), acc.order);
    SortedSorts(list, StreamCount);
    SortedTotals(list, StreamCount);
    var accountList := SortedByStreams(list);
    assert |multiset(accountList)| == |multiset(list)|;
    forall k ensures WithKey(accountList, StreamCount, k) == WithKey(list, StreamCount, k) {
      SortedStable(list, StreamCount, k);
    }
    o := AggregatedOverview(
      if cluster.Some? then cluster else if |replies| > 0 then NameOf(replies[0].meta) else None,
      meta, accountList, |accountList|, ListTotals(accountList));
    OverviewProofs.ReplyTotals(replies, None);
    OverviewEntries.ListDescribed(replies, accountList);
    MetaDescribed(o, replies);
  }
}

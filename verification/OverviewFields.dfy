/** The overview's numbers and entries, said of the replies' own fields and of nothing else. */
module OverviewFields {
  import opened Prelude
  import opened Overview

  datatype Counted = Streams | Consumers | MessageCount | ByteCount

  /** The reply's server is named as the stream's leader. */
  predicate Speaks(server: Option<string>, s: JszStream) {
    && s.cluster.Some? && s.cluster.value.leader.Some? && s.cluster.value.leader.value != ""
    && server == s.cluster.value.leader
  }

  /** A consumer that names no leader, the empty one, or this server. */
  predicate Own(server: Option<string>, c: ConsumerDetail) {
    c.cluster.None? || c.cluster.value.leader.None? || c.cluster.value.leader.value == "" || c.cluster.value.leader == server
  }

  function OwnConsumers(server: Option<string>, consumers: seq<ConsumerDetail>): seq<ConsumerDetail> {
    if consumers == [] then []
    else
      var last := consumers[|consumers| - 1];
      OwnConsumers(server, consumers[..|consumers| - 1]) + if Own(server, last) then [last] else []
  }

  /** What one stream of a reply is worth. */
  function Worth(what: Counted, server: Option<string>, s: JszStream): nat {
    if !Speaks(server, s) then 0
    else
      match what
      case Streams => 1
      case Consumers => |OwnConsumers(server, s.consumers)|
      case MessageCount => if s.state.Some? && s.state.value.messages.Some? then s.state.value.messages.value else 0
      case ByteCount => if s.state.Some? && s.state.value.bytes.Some? then s.state.value.bytes.value else 0
  }

  function InStreams(what: Counted, server: Option<string>, streams: seq<JszStream>): nat {
    if streams == [] then 0
    else InStreams(what, server, streams[..|streams| - 1]) + Worth(what, server, streams[|streams| - 1])
  }

  /** Over the accounts of that name, or over all for `None`. */
  function InAccounts(what: Counted, server: Option<string>, accounts: seq<JszAccount>, name: Option<string>): nat {
    if accounts == [] then 0
    else
      var last := accounts[|accounts| - 1];
      InAccounts(what, server, accounts[..|accounts| - 1], name) +
      if name.None? || last.name == name.value then InStreams(what, server, last.streams) else 0
  }

  function InReplies(what: Counted, replies: seq<Reply>, name: Option<string>): nat {
    if replies == [] then 0
    else
      var last := replies[|replies| - 1];
      InReplies(what, replies[..|replies| - 1], name) + InAccounts(what, last.server, last.accounts, name)
  }

  ghost predicate CountsOf(t: Totals, replies: seq<Reply>, name: Option<string>) {
    && t.streams == InReplies(Streams, replies, name)
    && t.consumers == InReplies(Consumers, replies, name)
    && t.messages == InReplies(MessageCount, replies, name)
    && t.bytes == InReplies(ByteCount, replies, name)
  }

  // ----- the reports, in the order they are read ---------------------------------------

  datatype Report = Report(server: Option<string>, account: string, s: JszStream)

  function StreamReports(server: Option<string>, account: string, streams: seq<JszStream>): seq<Report> {
    seq(|streams|, i requires 0 <= i < |streams| => Report(server, account, streams[i]))
  }

  function AccountReports(server: Option<string>, accounts: seq<JszAccount>): seq<Report> {
    if accounts == [] then []
    else
      var last := accounts[|accounts| - 1];
      AccountReports(server, accounts[..|accounts| - 1]) + StreamReports(server, last.name, last.streams)
  }

  function Reports(replies: seq<Reply>): seq<Report> {
    if replies == [] then []
    else
      var last := replies[|replies| - 1];
      Reports(replies[..|replies| - 1]) + AccountReports(last.server, last.accounts)
  }

  /** Different streams have different joined names. */
  ghost predicate Apart(reports: seq<Report>) {
    forall i, j :: 0 <= i < |reports| && 0 <= j < |reports| ==>
      reports[i].account + "/" + reports[i].s.name == reports[j].account + "/" + reports[j].s.name ==>
        reports[i].account == reports[j].account && reports[i].s.name == reports[j].s.name
  }

  predicate Of(r: Report, account: string, stream: string) {
    r.account == account && r.s.name == stream
  }

  /** `reports[i]` is the first report of the stream. */
  ghost predicate First(reports: seq<Report>, account: string, stream: string, i: nat) {
    i < |reports| && Of(reports[i], account, stream) && forall j :: 0 <= j < i ==> !Of(reports[j], account, stream)
  }

  /** `reports[i]` is the last report of the stream by its leader. */
  ghost predicate LastLed(reports: seq<Report>, account: string, stream: string, i: nat) {
    && i < |reports| && Of(reports[i], account, stream) && Speaks(reports[i].server, reports[i].s)
    && forall j :: i < j < |reports| && Of(reports[j], account, stream) ==> !Speaks(reports[j].server, reports[j].s)
  }

  ghost predicate NoneLed(reports: seq<Report>, account: string, stream: string) {
    forall j :: 0 <= j < |reports| && Of(reports[j], account, stream) ==> !Speaks(reports[j].server, reports[j].s)
  }

  /** Creation time from the first report; state, configuration, cluster and own consumers from the leader's last
      one, or without any, all from the first and no consumers. */
  ghost predicate EntryOf(x: AggregatedStream, reports: seq<Report>) {
    && (forall i: nat :: First(reports, x.account, x.name, i) ==> x.created == reports[i].s.created)
    && (forall i: nat :: LastLed(reports, x.account, x.name, i) ==>
          var r := reports[i];
          && x.state == r.s.state && x.config == r.s.config && x.cluster == r.s.cluster
          && |x.consumers| == |OwnConsumers(r.server, r.s.consumers)|
          && forall k :: 0 <= k < |x.consumers| ==>
               && x.consumers[k].detail == OwnConsumers(r.server, r.s.consumers)[k]
               && x.consumers[k].stream == x.name && x.consumers[k].account == x.account)
    && (NoneLed(reports, x.account, x.name) ==>
          x.consumers == [] &&
          forall i: nat :: First(reports, x.account, x.name, i) ==>
            var s := reports[i].s; x.state == s.state && x.config == s.config && x.cluster == s.cluster)
  }

  predicate Reported(reports: seq<Report>, account: string, stream: string) {
    exists j :: 0 <= j < |reports| && Of(reports[j], account, stream)
  }

  ghost predicate Lists(streams: seq<AggregatedStream>, stream: string) {
    exists i :: 0 <= i < |streams| && streams[i].name == stream
  }

  /** One entry for each stream reported of the account, and no other. */
  ghost predicate ListsStreams(a: AggregatedAccount, reports: seq<Report>) {
    && (forall i :: 0 <= i < |a.streams| ==> a.streams[i].account == a.name && Reported(reports, a.name, a.streams[i].name))
    && (forall i :: 0 <= i < |a.streams| ==> EntryOf(a.streams[i], reports))
    && (forall i, j :: 0 <= i < j < |a.streams| ==> a.streams[i].name != a.streams[j].name)
    && (forall j :: 0 <= j < |reports| && reports[j].account == a.name ==> Lists(a.streams, reports[j].s.name))
  }

  /** The accounts of all replies in the order they are read. */
  function AllAccounts(replies: seq<Reply>): seq<JszAccount> {
    if replies == [] then [] else AllAccounts(replies[..|replies| - 1]) + replies[|replies| - 1].accounts
  }

  /** The first mention of an account says `info` of it. */
  ghost predicate FirstSays(accounts: seq<JszAccount>, name: string, info: Opaque) {
    exists j :: 0 <= j < |accounts| && accounts[j].name == name && accounts[j].info == info
      && forall k :: 0 <= k < j ==> accounts[k].name != name
  }

  ghost predicate HasAccount(list: seq<AggregatedAccount>, name: string) {
    exists i :: 0 <= i < |list| && list[i].name == name
  }

  /** One entry for each account of some reply, with what its first mention says of it. */
  ghost predicate ListsAccounts(list: seq<AggregatedAccount>, accounts: seq<JszAccount>) {
    && (forall i, j :: 0 <= i < j < |list| ==> list[i].name != list[j].name)
    && (forall j :: 0 <= j < |accounts| ==> HasAccount(list, accounts[j].name))
    && (forall i :: 0 <= i < |list| ==> FirstSays(accounts, list[i].name, list[i].info))
  }

  /** The first cluster any reply knows, and its name unless only the last of several replies knows it. */
  ghost predicate MetaOf(o: AggregatedOverview, replies: seq<Reply>) {
    && ((forall i :: 0 <= i < |replies| ==> replies[i].meta.None?) ==> o.meta.None? && o.cluster.None?)
    && (forall i :: 0 <= i < |replies| && replies[i].meta.Some? && (forall j :: 0 <= j < i ==> replies[j].meta.None?) ==>
          && o.meta == replies[i].meta
          && o.cluster == if i == 0 || i < |replies| - 1 then replies[i].meta.value.name else None)
  }
}

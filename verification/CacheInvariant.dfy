/** The inductive invariant of the overview cache protocol.

    What holds of one channel depends only on the channel, on its subscriber and
    on four facts about its cluster, so the invariant is stated on those values:
    a step that changes none of them for a channel keeps it for free. */
module CacheInvariant {
  import opened Prelude
  import opened CacheProtocol

  /** The snapshots that went into the buffer, oldest first. */
  function Accepted(attempts: seq<Attempt>): seq<Snapshot> {
    if attempts == [] then []
    else
      var last := attempts[|attempts| - 1];
      Accepted(attempts[..|attempts| - 1]) + if last.accepted then [last.snap] else []
  }

  function Dropped(attempts: seq<Attempt>): nat {
    if attempts == [] then 0
    else Dropped(attempts[..|attempts| - 1]) + if attempts[|attempts| - 1].accepted then 0 else 1
  }

  /** Some broadcast offered version `v` to the channel. */
  ghost predicate BroadcastTried(chan: Channel, v: nat) {
    exists i :: 0 <= i < |chan.attempts| && chan.attempts[i].source.Broadcast? && chan.attempts[i].snap.version == v
  }

  /** Broadcasts reach a channel in strictly increasing version order. */
  ghost predicate BroadcastsIncrease(chan: Channel) {
    forall i, j :: 0 <= i < j < |chan.attempts| && chan.attempts[i].source.Broadcast? && chan.attempts[j].source.Broadcast?
      ==> chan.attempts[i].snap.version < chan.attempts[j].snap.version
  }

  ghost predicate BroadcastsBelow(chan: Channel, v: nat) {
    forall i :: 0 <= i < |chan.attempts| && chan.attempts[i].source.Broadcast? ==> chan.attempts[i].snap.version < v
  }

  /** The initial snapshot is offered once, after Get and only if Get found one. */
  ghost predicate InitialOnce(chan: Channel, phase: Phase) {
    && (forall i, j :: 0 <= i < j < |chan.attempts| && chan.attempts[i].source.Initial?
          ==> !chan.attempts[j].source.Initial?)
    && (forall i :: 0 <= i < |chan.attempts| && chan.attempts[i].source.Initial? ==>
          phase.Returned? && phase.got == Some(chan.attempts[i].snap))
    && (phase.Returned? && phase.got.Some? ==>
          exists i :: 0 <= i < |chan.attempts| && chan.attempts[i].source.Initial?)
  }

  /** The version Subscribe's Get read, 0 when it found nothing. */
  function BaseVersion(phase: Phase): nat
    requires !phase.Entered?
  {
    match phase.got
    case None => 0
    case Some(snap) => snap.version
  }

  ghost predicate AttemptsInRange(chan: Channel, c: Cluster, version: nat) {
    forall i :: 0 <= i < |chan.attempts|
      ==> chan.attempts[i].snap.cluster == c && 1 <= chan.attempts[i].snap.version <= version
  }

  ghost predicate FetchedInRange(sub: Subscriber, version: nat) {
    !sub.phase.Entered? && sub.phase.got.Some? ==>
      sub.phase.got.value.cluster == sub.cluster && 1 <= sub.phase.got.value.version <= version
  }

  /** Each version stored since Get was broadcast to the channel, or is about to be. */
  ghost predicate NoGap(chan: Channel, phase: Phase, version: nat, owed: bool)
    requires !phase.Entered?
  {
    forall v :: BaseVersion(phase) < v <= version ==> BroadcastTried(chan, v) || (v == version && owed)
  }

  /** First in, first out, nothing lost but what a full buffer refused. */
  predicate Conserved(chan: Channel) {
    Accepted(chan.attempts) == chan.received + chan.buffer && |chan.buffer| <= CAPACITY
  }

  ghost predicate ChannelInv(chan: Channel, sub: Subscriber, registered: bool, version: nat, owed: bool, stopped: bool) {
    && (registered <==> !chan.closed)
    && Conserved(chan)
    && AttemptsInRange(chan, sub.cluster, version)
    && BroadcastsIncrease(chan)
    && (owed ==> BroadcastsBelow(chan, version))
    && InitialOnce(chan, sub.phase)
    && FetchedInRange(sub, version)
    && (registered && !sub.phase.Entered? ==> NoGap(chan, sub.phase, version, owed))
    && (!registered && !sub.phase.Returned? ==> stopped)
  }

  predicate IsRegistered(s: System, c: Cluster, ch: ChanId) {
    ch in Subscribers(s.shared, c)
  }

  /** The version last stored for `c` has a broadcast that is still to reach `ch`. */
  predicate Owed(s: System, c: Cluster, ch: ChanId) {
    c in s.refreshers &&
    match s.refreshers[c]
    case Idle => false
    case HasStored(_) => true
    case Sending(_, list, next) => next <= |list| && ch in list[next..]
    case Stopped => false
  }

  predicate IsStopped(s: System, c: Cluster) {
    c in s.refreshers && s.refreshers[c].Stopped?
  }

  ghost predicate ClusterInv(s: System, c: Cluster) {
    && Distinct(Subscribers(s.shared, c))
    && (forall ch :: ch in Subscribers(s.shared, c) ==> ch in s.subscribers && s.subscribers[ch].cluster == c)
    && (c in s.shared.entries ==> c in s.refreshers && s.shared.entries[c].cluster == c && s.shared.entries[c].version >= 1)
    && (c in s.refreshers ==> RefresherInv(s, c, s.refreshers[c]))
  }

  ghost predicate RefresherInv(s: System, c: Cluster, r: Refresher) {
    match r
    case Idle => true
    case Stopped => c in s.shared.entries
    case HasStored(snap) => Current(s.shared, c) == Some(snap)
    case Sending(snap, list, next) =>
      && Current(s.shared, c) == Some(snap)
      && next <= |list|
      && Distinct(list)
      && forall ch :: ch in list ==> ch in s.subscribers && s.subscribers[ch].cluster == c
  }

  ghost predicate ChannelInvIn(s: System, ch: ChanId)
    requires ch in s.shared.chans && ch in s.subscribers
  {
    var c := s.subscribers[ch].cluster;
    ChannelInv(s.shared.chans[ch], s.subscribers[ch], IsRegistered(s, c, ch), Version(s.shared, c), Owed(s, c, ch), IsStopped(s, c))
  }

  ghost predicate Inv(s: System) {
    && s.shared.chans.Keys == s.subscribers.Keys
    && (forall c :: ClusterInv(s, c))
    && (forall ch :: ch in s.shared.chans ==> ChannelInvIn(s, ch))
  }

  lemma StartInv(clusters: set<Cluster>)
    ensures Inv(Start(clusters))
  {
  }

  lemma OfferKeepsOthers(chan: Channel, source: Source, snap: Snapshot, v: nat)
    ensures BroadcastTried(chan, v) ==> BroadcastTried(Offer(chan, source, snap), v)
    ensures source.Broadcast? ==> BroadcastTried(Offer(chan, source, snap), snap.version)
  {
    var next := Offer(chan, source, snap);
    if BroadcastTried(chan, v) {
      var i :| 0 <= i < |chan.attempts| && chan.attempts[i].source.Broadcast? && chan.attempts[i].snap.version == v;
      assert next.attempts[i] == chan.attempts[i];
    }
    assert next.attempts[|chan.attempts|].source == source;
  }

  lemma OfferConserves(chan: Channel, source: Source, snap: Snapshot)
    requires Conserved(chan)
    ensures Conserved(Offer(chan, source, snap))
  {
    var next := Offer(chan, source, snap);
    assert next.attempts[..|next.attempts| - 1] == chan.attempts;
  }

  lemma OfferInitialOnce(chan: Channel, source: Source, snap: Snapshot, phase: Phase, phase': Phase)
    requires InitialOnce(chan, phase)
    requires if source.Broadcast? then phase' == phase else phase == Fetched(Some(snap)) && phase' == Returned(Some(snap))
    ensures InitialOnce(Offer(chan, source, snap), phase')
  {
    var next := Offer(chan, source, snap);
    assert next.attempts[|chan.attempts|].source == source;
    if source.Broadcast? && phase.Returned? && phase.got.Some? {
      var i :| 0 <= i < |chan.attempts| && chan.attempts[i].source.Initial?;
      assert next.attempts[i].source.Initial?;
    }
  }

  lemma OfferNoGap(chan: Channel, source: Source, snap: Snapshot, phase: Phase, phase': Phase, version: nat, owed: bool)
    requires !phase.Entered? && !phase'.Entered? && phase.got == phase'.got
    requires NoGap(chan, phase, version, owed)
    ensures NoGap(Offer(chan, source, snap), phase', version, owed)
    ensures source.Broadcast? && snap.version == version ==> NoGap(Offer(chan, source, snap), phase', version, false)
  {
    forall v ensures BroadcastTried(chan, v) ==> BroadcastTried(Offer(chan, source, snap), v) {
      OfferKeepsOthers(chan, source, snap, v);
    }
    OfferKeepsOthers(chan, source, snap, version);
  }

  lemma OfferIncreases(chan: Channel, source: Source, snap: Snapshot)
    requires BroadcastsIncrease(chan)
    requires source.Broadcast? ==> BroadcastsBelow(chan, snap.version)
    ensures BroadcastsIncrease(Offer(chan, source, snap))
  {
  }

  /** A broadcast that reaches an open channel pays what it was owed. */
  lemma BroadcastReaches(chan: Channel, sub: Subscriber, version: nat, stopped: bool, snap: Snapshot)
    requires ChannelInv(chan, sub, true, version, true, stopped)
    requires snap == Snapshot(sub.cluster, version) && version >= 1
    ensures ChannelInv(Offer(chan, Broadcast, snap), sub, true, version, false, stopped)
  {
    hide Conserved, InitialOnce, NoGap;
    OfferConserves(chan, Broadcast, snap);
    OfferIncreases(chan, Broadcast, snap);
    OfferInitialOnce(chan, Broadcast, snap, sub.phase, sub.phase);
    if !sub.phase.Entered? {
      OfferNoGap(chan, Broadcast, snap, sub.phase, sub.phase, version, true);
    }
  }

  lemma InitialReaches(chan: Channel, sub: Subscriber, registered: bool, version: nat, owed: bool, stopped: bool, snap: Snapshot)
    requires ChannelInv(chan, sub, registered, version, owed, stopped)
    requires sub.phase == Fetched(Some(snap)) && !chan.closed
    ensures ChannelInv(Offer(chan, Initial, snap), sub.(phase := Returned(Some(snap))), registered, version, owed, stopped)
  {
    hide Conserved, InitialOnce, NoGap;
    OfferConserves(chan, Initial, snap);
    OfferIncreases(chan, Initial, snap);
    OfferInitialOnce(chan, Initial, snap, sub.phase, Returned(Some(snap)));
    OfferNoGap(chan, Initial, snap, sub.phase, Returned(Some(snap)), version, owed);
  }

  /** A step that leaves a channel and its surroundings alone keeps its invariant. */
  lemma Untouched(s: System, t: System, ch: ChanId)
    requires ch in s.shared.chans && ch in s.subscribers && ch in t.shared.chans && ch in t.subscribers
    requires ChannelInvIn(s, ch)
    requires t.shared.chans[ch] == s.shared.chans[ch] && t.subscribers[ch] == s.subscribers[ch]
    requires var c := s.subscribers[ch].cluster;
      && IsRegistered(t, c, ch) == IsRegistered(s, c, ch) && Version(t.shared, c) == Version(s.shared, c)
      && Owed(t, c, ch) == Owed(s, c, ch) && IsStopped(t, c) == IsStopped(s, c)
    ensures ChannelInvIn(t, ch)
  {
  }

  /** What `CloseEach` does to a list of distinct open channels. */
  lemma {:induction false} CloseEachSucceeds(chans: map<ChanId, Channel>, list: seq<ChanId>)
    requires forall x :: x in list ==> x in chans && !chans[x].closed
    requires Distinct(list)
    ensures CloseEach(chans, list).Some?
    ensures var after := CloseEach(chans, list).value;
      && after.Keys == chans.Keys
      && forall x :: x in chans ==> after[x] == if x in list then chans[x].(closed := true) else chans[x]
  {
    if list != [] {
      var rest := list[1..];
      var chans' := chans[list[0] := chans[list[0]].(closed := true)];
      assert forall x :: x in list <==> x == list[0] || x in rest;
      assert list[0] !in rest;
      CloseEachSucceeds(chans', rest);
    }
  }

  lemma WithoutContents<T>(list: seq<T>, i: nat)
    requires i < |list| && Distinct(list)
    ensures Distinct(Without(list, i))
    ensures forall x :: x in Without(list, i) <==> x in list && x != list[i]
  {
    var rest := Without(list, i);
    forall x | x in list && x != list[i] ensures x in rest {
      var k :| 0 <= k < |list| && list[k] == x;
      assert rest[if k < i then k else k - 1] == x;
    }
  }

  /** A broadcast's remaining list shrinks by the channel just served. */
  lemma SendNextOwed(s: System, c: Cluster, ch: ChanId)
    requires Inv(s) && CanSendNext(s, c)
    ensures var r := s.refreshers[c];
      Owed(AfterSendNext(s, c), c, ch) == (Owed(s, c, ch) && ch != r.list[r.next])
  {
    hide ChannelInvIn;
    var r := s.refreshers[c];
    assert ClusterInv(s, c);
    assert r.list[r.next..] == [r.list[r.next]] + r.list[r.next + 1..];
  }

  /** closeSubs never closes a channel twice. */
  lemma CloseSubsEffect(s: System, c: Cluster)
    requires Inv(s) && Allocated(s.shared, Subscribers(s.shared, c))
    ensures SubsClosed(s.shared, c).Done?
    ensures var sh := SubsClosed(s.shared, c).shared;
      && sh.entries == s.shared.entries && sh.subs == s.shared.subs - {c}
      && sh.chans.Keys == s.shared.chans.Keys
      && forall ch :: ch in sh.chans ==>
           sh.chans[ch] == if IsRegistered(s, c, ch) then s.shared.chans[ch].(closed := true) else s.shared.chans[ch]
  {
    assert ClusterInv(s, c);
    forall ch | ch in Subscribers(s.shared, c) ensures !s.shared.chans[ch].closed {
      assert ChannelInvIn(s, ch);
    }
    CloseEachSucceeds(s.shared.chans, Subscribers(s.shared, c));
  }

  /** Unsubscribe never closes a channel twice, and removes just the one it names. */
  lemma UnsubscribeEffect(s: System, c: Cluster, ch: ChanId)
    requires Inv(s) && Allocated(s.shared, Subscribers(s.shared, c))
    ensures Unsubscribed(s.shared, c, ch).Done?
    ensures var sh := Unsubscribed(s.shared, c, ch).shared;
      && sh.entries == s.shared.entries && sh.chans.Keys == s.shared.chans.Keys
      && Distinct(Subscribers(sh, c))
      && (forall x :: x in Subscribers(sh, c) <==> IsRegistered(s, c, x) && x != ch)
      && (forall d :: d != c ==> Subscribers(sh, d) == Subscribers(s.shared, d))
      && forall x :: x in sh.chans ==>
           sh.chans[x] == if x == ch && IsRegistered(s, c, x) then s.shared.chans[x].(closed := true) else s.shared.chans[x]
  {
    assert ClusterInv(s, c);
    var list := Subscribers(s.shared, c);
    if ch in list {
      assert ChannelInvIn(s, ch);
      WithoutContents(list, IndexOf(list, ch));
    }
  }

  /** A new version is outstanding for everyone until its broadcast. */
  lemma StoringKeeps(chan: Channel, sub: Subscriber, registered: bool, version: nat, stopped: bool)
    requires ChannelInv(chan, sub, registered, version, false, stopped)
    ensures ChannelInv(chan, sub, registered, version + 1, true, stopped)
  {
    hide Conserved, BroadcastsIncrease, InitialOnce;
  }

  lemma ClosingKeeps(chan: Channel, sub: Subscriber, version: nat, owed: bool, stopped: bool, stopped': bool)
    requires ChannelInv(chan, sub, true, version, owed, stopped)
    requires sub.phase.Returned? || stopped'
    ensures ChannelInv(chan.(closed := true), sub, false, version, owed, stopped')
  {
    assert Conserved(chan.(closed := true));
    assert InitialOnce(chan.(closed := true), sub.phase);
  }

  lemma StoppingKeeps(chan: Channel, sub: Subscriber, registered: bool, version: nat, owed: bool, stopped: bool)
    requires ChannelInv(chan, sub, registered, version, owed, stopped)
    ensures ChannelInv(chan, sub, registered, version, owed, true)
  {
  }

  lemma NewChannel(c: Cluster, version: nat, owed: bool, stopped: bool)
    ensures ChannelInv(EMPTY_CHANNEL, Subscriber(c, Entered), true, version, owed, stopped)
  {
    assert Conserved(EMPTY_CHANNEL);
  }

  /** Get reads the stored version, so nothing is outstanding at that moment. */
  lemma FetchingKeeps(chan: Channel, sub: Subscriber, registered: bool, version: nat, owed: bool, stopped: bool,
                      got: Option<Snapshot>)
    requires ChannelInv(chan, sub, registered, version, owed, stopped) && sub.phase.Entered?
    requires if version == 0 then got.None? else got == Some(Snapshot(sub.cluster, version))
    ensures ChannelInv(chan, sub.(phase := Fetched(got)), registered, version, owed, stopped)
  {
    assert InitialOnce(chan, Fetched(got));
    assert NoGap(chan, Fetched(got), version, owed);
  }

  lemma ReturningKeeps(chan: Channel, sub: Subscriber, registered: bool, version: nat, owed: bool, stopped: bool)
    requires ChannelInv(chan, sub, registered, version, owed, stopped) && sub.phase == Fetched(None)
    ensures ChannelInv(chan, sub.(phase := Returned(None)), registered, version, owed, stopped)
  {
    assert InitialOnce(chan, Returned(None));
    assert registered ==> NoGap(chan, Returned(None), version, owed);
  }

  lemma TakingKeeps(chan: Channel, sub: Subscriber, registered: bool, version: nat, owed: bool, stopped: bool)
    requires ChannelInv(chan, sub, registered, version, owed, stopped) && |chan.buffer| > 0
    ensures ChannelInv(chan.(buffer := chan.buffer[1..], received := chan.received + [chan.buffer[0]]),
                       sub, registered, version, owed, stopped)
  {
    var next := chan.(buffer := chan.buffer[1..], received := chan.received + [chan.buffer[0]]);
    assert next.received + next.buffer == chan.received + chan.buffer;
    assert InitialOnce(next, sub.phase);
    forall v ensures BroadcastTried(chan, v) ==> BroadcastTried(next, v) {
    }
  }

  // ----- one step, seen from one cluster -----------------------------------

  lemma RegisteredList(s: System, c: Cluster, ch: ChanId, d: Cluster)
    requires ClusterInv(s, d) && CanRegister(s, c, ch)
    ensures var list, list' := Subscribers(s.shared, d), Subscribers(AfterRegister(s, c, ch).shared, d);
      list' == (if d == c then list + [ch] else list) && Distinct(list')
  {
    hide RefresherInv;
  }

  lemma RegisterRefresher(s: System, c: Cluster, ch: ChanId, d: Cluster)
    requires CanRegister(s, c, ch) && d in s.refreshers && RefresherInv(s, d, s.refreshers[d])
    ensures RefresherInv(AfterRegister(s, c, ch), d, s.refreshers[d])
  {
    hide Distinct;
  }

  lemma RegisterCluster(s: System, c: Cluster, ch: ChanId, d: Cluster)
    requires Inv(s) && CanRegister(s, c, ch)
    ensures ClusterInv(AfterRegister(s, c, ch), d)
  {
    hide Distinct, RefresherInv, ChannelInvIn;
    var t := AfterRegister(s, c, ch);
    assert ClusterInv(s, d);
    RegisteredList(s, c, ch, d);
    if d in s.refreshers {
      RegisterRefresher(s, c, ch, d);
    }
  }

  lemma CloseSubsCluster(s: System, c: Cluster, d: Cluster)
    requires Inv(s) && CanCloseSubs(s, c)
    ensures ClusterInv(AfterCloseSubs(s, c), d)
  {
    assert ClusterInv(s, d);
    CloseSubsEffect(s, c);
  }

  lemma UnsubscribeCluster(s: System, c: Cluster, ch: ChanId, d: Cluster)
    requires Inv(s) && CanUnsubscribe(s, c, ch)
    ensures ClusterInv(AfterUnsubscribe(s, c, ch), d)
  {
    assert ClusterInv(s, d);
    UnsubscribeEffect(s, c, ch);
  }

  // ----- one step, seen from one channel -----------------------------------

  lemma StoreChannel(s: System, c: Cluster, x: ChanId)
    requires Inv(s) && CanStore(s, c) && x in s.shared.chans
    ensures ChannelInvIn(AfterStore(s, c), x)
  {
    hide Conserved, AttemptsInRange, BroadcastsIncrease, InitialOnce, NoGap;
    var c' := s.subscribers[x].cluster;
    if c' == c {
      assert ChannelInvIn(s, x);
      StoringKeeps(s.shared.chans[x], s.subscribers[x], IsRegistered(s, c, x), Version(s.shared, c), IsStopped(s, c));
    } else {
      Untouched(s, AfterStore(s, c), x);
    }
  }

  /** A channel that has left is owed nothing. */
  lemma ForgettingKeeps(chan: Channel, sub: Subscriber, version: nat, owed: bool, stopped: bool)
    requires ChannelInv(chan, sub, false, version, owed, stopped)
    ensures ChannelInv(chan, sub, false, version, false, stopped)
  {
    hide Conserved, AttemptsInRange, BroadcastsIncrease, InitialOnce, NoGap;
  }

  lemma CopyListChannel(s: System, c: Cluster, x: ChanId)
    requires Inv(s) && CanCopyList(s, c) && x in s.shared.chans
    ensures ChannelInvIn(AfterCopyList(s, c), x)
  {
    hide Conserved, AttemptsInRange, BroadcastsIncrease, InitialOnce, NoGap;
    assert ChannelInvIn(s, x);
    assert Subscribers(s.shared, c)[0..] == Subscribers(s.shared, c);
    var sub := s.subscribers[x];
    if sub.cluster == c && !IsRegistered(s, c, x) {
      ForgettingKeeps(s.shared.chans[x], sub, Version(s.shared, c), Owed(s, c, x), IsStopped(s, c));
    } else {
      Untouched(s, AfterCopyList(s, c), x);
    }
  }

  lemma SendNextChannel(s: System, c: Cluster, x: ChanId)
    requires Inv(s) && CanSendNext(s, c) && SendNextEffect(s, c).Done? && x in s.shared.chans
    ensures ChannelInvIn(AfterSendNext(s, c), x)
  {
    hide Conserved, AttemptsInRange, BroadcastsIncrease, InitialOnce, NoGap;
    var r := s.refreshers[c];
    assert ClusterInv(s, c) && ChannelInvIn(s, x);
    SendNextOwed(s, c, x);
    if x == r.list[r.next] {
      assert Owed(s, c, x);
      BroadcastReaches(s.shared.chans[x], s.subscribers[x], Version(s.shared, c), IsStopped(s, c), r.snap);
    } else {
      Untouched(s, AfterSendNext(s, c), x);
    }
  }

  lemma FinishBroadcastChannel(s: System, c: Cluster, x: ChanId)
    requires Inv(s) && CanFinishBroadcast(s, c) && x in s.shared.chans
    ensures ChannelInvIn(AfterFinishBroadcast(s, c), x)
  {
    hide Conserved, AttemptsInRange, BroadcastsIncrease, InitialOnce, NoGap;
    Untouched(s, AfterFinishBroadcast(s, c), x);
  }

  lemma CloseSubsChannel(s: System, c: Cluster, x: ChanId)
    requires Inv(s) && CanCloseSubs(s, c) && x in s.shared.chans
    ensures x in AfterCloseSubs(s, c).shared.chans && ChannelInvIn(AfterCloseSubs(s, c), x)
  {
    hide Conserved, AttemptsInRange, BroadcastsIncrease, InitialOnce, NoGap;
    CloseSubsEffect(s, c);
    assert ClusterInv(s, c) && ChannelInvIn(s, x);
    var sub := s.subscribers[x];
    if IsRegistered(s, c, x) {
      ClosingKeeps(s.shared.chans[x], sub, Version(s.shared, c), false, false, true);
    } else if sub.cluster == c {
      StoppingKeeps(s.shared.chans[x], sub, false, Version(s.shared, c), false, false);
    } else {
      Untouched(s, AfterCloseSubs(s, c), x);
    }
  }

  lemma RegisterChannel(s: System, c: Cluster, ch: ChanId, x: ChanId)
    requires Inv(s) && CanRegister(s, c, ch) && (x == ch || x in s.shared.chans)
    ensures ChannelInvIn(AfterRegister(s, c, ch), x)
  {
    hide Conserved, AttemptsInRange, BroadcastsIncrease, InitialOnce, NoGap;
    var t := AfterRegister(s, c, ch);
    if x == ch {
      NewChannel(c, Version(t.shared, c), Owed(t, c, ch), IsStopped(t, c));
    } else {
      Untouched(s, t, x);
    }
  }

  lemma ReadCurrentChannel(s: System, ch: ChanId, x: ChanId)
    requires Inv(s) && CanReadCurrent(s, ch) && x in s.shared.chans
    ensures ChannelInvIn(AfterReadCurrent(s, ch), x)
  {
    hide Conserved, AttemptsInRange, BroadcastsIncrease, InitialOnce, NoGap;
    var sub := s.subscribers[ch];
    var c := sub.cluster;
    if x == ch {
      assert ClusterInv(s, c) && ChannelInvIn(s, ch);
      FetchingKeeps(s.shared.chans[ch], sub, IsRegistered(s, c, ch), Version(s.shared, c), Owed(s, c, ch), IsStopped(s, c),
                    Current(s.shared, c));
    } else {
      Untouched(s, AfterReadCurrent(s, ch), x);
    }
  }

  lemma SendInitialChannel(s: System, ch: ChanId, x: ChanId)
    requires Inv(s) && CanSendInitial(s, ch) && SendInitialEffect(s, ch).Done? && x in s.shared.chans
    ensures ChannelInvIn(AfterSendInitial(s, ch), x)
  {
    hide Conserved, AttemptsInRange, BroadcastsIncrease, InitialOnce, NoGap;
    var sub := s.subscribers[ch];
    var c := sub.cluster;
    if x != ch {
      Untouched(s, AfterSendInitial(s, ch), x);
    } else {
      assert ChannelInvIn(s, x);
      match sub.phase.got
      case Some(snap) =>
        InitialReaches(s.shared.chans[ch], sub, IsRegistered(s, c, ch), Version(s.shared, c), Owed(s, c, ch),
                       IsStopped(s, c), snap);
      case None =>
        ReturningKeeps(s.shared.chans[ch], sub, IsRegistered(s, c, ch), Version(s.shared, c), Owed(s, c, ch), IsStopped(s, c));
    }
  }

  lemma ReceiveChannel(s: System, ch: ChanId, x: ChanId)
    requires Inv(s) && CanReceive(s, ch) && x in s.shared.chans
    ensures ChannelInvIn(AfterReceive(s, ch), x)
  {
    hide Conserved, AttemptsInRange, BroadcastsIncrease, InitialOnce, NoGap;
    var c := s.subscribers[ch].cluster;
    if x == ch {
      assert ChannelInvIn(s, ch);
      TakingKeeps(s.shared.chans[ch], s.subscribers[ch], IsRegistered(s, c, ch), Version(s.shared, c), Owed(s, c, ch),
                  IsStopped(s, c));
    } else {
      Untouched(s, AfterReceive(s, ch), x);
    }
  }

  lemma UnsubscribeChannel(s: System, c: Cluster, ch: ChanId, x: ChanId)
    requires Inv(s) && CanUnsubscribe(s, c, ch) && x in s.shared.chans
    ensures x in AfterUnsubscribe(s, c, ch).shared.chans && ChannelInvIn(AfterUnsubscribe(s, c, ch), x)
  {
    hide Conserved, AttemptsInRange, BroadcastsIncrease, InitialOnce, NoGap;
    UnsubscribeEffect(s, c, ch);
    assert ClusterInv(s, c);
    if x == ch && IsRegistered(s, c, x) {
      assert ChannelInvIn(s, x);
      ClosingKeeps(s.shared.chans[x], s.subscribers[x], Version(s.shared, c), Owed(s, c, x), IsStopped(s, c), IsStopped(s, c));
    } else {
      Untouched(s, AfterUnsubscribe(s, c, ch), x);
    }
  }

  // ----- one step ------------------------------------------------------------

  lemma StoreInv(s: System, c: Cluster)
    requires Inv(s) && CanStore(s, c)
    ensures Inv(AfterStore(s, c))
  {
    hide ChannelInv;
    var t := AfterStore(s, c);
    forall d ensures ClusterInv(t, d) {
      assert ClusterInv(s, d);
    }
    forall x | x in t.shared.chans ensures ChannelInvIn(t, x) {
      StoreChannel(s, c, x);
    }
  }

  lemma CopyListInv(s: System, c: Cluster)
    requires Inv(s) && CanCopyList(s, c)
    ensures Inv(AfterCopyList(s, c))
  {
    hide ChannelInv;
    var t := AfterCopyList(s, c);
    forall d ensures ClusterInv(t, d) {
      assert ClusterInv(s, d);
    }
    forall x | x in t.shared.chans ensures ChannelInvIn(t, x) {
      CopyListChannel(s, c, x);
    }
  }

  lemma SendNextInv(s: System, c: Cluster)
    requires Inv(s) && CanSendNext(s, c) && SendNextEffect(s, c).Done?
    ensures Inv(AfterSendNext(s, c))
  {
    hide ChannelInv;
    var t := AfterSendNext(s, c);
    forall d ensures ClusterInv(t, d) {
      assert ClusterInv(s, d);
    }
    forall x | x in t.shared.chans ensures ChannelInvIn(t, x) {
      SendNextChannel(s, c, x);
    }
  }

  lemma FinishBroadcastInv(s: System, c: Cluster)
    requires Inv(s) && CanFinishBroadcast(s, c)
    ensures Inv(AfterFinishBroadcast(s, c))
  {
    hide ChannelInv;
    var t := AfterFinishBroadcast(s, c);
    forall d ensures ClusterInv(t, d) {
      assert ClusterInv(s, d);
    }
    forall x | x in t.shared.chans ensures ChannelInvIn(t, x) {
      FinishBroadcastChannel(s, c, x);
    }
  }

  lemma CloseSubsInv(s: System, c: Cluster)
    requires Inv(s) && CanCloseSubs(s, c)
    ensures Inv(AfterCloseSubs(s, c))
  {
    hide ChannelInv;
    var t := AfterCloseSubs(s, c);
    CloseSubsEffect(s, c);
    forall d ensures ClusterInv(t, d) {
      CloseSubsCluster(s, c, d);
    }
    forall x | x in t.shared.chans ensures ChannelInvIn(t, x) {
      CloseSubsChannel(s, c, x);
    }
  }

  lemma RegisterInv(s: System, c: Cluster, ch: ChanId)
    requires Inv(s) && CanRegister(s, c, ch)
    ensures Inv(AfterRegister(s, c, ch))
  {
    hide ChannelInv;
    var t := AfterRegister(s, c, ch);
    forall d ensures ClusterInv(t, d) {
      RegisterCluster(s, c, ch, d);
    }
    forall x | x in t.shared.chans ensures ChannelInvIn(t, x) {
      RegisterChannel(s, c, ch, x);
    }
  }

  lemma ReadCurrentInv(s: System, ch: ChanId)
    requires Inv(s) && CanReadCurrent(s, ch)
    ensures Inv(AfterReadCurrent(s, ch))
  {
    hide ChannelInv;
    var t := AfterReadCurrent(s, ch);
    forall d ensures ClusterInv(t, d) {
      assert ClusterInv(s, d);
    }
    forall x | x in t.shared.chans ensures ChannelInvIn(t, x) {
      ReadCurrentChannel(s, ch, x);
    }
  }

  lemma SendInitialInv(s: System, ch: ChanId)
    requires Inv(s) && CanSendInitial(s, ch) && SendInitialEffect(s, ch).Done?
    ensures Inv(AfterSendInitial(s, ch))
  {
    hide ChannelInv;
    var t := AfterSendInitial(s, ch);
    forall d ensures ClusterInv(t, d) {
      assert ClusterInv(s, d);
    }
    forall x | x in t.shared.chans ensures ChannelInvIn(t, x) {
      SendInitialChannel(s, ch, x);
    }
  }

  lemma ReceiveInv(s: System, ch: ChanId)
    requires Inv(s) && CanReceive(s, ch)
    ensures Inv(AfterReceive(s, ch))
  {
    hide ChannelInv;
    var t := AfterReceive(s, ch);
    forall d ensures ClusterInv(t, d) {
      assert ClusterInv(s, d);
    }
    forall x | x in t.shared.chans ensures ChannelInvIn(t, x) {
      ReceiveChannel(s, ch, x);
    }
  }

  lemma UnsubscribeInv(s: System, c: Cluster, ch: ChanId)
    requires Inv(s) && CanUnsubscribe(s, c, ch)
    ensures Inv(AfterUnsubscribe(s, c, ch))
  {
    hide ChannelInv;
    var t := AfterUnsubscribe(s, c, ch);
    UnsubscribeEffect(s, c, ch);
    forall d ensures ClusterInv(t, d) {
      UnsubscribeCluster(s, c, ch, d);
    }
    forall x | x in t.shared.chans ensures ChannelInvIn(t, x) {
      UnsubscribeChannel(s, c, ch, x);
    }
  }

  lemma CancelInv(s: System)
    requires Inv(s)
    ensures Inv(s.(cancelled := true))
  {
    hide ChannelInv;
    var t := s.(cancelled := true);
    forall d ensures ClusterInv(t, d) {
      assert ClusterInv(s, d);
    }
    forall x | x in t.shared.chans ensures ChannelInvIn(t, x) {
      Untouched(s, t, x);
    }
  }

  /** No step closes a channel twice: only a send can stop the process. */
  lemma OnlySendsPanic(s: System, a: Action)
    requires Inv(s) && Enabled(s, a) && Step(s, a).panic.Some?
    ensures a.SendNext? || a.SendInitial?
    ensures Step(s, a).panic.value.SendOnClosed?
  {
    match a
    case CloseSubs(c) => CloseSubsEffect(s, c);
    case Unsubscribe(c, ch) => UnsubscribeEffect(s, c, ch);
    case _ =>
  }

  /** Every step keeps the invariant, unless it is a send on a closed channel. */
  lemma StepInv(s: System, a: Action)
    requires Inv(s) && Enabled(s, a) && Step(s, a).panic.None?
    ensures Inv(Step(s, a))
  {
    match a
    case Cancel => CancelInv(s);
    case Store(c) => StoreInv(s, c);
    case CopyList(c) => CopyListInv(s, c);
    case SendNext(c) => SendNextInv(s, c);
    case FinishBroadcast(c) => FinishBroadcastInv(s, c);
    case CloseSubs(c) => CloseSubsInv(s, c);
    case Register(c, ch) => RegisterInv(s, c, ch);
    case ReadCurrent(ch) => ReadCurrentInv(s, ch);
    case SendInitial(ch) => SendInitialInv(s, ch);
    case Receive(ch) => ReceiveInv(s, ch);
    case Unsubscribe(c, ch) => UnsubscribeInv(s, c, ch);
  }
}

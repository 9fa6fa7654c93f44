/** What a send does to its channel: when an offer is taken, and what a subscriber that keeps up sees. */
module CacheOffers {
  import opened Prelude
  import opened CacheProtocol
  import opened CacheInvariant
  import opened CacheRuns

  /** The channel a step sends on and the snapshot it sends: a refresher's to the next channel on its list, or
      `Subscribe`'s own when its Get found one. */
  function Offered(s: System, a: Action): Option<(ChanId, Snapshot)> {
    match a
    case SendNext(c) =>
      if c in s.refreshers && s.refreshers[c].Sending? && s.refreshers[c].next < |s.refreshers[c].list|
      then Some((s.refreshers[c].list[s.refreshers[c].next], s.refreshers[c].snap))
      else None
    case SendInitial(ch) =>
      if ch in s.subscribers && s.subscribers[ch].phase.Fetched? && s.subscribers[ch].phase.got.Some?
      then Some((ch, s.subscribers[ch].phase.got.value))
      else None
    case _ => None
  }

  predicate OfferedTo(s: System, a: Action, ch: ChanId) {
    Offered(s, a).Some? && Offered(s, a).value.0 == ch
  }

  /** An offer joins the end of the queue unless four wait, a read takes its head, and nothing else touches it. */
  predicate Queued(before: Channel, after: Channel, offer: Option<Snapshot>, read: bool) {
    && after.buffer ==
         (match offer
          case Some(snap) => if |before.buffer| < 4 then before.buffer + [snap] else before.buffer
          case None => if read && before.buffer != [] then before.buffer[1..] else before.buffer)
    && after.received ==
         (if read && before.buffer != [] then before.received + [before.buffer[0]] else before.received)
    && Dropped(after.attempts) == Dropped(before.attempts) + (if offer.Some? && |before.buffer| >= 4 then 1 else 0)
  }

  function OfferTo(s: System, a: Action, ch: ChanId): Option<Snapshot> {
    if OfferedTo(s, a, ch) then Some(Offered(s, a).value.1) else None
  }

  /** A channel is a queue of four. */
  lemma StepQueue(s: System, a: Action, ch: ChanId)
    requires Inv(s) && Enabled(s, a) && ch in s.shared.chans && Step(s, a).panic.None?
    ensures ch in Step(s, a).shared.chans
    ensures Queued(s.shared.chans[ch], Step(s, a).shared.chans[ch], OfferTo(s, a, ch), a == Receive(ch))
  {
    hide Inv, Queued, Step, Enabled;
    if a.SendNext? {
      SendNextQueue(s, a.c, ch);
    } else if a.SendInitial? {
      SendInitialQueue(s, a.ch, ch);
    } else {
      OtherQueue(s, a, ch);
    }
  }

  lemma SendNextQueue(s: System, c: Cluster, ch: ChanId)
    requires Enabled(s, SendNext(c)) && ch in s.shared.chans && Step(s, SendNext(c)).panic.None?
    ensures ch in Step(s, SendNext(c)).shared.chans
    ensures Queued(s.shared.chans[ch], Step(s, SendNext(c)).shared.chans[ch], OfferTo(s, SendNext(c), ch), false)
  {
    hide Queued, Offer;
    OfferQueued(s.shared.chans[ch], Broadcast, s.refreshers[c].snap);
    LeftAlone(s.shared.chans[ch]);
  }

  lemma SendInitialQueue(s: System, x: ChanId, ch: ChanId)
    requires Enabled(s, SendInitial(x)) && ch in s.shared.chans && Step(s, SendInitial(x)).panic.None?
    ensures ch in Step(s, SendInitial(x)).shared.chans
    ensures Queued(s.shared.chans[ch], Step(s, SendInitial(x)).shared.chans[ch], OfferTo(s, SendInitial(x), ch), false)
  {
    hide Queued, Offer;
    LeftAlone(s.shared.chans[ch]);
    if s.subscribers[x].phase.got.Some? {
      OfferQueued(s.shared.chans[ch], Initial, s.subscribers[x].phase.got.value);
    }
  }

  lemma OtherQueue(s: System, a: Action, ch: ChanId)
    requires Inv(s) && Enabled(s, a) && ch in s.shared.chans && !a.SendNext? && !a.SendInitial?
    ensures ch in Step(s, a).shared.chans
    ensures Queued(s.shared.chans[ch], Step(s, a).shared.chans[ch], None, a == Receive(ch))
  {
    hide ClusterInv, ChannelInvIn, Dropped;
    match a
    case CloseSubs(c) => CloseSubsEffect(s, c);
    case Unsubscribe(c, x) => UnsubscribeEffect(s, c, x);
    case _ =>
  }

  lemma OfferQueued(chan: Channel, source: Source, snap: Snapshot)
    ensures Queued(chan, Offer(chan, source, snap), Some(snap), false)
  {
    var attempts := Offer(chan, source, snap).attempts;
    assert attempts[..|attempts| - 1] == chan.attempts;
  }

  lemma LeftAlone(chan: Channel)
    ensures Queued(chan, chan, None, false)
  {
  }

  /** The same over a run. */
  lemma QueueExact(clusters: set<Cluster>, states: seq<System>, actions: seq<Action>, n: nat, ch: ChanId)
    requires IsRun(clusters, states, actions) && n < |actions| && states[n + 1].panic.None?
    requires ch in states[n].shared.chans
    ensures ch in states[n + 1].shared.chans
    ensures var before, after := states[n].shared.chans[ch].buffer, states[n + 1].shared.chans[ch].buffer;
      && (OfferedTo(states[n], actions[n], ch) && |before| < 4 ==> after == before + [Offered(states[n], actions[n]).value.1])
      && (OfferedTo(states[n], actions[n], ch) && |before| == 4 ==> after == before)
      && (!OfferedTo(states[n], actions[n], ch) ==>
            after == if actions[n] == Receive(ch) && before != [] then before[1..] else before)
      && |before| <= 4
  {
    hide Step, Enabled, Inv, Offered;
    BeforeAction(clusters, states, actions, n);
    StepQueue(states[n], actions[n], ch);
    Conservation(clusters, states, actions, n, ch);
  }

  /** Never four waiting when something was offered. */
  ghost predicate KeepsUp(states: seq<System>, actions: seq<Action>, n: nat, ch: ChanId)
    requires n <= |actions| && |states| == |actions| + 1
  {
    forall i :: 0 <= i < n && OfferedTo(states[i], actions[i], ch) && ch in states[i].shared.chans ==>
      |states[i].shared.chans[ch].buffer| < 4
  }

  lemma NewChannelDrops(s: System, a: Action, ch: ChanId)
    requires Inv(s) && Enabled(s, a) && ch !in s.shared.chans && ch in Step(s, a).shared.chans
    ensures Dropped(Step(s, a).shared.chans[ch].attempts) == 0
  {
    hide ClusterInv, ChannelInvIn;
    match a
    case CloseSubs(c) => CloseSubsEffect(s, c);
    case Unsubscribe(c, x) => UnsubscribeEffect(s, c, x);
    case _ =>
  }

  lemma ChannelsStay(s: System, a: Action, ch: ChanId)
    requires Inv(s) && Enabled(s, a) && ch in s.shared.chans
    ensures ch in Step(s, a).shared.chans
  {
    StepCloses(s, a, ch);
  }

  lemma {:induction false} NotYet(clusters: set<Cluster>, states: seq<System>, actions: seq<Action>, i: nat, n: nat, ch: ChanId)
    requires IsRun(clusters, states, actions) && i <= n < |states| && ch !in states[n].shared.chans
    ensures ch !in states[i].shared.chans
    decreases n
  {
    hide Step, Enabled, Inv;
    if i < n {
      BeforeAction(clusters, states, actions, n - 1);
      if ch in states[n - 1].shared.chans {
        ChannelsStay(states[n - 1], actions[n - 1], ch);
      }
      NotYet(clusters, states, actions, i, n - 1, ch);
    }
  }

  /** Nothing was dropped exactly when the buffer was never full. */
  lemma {:induction false} DroppedExact(clusters: set<Cluster>, states: seq<System>, actions: seq<Action>, n: nat, ch: ChanId)
    requires IsRun(clusters, states, actions) && n < |states| && states[n].panic.None? && ch in states[n].shared.chans
    ensures Dropped(states[n].shared.chans[ch].attempts) == 0 <==> KeepsUp(states, actions, n, ch)
    decreases n
  {
    hide Step, Enabled, Inv, Offered, Dropped;
    assert n > 0;
    BeforeAction(clusters, states, actions, n - 1);
    assert states[n - 1].panic.None? by { NoStepAfterPanic(clusters, states, actions, n - 1); }
    if ch in states[n - 1].shared.chans {
      DroppedExact(clusters, states, actions, n - 1, ch);
      StepQueue(states[n - 1], actions[n - 1], ch);
    } else {
      NewChannelDrops(states[n - 1], actions[n - 1], ch);
      forall i | 0 <= i < n ensures ch !in states[i].shared.chans {
        NotYet(clusters, states, actions, i, n - 1, ch);
      }
    }
  }

  lemma {:induction false} NothingDropped(attempts: seq<Attempt>, i: nat)
    requires Dropped(attempts) == 0 && i < |attempts|
    ensures attempts[i].snap in Accepted(attempts)
  {
    if i < |attempts| - 1 {
      NothingDropped(attempts[..|attempts| - 1], i);
    }
  }

  /** A subscriber whose buffer was never full when something was offered misses nothing: every version from
      the one it started at is among the snapshots it has read or can read, but
      for the last one while its broadcast is under way. */
  lemma KeepingUpSeesEverything(clusters: set<Cluster>, states: seq<System>, actions: seq<Action>, n: nat, c: Cluster, ch: ChanId, v: nat)
    requires IsRun(clusters, states, actions) && n < |states| && states[n].panic.None?
    requires ch in Subscribers(states[n].shared, c) && ch in states[n].subscribers && ch in states[n].shared.chans
    requires states[n].subscribers[ch].phase.Returned? && KeepsUp(states, actions, n, ch)
    requires 1 <= v && BaseVersion(states[n].subscribers[ch].phase) <= v < Version(states[n].shared, c)
    ensures Snapshot(c, v) in states[n].shared.chans[ch].received + states[n].shared.chans[ch].buffer
  {
    hide BroadcastsIncrease, InitialOnce, NoGap;
    DroppedExact(clusters, states, actions, n, ch);
    var chan, phase := states[n].shared.chans[ch], states[n].subscribers[ch].phase;
    RunInv(clusters, states, actions, n);
    assert ChannelInvIn(states[n], ch) && ClusterInv(states[n], c);
    NoGaps(clusters, states, actions, n, c, ch);
    assert Tried(chan, v);
    var i :| 0 <= i < |chan.attempts| && chan.attempts[i].snap.version == v;
    NothingDropped(chan.attempts, i);
  }
}

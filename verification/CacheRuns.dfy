/** What the overview cache promises over every run and every interleaving. */
module CacheRuns {
  import opened Prelude
  import opened CacheProtocol
  import opened CacheInvariant

  lemma {:induction false} RunInv(clusters: set<Cluster>, states: seq<System>, actions: seq<Action>, n: nat)
    requires IsRun(clusters, states, actions) && n < |states| && states[n].panic.None?
    ensures Inv(states[n])
  {
    hide Inv, Step;
    if n == 0 {
      StartInv(clusters);
    } else {
      assert Enabled(states[n - 1], actions[n - 1]);
      RunInv(clusters, states, actions, n - 1);
      StepInv(states[n - 1], actions[n - 1]);
    }
  }

  /** The state before any action of a run satisfies the invariant. */
  lemma BeforeAction(clusters: set<Cluster>, states: seq<System>, actions: seq<Action>, n: nat)
    requires IsRun(clusters, states, actions) && n < |actions|
    ensures Inv(states[n]) && Enabled(states[n], actions[n]) && states[n + 1] == Step(states[n], actions[n])
  {
    assert Enabled(states[n], actions[n]);
    RunInv(clusters, states, actions, n);
  }

  // ----- channel lifecycle ----------------------------------------------------

  /** A channel is open exactly while it is registered, and it is registered once,
      under the cluster it subscribed to. */
  lemma RegisteredMeansOpen(clusters: set<Cluster>, states: seq<System>, actions: seq<Action>, n: nat, ch: ChanId)
    requires IsRun(clusters, states, actions) && n < |states| && states[n].panic.None?
    requires ch in states[n].shared.chans
    ensures var s := states[n];
      && ch in s.subscribers
      && (!s.shared.chans[ch].closed <==> ch in Subscribers(s.shared, s.subscribers[ch].cluster))
      && (forall c :: ch in Subscribers(s.shared, c) ==> c == s.subscribers[ch].cluster)
      && (forall c, i, j :: 0 <= i < j < |Subscribers(s.shared, c)| ==> Subscribers(s.shared, c)[i] != Subscribers(s.shared, c)[j])
  {
    var s := states[n];
    RunInv(clusters, states, actions, n);
    assert ChannelInvIn(s, ch);
    forall c ensures ch in Subscribers(s.shared, c) ==> c == s.subscribers[ch].cluster
             ensures Distinct(Subscribers(s.shared, c))
    {
      assert ClusterInv(s, c);
    }
  }

  /** No run closes a channel twice. */
  lemma NoDoubleClose(clusters: set<Cluster>, states: seq<System>, actions: seq<Action>, n: nat, ch: ChanId)
    requires IsRun(clusters, states, actions) && n < |states|
    ensures states[n].panic != Some(CloseOfClosed(ch))
  {
    if n > 0 && states[n].panic.Some? {
      BeforeAction(clusters, states, actions, n - 1);
      OnlySendsPanic(states[n - 1], actions[n - 1]);
    }
  }

  lemma CloseSubsCloses(s: System, c: Cluster, ch: ChanId)
    requires Inv(s) && CanCloseSubs(s, c) && ch in s.shared.chans && ch in s.subscribers
    ensures ch in AfterCloseSubs(s, c).shared.chans
    ensures AfterCloseSubs(s, c).shared.chans[ch].closed <==> s.shared.chans[ch].closed || c == s.subscribers[ch].cluster
  {
    hide Conserved, AttemptsInRange, BroadcastsIncrease, InitialOnce, NoGap;
    CloseSubsEffect(s, c);
    assert ClusterInv(s, c) && ChannelInvIn(s, ch);
  }

  lemma UnsubscribeCloses(s: System, c: Cluster, x: ChanId, ch: ChanId)
    requires Inv(s) && CanUnsubscribe(s, c, x) && ch in s.shared.chans && ch in s.subscribers
    ensures ch in AfterUnsubscribe(s, c, x).shared.chans
    ensures AfterUnsubscribe(s, c, x).shared.chans[ch].closed <==>
      s.shared.chans[ch].closed || (x == ch && c == s.subscribers[ch].cluster)
  {
    hide Conserved, AttemptsInRange, BroadcastsIncrease, InitialOnce, NoGap;
    UnsubscribeEffect(s, c, x);
    assert ClusterInv(s, c) && ChannelInvIn(s, ch);
  }

  /** A step closes `ch` exactly when it is closeSubs for its cluster, or an
      Unsubscribe that names both, and nothing reopens it. */
  lemma StepCloses(s: System, a: Action, ch: ChanId)
    requires Inv(s) && Enabled(s, a) && ch in s.shared.chans
    ensures ch in Step(s, a).shared.chans && ch in s.subscribers && ch in Step(s, a).subscribers
    ensures Step(s, a).subscribers[ch].cluster == s.subscribers[ch].cluster
    ensures Step(s, a).shared.chans[ch].closed <==>
      s.shared.chans[ch].closed || a == CloseSubs(s.subscribers[ch].cluster) || a == Unsubscribe(s.subscribers[ch].cluster, ch)
  {
    hide ClusterInv, ChannelInvIn;
    match a
    case CloseSubs(c) => CloseSubsCloses(s, c, ch);
    case Unsubscribe(c, x) => UnsubscribeCloses(s, c, x, ch);
    case _ =>
  }

  lemma {:induction false} CancelledSince(clusters: set<Cluster>, states: seq<System>, actions: seq<Action>, n: nat)
    requires IsRun(clusters, states, actions) && n < |states|
    ensures states[n].cancelled <==> exists i :: 0 <= i < n && actions[i] == Cancel
  {
    if n > 0 {
      assert Enabled(states[n - 1], actions[n - 1]) && states[n] == Step(states[n - 1], actions[n - 1]);
      CancelledSince(clusters, states, actions, n - 1);
    }
  }

  /** A refresher closes its channels only once it has been told to stop, and only after its first refresh. */
  lemma ShutdownIsAsked(clusters: set<Cluster>, states: seq<System>, actions: seq<Action>, n: nat, c: Cluster)
    requires IsRun(clusters, states, actions) && n < |actions| && actions[n] == CloseSubs(c)
    ensures exists i :: 0 <= i < n && actions[i] == Cancel
    ensures c in states[n].shared.entries
  {
    assert Enabled(states[n], actions[n]);
    CancelledSince(clusters, states, actions, n);
  }

  /** Unsubscribe does nothing exactly when the channel is not registered under
      that name: already unsubscribed, closed by closeSubs, or another cluster's. */
  lemma UnsubscribeNoOp(s: System, c: Cluster, ch: ChanId)
    requires Inv(s) && CanUnsubscribe(s, c, ch)
    ensures AfterUnsubscribe(s, c, ch) == s <==> s.shared.chans[ch].closed || s.subscribers[ch].cluster != c
  {
    hide Conserved, AttemptsInRange, BroadcastsIncrease, InitialOnce, NoGap;
    assert ChannelInvIn(s, ch) && ClusterInv(s, c);
    UnsubscribeEffect(s, c, ch);
  }

  // ----- exactly when a send meets a closed channel ---------------------------

  /** Some action in the open interval `(from, until)` is `a`. */
  ghost predicate Between(actions: seq<Action>, from: nat, until: nat, a: Action)
    requires until <= |actions|
  {
    exists u :: from < u < until && actions[u] == a
  }

  /** The broadcast that is sending at step `until` copied its list at step `from`. */
  ghost predicate SameBroadcast(actions: seq<Action>, from: nat, until: nat, c: Cluster)
    requires until <= |actions|
  {
    from < until && actions[from] == CopyList(c) && forall m :: from < m < until ==> actions[m] != CopyList(c)
  }

  lemma SendingBefore(s: System, a: Action, c: Cluster)
    requires Inv(s) && Enabled(s, a) && a != CopyList(c)
    requires c in Step(s, a).refreshers && Step(s, a).refreshers[c].Sending?
    ensures c in s.refreshers && s.refreshers[c].Sending?
    ensures s.refreshers[c].list == Step(s, a).refreshers[c].list
    ensures Step(s, a).refreshers[c].next == s.refreshers[c].next + if a == SendNext(c) then 1 else 0
  {
    hide Inv;
  }

  lemma {:induction false} SendingBack(clusters: set<Cluster>, states: seq<System>, actions: seq<Action>,
                                       from: nat, at: nat, until: nat, c: Cluster)
    requires IsRun(clusters, states, actions) && from < at <= until < |states|
    requires SameBroadcast(actions, from, until, c)
    requires c in states[until].refreshers && states[until].refreshers[c].Sending?
    ensures c in states[at].refreshers && states[at].refreshers[c].Sending?
    ensures states[at].refreshers[c].list == states[until].refreshers[c].list
    decreases until - at
  {
    if at < until {
      SendingBack(clusters, states, actions, from, at + 1, until, c);
      BeforeAction(clusters, states, actions, at);
      SendingBefore(states[at], actions[at], c);
    }
  }

  /** Throughout a broadcast the refresher works on the list it copied. */
  lemma SendingSince(clusters: set<Cluster>, states: seq<System>, actions: seq<Action>, from: nat, at: nat, until: nat, c: Cluster)
    requires IsRun(clusters, states, actions) && from < at <= until < |states|
    requires SameBroadcast(actions, from, until, c)
    requires c in states[until].refreshers && states[until].refreshers[c].Sending?
    ensures c in states[at].refreshers && states[at].refreshers[c].Sending?
    ensures states[at].refreshers[c].list == Subscribers(states[from].shared, c)
    ensures states[at].refreshers[c].list == states[until].refreshers[c].list
  {
    BeforeAction(clusters, states, actions, from);
    SendingBack(clusters, states, actions, from, from + 1, until, c);
    SendingBack(clusters, states, actions, from, at, until, c);
  }

  /** A channel on a copied list is closed once, and only if, it unsubscribes. */
  lemma {:induction false} ClosedDuringBroadcast(clusters: set<Cluster>, states: seq<System>, actions: seq<Action>,
                                                 from: nat, at: nat, until: nat, c: Cluster, ch: ChanId)
    requires IsRun(clusters, states, actions) && from < at <= until < |states|
    requires SameBroadcast(actions, from, until, c)
    requires c in states[until].refreshers && states[until].refreshers[c].Sending? && ch in states[until].refreshers[c].list
    requires states[until].panic.None?
    ensures ch in states[at].shared.chans && ch in states[at].subscribers && states[at].subscribers[ch].cluster == c
    ensures states[at].shared.chans[ch].closed <==> Between(actions, from, at, Unsubscribe(c, ch))
    decreases at
  {
    hide ChannelInv;
    SendingSince(clusters, states, actions, from, at, until, c);
    if at == from + 1 {
      BeforeAction(clusters, states, actions, from);
      assert ClusterInv(states[from], c);
      RegisteredMeansOpen(clusters, states, actions, from, ch);
    } else {
      var p := at - 1;
      ClosedDuringBroadcast(clusters, states, actions, from, p, until, c, ch);
      BeforeAction(clusters, states, actions, p);
      StepCloses(states[p], actions[p], ch);
      SendingSince(clusters, states, actions, from, p, until, c);
      assert Between(actions, from, at, Unsubscribe(c, ch)) <==>
        Between(actions, from, p, Unsubscribe(c, ch)) || actions[p] == Unsubscribe(c, ch);
    }
  }

  /** Whoever is sending has copied its list before, and not again since. */
  lemma {:induction false} CopyBefore(clusters: set<Cluster>, states: seq<System>, actions: seq<Action>, at: nat, c: Cluster)
    returns (copied: nat)
    requires IsRun(clusters, states, actions) && at < |states|
    requires c in states[at].refreshers && states[at].refreshers[c].Sending?
    ensures SameBroadcast(actions, copied, at, c)
    decreases at
  {
    hide Step, Enabled, Inv;
    assert at > 0;
    BeforeAction(clusters, states, actions, at - 1);
    if actions[at - 1] == CopyList(c) {
      copied := at - 1;
    } else {
      SendingBefore(states[at - 1], actions[at - 1], c);
      copied := CopyBefore(clusters, states, actions, at - 1, c);
    }
  }

  /** Every broadcast send belongs to one copied list, and it stops the process exactly
      when its channel was unsubscribed after that copy and before the send. */
  lemma BroadcastPanicIff(clusters: set<Cluster>, states: seq<System>, actions: seq<Action>, sent: nat, c: Cluster)
    returns (copied: nat)
    requires IsRun(clusters, states, actions) && sent < |actions| && actions[sent] == SendNext(c)
    ensures SameBroadcast(actions, copied, sent, c)
    ensures c in states[sent].refreshers && states[sent].refreshers[c].Sending?
    ensures states[sent].refreshers[c].next < |states[sent].refreshers[c].list|
    ensures var ch := states[sent].refreshers[c].list[states[sent].refreshers[c].next];
      && (states[sent + 1].panic.Some? <==> Between(actions, copied, sent, Unsubscribe(c, ch)))
      && (states[sent + 1].panic.Some? ==> states[sent + 1].panic.value == SendOnClosed(Broadcast, ch))
  {
    BeforeAction(clusters, states, actions, sent);
    copied := CopyBefore(clusters, states, actions, sent, c);
    var r := states[sent].refreshers[c];
    ClosedDuringBroadcast(clusters, states, actions, copied, sent, sent, c, r.list[r.next]);
  }

  /** Until Subscribe returns, only closeSubs can close its channel. */
  lemma {:induction false} ClosedDuringSubscribe(clusters: set<Cluster>, states: seq<System>, actions: seq<Action>,
                                                 from: nat, at: nat, c: Cluster, ch: ChanId)
    requires IsRun(clusters, states, actions) && from < at < |states|
    requires actions[from] == Register(c, ch)
    requires ch in states[at].subscribers && !states[at].subscribers[ch].phase.Returned?
    ensures ch in states[at].shared.chans && states[at].subscribers[ch].cluster == c
    ensures states[at].shared.chans[ch].closed <==> Between(actions, from, at, CloseSubs(c))
    decreases at
  {
    hide ChannelInv;
    if at == from + 1 {
      BeforeAction(clusters, states, actions, from);
    } else {
      var p := at - 1;
      BeforeAction(clusters, states, actions, p);
      StillSubscribing(clusters, states, actions, from, p, c, ch);
      StepPhase(states[p], actions[p], ch);
      ClosedDuringSubscribe(clusters, states, actions, from, p, c, ch);
      StepCloses(states[p], actions[p], ch);
      assert Between(actions, from, at, CloseSubs(c)) <==> Between(actions, from, p, CloseSubs(c)) || actions[p] == CloseSubs(c);
    }
  }

  lemma RegisterEnters(s: System, c: Cluster, ch: ChanId)
    requires Enabled(s, Register(c, ch))
    ensures ch in Step(s, Register(c, ch)).subscribers
  {
  }

  lemma StepPhase(s: System, a: Action, ch: ChanId)
    requires Inv(s) && Enabled(s, a) && ch in s.subscribers
    ensures ch in Step(s, a).subscribers
    ensures s.subscribers[ch].phase.Returned? ==> Step(s, a).subscribers[ch].phase.Returned?
    ensures a == SendInitial(ch) ==> Step(s, a).subscribers[ch].phase.Returned?
  {
    hide ClusterInv, ChannelInvIn;
  }

  lemma {:induction false} StillSubscribing(clusters: set<Cluster>, states: seq<System>, actions: seq<Action>,
                                            from: nat, at: nat, c: Cluster, ch: ChanId)
    requires IsRun(clusters, states, actions) && from < at < |states|
    requires actions[from] == Register(c, ch)
    ensures ch in states[at].subscribers
    decreases at
  {
    hide Inv, Enabled, Step;
    BeforeAction(clusters, states, actions, at - 1);
    if at > from + 1 {
      StillSubscribing(clusters, states, actions, from, at - 1, c, ch);
      StepPhase(states[at - 1], actions[at - 1], ch);
    } else {
      RegisterEnters(states[from], c, ch);
    }
  }

  lemma SubscriberEnters(s: System, a: Action, ch: ChanId)
    requires Enabled(s, a) && ch in Step(s, a).subscribers
    ensures if ch in s.subscribers then Step(s, a).subscribers[ch].cluster == s.subscribers[ch].cluster
      else a == Register(Step(s, a).subscribers[ch].cluster, ch)
  {
  }

  /** Every subscriber has registered. */
  lemma {:induction false} RegisterBefore(clusters: set<Cluster>, states: seq<System>, actions: seq<Action>, at: nat, ch: ChanId)
    returns (registered: nat)
    requires IsRun(clusters, states, actions) && at < |states| && ch in states[at].subscribers
    ensures registered < at && actions[registered] == Register(states[at].subscribers[ch].cluster, ch)
    decreases at
  {
    hide Step, Enabled, Inv;
    assert at > 0;
    BeforeAction(clusters, states, actions, at - 1);
    SubscriberEnters(states[at - 1], actions[at - 1], ch);
    if ch in states[at - 1].subscribers {
      registered := RegisterBefore(clusters, states, actions, at - 1, ch);
    } else {
      registered := at - 1;
    }
  }

  /** Subscribe's own send follows its registration, and it stops the process exactly when
      it found a snapshot and closeSubs ran in between. */
  lemma InitialPanicIff(clusters: set<Cluster>, states: seq<System>, actions: seq<Action>, sent: nat, ch: ChanId)
    returns (registered: nat)
    requires IsRun(clusters, states, actions) && sent < |actions| && actions[sent] == SendInitial(ch)
    ensures ch in states[sent].subscribers && states[sent].subscribers[ch].phase.Fetched?
    ensures var c := states[sent].subscribers[ch].cluster;
      && registered < sent && actions[registered] == Register(c, ch)
      && (states[sent + 1].panic.Some? <==>
            states[sent].subscribers[ch].phase.got.Some? && Between(actions, registered, sent, CloseSubs(c)))
    ensures states[sent + 1].panic.Some? ==> states[sent + 1].panic.value == SendOnClosed(Initial, ch)
  {
    BeforeAction(clusters, states, actions, sent);
    registered := RegisterBefore(clusters, states, actions, sent, ch);
    ClosedDuringSubscribe(clusters, states, actions, registered, sent, states[sent].subscribers[ch].cluster, ch);
  }

  /** What a run that stopped the process must contain. */
  ghost predicate BroadcastCause(actions: seq<Action>, sent: nat, c: Cluster, ch: ChanId, copied: nat)
    requires sent < |actions|
  {
    actions[sent] == SendNext(c) && SameBroadcast(actions, copied, sent, c) && Between(actions, copied, sent, Unsubscribe(c, ch))
  }

  ghost predicate InitialCause(actions: seq<Action>, sent: nat, c: Cluster, ch: ChanId, registered: nat)
    requires sent < |actions|
  {
    && actions[sent] == SendInitial(ch)
    && registered < sent && actions[registered] == Register(c, ch) && Between(actions, registered, sent, CloseSubs(c))
  }

  lemma NoStepAfterPanic(clusters: set<Cluster>, states: seq<System>, actions: seq<Action>, n: nat)
    requires IsRun(clusters, states, actions) && n < |actions|
    ensures states[n].panic.None?
  {
    assert Enabled(states[n], actions[n]);
  }

  lemma PanicIsLast(clusters: set<Cluster>, states: seq<System>, actions: seq<Action>, n: nat)
    requires IsRun(clusters, states, actions) && n < |states| && states[n].panic.Some?
    ensures n == |actions|
  {
    if n < |actions| {
      NoStepAfterPanic(clusters, states, actions, n);
    }
  }

  /** A run stops the process in no other way: its last step is a send on a channel that was closed
      between the broadcast's copy, or Subscribe's registration, and that send. */
  lemma PanicCause(clusters: set<Cluster>, states: seq<System>, actions: seq<Action>, sent: nat)
    requires IsRun(clusters, states, actions) && sent < |actions| && states[sent + 1].panic.Some?
    ensures sent == |actions| - 1
    ensures match states[sent + 1].panic.value
      case SendOnClosed(Broadcast, ch) => exists c, copied :: BroadcastCause(actions, sent, c, ch, copied)
      case SendOnClosed(Initial, ch) => exists c, registered :: InitialCause(actions, sent, c, ch, registered)
      case CloseOfClosed(_) => false
  {
    hide Step, Inv, SameBroadcast, Between;
    PanicIsLast(clusters, states, actions, sent + 1);
    BeforeAction(clusters, states, actions, sent);
    OnlySendsPanic(states[sent], actions[sent]);
    match actions[sent]
    case SendNext(c) =>
      var copied := BroadcastPanicIff(clusters, states, actions, sent, c);
      var r := states[sent].refreshers[c];
      assert BroadcastCause(actions, sent, c, r.list[r.next], copied);
    case SendInitial(ch) =>
      var registered := InitialPanicIff(clusters, states, actions, sent, ch);
      assert InitialCause(actions, sent, states[sent].subscribers[ch].cluster, ch, registered);
    case _ =>
  }

  /** Both kinds of panic happen: here a subscriber leaves between the copy and
      the send of a broadcast. */
  lemma BroadcastPanicHappens() returns (states: seq<System>, actions: seq<Action>)
    ensures IsRun({"c"}, states, actions) && states[|actions|].panic == Some(SendOnClosed(Broadcast, 0))
  {

    states, actions := Subscribed();
    states, actions := Extended({"c"}, states, actions, Store("c"));
    states, actions := Extended({"c"}, states, actions, CopyList("c"));
    states, actions := Extended({"c"}, states, actions, Unsubscribe("c", 0));
    states, actions := Extended({"c"}, states, actions, SendNext("c"));
  }

  /** A run in which one subscriber has subscribed before the first tick. */
  lemma Subscribed() returns (states: seq<System>, actions: seq<Action>)
    ensures IsRun({"c"}, states, actions)
    ensures states[|actions|] ==
      System(Shared(map[], map["c" := [0]], map[0 := EMPTY_CHANNEL]), map["c" := Idle],
             map[0 := Subscriber("c", Returned(None))], false, None)
  {
    states, actions := Extended({"c"}, [Start({"c"})], [], Register("c", 0));
    states, actions := Extended({"c"}, states, actions, ReadCurrent(0));
    states, actions := Extended({"c"}, states, actions, SendInitial(0));
    var last := states[|actions|];
    assert last.refreshers == map["c" := Idle];
    assert last.shared.subs["c"] == [0];
    assert last.shared.subs == map["c" := [0]] && last.shared.chans == map[0 := EMPTY_CHANNEL];
    assert last.subscribers == map[0 := Subscriber("c", Returned(None))];
  }

  /** Here closeSubs runs while a subscriber is still inside Subscribe. */
  lemma InitialPanicHappens() returns (states: seq<System>, actions: seq<Action>)
    ensures IsRun({"c"}, states, actions) && states[|actions|].panic == Some(SendOnClosed(Initial, 0))
  {
    states, actions := Subscribing();
    CloseOne(states[|actions|].shared.chans, 0);
    states, actions := Extended({"c"}, states, actions, CloseSubs("c"));
    assert 0 in states[|actions|].shared.chans && states[|actions|].shared.chans[0].closed;
    states, actions := Extended({"c"}, states, actions, SendInitial(0));
  }

  lemma CloseOne(chans: map<ChanId, Channel>, ch: ChanId)
    requires ch in chans && !chans[ch].closed
    ensures CloseEach(chans, [ch]) == Some(chans[ch := chans[ch].(closed := true)])
  {
    assert [ch][1..] == [];
  }

  /** The same, with one subscriber between its Get and its send. */
  lemma Subscribing() returns (states: seq<System>, actions: seq<Action>)
    ensures IsRun({"c"}, states, actions)
    ensures states[|actions|] ==
      System(Shared(map["c" := Snapshot("c", 1)], map["c" := [0]], map[0 := EMPTY_CHANNEL]), map["c" := Idle],
             map[0 := Subscriber("c", Fetched(Some(Snapshot("c", 1))))], true, None)
  {
    states, actions := Ticked();
    states, actions := Extended({"c"}, states, actions, Register("c", 0));
    states, actions := Extended({"c"}, states, actions, ReadCurrent(0));
    var last := states[|actions|];
    assert last.shared.subs["c"] == [0];
    assert last.shared.subs == map["c" := [0]] && last.shared.chans == map[0 := EMPTY_CHANNEL];
    assert last.subscribers == map[0 := Subscriber("c", Fetched(Some(Snapshot("c", 1))))];
  }

  /** A run in which the first tick is over and the context is cancelled. */
  lemma Ticked() returns (states: seq<System>, actions: seq<Action>)
    ensures IsRun({"c"}, states, actions)
    ensures states[|actions|] ==
      System(Shared(map["c" := Snapshot("c", 1)], map[], map[]), map["c" := Idle], map[], true, None)
  {
    states, actions := Extended({"c"}, [Start({"c"})], [], Store("c"));
    states, actions := Extended({"c"}, states, actions, CopyList("c"));
    states, actions := Extended({"c"}, states, actions, FinishBroadcast("c"));
    states, actions := Extended({"c"}, states, actions, Cancel);
    var last := states[|actions|];
    assert last.refreshers == map["c" := Idle];
    assert last.shared.entries == map["c" := Snapshot("c", 1)];
    assert last.shared.subs == map[] && last.shared.chans == map[] && last.subscribers == map[];
  }

  lemma Extended(clusters: set<Cluster>, states: seq<System>, actions: seq<Action>, a: Action)
    returns (states': seq<System>, actions': seq<Action>)
    requires IsRun(clusters, states, actions) && Enabled(states[|actions|], a)
    ensures states' == states + [Step(states[|actions|], a)] && actions' == actions + [a]
    ensures IsRun(clusters, states', actions')
  {
    hide Step, Enabled;
    states', actions' := states + [Step(states[|actions|], a)], actions + [a];
  }

  // ----- delivery -------------------------------------------------------------

  /** Some send, initial or broadcast, offered version `v` to the channel. */
  ghost predicate Tried(chan: Channel, v: nat) {
    exists i :: 0 <= i < |chan.attempts| && chan.attempts[i].snap.version == v
  }

  /** From the version Subscribe's Get read onward, every version stored while the
      channel stays registered is offered to it, and the only one that may still
      be missing is the last one, while its broadcast is under way. */
  lemma NoGaps(clusters: set<Cluster>, states: seq<System>, actions: seq<Action>, n: nat, c: Cluster, ch: ChanId)
    requires IsRun(clusters, states, actions) && n < |states| && states[n].panic.None?
    requires ch in Subscribers(states[n].shared, c)
    ensures ch in states[n].subscribers && ch in states[n].shared.chans
    ensures var s := states[n]; var phase := s.subscribers[ch].phase;
      phase.Returned? ==>
        && (phase.got.Some? ==> Tried(s.shared.chans[ch], phase.got.value.version))
        && (forall v :: BaseVersion(phase) < v < Version(s.shared, c) ==> Tried(s.shared.chans[ch], v))
        && (c in s.refreshers && s.refreshers[c].Idle? && BaseVersion(phase) < Version(s.shared, c) ==>
              Tried(s.shared.chans[ch], Version(s.shared, c)))
  {
    hide Conserved, AttemptsInRange, BroadcastsIncrease;
    var s := states[n];
    RunInv(clusters, states, actions, n);
    assert ClusterInv(s, c) && ChannelInvIn(s, ch);
    var chan, phase := s.shared.chans[ch], s.subscribers[ch].phase;
    if phase.Returned? {
      assert NoGap(chan, phase, Version(s.shared, c), Owed(s, c, ch));
      forall v | BroadcastTried(chan, v) ensures Tried(chan, v) {
        var i :| 0 <= i < |chan.attempts| && chan.attempts[i].source.Broadcast? && chan.attempts[i].snap.version == v;
        assert chan.attempts[i].snap.version == v;
      }
    }
  }

  /** Of two offers to one channel, the later carries the newer version, unless
      one of them is the single initial snapshot. */
  lemma OffersIncrease(clusters: set<Cluster>, states: seq<System>, actions: seq<Action>, n: nat, ch: ChanId, i: nat, j: nat)
    requires IsRun(clusters, states, actions) && n < |states| && states[n].panic.None?
    requires ch in states[n].shared.chans && i < j < |states[n].shared.chans[ch].attempts|
    ensures var a, b := states[n].shared.chans[ch].attempts[i], states[n].shared.chans[ch].attempts[j];
      && !(a.source.Initial? && b.source.Initial?)
      && (a.snap.version < b.snap.version || a.source.Initial? || b.source.Initial?)
  {
    hide Conserved, AttemptsInRange, NoGap;
    RunInv(clusters, states, actions, n);
    assert ChannelInvIn(states[n], ch);
    assert InitialOnce(states[n].shared.chans[ch], states[n].subscribers[ch].phase);
  }

  /** The offers that were accepted, oldest first. */
  function AcceptedOffers(attempts: seq<Attempt>): seq<Attempt> {
    if attempts == [] then []
    else
      var last := attempts[|attempts| - 1];
      AcceptedOffers(attempts[..|attempts| - 1]) + if last.accepted then [last] else []
  }

  lemma {:induction false} AcceptedSnaps(attempts: seq<Attempt>)
    ensures |Accepted(attempts)| == |AcceptedOffers(attempts)|
    ensures forall i :: 0 <= i < |Accepted(attempts)| ==> Accepted(attempts)[i] == AcceptedOffers(attempts)[i].snap
  {
    if attempts != [] {
      AcceptedSnaps(attempts[..|attempts| - 1]);
    }
  }

  lemma {:induction false} AcceptedAt(attempts: seq<Attempt>, i: nat) returns (k: nat)
    requires i < |AcceptedOffers(attempts)|
    ensures k < |attempts| && attempts[k] == AcceptedOffers(attempts)[i]
  {
    var init := attempts[..|attempts| - 1];
    if i < |AcceptedOffers(init)| {
      k := AcceptedAt(init, i);
    } else {
      k := |attempts| - 1;
    }
  }

  lemma {:induction false} AcceptedApart(attempts: seq<Attempt>, i: nat, j: nat) returns (k: nat, l: nat)
    requires i < j < |AcceptedOffers(attempts)|
    ensures k < l < |attempts| && attempts[k] == AcceptedOffers(attempts)[i] && attempts[l] == AcceptedOffers(attempts)[j]
  {
    var init := attempts[..|attempts| - 1];
    if j < |AcceptedOffers(init)| {
      k, l := AcceptedApart(init, i, j);
    } else {
      k := AcceptedAt(init, i);
      l := |attempts| - 1;
    }
  }

  /** A list whose versions increase but for one place. */
  ghost predicate IncreasesBut(snaps: seq<Snapshot>, p: nat) {
    forall i, j :: 0 <= i < j < |snaps| && i != p && j != p ==> snaps[i].version < snaps[j].version
  }

  /** What a subscriber has read: versions increase, except that the one initial snapshot may come late. */
  lemma ReceivedInOrder(clusters: set<Cluster>, states: seq<System>, actions: seq<Action>, n: nat, ch: ChanId)
    returns (p: nat)
    requires IsRun(clusters, states, actions) && n < |states| && states[n].panic.None?
    requires ch in states[n].shared.chans
    ensures IncreasesBut(states[n].shared.chans[ch].received, p)
  {
    hide AcceptedOffers, Accepted;
    var chan := states[n].shared.chans[ch];
    Conservation(clusters, states, actions, n, ch);
    AcceptedSnaps(chan.attempts);
    var offers := AcceptedOffers(chan.attempts);
    if i :| 0 <= i < |offers| && offers[i].source.Initial? {
      p := i;
    } else {
      p := |offers|;
    }
    forall i, j | 0 <= i < j < |chan.received| && i != p && j != p
      ensures chan.received[i].version < chan.received[j].version
    {
      assert chan.received[i] == offers[i].snap && chan.received[j] == offers[j].snap;
      AcceptedPair(clusters, states, actions, n, ch, i, j);
      if offers[i].source.Initial? {
        AcceptedOnce(clusters, states, actions, n, ch, i, p);
      } else if offers[j].source.Initial? {
        AcceptedOnce(clusters, states, actions, n, ch, j, p);
      }
    }
  }

  lemma AcceptedPair(clusters: set<Cluster>, states: seq<System>, actions: seq<Action>, n: nat, ch: ChanId, i: nat, j: nat)
    requires IsRun(clusters, states, actions) && n < |states| && states[n].panic.None?
    requires ch in states[n].shared.chans && i < j < |AcceptedOffers(states[n].shared.chans[ch].attempts)|
    ensures var offers := AcceptedOffers(states[n].shared.chans[ch].attempts);
      && !(offers[i].source.Initial? && offers[j].source.Initial?)
      && (offers[i].snap.version < offers[j].snap.version || offers[i].source.Initial? || offers[j].source.Initial?)
  {
    hide AcceptedOffers, IsRun;
    var k, l := AcceptedApart(states[n].shared.chans[ch].attempts, i, j);
    OffersIncrease(clusters, states, actions, n, ch, k, l);
  }

  lemma AcceptedOnce(clusters: set<Cluster>, states: seq<System>, actions: seq<Action>, n: nat, ch: ChanId, i: nat, p: nat)
    requires IsRun(clusters, states, actions) && n < |states| && states[n].panic.None?
    requires ch in states[n].shared.chans
    requires i < |AcceptedOffers(states[n].shared.chans[ch].attempts)| && AcceptedOffers(states[n].shared.chans[ch].attempts)[i].source.Initial?
    requires p < |AcceptedOffers(states[n].shared.chans[ch].attempts)| && AcceptedOffers(states[n].shared.chans[ch].attempts)[p].source.Initial?
    ensures i == p
  {
    hide AcceptedOffers, IsRun;
    if i < p {
      AcceptedPair(clusters, states, actions, n, ch, i, p);
    } else if p < i {
      AcceptedPair(clusters, states, actions, n, ch, p, i);
    }
  }

  /** And it does come late in this run, whose subscriber reads version 2 before version 1. */
  lemma InitialComesLate() returns (states: seq<System>, actions: seq<Action>)
    ensures IsRun({"c"}, states, actions)
    ensures var last := states[|actions|];
      last.panic.None? && 0 in last.shared.chans &&
      last.shared.chans[0].received == [Snapshot("c", 2), Snapshot("c", 1)]
  {
    states, actions := Overtaken();
    states, actions := Extended({"c"}, states, actions, Receive(0));
    states, actions := Extended({"c"}, states, actions, Receive(0));
  }

  /** A broadcast overtakes a subscriber that is about to send what it read. */
  lemma Overtaken() returns (states: seq<System>, actions: seq<Action>)
    ensures IsRun({"c"}, states, actions)
    ensures var last := states[|actions|];
      && last.panic.None? && 0 in last.shared.chans && 0 in last.subscribers && last.subscribers[0].phase.Returned?
      && last.shared.chans[0].buffer == [Snapshot("c", 2), Snapshot("c", 1)] && last.shared.chans[0].received == []
  {
    states, actions := Subscribing();
    states, actions := Extended({"c"}, states, actions, Store("c"));
    states, actions := Extended({"c"}, states, actions, CopyList("c"));
    states, actions := Extended({"c"}, states, actions, SendNext("c"));
    states, actions := Extended({"c"}, states, actions, SendInitial(0));
  }

  lemma {:induction false} AcceptedOrDropped(attempts: seq<Attempt>)
    ensures |Accepted(attempts)| + Dropped(attempts) == |attempts|
  {
    if attempts != [] {
      AcceptedOrDropped(attempts[..|attempts| - 1]);
    }
  }

  /** Offers are received, waiting or dropped; a subscriber reads its accepted
      snapshots in order; at most four wait. */
  lemma Conservation(clusters: set<Cluster>, states: seq<System>, actions: seq<Action>, n: nat, ch: ChanId)
    requires IsRun(clusters, states, actions) && n < |states| && states[n].panic.None?
    requires ch in states[n].shared.chans
    ensures var chan := states[n].shared.chans[ch];
      && |chan.buffer| <= 4
      && chan.received + chan.buffer == Accepted(chan.attempts)
      && |chan.attempts| == |chan.received| + |chan.buffer| + Dropped(chan.attempts)
  {
    RunInv(clusters, states, actions, n);
    assert ChannelInvIn(states[n], ch);
    AcceptedOrDropped(states[n].shared.chans[ch].attempts);
  }

  // ----- monotonic reads --------------------------------------------------------

  lemma StepVersion(s: System, a: Action, c: Cluster)
    requires Inv(s) && Enabled(s, a)
    ensures Version(s.shared, c) <= Version(Step(s, a).shared, c)
    ensures c in s.shared.entries ==> c in Step(s, a).shared.entries
  {
    hide ClusterInv, ChannelInvIn;
    match a
    case CloseSubs(d) => CloseSubsEffect(s, d);
    case Unsubscribe(d, x) => UnsubscribeEffect(s, d, x);
    case _ =>
  }

  lemma {:induction false} VersionsGrow(clusters: set<Cluster>, states: seq<System>, actions: seq<Action>, m: nat, n: nat, c: Cluster)
    requires IsRun(clusters, states, actions) && m <= n < |states|
    ensures Version(states[m].shared, c) <= Version(states[n].shared, c)
    ensures c in states[m].shared.entries ==> c in states[n].shared.entries
    decreases n
  {
    hide Inv;
    if m < n {
      VersionsGrow(clusters, states, actions, m, n - 1, c);
      BeforeAction(clusters, states, actions, n - 1);
      StepVersion(states[n - 1], actions[n - 1], c);
    }
  }

  lemma {:induction false} AcceptedIn(attempts: seq<Attempt>, snap: Snapshot)
    requires snap in Accepted(attempts)
    ensures exists i :: 0 <= i < |attempts| && attempts[i].snap == snap
  {
    var init := attempts[..|attempts| - 1];
    if snap in Accepted(init) {
      AcceptedIn(init, snap);
      var i :| 0 <= i < |init| && init[i].snap == snap;
      assert attempts[i].snap == snap;
    } else {
      assert attempts[|attempts| - 1].snap == snap;
    }
  }

  /** Once a subscriber has received a snapshot, every later Get of its cluster
      returns one at least as new; and it receives only its own cluster's. */
  lemma MonotonicReads(clusters: set<Cluster>, states: seq<System>, actions: seq<Action>, m: nat, n: nat, ch: ChanId, snap: Snapshot)
    requires IsRun(clusters, states, actions) && m <= n < |states| && states[m].panic.None?
    requires ch in states[m].shared.chans && snap in states[m].shared.chans[ch].received
    ensures ch in states[m].subscribers && snap.cluster == states[m].subscribers[ch].cluster
    ensures Current(states[n].shared, snap.cluster).Some?
    ensures Current(states[n].shared, snap.cluster).value.version >= snap.version
  {
    hide BroadcastsIncrease, InitialOnce, NoGap;
    var chan := states[m].shared.chans[ch];
    RunInv(clusters, states, actions, m);
    assert ChannelInvIn(states[m], ch);
    assert snap in chan.received + chan.buffer;
    AcceptedIn(chan.attempts, snap);
    VersionsGrow(clusters, states, actions, m, n, snap.cluster);
  }

  // ----- a broadcast always finishes ---------------------------------------------

  /** The next step of a refresher that has not stopped. */
  function NextOf(s: System, c: Cluster): Action
    requires c in s.refreshers && !s.refreshers[c].Stopped?
  {
    match s.refreshers[c]
    case Idle => Store(c)
    case HasStored(_) => CopyList(c)
    case Sending(_, list, next) => if next < |list| then SendNext(c) else FinishBroadcast(c)
  }

  /** No refresher ever waits for a subscriber. */
  lemma RefresherNeverBlocks(clusters: set<Cluster>, states: seq<System>, actions: seq<Action>, n: nat, c: Cluster)
    requires IsRun(clusters, states, actions) && n < |states| && states[n].panic.None?
    requires c in states[n].refreshers && !states[n].refreshers[c].Stopped?
    ensures Enabled(states[n], NextOf(states[n], c))
  {
    RunInv(clusters, states, actions, n);
    assert ClusterInv(states[n], c);
  }

  /** Nor does a subscriber wait for anybody, but to read from an empty channel. */
  lemma SubscriberSteps(clusters: set<Cluster>, states: seq<System>, actions: seq<Action>, n: nat, ch: ChanId, c: Cluster)
    requires IsRun(clusters, states, actions) && n < |states| && states[n].panic.None?
    ensures ch !in states[n].subscribers ==> Enabled(states[n], Register(c, ch))
    ensures ch in states[n].subscribers ==> ch in states[n].shared.chans
    ensures ch in states[n].subscribers ==>
      match states[n].subscribers[ch].phase
      case Entered => Enabled(states[n], ReadCurrent(ch))
      case Fetched(_) => Enabled(states[n], SendInitial(ch))
      case Returned(_) =>
        && Enabled(states[n], Unsubscribe(c, ch))
        && (Enabled(states[n], Receive(ch)) <==> states[n].shared.chans[ch].buffer != [])
  {
    hide Inv, IsRun, Allocated, Subscribers;
    RunInv(clusters, states, actions, n);
    ListsAllocated(states[n], c);
  }

  lemma ListsAllocated(s: System, c: Cluster)
    requires Inv(s)
    ensures s.shared.chans.Keys == s.subscribers.Keys && Allocated(s.shared, Subscribers(s.shared, c))
  {
    assert ClusterInv(s, c);
  }

  /** How often `a` occurs among the actions from `from` up to `until`. */
  function Count(actions: seq<Action>, from: nat, until: nat, a: Action): nat
    requires from <= until <= |actions|
    decreases until
  {
    if from == until then 0 else Count(actions, from, until - 1, a) + if actions[until - 1] == a then 1 else 0
  }

  lemma CopyStarts(s: System, c: Cluster)
    requires Enabled(s, CopyList(c))
    ensures c in Step(s, CopyList(c)).refreshers && Step(s, CopyList(c)).refreshers[c].Sending?
    ensures Step(s, CopyList(c)).refreshers[c].next == 0
  {
  }

  lemma {:induction false} SentSoFar(clusters: set<Cluster>, states: seq<System>, actions: seq<Action>, copied: nat, at: nat, c: Cluster)
    requires IsRun(clusters, states, actions) && copied < at < |states|
    requires SameBroadcast(actions, copied, at, c)
    requires c in states[at].refreshers && states[at].refreshers[c].Sending?
    ensures states[at].refreshers[c].next == Count(actions, copied, at, SendNext(c))
    decreases at
  {
    hide Inv, Step, Enabled;
    BeforeAction(clusters, states, actions, at - 1);
    if at > copied + 1 {
      SendingBefore(states[at - 1], actions[at - 1], c);
      SentSoFar(clusters, states, actions, copied, at - 1, c);
    } else {
      CopyStarts(states[copied], c);
      assert Count(actions, copied, copied, SendNext(c)) == 0;
    }
  }

  /** A finished broadcast sent exactly once to each channel that was registered
      when it copied the list, whether or not anybody was reading. */
  lemma BroadcastLength(clusters: set<Cluster>, states: seq<System>, actions: seq<Action>, copied: nat, finished: nat, c: Cluster)
    requires IsRun(clusters, states, actions) && finished < |actions|
    requires SameBroadcast(actions, copied, finished, c) && actions[finished] == FinishBroadcast(c)
    ensures Count(actions, copied, finished, SendNext(c)) == |Subscribers(states[copied].shared, c)|
  {
    BeforeAction(clusters, states, actions, finished);
    SentSoFar(clusters, states, actions, copied, finished, c);
    SendingSince(clusters, states, actions, copied, finished, finished, c);
  }
}

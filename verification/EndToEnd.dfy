/**
 * From the cache's refreshes to the dashboard's screen: what a subscriber reads is written to its event
 * stream, read back by the browser and shown by the hook.
 */
module EndToEnd {
  import opened Prelude
  import opened CacheProtocol
  import opened CacheInvariant
  import CacheRuns
  import CacheOffers
  import JsonArray
  import EventStream
  import Handler = OverviewHandler
  import Hook = StreamHook

  /** The contents of each refresh. */
  type Contents = Snapshot -> Handler.View

  function Views(snaps: seq<Snapshot>, contents: Contents): seq<Handler.View> {
    seq(|snaps|, i requires 0 <= i < |snaps| => contents(snaps[i]))
  }

  // ------------------------------------------------------ browser callbacks

  /** The callback of an event; `read` parses its data and aggregates the replies. */
  function Callback(k: nat, e: EventStream.Event, read: string -> Hook.Payload): Hook.Event {
    if e.kind == "message" then Hook.Message(k, read(e.data)) else Hook.Told(k, e.data)
  }

  function Callbacks(k: nat, events: seq<EventStream.Event>, read: string -> Hook.Payload): seq<Hook.Event> {
    seq(|events|, i requires 0 <= i < |events| => Callback(k, events[i], read))
  }

  // ------------------------------------------------------ runs of the hook

  /** What an event source hands over: messages, and the server's own error events. */
  predicate Carries(e: Hook.Event) {
    e.Message? || e.Told?
  }

  /** When a run is handed something. */
  function Positions(es: seq<Hook.Event>): seq<nat> {
    if es == [] then []
    else Positions(es[..|es| - 1]) + (if Carries(es[|es| - 1]) then [|es| - 1] else [])
  }

  function Carried(es: seq<Hook.Event>): seq<Hook.Event> {
    if es == [] then []
    else Carried(es[..|es| - 1]) + (if Carries(es[|es| - 1]) then [es[|es| - 1]] else [])
  }

  ghost predicate Increasing(ps: seq<nat>, n: nat) {
    (forall i :: 0 <= i < |ps| ==> ps[i] < n) && forall i, j :: 0 <= i < j < |ps| ==> ps[i] < ps[j]
  }

  lemma IncreasingSnoc(ps: seq<nat>, n: nat)
    requires Increasing(ps, n)
    ensures Increasing(ps, n + 1) && Increasing(ps + [n], n + 1)
  {
    forall i | 0 <= i < |ps| ensures ps[i] < n + 1 {
    }
  }

  lemma {:induction false} CarriedAt(es: seq<Hook.Event>)
    ensures |Carried(es)| == |Positions(es)| && Increasing(Positions(es), |es|)
    ensures forall j :: 0 <= j < |Positions(es)| ==> Positions(es)[j] < |es| && es[Positions(es)[j]] == Carried(es)[j]
  {
    if es != [] {
      hide Increasing, Carries;
      var init := es[..|es| - 1];
      CarriedAt(init);
      IncreasingSnoc(Positions(init), |init|);
      forall j | 0 <= j < |Positions(es)| ensures Positions(es)[j] < |es| && es[Positions(es)[j]] == Carried(es)[j] {
        if j < |Positions(init)| {
          assert Positions(es)[j] == Positions(init)[j] && init[Positions(init)[j]] == es[Positions(init)[j]];
        }
      }
    } else {
      assert Increasing([], 0);
    }
  }

  /** A stretch of a run, from any state with effect `k` current, that does not end the effect.  Requests, polls and
      reconnections come and go. */
  ghost predicate Stays(hs: seq<Hook.Hook>, es: seq<Hook.Event>, k: nat) {
    && |hs| == |es| + 1
    && Hook.Inv(hs[0]) && hs[0].current == Some(k)
    && forall i :: 0 <= i < |es| ==> Hook.Enabled(hs[i], es[i]) && hs[i + 1] == Hook.Next(hs[i], es[i]) && !es[i].Cleanup?
  }

  lemma {:induction false} StaysCurrent(hs: seq<Hook.Hook>, es: seq<Hook.Event>, k: nat, i: nat)
    requires Stays(hs, es, k) && i < |hs|
    ensures Hook.Inv(hs[i]) && hs[i].current == Some(k)
  {
    hide Hook.Inv;
    if i > 0 {
      StaysCurrent(hs, es, k, i - 1);
      assert Hook.Enabled(hs[i - 1], es[i - 1]);
      Hook.NextInv(hs[i - 1], es[i - 1]);
    }
  }

  /** Between what the source hands over, only an answered request of this effect changes the overview. */
  lemma BetweenRefreshes(hs: seq<Hook.Hook>, es: seq<Hook.Event>, k: nat, i: nat)
    requires Stays(hs, es, k) && i < |es| && !Carries(es[i])
    ensures if es[i].Fetched? && es[i].effect == k && es[i].payload.Replies?
            then hs[i + 1].state == Hook.State(Some(Hook.View(k, es[i].payload.data)), Hook.Live, None)
            else hs[i + 1].state.overview == hs[i].state.overview
  {
    StaysCurrent(hs, es, k, i);
    assert Hook.Enabled(hs[i], es[i]);
  }

  /** What a callback of the current effect's source does to the screen. */
  lemma CallbackNext(h: Hook.Hook, k: nat, e: EventStream.Event, read: string -> Hook.Payload)
    requires Hook.Inv(h) && h.current == Some(k) && Hook.Enabled(h, Callback(k, e, read))
    ensures Hook.Next(h, Callback(k, e, read)).state ==
      if e.kind != "message" then Hook.State(h.state.overview, Hook.Connecting, Some("reconnecting"))
      else
        match read(e.data)
        case Replies(data) => Hook.State(Some(Hook.View(k, data)), Hook.Live, None)
        case NotReplies(error) => Hook.WithStatus(h.state, Hook.Error, Some(error))
        case Failure(error) => Hook.WithStatus(h.state, Hook.Error, Some(error))
  {
  }

  // ---------------------------------------------------------- connections

  /** One connection of the event source: the server's wake-ups, the refreshes among them, and where it broke off. */
  datatype Connection = Connection(wakes: seq<Handler.Wake>, views: seq<Handler.View>, cut: nat) {

    function Bytes(quote: string -> string): string {
      EventStream.Stream(Handler.MessagesOf(wakes, quote))
    }

    ghost predicate Served(quote: string -> string) {
      && Handler.Snapshots(wakes) == Handler.SnapshotsOf(views)
      && (forall i :: 0 <= i < |views| ==> Sendable(views[i]))
      && cut <= |Bytes(quote)|
    }

    function Heard(quote: string -> string): seq<EventStream.Event> {
      EventStream.Received(if cut <= |Bytes(quote)| then Bytes(quote)[..cut] else Bytes(quote))
    }

    /** The refreshes that got through. */
    function Arrived(quote: string -> string): seq<Handler.View> {
      if |Heard(quote)| <= |views| then views[..|Heard(quote)|] else views
    }
  }

  function AllHeard(cs: seq<Connection>, quote: string -> string): seq<EventStream.Event> {
    if cs == [] then [] else AllHeard(cs[..|cs| - 1], quote) + cs[|cs| - 1].Heard(quote)
  }

  function AllArrived(cs: seq<Connection>, quote: string -> string): seq<Handler.View> {
    if cs == [] then [] else AllArrived(cs[..|cs| - 1], quote) + cs[|cs| - 1].Arrived(quote)
  }

  /** Wherever a connection breaks off, the first of its refreshes have got through, whole. */
  lemma HeardViews(c: Connection, quote: string -> string)
    requires c.Served(quote) && forall s :: JsonArray.OneLine(quote(s))
    ensures c.Heard(quote) == Handler.EventsOf(Handler.SnapshotsOf(c.Arrived(quote)), quote)
    ensures c.cut == |c.Bytes(quote)| ==> c.Arrived(quote) == c.views
  {
    hide EventStream.Received, EventStream.Stream, Handler.MessagesOf, Handler.EventOf, Handler.SnapshotOf;
    hide Handler.Snapshots, Handler.Proper, Handler.OneLiners;
    forall j | 0 <= j < |c.views| ensures Handler.OneLiners(c.views[j]) && Handler.Proper(c.views[j]) {
      assert Sendable(c.views[j]);
    }
    Handler.RepliesDelivered(c.wakes, c.views, quote);
    EventStream.CutReceived(c.Bytes(quote), c.cut);
    assert c.Bytes(quote)[..|c.Bytes(quote)|] == c.Bytes(quote);
    assert |EventStream.Received(c.Bytes(quote))| == |c.views|;
  }

  lemma {:induction false} AllHeardViews(cs: seq<Connection>, quote: string -> string)
    requires forall i :: 0 <= i < |cs| ==> cs[i].Served(quote)
    requires forall s :: JsonArray.OneLine(quote(s))
    ensures AllHeard(cs, quote) == Handler.EventsOf(Handler.SnapshotsOf(AllArrived(cs, quote)), quote)
  {
    hide Connection.Served, Connection.Heard, Connection.Arrived, Handler.EventOf, Handler.SnapshotOf;
    if cs != [] {
      AllHeardViews(cs[..|cs| - 1], quote);
      HeardViews(cs[|cs| - 1], quote);
    }
  }

  // ---------------------------------------------------------- what is shown

  ghost predicate Sendable(v: Handler.View) {
    Handler.Proper(v) && Handler.OneLiners(v)
  }

  /** The screen after a refresh has arrived, given the screen before. */
  function Screen(before: Hook.State, k: nat, v: Handler.View, read: string -> Hook.Payload): Hook.State {
    match v
    case Failed(_) => Hook.State(before.overview, Hook.Connecting, Some("reconnecting"))
    case Replies(items) =>
      match read(JsonArray.ArrayText(items))
      case Replies(data) => Hook.State(Some(Hook.View(k, data)), Hook.Live, None)
      case NotReplies(error) => Hook.State(before.overview, Hook.Error, Some(error))
      case Failure(error) => Hook.State(before.overview, Hook.Error, Some(error))
  }

  lemma EventScreen(h: Hook.Hook, k: nat, v: Handler.View, quote: string -> string, read: string -> Hook.Payload)
    requires Hook.Inv(h) && h.current == Some(k) && Handler.Proper(v)
    requires Hook.Enabled(h, Callback(k, Handler.EventOf(Handler.SnapshotOf(v), quote), read))
    ensures Hook.Next(h, Callback(k, Handler.EventOf(Handler.SnapshotOf(v), quote), read)).state == Screen(h.state, k, v, read)
  {
    hide JsonArray.ArrayText, Hook.Next, Hook.Enabled, Hook.Inv, JsonArray.AllValid;
    CallbackNext(h, k, Handler.EventOf(Handler.SnapshotOf(v), quote), read);
  }

  lemma {:induction false} ArrivedSendable(cs: seq<Connection>, quote: string -> string, j: nat)
    requires forall i :: 0 <= i < |cs| ==> cs[i].Served(quote)
    requires j < |AllArrived(cs, quote)|
    ensures Sendable(AllArrived(cs, quote)[j])
  {
    hide Connection.Heard, Sendable;
    if cs != [] {
      var before := AllArrived(cs[..|cs| - 1], quote);
      if j < |before| {
        ArrivedSendable(cs[..|cs| - 1], quote, j);
      } else {
        assert cs[|cs| - 1].Served(quote);
      }
    }
  }

  /**
   * Over any stretch of a run in which effect `k` stays current and its source hands over what its connections
   * carry, wherever they break off and whatever else happens in between: the refreshes that get through come on
   * the screen one by one, in the order their subscribers read them.
   */
  lemma ScreenFollows(hs: seq<Hook.Hook>, es: seq<Hook.Event>, k: nat, cs: seq<Connection>,
                      quote: string -> string, read: string -> Hook.Payload)
    requires Stays(hs, es, k)
    requires forall i :: 0 <= i < |cs| ==> cs[i].Served(quote)
    requires forall s :: JsonArray.OneLine(quote(s))
    requires Carried(es) == Callbacks(k, AllHeard(cs, quote), read)
    ensures |Positions(es)| == |AllArrived(cs, quote)| && Increasing(Positions(es), |es|)
    ensures forall j :: 0 <= j < |Positions(es)| ==>
      var i := Positions(es)[j];
      hs[i + 1].state == Screen(hs[i].state, k, AllArrived(cs, quote)[j], read)
  {
    hide Connection.Served, Handler.EventOf, Handler.SnapshotOf, Screen, Callback, Handler.Proper, Handler.OneLiners;
    hide Hook.Next, Hook.Enabled, Hook.Inv, AllHeard, AllArrived, Positions, Carried;
    AllHeardViews(cs, quote);
    CarriedAt(es);
    forall j | 0 <= j < |Positions(es)|
      ensures var i := Positions(es)[j]; hs[i + 1].state == Screen(hs[i].state, k, AllArrived(cs, quote)[j], read)
    {
      var i := Positions(es)[j];
      StaysCurrent(hs, es, k, i);
      ArrivedSendable(cs, quote, j);
      assert es[i] == Callback(k, Handler.EventOf(Handler.SnapshotOf(AllArrived(cs, quote)[j]), quote), read);
      EventScreen(hs[i], k, AllArrived(cs, quote)[j], quote, read);
    }
  }

  /** A connection that carried all there was. */
  function Whole(wakes: seq<Handler.Wake>, views: seq<Handler.View>, quote: string -> string): Connection {
    Connection(wakes, views, |EventStream.Stream(Handler.MessagesOf(wakes, quote))|)
  }

  lemma WholeStream(wakes: seq<Handler.Wake>, views: seq<Handler.View>, quote: string -> string)
    requires forall s :: JsonArray.OneLine(quote(s))
    requires Handler.Snapshots(wakes) == Handler.SnapshotsOf(views) && forall j :: 0 <= j < |views| ==> Sendable(views[j])
    ensures var c := Whole(wakes, views, quote);
      && c.Served(quote)
      && AllHeard([c], quote) == EventStream.Received(EventStream.Stream(Handler.MessagesOf(wakes, quote)))
      && AllArrived([c], quote) == views
  {
    hide EventStream.Received, EventStream.Stream, Handler.MessagesOf, Handler.Snapshots, Sendable, Handler.SnapshotsOf;
    var c := Whole(wakes, views, quote);
    HeardViews(c, quote);
    assert c.Bytes(quote)[..c.cut] == c.Bytes(quote);
    assert [c][..0] == [];
    assert AllHeard([], quote) == [] && AllArrived([], quote) == [];
  }

  lemma WholeFollows(hs: seq<Hook.Hook>, es: seq<Hook.Event>, k: nat, wakes: seq<Handler.Wake>, views: seq<Handler.View>,
                     quote: string -> string, read: string -> Hook.Payload)
    requires Stays(hs, es, k)
    requires forall s :: JsonArray.OneLine(quote(s))
    requires Handler.Snapshots(wakes) == Handler.SnapshotsOf(views) && forall j :: 0 <= j < |views| ==> Sendable(views[j])
    requires Carried(es) == Callbacks(k, EventStream.Received(EventStream.Stream(Handler.MessagesOf(wakes, quote))), read)
    ensures |Positions(es)| == |views| && Increasing(Positions(es), |es|)
    ensures forall j :: 0 <= j < |views| ==>
      var i := Positions(es)[j];
      hs[i + 1].state == Screen(hs[i].state, k, views[j], read)
  {
    hide EventStream.Received, EventStream.Stream, Handler.MessagesOf, Screen, Sendable, Callbacks, Stays;
    hide Positions, Carried, Handler.Snapshots, Handler.SnapshotsOf, AllHeard, AllArrived, Connection.Served;
    WholeStream(wakes, views, quote);
    ScreenFollows(hs, es, k, [Whole(wakes, views, quote)], quote, read);
  }

  /**
   * A subscriber that keeps up: every version of its cluster, from the one it started at, comes on the screen of
   * the effect that opened its stream, each after the ones before it, but for the last one while its broadcast is
   * under way and for the initial one, which may come late.
   */
  lemma KeptUpIsShown(clusters: set<Cluster>, states: seq<System>, actions: seq<Action>, n: nat, c: Cluster, ch: ChanId,
                      contents: Contents, hs: seq<Hook.Hook>, es: seq<Hook.Event>, k: nat, wakes: seq<Handler.Wake>,
                      quote: string -> string, read: string -> Hook.Payload)
    returns (p: nat)
    requires IsRun(clusters, states, actions) && n < |states| && states[n].panic.None?
    requires ch in Subscribers(states[n].shared, c) && ch in states[n].subscribers && ch in states[n].shared.chans
    requires states[n].subscribers[ch].phase.Returned? && CacheOffers.KeepsUp(states, actions, n, ch)
    requires states[n].shared.chans[ch].buffer == []
    requires Stays(hs, es, k)
    requires forall s :: JsonArray.OneLine(quote(s))
    requires var views := Views(states[n].shared.chans[ch].received, contents);
      Handler.Snapshots(wakes) == Handler.SnapshotsOf(views) && forall j :: 0 <= j < |views| ==> Sendable(views[j])
    requires Carried(es) == Callbacks(k, EventStream.Received(EventStream.Stream(Handler.MessagesOf(wakes, quote))), read)
    ensures var received := states[n].shared.chans[ch].received;
      && |Positions(es)| == |received| && Increasing(Positions(es), |es|)
      && CacheRuns.IncreasesBut(received, p)
      && (forall j :: 0 <= j < |received| ==>
            var i := Positions(es)[j];
            hs[i + 1].state == Screen(hs[i].state, k, contents(received[j]), read))
      && (forall v :: 1 <= v && BaseVersion(states[n].subscribers[ch].phase) <= v < Version(states[n].shared, c) ==>
            Snapshot(c, v) in received)
  {
    hide EventStream.Received, EventStream.Stream, Handler.MessagesOf, Screen, Sendable, Stays, Callbacks;
    hide CacheRuns.IncreasesBut, Positions, Carried, Handler.Snapshots, Handler.SnapshotsOf, Increasing, IsRun;
    var received := states[n].shared.chans[ch].received;
    p := CacheRuns.ReceivedInOrder(clusters, states, actions, n, ch);
    forall v | 1 <= v && BaseVersion(states[n].subscribers[ch].phase) <= v < Version(states[n].shared, c)
      ensures Snapshot(c, v) in received
    {
      CacheOffers.KeepingUpSeesEverything(clusters, states, actions, n, c, ch, v);
    }
    WholeFollows(hs, es, k, wakes, Views(received, contents), quote, read);
  }
}

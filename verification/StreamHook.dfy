/**
 * The dashboard's live overview: an effect that opens an event stream and falls back to polling,
 * re-run whenever the cluster changes, with requests answered late.
 */
module StreamHook {
  import opened Prelude

  datatype Status = Connecting | Live | Stale | Error | Closed

  /** An aggregated overview, named by the effect that received it. */
  datatype View = View(effect: nat, data: string)

  datatype State = State(overview: Option<View>, status: Status, lastError: Option<string>)

  const INITIAL := State(None, Connecting, None)

  /** One run of the effect: its captured cluster, its `cancelled` flag, and whether it has an `EventSource` that is
      not closed. */
  datatype Effect = Effect(cluster: string, cancelled: bool, streaming: bool)

  /** `timers` are the intervals the browser still fires, with the effect that started them. */
  datatype Hook = Hook(
    state: State,
    fallbackTimer: Option<nat>,
    timers: map<nat, nat>,
    effects: seq<Effect>,
    current: Option<nat>,
    requests: seq<nat>,
    pending: multiset<nat>)

  const UNMOUNTED := Hook(INITIAL, None, map[], [], None, [], multiset{})

  /** What a callback gets: a request or a parse that failed, replies that do not aggregate, or an overview. */
  datatype Payload = Failure(error: string) | NotReplies(error: string) | Replies(data: string)

  /** `Told` is the server's own `error` event, which the error listener receives like a transport error. */
  datatype Event =
    | Run(cluster: string, refusal: Option<string>)
    | Open(effect: nat)
    | Message(effect: nat, payload: Payload)
    | Dropped(effect: nat, closed: bool)
    | Told(effect: nat, text: string)
    | Tick(timer: nat)
    | Fetched(effect: nat, payload: Payload)
    | Cleanup

  // ---------------------------------------------------- what each does

  function WithStatus(s: State, status: Status, error: Option<string>): State {
    s.(status := status, lastError := if error.Some? then error else s.lastError)
  }

  function Shown(effect: nat, data: string): State {
    State(Some(View(effect, data)), Live, None)
  }

  function NewTimer(h: Hook): nat {
    |h.requests| + 1
  }

  /** `startPolling`: a request now, an interval for more, and the new status. */
  function Polling(h: Hook, k: nat): Hook {
    var t := NewTimer(h);
    Requested(h, k).(fallbackTimer := Some(t), timers := h.timers[t := k], state := WithStatus(h.state, Stale, None))
  }

  function Requested(h: Hook, k: nat): Hook {
    h.(requests := h.requests + [k], pending := h.pending + multiset{k})
  }

  function Ingested(h: Hook, k: nat, p: Payload): State
    requires k < |h.effects| && !p.Failure?
  {
    if h.effects[k].cancelled then h.state
    else if p.NotReplies? then WithStatus(h.state, Error, Some(p.error))
    else Shown(k, p.data)
  }

  function SourceClosed(effects: seq<Effect>, k: nat): seq<Effect>
    requires k < |effects|
  {
    effects[k := effects[k].(streaming := false)]
  }

  // -------------------------------------------------------- transitions

  /** When an event can arrive: requests of an earlier effect may still be under way, but a closed `EventSource`
      dispatches nothing more (HTML standard, sections 9.2.3 and 9.2.6). */
  ghost predicate Enabled(h: Hook, e: Event) {
    match e
    case Run(_, _) => h.current == None
    case Cleanup => h.current.Some?
    case Open(k) => k < |h.effects| && h.effects[k].streaming
    case Message(k, _) => k < |h.effects| && h.effects[k].streaming
    case Dropped(k, _) => k < |h.effects| && h.effects[k].streaming
    case Told(k, _) => k < |h.effects| && h.effects[k].streaming
    case Tick(t) => t in h.timers
    case Fetched(k, _) => k < |h.effects| && k in h.pending
  }

  ghost function Next(h: Hook, e: Event): Hook
    requires Enabled(h, e)
  {
    match e
    case Run(cluster, refusal) =>
      var k := |h.effects|;
      var started := h.(state := INITIAL, current := Some(k),
                        effects := h.effects + [Effect(cluster, false, refusal.None?)]);
      if refusal.None? then started
      else Polling(started.(state := WithStatus(INITIAL, Error, refusal)), k)
    case Open(k) =>
      if h.effects[k].cancelled then h else h.(state := WithStatus(h.state, Connecting, None))
    case Message(k, p) =>
      if p.Failure? then h.(state := WithStatus(h.state, Error, Some(p.error)))
      else h.(state := Ingested(h, k, p))
    case Dropped(k, closed) =>
      var shut := if closed then h.(effects := SourceClosed(h.effects, k)) else h;
      if h.effects[k].cancelled then shut
      else if !closed then h.(state := WithStatus(h.state, Connecting, Some("reconnecting")))
      else
        var told := shut.(state := WithStatus(h.state, Closed, Some("stream closed by server")));
        if h.fallbackTimer.None? then Polling(told, k) else told
    case Told(k, _) =>
      if h.effects[k].cancelled then h else h.(state := WithStatus(h.state, Connecting, Some("reconnecting")))
    case Tick(t) => Requested(h, h.timers[t])
    case Fetched(k, p) =>
      var arrived := h.(pending := h.pending - multiset{k});
      if p.Failure? then arrived.(state := WithStatus(h.state, Error, Some(p.error)))
      else arrived.(state := Ingested(h, k, p))
    case Cleanup =>
      var k := h.current.value;
      var cancelled := if k < |h.effects| then h.effects[k := h.effects[k].(cancelled := true, streaming := false)] else h.effects;
      h.(current := None, effects := cancelled, fallbackTimer := None,
         timers := if h.fallbackTimer.Some? then h.timers - {h.fallbackTimer.value} else h.timers)
  }

  ghost predicate IsRun(hs: seq<Hook>, es: seq<Event>) {
    && |hs| == |es| + 1
    && hs[0] == UNMOUNTED
    && forall i :: 0 <= i < |es| ==> Enabled(hs[i], es[i]) && hs[i + 1] == Next(hs[i], es[i])
  }

  // ----------------------------------------------------------- invariant

  /** The browser fires exactly the interval `fallbackTimer` names, for the effect that is current. */
  ghost predicate TimersInv(h: Hook) {
    && (h.fallbackTimer.None? ==> h.timers == map[])
    && (h.fallbackTimer.Some? ==> h.current.Some? && h.timers == map[h.fallbackTimer.value := h.current.value])
  }

  /** Only the latest effect can be current, and exactly the others are cancelled; their sources are closed. */
  ghost predicate EffectsInv(h: Hook) {
    && (h.current.Some? ==> |h.effects| > 0 && h.current.value == |h.effects| - 1)
    && forall k :: 0 <= k < |h.effects| ==>
         (h.effects[k].cancelled <==> h.current != Some(k)) && (h.effects[k].streaming ==> h.current == Some(k))
  }

  ghost predicate StateInv(h: Hook) {
    && (h.state.status == Live ==> h.state.overview.Some?)
    && (h.state.overview.Some? ==> |h.effects| > 0 && h.state.overview.value.effect == |h.effects| - 1)
  }

  /** An effect without a stream polls, and requests are made for existing effects only. */
  ghost predicate FallbackInv(h: Hook) {
    && (h.current.Some? && h.current.value < |h.effects| && !h.effects[h.current.value].streaming ==>
          h.fallbackTimer.Some?)
    && (forall k :: k in h.pending ==> k < |h.effects|)
  }

  ghost predicate Inv(h: Hook) {
    TimersInv(h) && EffectsInv(h) && StateInv(h) && FallbackInv(h)
  }

  lemma StateOnly(h: Hook, s: State)
    requires Inv(h) && StateInv(h.(state := s))
    ensures Inv(h.(state := s))
  {
  }

  lemma WithStatusInv(h: Hook, status: Status, error: Option<string>)
    requires Inv(h) && status != Live
    ensures Inv(h.(state := WithStatus(h.state, status, error)))
  {
  }

  lemma IngestedInv(h: Hook, k: nat, p: Payload)
    requires Inv(h) && k < |h.effects| && !p.Failure?
    ensures Inv(h.(state := Ingested(h, k, p)))
  {
    hide TimersInv, FallbackInv;
    assert h.effects[k].cancelled <==> h.current != Some(k);
    StateOnly(h, Ingested(h, k, p));
  }

  lemma RunStepInv(h: Hook, cluster: string, refusal: Option<string>)
    requires Inv(h) && h.current.None?
    ensures Inv(Next(h, Run(cluster, refusal)))
  {
    if refusal.Some? {
      var k := |h.effects|;
      var started := h.(state := WithStatus(INITIAL, Error, refusal), current := Some(k),
                        effects := h.effects + [Effect(cluster, false, false)]);
      PollingStartsInv(started, k);
    }
  }

  /** Polling starts for an effect that has no source and is not polling yet. */
  lemma PollingStartsInv(h: Hook, k: nat)
    requires TimersInv(h) && EffectsInv(h) && StateInv(h)
    requires h.fallbackTimer.None? && h.current == Some(k)
    requires forall j :: j in h.pending ==> j < |h.effects|
    ensures Inv(Polling(h, k))
  {
  }

  lemma CleanupInv(h: Hook)
    requires Inv(h) && h.current.Some?
    ensures Inv(Next(h, Cleanup))
  {
  }

  lemma PendingInv(h: Hook, k: nat)
    requires Inv(h)
    ensures Inv(h.(pending := h.pending - multiset{k}))
    ensures k < |h.effects| ==> Inv(Requested(h, k))
  {
  }

  lemma NextInv(h: Hook, e: Event)
    requires Inv(h) && Enabled(h, e)
    ensures Inv(Next(h, e))
  {
    match e
    case Run(cluster, refusal) => RunStepInv(h, cluster, refusal);
    case Open(_) => WithStatusInv(h, Connecting, None);
    case Message(k, p) => MessageInv(h, k, p);
    case Dropped(k, closed) => DroppedInv(h, k, closed);
    case Told(_, _) => WithStatusInv(h, Connecting, Some("reconnecting"));
    case Tick(t) => TickInv(h, t);
    case Fetched(k, p) =>
      PendingInv(h, k);
      MessageInv(h.(pending := h.pending - multiset{k}), k, p);
    case Cleanup => CleanupInv(h);
  }

  lemma MessageInv(h: Hook, k: nat, p: Payload)
    requires Inv(h) && k < |h.effects|
    ensures Inv(h.(state := if p.Failure? then WithStatus(h.state, Error, Some(p.error)) else Ingested(h, k, p)))
  {
    hide Inv;
    if p.Failure? {
      WithStatusInv(h, Error, Some(p.error));
    } else {
      IngestedInv(h, k, p);
    }
  }

  lemma DroppedInv(h: Hook, k: nat, closed: bool)
    requires Inv(h) && Enabled(h, Dropped(k, closed))
    ensures Inv(Next(h, Dropped(k, closed)))
  {
    assert h.current == Some(k) && !h.effects[k].cancelled;
    if !closed {
      WithStatusInv(h, Connecting, Some("reconnecting"));
    } else {
      var told := h.(effects := SourceClosed(h.effects, k), state := WithStatus(h.state, Closed, Some("stream closed by server")));
      if h.fallbackTimer.None? {
        PollingStartsInv(told, k);
      }
    }
  }

  lemma TickInv(h: Hook, t: nat)
    requires Inv(h) && t in h.timers
    ensures Inv(Requested(h, h.timers[t]))
  {
  }

  lemma {:induction false} RunInv(hs: seq<Hook>, es: seq<Event>, i: nat)
    requires IsRun(hs, es) && i < |hs|
    ensures Inv(hs[i])
  {
    hide Next, Enabled, Inv;
    if i == 0 {
      UnmountedInv();
    } else {
      RunInv(hs, es, i - 1);
      NextInv(hs[i - 1], es[i - 1]);
    }
  }

  lemma UnmountedInv()
    ensures Inv(UNMOUNTED)
  {
  }

  // ------------------------------------------------------------ theorems

  /** Never two polling intervals; none once the effect is cleaned up; only ever one for the current effect. */
  lemma AtMostOneInterval(hs: seq<Hook>, es: seq<Event>, i: nat)
    requires IsRun(hs, es) && i < |hs|
    ensures |hs[i].timers| <= 1
    ensures hs[i].current.None? ==> hs[i].timers == map[]
    ensures forall t :: t in hs[i].timers ==> hs[i].current == Some(hs[i].timers[t]) && hs[i].fallbackTimer == Some(t)
  {
    hide IsRun;
    RunInv(hs, es, i);
  }

  /** A live indicator always has an overview behind it, and it is the latest effect's own. */
  lemma ShownIsCurrent(hs: seq<Hook>, es: seq<Event>, i: nat)
    requires IsRun(hs, es) && i < |hs|
    ensures var h := hs[i];
      && (h.state.status == Live ==> h.state.overview.Some?)
      && (h.state.overview.Some? ==> |h.effects| > 0 && h.state.overview.value.effect == |h.effects| - 1)
      && (h.current.Some? && h.state.overview.Some? ==> h.current == Some(h.state.overview.value.effect))
  {
    hide IsRun;
    RunInv(hs, es, i);
  }

  /** Every request is made for the effect that is current when it is made. */
  lemma RequestsAreCurrent(hs: seq<Hook>, es: seq<Event>, i: nat)
    requires IsRun(hs, es) && i < |es|
    ensures var a, b := hs[i].requests, hs[i + 1].requests;
      a == b || (hs[i + 1].current.Some? && b == a + [hs[i + 1].current.value])
  {
    RunInv(hs, es, i);
    assert Enabled(hs[i], es[i]) && hs[i + 1] == Next(hs[i], es[i]);
  }

  /** When the server closes the stream, or none could be opened, polling takes over and lasts until cleanup. */
  lemma PollingLasts(hs: seq<Hook>, es: seq<Event>, i: nat)
    requires IsRun(hs, es) && i < |es|
    ensures es[i].Dropped? && es[i].closed && hs[i].current == Some(es[i].effect) ==> hs[i + 1].fallbackTimer.Some?
    ensures es[i].Run? && es[i].refusal.Some? ==> hs[i + 1].fallbackTimer.Some?
    ensures hs[i].fallbackTimer.Some? && !es[i].Cleanup? ==> hs[i + 1].fallbackTimer == hs[i].fallbackTimer
  {
    RunInv(hs, es, i);
    assert Enabled(hs[i], es[i]) && hs[i + 1] == Next(hs[i], es[i]);
  }

  /** A poll is asked for at once when polling starts and at every tick after that, and at no other time. */
  lemma RequestsExact(hs: seq<Hook>, es: seq<Event>, i: nat)
    requires IsRun(hs, es) && i < |es|
    ensures var before, after := hs[i], hs[i + 1];
      var starts := before.fallbackTimer.None? && after.fallbackTimer.Some?;
      && (es[i].Tick? || starts ==>
            after.current.Some? && after.requests == before.requests + [after.current.value]
            && after.pending == before.pending + multiset{after.current.value})
      && (!es[i].Tick? && !starts ==>
            after.requests == before.requests
            && after.pending == before.pending - (if es[i].Fetched? then multiset{es[i].effect} else multiset{}))
  {
    RunInv(hs, es, i);
    assert Enabled(hs[i], es[i]) && hs[i + 1] == Next(hs[i], es[i]);
  }

  /** Nothing the browser does waits for the component: an open source can deliver anything at any time, an interval
      ticks, a request is answered, and the component is mounted or unmounted. */
  lemma EventsPossible(h: Hook, k: nat, t: nat, p: Payload, text: string)
    requires Inv(h)
    ensures if h.current.Some? then Enabled(h, Cleanup) else Enabled(h, Run(text, None)) && Enabled(h, Run(text, Some(text)))
    ensures k < |h.effects| && h.effects[k].streaming ==>
      && Enabled(h, Open(k)) && Enabled(h, Message(k, p)) && Enabled(h, Told(k, text))
      && Enabled(h, Dropped(k, false)) && Enabled(h, Dropped(k, true))
    ensures t in h.timers ==> Enabled(h, Tick(t))
    ensures k in h.pending ==> Enabled(h, Fetched(k, p))
  {
  }

  /** What the current effect's events leave on the screen. */
  lemma ScreenExact(h: Hook, e: Event)
    requires Inv(h) && Enabled(h, e) && (Caller(e).Some? ==> h.current == Caller(e))
    ensures Next(h, e).state ==
      match e
      case Run(_, None) => State(None, Connecting, None)
      case Run(_, Some(error)) => State(None, Stale, Some(error))
      case Open(_) => State(h.state.overview, Connecting, h.state.lastError)
      case Message(k, Replies(data)) => State(Some(View(k, data)), Live, None)
      case Message(_, NotReplies(error)) => State(h.state.overview, Error, Some(error))
      case Message(_, Failure(error)) => State(h.state.overview, Error, Some(error))
      case Dropped(_, false) => State(h.state.overview, Connecting, Some("reconnecting"))
      case Dropped(_, true) =>
        State(h.state.overview, if h.fallbackTimer.None? then Stale else Closed, Some("stream closed by server"))
      case Told(_, _) => State(h.state.overview, Connecting, Some("reconnecting"))
      case Tick(_) => h.state
      case Fetched(k, Replies(data)) => State(Some(View(k, data)), Live, None)
      case Fetched(_, NotReplies(error)) => State(h.state.overview, Error, Some(error))
      case Fetched(_, Failure(error)) => State(h.state.overview, Error, Some(error))
      case Cleanup => h.state
  {
  }

  /** The effect whose callback an event is. */
  function Caller(e: Event): Option<nat> {
    match e
    case Open(k) => Some(k)
    case Message(k, _) => Some(k)
    case Dropped(k, _) => Some(k)
    case Told(k, _) => Some(k)
    case Fetched(k, _) => Some(k)
    case _ => None
  }

  /**
   * The only late callback of a cancelled effect is an answered request, and it touches the screen exactly when
   * the request failed: that path does not ask `cancelled`.
   */
  lemma LateCallbackExact(h: Hook, e: Event)
    requires Inv(h) && Enabled(h, e) && Caller(e).Some? && h.effects[Caller(e).value].cancelled
    ensures e.Fetched?
    ensures Next(h, e).state == if e.payload.Failure? then WithStatus(h.state, Error, Some(e.payload.error)) else h.state
    ensures Next(h, e).timers == h.timers && Next(h, e).requests == h.requests && Next(h, e).effects == h.effects
  {
  }

  /** What the server says of a failed refresh is never read: the current effect shows "reconnecting" and keeps
      its overview, whatever the text. */
  lemma ServerErrorUnread(h: Hook, k: nat, text: string, other: string)
    requires Enabled(h, Told(k, text))
    ensures Enabled(h, Told(k, other)) && Next(h, Told(k, text)) == Next(h, Told(k, other))
    ensures !h.effects[k].cancelled ==>
      Next(h, Told(k, text)).state == State(h.state.overview, Connecting, Some("reconnecting"))
    ensures Next(h, Told(k, text)) == h.(state := Next(h, Told(k, text)).state)
  {
  }

  /** So the error of a cluster left behind can be shown for the cluster now open. */
  lemma LateErrorHappens() returns (hs: seq<Hook>, es: seq<Event>)
    ensures IsRun(hs, es)
    ensures var h := hs[|es|];
      && h.current == Some(1) && |h.effects| == 2 && h.effects[1].cluster == "b" && h.effects[0].cluster == "a"
      && h.state.status == Error && h.state.lastError == Some("timeout of a")
  {
    var h1 := Next(UNMOUNTED, Run("a", Some("refused")));
    var h2 := Next(h1, Cleanup);
    var h3 := Next(h2, Run("b", None));
    var h4 := Next(h3, Fetched(0, Failure("timeout of a")));
    hs := [UNMOUNTED, h1, h2, h3, h4];
    es := [Run("a", Some("refused")), Cleanup, Run("b", None), Fetched(0, Failure("timeout of a"))];
  }

  // ---------------------------------------------------------- the object

  /** The component: React's state, the timer reference, and what the browser keeps for it. */
  class OverviewStream {
    var state: State
    var fallbackTimer: Option<nat>
    var timers: map<nat, nat>
    var effects: seq<Effect>
    var current: Option<nat>
    var requests: seq<nat>
    var pending: multiset<nat>

    ghost function Model(): Hook
      reads this
    {
      Hook(state, fallbackTimer, timers, effects, current, requests, pending)
    }

    constructor ()
      ensures Model() == UNMOUNTED
    {
      state, fallbackTimer, timers, effects := INITIAL, None, map[], [];
      current, requests, pending := None, [], multiset{};
    }

    method SetStatus(status: Status, error: Option<string>)
      modifies this`state
      ensures state == WithStatus(old(state), status, error)
    {
      state := State(state.overview, status, if error.Some? then error else state.lastError);
    }

    method Ingest(k: nat, p: Payload)
      requires k < |effects| && !p.Failure?
      modifies this`state
      ensures state == Ingested(old(Model()), k, p)
    {
      if effects[k].cancelled {
        return;
      }
      match p
      case Replies(data) => state := State(Some(View(k, data)), Live, None);
      case NotReplies(error) => SetStatus(Error, Some(error));
    }

    method Fetch(k: nat)
      modifies this`requests, this`pending
      ensures Model() == Requested(old(Model()), k)
    {
      requests := requests + [k];
      pending := pending + multiset{k};
    }

    method StartPolling(k: nat)
      modifies this
      ensures Model() == Polling(old(Model()), k)
    {
      Fetch(k);
      var t := |requests|;
      timers := timers[t := k];
      fallbackTimer := Some(t);
      SetStatus(Stale, None);
    }

    method RunEffect(cluster: string, refusal: Option<string>)
      requires Enabled(Model(), Run(cluster, refusal))
      modifies this
      ensures Model() == Next(old(Model()), Run(cluster, refusal))
    {
      var k := |effects|;
      state := INITIAL;
      current := Some(k);
      effects := effects + [Effect(cluster, false, refusal.None?)];
      if refusal.Some? {
        SetStatus(Error, refusal);
        StartPolling(k);
      }
    }

    method OnOpen(k: nat)
      requires Enabled(Model(), Open(k))
      modifies this
      ensures Model() == Next(old(Model()), Open(k))
    {
      if !effects[k].cancelled {
        SetStatus(Connecting, None);
      }
    }

    method OnMessage(k: nat, p: Payload)
      requires Enabled(Model(), Message(k, p))
      modifies this
      ensures Model() == Next(old(Model()), Message(k, p))
    {
      match p
      case Failure(error) => SetStatus(Error, Some(error));
      case _ => Ingest(k, p);
    }

    /** The browser closes the source before it calls the listener. */
    method OnError(k: nat, closed: bool)
      requires Enabled(Model(), Dropped(k, closed))
      modifies this
      ensures Model() == Next(old(Model()), Dropped(k, closed))
    {
      if closed {
        effects := SourceClosed(effects, k);
      }
      if effects[k].cancelled {
        return;
      }
      if closed {
        SetStatus(Closed, Some("stream closed by server"));
        if fallbackTimer.None? {
          StartPolling(k);
        }
      } else {
        SetStatus(Connecting, Some("reconnecting"));
      }
    }

    /** The same listener, called by the server's event while the stream is open. */
    method OnServerError(k: nat, text: string)
      requires Enabled(Model(), Told(k, text))
      modifies this
      ensures Model() == Next(old(Model()), Told(k, text))
    {
      OnError(k, false);
    }

    method OnTick(t: nat)
      requires Enabled(Model(), Tick(t))
      modifies this
      ensures Model() == Next(old(Model()), Tick(t))
    {
      Fetch(timers[t]);
    }

    method OnFetched(k: nat, p: Payload)
      requires Enabled(Model(), Fetched(k, p))
      modifies this
      ensures Model() == Next(old(Model()), Fetched(k, p))
    {
      pending := pending - multiset{k};
      match p
      case Failure(error) => SetStatus(Error, Some(error));
      case _ => Ingest(k, p);
    }

    method CleanUp()
      requires Enabled(Model(), Event.Cleanup) && Inv(Model())
      modifies this
      ensures Model() == Next(old(Model()), Event.Cleanup)
    {
      var k := current.value;
      effects := effects[k := effects[k].(cancelled := true, streaming := false)];
      current := None;
      if fallbackTimer.Some? {
        timers := timers - {fallbackTimer.value};
        fallbackTimer := None;
      }
    }
  }
}

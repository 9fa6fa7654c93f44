/** The overview cache of internal/natsx/cache.go as a transition system.

    `Shared` is what the two mutexes and the Go runtime protect: the snapshot
    map, the subscriber lists and the channels. Each function on `Shared` is one
    atomic step of the program, a lock region or one non-blocking send. `System`
    adds where every goroutine stands, and `Step` lets any of them move.

    A `Snapshot` is named by its cluster and by the number of the tick that made
    it; the payload bytes of a tick play no part in the protocol. `attempts` and
    `received` record the history of a channel. */
module CacheProtocol {
  import opened Prelude

  type Cluster = string
  type ChanId = nat

  /** The buffer size of a subscriber channel. */
  const CAPACITY: nat := 4

  datatype Snapshot = Snapshot(cluster: Cluster, version: nat)

  datatype Source = Initial | Broadcast

  /** One execution of a send statement, `accepted` when the buffer had room. */
  datatype Attempt = Attempt(source: Source, snap: Snapshot, accepted: bool)

  datatype Channel = Channel(
    buffer: seq<Snapshot>,
    closed: bool,
    attempts: seq<Attempt>,
    received: seq<Snapshot>)

  datatype Shared = Shared(
    entries: map<Cluster, Snapshot>,
    subs: map<Cluster, seq<ChanId>>,
    chans: map<ChanId, Channel>)

  /** The two ways the Go runtime stops the process on a closed channel. */
  datatype Panic = SendOnClosed(source: Source, ch: ChanId) | CloseOfClosed(ch: ChanId)

  datatype Effect = Done(shared: Shared) | Panicked(panic: Panic)

  const EMPTY_CHANNEL := Channel([], false, [], [])

  const EMPTY_SHARED := Shared(map[], map[], map[])

  function Subscribers(sh: Shared, c: Cluster): seq<ChanId> {
    if c in sh.subs then sh.subs[c] else []
  }

  function Current(sh: Shared, c: Cluster): Option<Snapshot> {
    if c in sh.entries then Some(sh.entries[c]) else None
  }

  /** How many refreshes of `c` have been stored. */
  function Version(sh: Shared, c: Cluster): nat {
    if c in sh.entries then sh.entries[c].version else 0
  }

  function IndexOf<T(==)>(list: seq<T>, x: T): (i: nat)
    requires x in list
    ensures i < |list| && list[i] == x && x !in list[..i]
  {
    if list[0] == x then 0 else 1 + IndexOf(list[1..], x)
  }

  function Stored(sh: Shared, c: Cluster, snap: Snapshot): Shared {
    sh.(entries := sh.entries[c := snap])
  }

  function Registered(sh: Shared, c: Cluster, ch: ChanId): Shared {
    sh.(subs := sh.subs[c := Subscribers(sh, c) + [ch]], chans := sh.chans[ch := EMPTY_CHANNEL])
  }

  /** `select { case ch <- snap: default: }` on an open channel. */
  function Offer(chan: Channel, source: Source, snap: Snapshot): Channel {
    if |chan.buffer| < CAPACITY then
      chan.(buffer := chan.buffer + [snap], attempts := chan.attempts + [Attempt(source, snap, true)])
    else
      chan.(attempts := chan.attempts + [Attempt(source, snap, false)])
  }

  function TrySend(sh: Shared, source: Source, ch: ChanId, snap: Snapshot): Effect
    requires ch in sh.chans
  {
    if sh.chans[ch].closed then Panicked(SendOnClosed(source, ch))
    else Done(sh.(chans := sh.chans[ch := Offer(sh.chans[ch], source, snap)]))
  }

  function Taken(sh: Shared, ch: ChanId): Shared
    requires ch in sh.chans && |sh.chans[ch].buffer| > 0
  {
    var chan := sh.chans[ch];
    sh.(chans := sh.chans[ch := chan.(buffer := chan.buffer[1..], received := chan.received + [chan.buffer[0]])])
  }

  function Unsubscribed(sh: Shared, c: Cluster, ch: ChanId): Effect
    requires forall x :: x in Subscribers(sh, c) ==> x in sh.chans
  {
    var list := Subscribers(sh, c);
    if ch !in list then Done(sh)
    else if sh.chans[ch].closed then Panicked(CloseOfClosed(ch))
    else Done(sh.(subs := sh.subs[c := Without(list, IndexOf(list, ch))],
                  chans := sh.chans[ch := sh.chans[ch].(closed := true)]))
  }

  function CloseEach(chans: map<ChanId, Channel>, list: seq<ChanId>): Option<map<ChanId, Channel>>
    requires forall x :: x in list ==> x in chans
  {
    if list == [] then Some(chans)
    else if chans[list[0]].closed then None
    else CloseEach(chans[list[0] := chans[list[0]].(closed := true)], list[1..])
  }

  /** The first channel in `list` whose closing fails, when closing each in turn does. */
  function FirstClosed(chans: map<ChanId, Channel>, list: seq<ChanId>): ChanId
    requires forall x :: x in list ==> x in chans
    requires CloseEach(chans, list).None?
  {
    if chans[list[0]].closed then list[0]
    else FirstClosed(chans[list[0] := chans[list[0]].(closed := true)], list[1..])
  }

  function SubsClosed(sh: Shared, c: Cluster): Effect
    requires forall x :: x in Subscribers(sh, c) ==> x in sh.chans
  {
    match CloseEach(sh.chans, Subscribers(sh, c))
    case None => Panicked(CloseOfClosed(FirstClosed(sh.chans, Subscribers(sh, c))))
    case Some(chans) => Done(sh.(subs := sh.subs - {c}, chans := chans))
  }

  /** Where a cluster's refresher stands: between ticks, between store and
      broadcast, in the send loop, or past closeSubs. */
  datatype Refresher =
    | Idle
    | HasStored(snap: Snapshot)
    | Sending(snap: Snapshot, list: seq<ChanId>, next: nat)
    | Stopped

  /** Where a subscriber stands: inside Subscribe before or after its Get, or
      returned. `got` is what that Get read. */
  datatype Phase =
    | Entered
    | Fetched(got: Option<Snapshot>)
    | Returned(got: Option<Snapshot>)

  datatype Subscriber = Subscriber(cluster: Cluster, phase: Phase)

  datatype System = System(
    shared: Shared,
    refreshers: map<Cluster, Refresher>,
    subscribers: map<ChanId, Subscriber>,
    cancelled: bool,
    panic: Option<Panic>)

  datatype Action =
    | Cancel
    | Store(c: Cluster)
    | CopyList(c: Cluster)
    | SendNext(c: Cluster)
    | FinishBroadcast(c: Cluster)
    | CloseSubs(c: Cluster)
    | Register(c: Cluster, ch: ChanId)
    | ReadCurrent(ch: ChanId)
    | SendInitial(ch: ChanId)
    | Receive(ch: ChanId)
    | Unsubscribe(c: Cluster, ch: ChanId)

  function Start(clusters: set<Cluster>): System {
    System(EMPTY_SHARED, map c | c in clusters :: Idle, map[], false, None)
  }

  function After(s: System, e: Effect): System {
    match e
    case Done(sh) => s.(shared := sh)
    case Panicked(p) => s.(panic := Some(p))
  }

  predicate Allocated(sh: Shared, list: seq<ChanId>) {
    forall x :: x in list ==> x in sh.chans
  }

  // ----- refresher ----------------------------------------------------------

  predicate CanStore(s: System, c: Cluster) {
    c in s.refreshers && s.refreshers[c].Idle?
  }

  /** `store`, with the snapshot of the next tick. */
  function AfterStore(s: System, c: Cluster): System {
    var snap := Snapshot(c, Version(s.shared, c) + 1);
    s.(shared := Stored(s.shared, c, snap), refreshers := s.refreshers[c := HasStored(snap)])
  }

  predicate CanCopyList(s: System, c: Cluster) {
    c in s.refreshers && s.refreshers[c].HasStored?
  }

  /** The locked part of `broadcast`. */
  function AfterCopyList(s: System, c: Cluster): System
    requires CanCopyList(s, c)
  {
    s.(refreshers := s.refreshers[c := Sending(s.refreshers[c].snap, Subscribers(s.shared, c), 0)])
  }

  predicate CanSendNext(s: System, c: Cluster) {
    && c in s.refreshers && s.refreshers[c].Sending?
    && s.refreshers[c].next < |s.refreshers[c].list|
    && s.refreshers[c].list[s.refreshers[c].next] in s.shared.chans
  }

  function SendNextEffect(s: System, c: Cluster): Effect
    requires CanSendNext(s, c)
  {
    var r := s.refreshers[c];
    TrySend(s.shared, Broadcast, r.list[r.next], r.snap)
  }

  function AfterSendNext(s: System, c: Cluster): System
    requires CanSendNext(s, c)
  {
    var r := s.refreshers[c];
    After(s, SendNextEffect(s, c)).(refreshers := s.refreshers[c := r.(next := r.next + 1)])
  }

  predicate CanFinishBroadcast(s: System, c: Cluster) {
    c in s.refreshers && s.refreshers[c].Sending? && s.refreshers[c].next == |s.refreshers[c].list|
  }

  function AfterFinishBroadcast(s: System, c: Cluster): System {
    s.(refreshers := s.refreshers[c := Idle])
  }

  /** The first tick runs before the loop that watches the context. */
  predicate CanCloseSubs(s: System, c: Cluster) {
    && s.cancelled && c in s.refreshers && s.refreshers[c].Idle? && c in s.shared.entries
    && Allocated(s.shared, Subscribers(s.shared, c))
  }

  function AfterCloseSubs(s: System, c: Cluster): System
    requires CanCloseSubs(s, c)
  {
    After(s, SubsClosed(s.shared, c)).(refreshers := s.refreshers[c := Stopped])
  }

  // ----- subscriber ---------------------------------------------------------

  predicate CanRegister(s: System, c: Cluster, ch: ChanId) {
    ch !in s.shared.chans && ch !in s.subscribers
  }

  /** The locked part of `Subscribe`, on a channel just made. */
  function AfterRegister(s: System, c: Cluster, ch: ChanId): System {
    s.(shared := Registered(s.shared, c, ch), subscribers := s.subscribers[ch := Subscriber(c, Entered)])
  }

  predicate CanReadCurrent(s: System, ch: ChanId) {
    ch in s.subscribers && s.subscribers[ch].phase.Entered?
  }

  /** The `Get` inside `Subscribe`. */
  function AfterReadCurrent(s: System, ch: ChanId): System
    requires CanReadCurrent(s, ch)
  {
    var sub := s.subscribers[ch];
    s.(subscribers := s.subscribers[ch := sub.(phase := Fetched(Current(s.shared, sub.cluster)))])
  }

  predicate CanSendInitial(s: System, ch: ChanId) {
    ch in s.subscribers && s.subscribers[ch].phase.Fetched? && ch in s.shared.chans
  }

  function SendInitialEffect(s: System, ch: ChanId): Effect
    requires CanSendInitial(s, ch)
  {
    match s.subscribers[ch].phase.got
    case None => Done(s.shared)
    case Some(snap) => TrySend(s.shared, Initial, ch, snap)
  }

  /** The send at the end of `Subscribe`, when `Get` found a snapshot. */
  function AfterSendInitial(s: System, ch: ChanId): System
    requires CanSendInitial(s, ch)
  {
    var sub := s.subscribers[ch];
    After(s, SendInitialEffect(s, ch)).(subscribers := s.subscribers[ch := sub.(phase := Returned(sub.phase.got))])
  }

  predicate CanReceive(s: System, ch: ChanId) {
    && ch in s.subscribers && s.subscribers[ch].phase.Returned?
    && ch in s.shared.chans && |s.shared.chans[ch].buffer| > 0
  }

  function AfterReceive(s: System, ch: ChanId): System
    requires CanReceive(s, ch)
  {
    s.(shared := Taken(s.shared, ch))
  }

  /** Only whoever Subscribe returned the channel to can give it back, under any name and any number of times. */
  predicate CanUnsubscribe(s: System, c: Cluster, ch: ChanId) {
    && ch in s.subscribers && s.subscribers[ch].phase.Returned?
    && Allocated(s.shared, Subscribers(s.shared, c))
  }

  function AfterUnsubscribe(s: System, c: Cluster, ch: ChanId): System
    requires CanUnsubscribe(s, c, ch)
  {
    After(s, Unsubscribed(s.shared, c, ch))
  }

  // ----- the whole program --------------------------------------------------

  predicate Enabled(s: System, a: Action) {
    s.panic.None? &&
    match a
    case Cancel => true
    case Store(c) => CanStore(s, c)
    case CopyList(c) => CanCopyList(s, c)
    case SendNext(c) => CanSendNext(s, c)
    case FinishBroadcast(c) => CanFinishBroadcast(s, c)
    case CloseSubs(c) => CanCloseSubs(s, c)
    case Register(c, ch) => CanRegister(s, c, ch)
    case ReadCurrent(ch) => CanReadCurrent(s, ch)
    case SendInitial(ch) => CanSendInitial(s, ch)
    case Receive(ch) => CanReceive(s, ch)
    case Unsubscribe(c, ch) => CanUnsubscribe(s, c, ch)
  }

  function Step(s: System, a: Action): System
    requires Enabled(s, a)
  {
    match a
    case Cancel => s.(cancelled := true)
    case Store(c) => AfterStore(s, c)
    case CopyList(c) => AfterCopyList(s, c)
    case SendNext(c) => AfterSendNext(s, c)
    case FinishBroadcast(c) => AfterFinishBroadcast(s, c)
    case CloseSubs(c) => AfterCloseSubs(s, c)
    case Register(c, ch) => AfterRegister(s, c, ch)
    case ReadCurrent(ch) => AfterReadCurrent(s, ch)
    case SendInitial(ch) => AfterSendInitial(s, ch)
    case Receive(ch) => AfterReceive(s, ch)
    case Unsubscribe(c, ch) => AfterUnsubscribe(s, c, ch)
  }

  /** A run: an initial state and any number of enabled steps, in any interleaving. */
  ghost predicate IsRun(clusters: set<Cluster>, states: seq<System>, actions: seq<Action>) {
    && |states| == |actions| + 1
    && states[0] == Start(clusters)
    && forall i :: 0 <= i < |actions| ==> Enabled(states[i], actions[i]) && states[i + 1] == Step(states[i], actions[i])
  }
}

/**
 * The overview endpoints of internal/handler/jsm.go: the one-shot reader, the event stream, and what
 * a reader of that stream gets back.
 */
module OverviewHandler {
  import opened Prelude
  import opened JsonText
  import opened JsonArray
  import opened EventStream

  // ---------------------------------------------------------- the handler

  datatype Snapshot = Snapshot(error: string, data: string)

  /** What the handler's select loop wakes up for before its client goes away. */
  datatype Wake = Tick | Got(snap: Snapshot)

  function MessageOf(wake: Wake, quote: string -> string): Message {
    match wake
    case Tick => Heartbeat
    case Got(snap) => if snap.error != "" then Failure(quote(snap.error)) else Data(snap.data)
  }

  function MessagesOf(wakes: seq<Wake>, quote: string -> string): seq<Message> {
    seq(|wakes|, i requires 0 <= i < |wakes| => MessageOf(wakes[i], quote))
  }

  lemma {:induction false} StreamSnoc(ms: seq<Message>, m: Message)
    ensures Stream(ms + [m]) == Stream(ms) + Frame(m)
  {
    hide Frame;
    if ms == [] {
      assert [m][1..] == [];
      assert Frame(m) + "" == "" + Frame(m);
    } else {
      assert (ms + [m])[1..] == ms[1..] + [m];
      StreamSnoc(ms[1..], m);
    }
  }

  method WriteWake(w: Output, wake: Wake, quote: string -> string)
    modifies w`body
    ensures w.body == old(w.body) + Frame(MessageOf(wake, quote))
  {
    match wake
    case Tick => w.Write(": heartbeat\n\n");
    case Got(snap) =>
      if snap.error != "" {
        w.Write("event: error\ndata: " + quote(snap.error) + "\n\n");
      } else {
        w.Write("data: " + snap.data + "\n\n");
      }
  }

  /** `quote` is `fmt`'s `%q`. */
  method OverviewStream(w: Output, wakes: seq<Wake>, quote: string -> string)
    modifies w
    ensures w.status == 200 && "Content-Type" in w.header && w.header["Content-Type"] == "text/event-stream"
    ensures w.body == old(w.body) + Stream(MessagesOf(wakes, quote))
  {
    hide Frame, MessageOf, Stream;
    w.header := w.header["Content-Type" := "text/event-stream"]["Cache-Control" := "no-cache, no-store"];
    w.header := w.header["Connection" := "keep-alive"]["X-Accel-Buffering" := "no"];
    w.status := 200;
    ghost var header := w.header;
    ghost var start, ms := w.body, MessagesOf(wakes, quote);
    StreamStart(ms);
    for i := 0 to |wakes|
      invariant w.body == start + Stream(ms[..i])
      invariant w.header == header && w.status == 200
    {
      WriteWake(w, wakes[i], quote);
      StreamStep(start, ms, i);
    }
    assert ms[..|wakes|] == ms;
  }

  lemma StreamStart(ms: seq<Message>)
    ensures Stream(ms[..0]) == ""
  {
  }

  lemma StreamStep(start: string, ms: seq<Message>, i: nat)
    requires i < |ms|
    ensures start + Stream(ms[..i]) + Frame(ms[i]) == start + Stream(ms[..i + 1])
  {
    hide Stream, Frame;
    assert ms[..i + 1] == ms[..i] + [ms[i]];
    StreamSnoc(ms[..i], ms[i]);
  }

  // -------------------------------------------------- the one-shot reader

  /** The outcome of a live request to the cluster. */
  datatype Fetch = Fetched(replies: seq<string>) | FetchFailed(timedOut: bool, error: string)

  const OK: nat := 200
  const BAD_GATEWAY: nat := 502
  const GATEWAY_TIMEOUT: nat := 504
  const AGE := "X-Overview-Age-Seconds"

  /**
   * `overview`: the cached snapshot, or a live request when there is none or the client asks for one.
   * `cached` is empty without a cache or before its first refresh, `fetch` is what a request would bring,
   * and `encode` writes an error as JSON.
   */
  method Overview(w: Output, cached: Option<Snapshot>, live: bool, fetch: Fetch, age: string, encode: string -> string)
    requires w.header == map[] && w.body == ""
    modifies w
    ensures var fromCache := cached.Some? && !live;
      && (fromCache && cached.value.error == "" ==> w.status == 200 && w.body == cached.value.data)
      && (forall items :: fromCache && cached.value == SnapshotOf(Replies(items)) ==>
            w.status == 200 && w.body == ArrayText(items))
      && (!fromCache && fetch.Fetched? ==> w.status == 200 && w.body == ArrayText(fetch.replies))
      && (fromCache && cached.value.error != "" ==> w.status == 502 && w.body == encode(cached.value.error))
      && (!fromCache && fetch.FetchFailed? ==>
            w.status == (if fetch.timedOut then 504 else 502) && w.body == encode(fetch.error))
      && w.header == (if fromCache && cached.value.error == ""
           then map["Content-Type" := "application/json", "X-Overview-Age-Seconds" := age]
           else map["Content-Type" := "application/json"])
  {
    hide ArrayText;
    if cached.Some? && !live {
      var snap := cached.value;
      if snap.error != "" {
        WriteError(w, BAD_GATEWAY, encode(snap.error));
        return;
      }
      w.header := w.header["Content-Type" := "application/json"][AGE := age];
      w.status := OK;
      w.Write(snap.data);
      return;
    }
    match fetch
    case FetchFailed(timedOut, error) => WriteError(w, if timedOut then GATEWAY_TIMEOUT else BAD_GATEWAY, encode(error));
    case Fetched(replies) => WriteRawArray(w, replies);
  }

  method WriteError(w: Output, status: nat, text: string)
    modifies w
    ensures w.header == old(w.header)["Content-Type" := "application/json"]
    ensures w.status == status && w.body == old(w.body) + text
  {
    w.header := w.header["Content-Type" := "application/json"];
    w.status := status;
    w.Write(text);
  }

  // -------------------------------------------------- from NATS to reader

  /** The event a snapshot is sent as. */
  function EventOf(snap: Snapshot, quote: string -> string): Event {
    if snap.error != "" then Event("error", quote(snap.error)) else Event("message", snap.data)
  }

  function EventsOf(snaps: seq<Snapshot>, quote: string -> string): seq<Event> {
    seq(|snaps|, i requires 0 <= i < |snaps| => EventOf(snaps[i], quote))
  }

  /** The snapshots among the wake-ups. */
  function Snapshots(wakes: seq<Wake>): seq<Snapshot> {
    if wakes == [] then []
    else (if wakes[0].Got? then [wakes[0].snap] else []) + Snapshots(wakes[1..])
  }

  lemma {:induction false} ExpectedSnapshots(wakes: seq<Wake>, quote: string -> string)
    ensures Expected(MessagesOf(wakes, quote)) == EventsOf(Snapshots(wakes), quote)
  {
    if wakes != [] {
      var ms := MessagesOf(wakes, quote);
      assert ms[1..] == MessagesOf(wakes[1..], quote);
      ExpectedSnapshots(wakes[1..], quote);
      ExpectedFirst(ms);
      assert [ms[0]][1..] == [];
    }
  }

  predicate Arrives(snap: Snapshot) {
    snap.error != "" || OneLine(snap.data)
  }

  lemma {:induction false} SnapshotIn(wakes: seq<Wake>, snap: Snapshot)
    ensures snap in Snapshots(wakes) <==> Got(snap) in wakes
  {
    if wakes != [] {
      SnapshotIn(wakes[1..], snap);
      assert Got(snap) in wakes <==> wakes[0] == Got(snap) || Got(snap) in wakes[1..];
    }
  }

  lemma FramableWake(wake: Wake, quote: string -> string)
    requires forall s :: OneLine(quote(s))
    ensures Framable(MessageOf(wake, quote)) <==> (wake.Got? ==> Arrives(wake.snap))
  {
  }

  lemma FramableSnapshots(wakes: seq<Wake>, quote: string -> string)
    requires forall s :: OneLine(quote(s))
    ensures (forall i :: 0 <= i < |wakes| ==> Framable(MessageOf(wakes[i], quote))) <==>
      forall snap :: snap in Snapshots(wakes) ==> Arrives(snap)
  {
    hide Framable, MessageOf, Arrives, Snapshots;
    forall wake ensures Framable(MessageOf(wake, quote)) <==> (wake.Got? ==> Arrives(wake.snap)) {
      FramableWake(wake, quote);
    }
    forall snap ensures snap in Snapshots(wakes) <==> Got(snap) in wakes {
      SnapshotIn(wakes, snap);
    }
    forall i | 0 <= i < |wakes| && wakes[i].Got? ensures wakes[i] == Got(wakes[i].snap) && wakes[i] in wakes {
    }
  }

  /**
   * Whatever heartbeats come between, a subscriber's snapshots reach a reader as one event each, in order and
   * unchanged, exactly when every overview among them is one line.
   */
  lemma SnapshotsDelivered(wakes: seq<Wake>, quote: string -> string)
    requires forall s :: OneLine(quote(s))
    ensures Received(Stream(MessagesOf(wakes, quote))) == EventsOf(Snapshots(wakes), quote) <==>
      forall snap :: snap in Snapshots(wakes) ==> Arrives(snap)
  {
    hide Received, Stream, Expected, MessageOf, Framable, Arrives, Snapshots, EventsOf;
    var ms := MessagesOf(wakes, quote);
    StreamDelivers(ms);
    ExpectedSnapshots(wakes, quote);
    FramableSnapshots(wakes, quote);
    forall i | 0 <= i < |ms| ensures ms[i] == MessageOf(wakes[i], quote) {
    }
  }

  /** One refresh of the cache. */
  datatype View = Replies(items: seq<string>) | Failed(error: string)

  function SnapshotOf(v: View): Snapshot {
    match v
    case Replies(items) => Snapshot("", ArrayText(items))
    case Failed(error) => Snapshot(error, "")
  }

  function SnapshotsOf(views: seq<View>): seq<Snapshot> {
    seq(|views|, i requires 0 <= i < |views| => SnapshotOf(views[i]))
  }

  /** A standard reader's view of one event; what the dashboard makes of it is in `StreamHook`. */
  function ViewOf(e: Event): View {
    if e.kind == "message" && |e.data| >= 2 then Replies(Items(e.data)) else Failed(e.data)
  }

  /** What `discover` and an error return. */
  ghost predicate Proper(v: View) {
    match v
    case Replies(items) => AllValid(items)
    case Failed(error) => error != ""
  }

  predicate OneLiners(v: View) {
    v.Replies? ==> forall i :: 0 <= i < |v.items| ==> OneLine(v.items[i])
  }

  lemma ViewSurvives(v: View, quote: string -> string)
    requires Proper(v)
    ensures Arrives(SnapshotOf(v)) <==> OneLiners(v)
    ensures ViewOf(EventOf(SnapshotOf(v), quote)) ==
      match v case Replies(items) => v case Failed(error) => Failed(quote(error))
  {
    hide ArrayText, Items, AllValid;
    match v
    case Replies(items) =>
      ArrayOneLine(items);
      ItemsOfArray(items);
      ArrayBrackets(items);
    case Failed(_) =>
  }

  lemma ArrayBrackets(items: seq<string>)
    ensures |ArrayText(items)| >= 2
  {
  }

  /**
   * From NATS to reader: exactly when every reply is one line, the events of a subscriber's stream are its
   * snapshots, and cutting an event's data gives back the very replies the servers sent.
   */
  lemma RepliesDelivered(wakes: seq<Wake>, views: seq<View>, quote: string -> string)
    requires forall s :: OneLine(quote(s))
    requires Snapshots(wakes) == SnapshotsOf(views) && forall i :: 0 <= i < |views| ==> Proper(views[i])
    ensures Received(Stream(MessagesOf(wakes, quote))) == EventsOf(SnapshotsOf(views), quote) <==>
      forall i :: 0 <= i < |views| ==> OneLiners(views[i])
    ensures forall i :: 0 <= i < |views| ==>
      ViewOf(EventsOf(SnapshotsOf(views), quote)[i]) ==
        match views[i] case Replies(items) => views[i] case Failed(error) => Failed(quote(error))
  {
    hide Received, Stream, MessagesOf, ViewOf, SnapshotOf, EventOf, Arrives, OneLiners, Proper, Snapshots;
    SnapshotsDelivered(wakes, quote);
    var snaps := SnapshotsOf(views);
    forall i | 0 <= i < |views|
      ensures snaps[i] in snaps && (Arrives(snaps[i]) <==> OneLiners(views[i]))
      ensures ViewOf(EventsOf(snaps, quote)[i]) ==
        match views[i] case Replies(items) => views[i] case Failed(error) => Failed(quote(error))
    {
      ViewSurvives(views[i], quote);
    }
    forall snap | snap in snaps ensures exists i :: 0 <= i < |views| && snaps[i] == snap {
    }
  }

  /** Replies are passed on as they came, so one that was printed over several lines does not arrive. */
  lemma PrettyReplyBroken()
    ensures GoValid("{\n}")
    ensures var m := Data(ArrayText(["{\n}"])); Received(Stream([m])) != Expected([m])
  {
    hide Received, Expected;
    var n := Node("", Obj("\n", []), "");
    assert NodeText(n) == "{\n}";
    assert NodeWf(n) && Depth(n.value) == 1;
    var m := Data(ArrayText(["{\n}"]));
    assert "{\n}"[1] == '\n';
    ArrayOneLine(["{\n}"]);
    assert !OneLine(["{\n}"][0]);
    StreamDelivers([m]);
    assert !Framable([m][0]);
  }
}

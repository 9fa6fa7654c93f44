/** JetStream advisories: from a NATS subject and payload to the event that is announced. */
module Advisory {
  import opened Prelude
  import opened Strings

  datatype Event = Event(title: string, body: string)

  /** One element of the payload's `replicas`: a string, an object with a name, or something else. */
  datatype Replica = Plain(text: string) | Object(name: string) | Other

  /** The fields read from the payload; absent and mistyped ones are empty. */
  datatype Payload = Payload(account: string, leader: string, replicas: seq<Replica>)

  const LOCAL := "$JS.EVENT.ADVISORY."
  const BRIDGE := "$SYS.ACCOUNT."
  const MARKER := ".JETSTREAM.EVENT.ADVISORY."

  // ------------------------------------------------------------- payload

  function ReplicaNames(rs: seq<Replica>): seq<string> {
    if rs == [] then []
    else
      var last := rs[|rs| - 1];
      ReplicaNames(rs[..|rs| - 1]) +
      (match last case Plain(t) => [t] case Object(n) => [n] case Other => [])
  }

  method StrSlice(raw: seq<Replica>) returns (out: seq<string>)
    ensures out == ReplicaNames(raw)
  {
    out := [];
    for i := 0 to |raw|
      invariant out == ReplicaNames(raw[..i])
    {
      assert raw[..i + 1][..i] == raw[..i];
      match raw[i]
      case Plain(t) => out := out + [t];
      case Object(n) => out := out + [n];
      case Other =>
    }
    assert raw[..|raw|] == raw;
  }

  function ReplicaTail(names: seq<string>): string {
    if names == [] then "" else " \U{B7} replicas: " + Join(names, ", ")
  }

  function AccountTag(account: string): string {
    if account == "" then "" else " (account " + account + ")"
  }

  // -------------------------------------------------------------- events

  function StreamBody(action: string, p: Payload, stream: string): string {
    var tag := AccountTag(p.account);
    match action
    case "CREATED" => "New stream `" + stream + "`" + tag + "."
    case "UPDATED" => "Stream config changed for `" + stream + "`" + tag + "."
    case "DELETED" => "Stream `" + stream + "`" + tag + " was removed."
    case "LEADER_ELECTED" => "New leader: `" + p.leader + "`" + tag + ReplicaTail(ReplicaNames(p.replicas)) + "."
    case _ =>
      "Stream `" + stream + "`" + tag + " lost quorum and is unavailable for writes until a new leader is elected."
  }

  function StreamEvent(action: string, p: Payload, stream: string): Option<Event> {
    var body := StreamBody(action, p, stream);
    match action
    case "CREATED" => Some(Event("Stream `" + stream + "` created", body))
    case "UPDATED" => Some(Event("Stream `" + stream + "` updated", body))
    case "DELETED" => Some(Event("Stream `" + stream + "` deleted", body))
    case "LEADER_ELECTED" => Some(Event("Stream `" + stream + "` leader elected", body))
    case "QUORUM_LOST" => Some(Event("\U{26A0} Stream `" + stream + "` lost quorum", body))
    case _ => None
  }

  function ConsumerBody(action: string, p: Payload, stream: string, consumer: string): string {
    var tag := AccountTag(p.account);
    match action
    case "CREATED" => "New consumer `" + consumer + "` on stream `" + stream + "`" + tag + "."
    case "DELETED" => "Consumer `" + consumer + "` on stream `" + stream + "`" + tag + " was removed."
    case "LEADER_ELECTED" => "New leader: `" + p.leader + "`" + tag + ReplicaTail(ReplicaNames(p.replicas)) + "."
    case _ => "Consumer `" + consumer + "` on stream `" + stream + "`" + tag + " lost quorum."
  }

  function ConsumerEvent(action: string, p: Payload, stream: string, consumer: string): Option<Event> {
    var body := ConsumerBody(action, p, stream, consumer);
    var names := stream + "/" + consumer;
    match action
    case "CREATED" => Some(Event("Consumer `" + names + "` created", body))
    case "DELETED" => Some(Event("Consumer `" + names + "` deleted", body))
    case "LEADER_ELECTED" => Some(Event("Consumer `" + names + "` leader elected", body))
    case "QUORUM_LOST" => Some(Event("\U{26A0} Consumer `" + names + "` lost quorum", body))
    case _ => None
  }

  // ------------------------------------------------------------ subjects

  /** The text after the first `sep`, the second result of a successful `strings.Cut`. */
  function CutAfter(s: string, sep: string): Option<string>
    requires sep != ""
    decreases |s|
  {
    if |s| < |sep| then None
    else if sep <= s then Some(s[|sep|..])
    else CutAfter(s[1..], sep)
  }

  function JsAdvisorySuffix(subject: string): string {
    if LOCAL <= subject then subject[|LOCAL|..]
    else if BRIDGE <= subject then CutAfter(subject[|BRIDGE|..], MARKER).GetOr("")
    else ""
  }

  /** What a subject is about. */
  datatype About =
    | Stream(action: string, stream: string)
    | Consumer(action: string, stream: string, consumer: string)

  function Parse(suffix: string): Option<About> {
    if suffix == "" then None
    else
      var parts := Split(suffix, ".");
      if |parts| < 2 then None
      else if parts[0] == "STREAM" then
        if |parts| < 3 then None else Some(Stream(parts[1], parts[2]))
      else if parts[0] == "CONSUMER" then
        if |parts| < 4 then None else Some(Consumer(parts[1], parts[2], parts[3]))
      else None
  }

  function Classify(subject: string, p: Payload): Option<Event> {
    match Parse(JsAdvisorySuffix(subject))
    case None => None
    case Some(Stream(action, stream)) => StreamEvent(action, p, stream)
    case Some(Consumer(action, stream, consumer)) => ConsumerEvent(action, p, stream, consumer)
  }

  // -------------------------------------------------- the two subject forms

  function LocalSubject(rest: string): string { LOCAL + rest }

  /** The same advisory as the system account sees it. */
  function BridgedSubject(account: string, rest: string): string { BRIDGE + account + MARKER + rest }

  lemma {:induction false} CutAfterFirst(account: string, rest: string, sep: string)
    requires sep != "" && Avoids(account + sep, sep, |account|)
    ensures CutAfter(account + sep + rest, sep) == Some(rest)
    decreases |account|
  {
    var s := account + sep + rest;
    if account == "" {
      assert s == sep + rest;
    } else {
      assert !(sep <= (account + sep)[0..]);
      PrefixOfLonger(sep, account + sep, rest);
      var tail := account[1..];
      forall i | 0 <= i < |tail| ensures !(sep <= (tail + sep)[i..]) {
        assert (tail + sep)[i..] == (account + sep)[i + 1..];
      }
      CutAfterFirst(tail, rest, sep);
      assert s[1..] == tail + sep + rest;
    }
  }

  lemma LaterOccurrence(account: string, sep: string)
    requires !Avoids(account + sep, sep, |account|) && !(sep <= account + sep)
    ensures account != "" && !Avoids(account[1..] + sep, sep, |account| - 1)
  {
    var i :| 0 <= i < |account| && sep <= (account + sep)[i..];
    var s := account + sep;
    assert s[0..] == s && i > 0;
    assert account == [account[0]] + account[1..];
    assert s == [account[0]] + (account[1..] + sep);
    assert s[1..] == account[1..] + sep;
    assert s[1..][i - 1..] == s[i..];
  }

  /** Cutting earlier leaves more. */
  lemma {:induction false} CutAfterEarlier(account: string, rest: string, sep: string)
    requires sep != "" && !Avoids(account + sep, sep, |account|)
    ensures CutAfter(account + sep + rest, sep).Some?
    ensures |CutAfter(account + sep + rest, sep).value| > |rest|
    decreases |account|
  {
    hide Avoids;
    var s := account + sep + rest;
    PrefixOfLonger(sep, account + sep, rest);
    if sep <= account + sep {
      NotEmptyAccount(account, sep);
    } else {
      LaterOccurrence(account, sep);
      CutAfterEarlier(account[1..], rest, sep);
      assert s[1..] == account[1..] + sep + rest;
    }
  }

  lemma NotEmptyAccount(account: string, sep: string)
    requires !Avoids(account + sep, sep, |account|)
    ensures account != ""
  {
  }

  lemma PrefixesDiffer(account: string, rest: string)
    ensures !(LOCAL <= BridgedSubject(account, rest))
    ensures BridgedSubject(account, rest)[|BRIDGE|..] == account + MARKER + rest
  {
    var s := BridgedSubject(account, rest);
    assert s[1] == 'S' && LOCAL[1] == 'J';
  }

  /** The bridged form carries the local suffix exactly when the account does not contain the marker itself. */
  lemma BridgedSuffix(account: string, rest: string)
    ensures JsAdvisorySuffix(LocalSubject(rest)) == rest
    ensures JsAdvisorySuffix(BridgedSubject(account, rest)) == rest <==>
      Avoids(account + MARKER, MARKER, |account|)
  {
    hide CutAfter, Avoids;
    PrefixesDiffer(account, rest);
    assert BRIDGE <= BridgedSubject(account, rest);
    if Avoids(account + MARKER, MARKER, |account|) {
      CutAfterFirst(account, rest, MARKER);
    } else {
      CutAfterEarlier(account, rest, MARKER);
    }
  }

  lemma DotFreeAvoids(account: string)
    requires '.' !in account
    ensures Avoids(account + MARKER, MARKER, |account|)
  {
    forall i | 0 <= i < |account| ensures !(MARKER <= (account + MARKER)[i..]) {
      assert (account + MARKER)[i..][0] == account[i];
    }
  }

  /** An advisory is announced in the same words whichever way it reaches the server. */
  lemma BothFormsClassifyEqual(account: string, rest: string, p: Payload)
    requires '.' !in account
    ensures Classify(BridgedSubject(account, rest), p) == Classify(LocalSubject(rest), p)
  {
    hide Parse, StreamEvent, ConsumerEvent;
    DotFreeAvoids(account);
    BridgedSuffix(account, rest);
  }

  // ------------------------------------------------------- names recovered

  function Suffix(a: About): string {
    match a
    case Stream(action, stream) => Join(["STREAM", action, stream], ".")
    case Consumer(action, stream, consumer) => Join(["CONSUMER", action, stream, consumer], ".")
  }

  predicate DotFree(a: About) {
    match a
    case Stream(action, stream) => '.' !in action && '.' !in stream
    case Consumer(action, stream, consumer) => '.' !in action && '.' !in stream && '.' !in consumer
  }

  lemma PartsDotFree(s: string, k: nat)
    requires k < |Split(s, ".")|
    ensures '.' !in Split(s, ".")[k]
  {
    hide Split, Avoids;
    SplitPieces(s, ".");
    SingleSeparator(Split(s, ".")[k], ".");
  }

  lemma SuffixParts(a: About)
    requires DotFree(a)
    ensures a.Stream? ==> Split(Suffix(a), ".") == ["STREAM", a.action, a.stream]
    ensures a.Consumer? ==> Split(Suffix(a), ".") == ["CONSUMER", a.action, a.stream, a.consumer]
  {
    hide Split, Avoids;
    var kind := if a.Stream? then "STREAM" else "CONSUMER";
    var parts := match a
      case Stream(action, stream) => [kind, action, stream]
      case Consumer(action, stream, consumer) => [kind, action, stream, consumer];
    forall i | 0 <= i < |parts|
      ensures Avoids(parts[i], ".", |parts[i]|) && Avoids(parts[i] + ".", ".", |parts[i]|)
    {
      assert '.' !in "STREAM" && '.' !in "CONSUMER";
      SingleSeparator(parts[i], ".");
    }
    SplitJoin(parts, ".");
  }

  /** Stream and consumer names come back from the subject exactly when no part contains a dot. */
  lemma NamesRecovered(a: About)
    ensures Parse(Suffix(a)) == Some(a) <==> DotFree(a)
  {
    hide Split, Join;
    if DotFree(a) {
      SuffixParts(a);
      SuffixNotEmpty(a);
    }
    if Parse(Suffix(a)) == Some(a) {
      PartsDotFree(Suffix(a), 1);
      PartsDotFree(Suffix(a), 2);
      if a.Consumer? {
        PartsDotFree(Suffix(a), 3);
      }
    }
  }

  lemma SuffixNotEmpty(a: About)
    ensures Suffix(a) != ""
  {
  }

  // ---------------------------------------------------------- announcements

  /** The advisories the classifier documents. */
  predicate Announced(a: About) {
    match a
    case Stream(action, _) => action in ["CREATED", "UPDATED", "DELETED", "LEADER_ELECTED", "QUORUM_LOST"]
    case Consumer(action, _, _) => action in ["CREATED", "DELETED", "LEADER_ELECTED", "QUORUM_LOST"]
  }

  function EventOf(a: About, p: Payload): Option<Event> {
    match a
    case Stream(action, stream) => StreamEvent(action, p, stream)
    case Consumer(action, stream, consumer) => ConsumerEvent(action, p, stream, consumer)
  }

  /** In either subject form, exactly the documented advisories are announced. */
  lemma AnnouncedExactly(a: About, account: string, p: Payload)
    requires DotFree(a) && '.' !in account
    ensures Classify(BridgedSubject(account, Suffix(a)), p) == Classify(LocalSubject(Suffix(a)), p) == EventOf(a, p)
    ensures EventOf(a, p).Some? <==> Announced(a)
  {
    hide Parse, Suffix, JsAdvisorySuffix, StreamBody, ConsumerBody;
    BothFormsClassifyEqual(account, Suffix(a), p);
    DotFreeAvoids(account);
    BridgedSuffix(account, Suffix(a));
    NamesRecovered(a);
  }

  /** What stands before and after the names in a title. */
  function TitleFrame(a: About): (string, string)
    requires Announced(a)
  {
    var kind := if a.Stream? then "Stream `" else "Consumer `";
    match a.action
    case "CREATED" => (kind, "` created")
    case "UPDATED" => (kind, "` updated")
    case "DELETED" => (kind, "` deleted")
    case "LEADER_ELECTED" => (kind, "` leader elected")
    case _ => ("\U{26A0} " + kind, "` lost quorum")
  }

  function Names(a: About): string {
    match a
    case Stream(_, stream) => stream
    case Consumer(_, stream, consumer) => stream + "/" + consumer
  }

  lemma StreamTitle(a: About, p: Payload)
    requires Announced(a) && a.Stream?
    ensures EventOf(a, p).Some?
    ensures EventOf(a, p).value.title == TitleFrame(a).0 + a.stream + TitleFrame(a).1
  {
    hide StreamBody;
    if a.action == "QUORUM_LOST" {
      assert "\U{26A0} " + "Stream `" == "\U{26A0} Stream `";
    }
  }

  lemma ConsumerTitle(a: About, p: Payload)
    requires Announced(a) && a.Consumer?
    ensures EventOf(a, p).Some?
    ensures EventOf(a, p).value.title == TitleFrame(a).0 + (a.stream + "/" + a.consumer) + TitleFrame(a).1
  {
    hide ConsumerBody;
    if a.action == "QUORUM_LOST" {
      assert "\U{26A0} " + "Consumer `" == "\U{26A0} Consumer `";
    }
  }

  lemma TitleShape(a: About, p: Payload)
    requires Announced(a)
    ensures EventOf(a, p).Some?
    ensures EventOf(a, p).value.title == TitleFrame(a).0 + Names(a) + TitleFrame(a).1
  {
    hide TitleFrame, EventOf, Announced;
    match a
    case Stream(_, _) => StreamTitle(a, p);
    case Consumer(_, _, _) => ConsumerTitle(a, p);
  }

  /** The seventh letter from the end of a title tells the actions apart, the first or third the kinds. */
  lemma FrameLetters(a: About)
    requires Announced(a)
    ensures var (before, after) := TitleFrame(a);
      && |before| > 2 && |after| > 7
      && after[|after| - 7] == (match a.action
           case "CREATED" => 'c' case "UPDATED" => 'u' case "DELETED" => 'd' case "LEADER_ELECTED" => 'e' case _ => ' ')
      && before[if a.action == "QUORUM_LOST" then 2 else 0] == if a.Stream? then 'S' else 'C'
  {
    if a.action == "QUORUM_LOST" {
      assert "\U{26A0} Stream `"[2] == 'S' && "\U{26A0} Consumer `"[2] == 'C';
      assert "\U{26A0} " + "Stream `" == "\U{26A0} Stream `";
      assert "\U{26A0} " + "Consumer `" == "\U{26A0} Consumer `";
    }
  }

  lemma Framed(before: string, x: string, after: string)
    requires |before| > 2 && |after| > 7
    ensures var t := before + x + after;
      && t[0] == before[0] && t[2] == before[2] && t[|t| - 7] == after[|after| - 7]
      && t[|before|..|t| - |after|] == x
  {
  }

  /** Titles tell advisories apart: two are equal exactly for the same kind of the same action on the same names. */
  lemma TitlesExact(a: About, b: About, p: Payload, q: Payload)
    requires Announced(a) && Announced(b)
    ensures EventOf(a, p).Some? && EventOf(b, q).Some?
    ensures EventOf(a, p).value.title == EventOf(b, q).value.title <==>
      a.Stream? == b.Stream? && a.action == b.action && Names(a) == Names(b)
  {
    hide EventOf, TitleFrame, Names;
    TitleShape(a, p);
    TitleShape(b, q);
    FrameLetters(a);
    FrameLetters(b);
    Framed(TitleFrame(a).0, Names(a), TitleFrame(a).1);
    Framed(TitleFrame(b).0, Names(b), TitleFrame(b).1);
    if a.Stream? == b.Stream? && a.action == b.action {
      SameFrame(a, b);
    }
  }

  lemma SameFrame(a: About, b: About)
    requires Announced(a) && Announced(b) && a.Stream? == b.Stream? && a.action == b.action
    ensures TitleFrame(a) == TitleFrame(b)
  {
  }

  // ------------------------------------------------------------ the messages

  function Tag(account: string): string {
    if account == "" then "" else " (account " + account + ")"
  }

  lemma {:induction false} ReplicaNamesAll(rs: seq<Replica>)
    requires forall i :: 0 <= i < |rs| ==> !rs[i].Other?
    ensures |ReplicaNames(rs)| == |rs|
    ensures forall i :: 0 <= i < |rs| ==>
      ReplicaNames(rs)[i] == match rs[i] case Plain(text) => text case Object(name) => name case Other => ""
  {
    if rs != [] {
      ReplicaNamesAll(rs[..|rs| - 1]);
    }
  }

  lemma {:induction false} ReplicaNamesSkip(a: seq<Replica>, b: seq<Replica>)
    ensures ReplicaNames(a + [Other] + b) == ReplicaNames(a) + ReplicaNames(b)
  {
    var all := a + [Other] + b;
    if b == [] {
      assert all[..|all| - 1] == a && all[|all| - 1] == Other;
    } else {
      assert all[..|all| - 1] == a + [Other] + b[..|b| - 1] && all[|all| - 1] == b[|b| - 1];
      ReplicaNamesSkip(a, b[..|b| - 1]);
    }
  }

  /** What a stream's advisories say, from their subjects to their words. */
  lemma StreamMessages(stream: string, p: Payload)
    requires '.' !in stream
    ensures var tag := Tag(p.account);
      && Classify("$JS.EVENT.ADVISORY." + "STREAM.CREATED." + stream, p) ==
           Some(Event("Stream `" + stream + "` created", "New stream `" + stream + "`" + tag + "."))
      && Classify("$JS.EVENT.ADVISORY." + "STREAM.UPDATED." + stream, p) ==
           Some(Event("Stream `" + stream + "` updated", "Stream config changed for `" + stream + "`" + tag + "."))
      && Classify("$JS.EVENT.ADVISORY." + "STREAM.DELETED." + stream, p) ==
           Some(Event("Stream `" + stream + "` deleted", "Stream `" + stream + "`" + tag + " was removed."))
      && Classify("$JS.EVENT.ADVISORY." + "STREAM.QUORUM_LOST." + stream, p) ==
           Some(Event("\U{26A0} Stream `" + stream + "` lost quorum", "Stream `" + stream + "`" + tag +
             " lost quorum and is unavailable for writes until a new leader is elected."))
      && Classify("$JS.EVENT.ADVISORY." + "STREAM.LEADER_ELECTED." + stream, p) ==
           Some(Event("Stream `" + stream + "` leader elected", "New leader: `" + p.leader + "`" + tag + Elected(p) + "."))
  {
    hide Classify, StreamEvent, Suffix, Tag, Elected;
    StreamPrefixes();
    StreamSubject("CREATED", "STREAM.CREATED.", stream, p);
    StreamSubject("UPDATED", "STREAM.UPDATED.", stream, p);
    StreamSubject("DELETED", "STREAM.DELETED.", stream, p);
    StreamSubject("QUORUM_LOST", "STREAM.QUORUM_LOST.", stream, p);
    StreamSubject("LEADER_ELECTED", "STREAM.LEADER_ELECTED.", stream, p);
    StreamWords(stream, p);
  }

  function Elected(p: Payload): string {
    if ReplicaNames(p.replicas) == [] then "" else " \U{B7} replicas: " + Join(ReplicaNames(p.replicas), ", ")
  }

  predicate StreamPrefix(prefix: string, action: string) {
    prefix == "STREAM." + action + "." && '.' !in action
  }

  lemma StreamPrefixes()
    ensures StreamPrefix("STREAM.CREATED.", "CREATED")
    ensures StreamPrefix("STREAM.UPDATED.", "UPDATED")
    ensures StreamPrefix("STREAM.DELETED.", "DELETED")
    ensures StreamPrefix("STREAM.QUORUM_LOST.", "QUORUM_LOST")
    ensures StreamPrefix("STREAM.LEADER_ELECTED.", "LEADER_ELECTED")
  {
  }

  lemma StreamSubject(action: string, prefix: string, stream: string, p: Payload)
    requires StreamPrefix(prefix, action) && '.' !in stream
    ensures Classify("$JS.EVENT.ADVISORY." + prefix + stream, p) == StreamEvent(action, p, stream)
  {
    hide Parse, StreamEvent, Split;
    var a := About.Stream(action, stream);
    var parts := ["STREAM", action, stream];
    assert parts[1..] == [action, stream] && parts[1..][1..] == [stream];
    assert Join(parts[1..][1..], ".") == stream && Join(parts[1..], ".") == action + "." + stream;
    assert Suffix(a) == "STREAM" + "." + (action + "." + stream);
    assert "STREAM" + "." == "STREAM.";
    assert Suffix(a) == prefix + stream;
    assert "$JS.EVENT.ADVISORY." + prefix + stream == LocalSubject(Suffix(a));
    BridgedSuffix("", Suffix(a));
    NamesRecovered(a);
  }

  lemma StreamWords(stream: string, p: Payload)
    ensures var tag := Tag(p.account);
      && StreamEvent("CREATED", p, stream) ==
           Some(Event("Stream `" + stream + "` created", "New stream `" + stream + "`" + tag + "."))
      && StreamEvent("UPDATED", p, stream) ==
           Some(Event("Stream `" + stream + "` updated", "Stream config changed for `" + stream + "`" + tag + "."))
      && StreamEvent("DELETED", p, stream) ==
           Some(Event("Stream `" + stream + "` deleted", "Stream `" + stream + "`" + tag + " was removed."))
      && StreamEvent("QUORUM_LOST", p, stream) ==
           Some(Event("\U{26A0} Stream `" + stream + "` lost quorum", "Stream `" + stream + "`" + tag +
             " lost quorum and is unavailable for writes until a new leader is elected."))
      && StreamEvent("LEADER_ELECTED", p, stream) ==
           Some(Event("Stream `" + stream + "` leader elected", "New leader: `" + p.leader + "`" + tag + Elected(p) + "."))
  {
  }

  /** The same for a consumer's. */
  lemma ConsumerMessages(stream: string, consumer: string, p: Payload)
    requires '.' !in stream && '.' !in consumer
    ensures var tag, names := Tag(p.account), stream + "/" + consumer;
      && Classify("$JS.EVENT.ADVISORY." + "CONSUMER.CREATED." + stream + "." + consumer, p) ==
           Some(Event("Consumer `" + names + "` created", "New consumer `" + consumer + "` on stream `" + stream + "`" + tag + "."))
      && Classify("$JS.EVENT.ADVISORY." + "CONSUMER.DELETED." + stream + "." + consumer, p) ==
           Some(Event("Consumer `" + names + "` deleted", "Consumer `" + consumer + "` on stream `" + stream + "`" + tag + " was removed."))
      && Classify("$JS.EVENT.ADVISORY." + "CONSUMER.QUORUM_LOST." + stream + "." + consumer, p) ==
           Some(Event("\U{26A0} Consumer `" + names + "` lost quorum", "Consumer `" + consumer + "` on stream `" + stream + "`" + tag + " lost quorum."))
      && Classify("$JS.EVENT.ADVISORY." + "CONSUMER.LEADER_ELECTED." + stream + "." + consumer, p) ==
           Some(Event("Consumer `" + names + "` leader elected", "New leader: `" + p.leader + "`" + tag + Elected(p) + "."))
  {
    hide Classify, ConsumerEvent, Suffix, Tag, Elected;
    ConsumerPrefixes();
    ConsumerSubject("CREATED", "CONSUMER.CREATED.", stream, consumer, p);
    ConsumerSubject("DELETED", "CONSUMER.DELETED.", stream, consumer, p);
    ConsumerSubject("QUORUM_LOST", "CONSUMER.QUORUM_LOST.", stream, consumer, p);
    ConsumerSubject("LEADER_ELECTED", "CONSUMER.LEADER_ELECTED.", stream, consumer, p);
    ConsumerWords(stream, consumer, p);
  }

  predicate ConsumerPrefix(prefix: string, action: string) {
    prefix == "CONSUMER." + action + "." && '.' !in action
  }

  lemma ConsumerPrefixes()
    ensures ConsumerPrefix("CONSUMER.CREATED.", "CREATED")
    ensures ConsumerPrefix("CONSUMER.DELETED.", "DELETED")
    ensures ConsumerPrefix("CONSUMER.QUORUM_LOST.", "QUORUM_LOST")
    ensures ConsumerPrefix("CONSUMER.LEADER_ELECTED.", "LEADER_ELECTED")
  {
  }

  lemma ConsumerSubject(action: string, prefix: string, stream: string, consumer: string, p: Payload)
    requires ConsumerPrefix(prefix, action) && '.' !in stream && '.' !in consumer
    ensures Classify("$JS.EVENT.ADVISORY." + prefix + stream + "." + consumer, p) == ConsumerEvent(action, p, stream, consumer)
  {
    hide Parse, ConsumerEvent, Split;
    var a := About.Consumer(action, stream, consumer);
    var parts := ["CONSUMER", action, stream, consumer];
    assert parts[1..] == [action, stream, consumer] && parts[1..][1..] == [stream, consumer];
    assert parts[1..][1..][1..] == [consumer];
    assert Join(parts[1..][1..][1..], ".") == consumer && Join(parts[1..][1..], ".") == stream + "." + consumer;
    assert Join(parts[1..], ".") == action + "." + (stream + "." + consumer);
    assert Suffix(a) == "CONSUMER" + "." + (action + "." + (stream + "." + consumer));
    assert "CONSUMER" + "." == "CONSUMER.";
    assert Suffix(a) == prefix + stream + "." + consumer;
    assert "$JS.EVENT.ADVISORY." + prefix + stream + "." + consumer == LocalSubject(Suffix(a));
    BridgedSuffix("", Suffix(a));
    NamesRecovered(a);
  }

  lemma ConsumerWords(stream: string, consumer: string, p: Payload)
    ensures var tag, names := Tag(p.account), stream + "/" + consumer;
      && ConsumerEvent("CREATED", p, stream, consumer) ==
           Some(Event("Consumer `" + names + "` created", "New consumer `" + consumer + "` on stream `" + stream + "`" + tag + "."))
      && ConsumerEvent("DELETED", p, stream, consumer) ==
           Some(Event("Consumer `" + names + "` deleted", "Consumer `" + consumer + "` on stream `" + stream + "`" + tag + " was removed."))
      && ConsumerEvent("QUORUM_LOST", p, stream, consumer) ==
           Some(Event("\U{26A0} Consumer `" + names + "` lost quorum", "Consumer `" + consumer + "` on stream `" + stream + "`" + tag + " lost quorum."))
      && ConsumerEvent("LEADER_ELECTED", p, stream, consumer) ==
           Some(Event("Consumer `" + names + "` leader elected", "New leader: `" + p.leader + "`" + tag + Elected(p) + "."))
  {
  }
}

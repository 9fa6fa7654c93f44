/** The server against JSON-RPC 2.0: which frames are requests, which are owed a response, and what goes wrong. */
module McpStandard {
  import opened Prelude
  import opened McpFrames
  import opened McpProtocol
  import McpTheorems

  /** The members the standard gives a meaning. */
  datatype Envelope = Envelope(jsonrpc: Option<Value>, id: Option<Value>, verb: Option<Value>, params: Option<Value>)

  /** Section 3: member names are case-sensitive. */
  function Named(members: seq<Member>, name: string): Option<Value> {
    if members == [] then None
    else
      var last := members[|members| - 1];
      if last.name == name then Some(last.value) else Named(members[..|members| - 1], name)
  }

  function NamedEnvelope(members: seq<Member>): Envelope {
    Envelope(Named(members, JSONRPC), Named(members, ID), Named(members, METHOD), Named(members, PARAMS))
  }

  /** Section 4: an id is a string, a number or null, if there is one. */
  predicate LegalId(id: Option<Value>) {
    id.Some? ==> id.value.kind.Str? || id.value.kind.Number? || id.value.kind.Null?
  }

  /** Section 4.2: parameters are an array or an object, if there are any. */
  predicate LegalParams(params: Option<Value>) {
    params.Some? ==> params.value.kind.Array? || params.value.kind.Object?
  }

  predicate Versioned(o: Envelope) {
    TextOf(o.jsonrpc) == "2.0"
  }

  predicate HasVerb(o: Envelope) {
    o.verb.Some? && o.verb.value.kind.Str?
  }

  predicate Legal(o: Envelope) {
    Versioned(o) && HasVerb(o) && LegalId(o.id) && LegalParams(o.params)
  }

  predicate IsRequest(d: Doc) {
    d.Members? && Legal(NamedEnvelope(d.members))
  }

  /** Sections 4.1 and 5: everything but a request without an id is owed a response. */
  predicate Owed(d: Doc) {
    !(IsRequest(d) && NamedEnvelope(d.members).id.None?)
  }

  predicate Known(verb: string) {
    verb in ["notifications/initialized", "initialized", "initialize", "ping", "tools/list", "tools/call"]
  }

  /** Section 5.1: the code a frame earns by itself, before the content of its parameters is looked at. */
  function StandardCode(d: Doc): Option<int> {
    if d.NotJson? then Some(-32700)
    else if !IsRequest(d) then Some(-32600)
    else if !Known(TextOf(NamedEnvelope(d.members).verb)) then Some(-32601)
    else None
  }

  // ------------------------------------------- what the server takes a frame for

  function FieldEnvelope(members: seq<Member>): Envelope {
    Envelope(Field(members, JSONRPC), Field(members, ID), Field(members, METHOD), Field(members, PARAMS))
  }

  function Given(name: string, v: Option<Value>): seq<Member> {
    if v.Some? then [Member(name, v.value)] else []
  }

  function Written(o: Envelope): seq<Member> {
    Given(JSONRPC, o.jsonrpc) + Given(ID, o.id) + Given(METHOD, o.verb) + Given(PARAMS, o.params)
  }

  /** The frame as the server understands it: the names as they should be written and each of them once. */
  function Taken(d: Doc): Doc {
    match d
    case Members(members) => if AllFit(members) then Members(Written(FieldEnvelope(members))) else NoObject
    case _ => d
  }

  /** No member has a known name in other letter case, and no known name comes twice. */
  ghost predicate Ordinary(d: Doc) {
    d.Members? ==> forall field :: field in {JSONRPC, ID, METHOD, PARAMS} ==> SpelledOnce(d.members, field)
  }

  ghost predicate SpelledOnce(members: seq<Member>, field: string) {
    && (forall i :: 0 <= i < |members| && Matches(members[i], field) ==> members[i].name == field)
    && (forall i, j :: 0 <= i < j < |members| ==> members[i].name != field || members[j].name != field)
  }

  lemma {:induction false} NamedConcat(a: seq<Member>, b: seq<Member>, name: string)
    ensures Named(a + b, name) == if Named(b, name).Some? then Named(b, name) else Named(a, name)
  {
    if b == [] {
      assert a + b == a;
    } else {
      assert (a + b)[..|a + b| - 1] == a + b[..|b| - 1];
      NamedConcat(a, b[..|b| - 1], name);
    }
  }

  lemma NamedGiven(name: string, v: Option<Value>, other: string)
    ensures Named(Given(name, v), other) == if name == other then v else None
  {
    assert Named([], other) == None;
  }

  lemma NamedWritten(o: Envelope)
    ensures NamedEnvelope(Written(o)) == o
  {
    hide Named, Given;
    forall name ensures Named(Written(o), name) ==
      if name == PARAMS then o.params else if name == METHOD then o.verb
      else if name == ID then o.id else if name == JSONRPC then o.jsonrpc else None
    {
      var a, b, c, d := Given(JSONRPC, o.jsonrpc), Given(ID, o.id), Given(METHOD, o.verb), Given(PARAMS, o.params);
      NamedGiven(JSONRPC, o.jsonrpc, name);
      NamedGiven(ID, o.id, name);
      NamedGiven(METHOD, o.verb, name);
      NamedGiven(PARAMS, o.params, name);
      NamedConcat(a, b, name);
      NamedConcat(a + b, c, name);
      NamedConcat(a + b + c, d, name);
    }
  }

  lemma {:induction false} FieldAbsent(members: seq<Member>, field: string)
    requires forall i :: 0 <= i < |members| ==> !Matches(members[i], field)
    ensures Field(members, field) == None
  {
    if members != [] {
      FieldAbsent(members[..|members| - 1], field);
    }
  }

  /** A member written as it should be, and once, is the field's value. */
  lemma {:induction false} FieldNamed(members: seq<Member>, field: string)
    requires SpelledOnce(members, field)
    ensures var v := Named(members, field);
      Field(members, field) == if v.Some? && v.value.kind.Null? && Textual(field) then None else v
  {
    hide Fold;
    if members != [] {
      var init, last := members[..|members| - 1], members[|members| - 1];
      FieldNamed(init, field);
      if last.name == field {
        FieldAbsent(init, field);
      }
    }
  }

  /** The standard sees in an ordinary frame what the server does. */
  lemma TakenOrdinary(d: Doc)
    requires Ordinary(d)
    ensures Owed(Taken(d)) == Owed(d) && StandardCode(Taken(d)) == StandardCode(d)
  {
    hide Field, Named, Matches, Fold, SpelledOnce, Written;
    if d.Members? && AllFit(d.members) {
      NamedWritten(FieldEnvelope(d.members));
      FieldNamed(d.members, JSONRPC);
      FieldNamed(d.members, ID);
      FieldNamed(d.members, METHOD);
      FieldNamed(d.members, PARAMS);
    } else if d.Members? {
      Misfit(d.members);
    }
  }

  /** An ordinary object that the server cannot read is no request. */
  lemma Misfit(members: seq<Member>)
    requires Ordinary(Members(members)) && !AllFit(members)
    ensures !Legal(NamedEnvelope(members))
  {
    var i :| 0 <= i < |members| && !Fits(members[i]);
    var field := if Matches(members[i], JSONRPC) then JSONRPC else METHOD;
    assert SpelledOnce(members, field);
    NamedAt(members, i, field);
  }

  lemma {:induction false} NamedAt(members: seq<Member>, i: nat, field: string)
    requires SpelledOnce(members, field) && i < |members| && members[i].name == field
    ensures Named(members, field) == Some(members[i].value)
  {
    if i < |members| - 1 {
      NamedAt(members[..|members| - 1], i, field);
    }
  }

  // ------------------------------------------------------------- the deviations

  /**
   * Frames the server passes over in silence although it takes them for something it owes a response: with the
   * version, a handshake notification that carries an id, and an object without an id that is no request for
   * want of a method or for parameters of another kind; without the version, whatever carries no id, null included.
   */
  predicate Silent(d: Doc) {
    match d
    case NullDoc => true
    case Members(members) =>
      AllFit(members) &&
      var o := FieldEnvelope(members);
      if !Versioned(o) then o.id.None?
      else if o.id.Some? then TextOf(o.verb) == "initialized" || TextOf(o.verb) == "notifications/initialized"
      else !(HasVerb(o) && LegalParams(o.params))
    case _ => false
  }

  lemma FrameOf(members: seq<Member>)
    requires AllFit(members)
    ensures var o := FieldEnvelope(members);
      && Unmarshal(Members(members)) == Frame(TextOf(o.jsonrpc), RawOf(o.id), TextOf(o.verb), RawOf(o.params))
      && NamedEnvelope(Written(o)) == o
  {
    StoredFields(members);
    NamedWritten(FieldEnvelope(members));
  }

  /**
   * Of what it takes to be owed a response the server answers all but the silent frames, and nothing else.  So
   * it answers as the standard asks exactly when neither or both of two things happen: the frame is silent, and
   * the standard reads names otherwise and owes it something else.  The second never happens to ordinary frames.
   */
  lemma AnsweredExactly(s: Setup, d: Doc)
    ensures s.Answered(Unmarshal(d)) ==> Owed(Taken(d))
    ensures Owed(Taken(d)) && !s.Answered(Unmarshal(d)) <==> Silent(d)
    ensures (s.Answered(Unmarshal(d)) <==> Owed(d)) <==> (Silent(d) <==> Owed(d) != Owed(Taken(d)))
    ensures Ordinary(d) ==> Owed(Taken(d)) == Owed(d)
  {
    hide AllFit, Written, FieldEnvelope, NamedEnvelope, Ordinary, Stored;
    if d.Members? && AllFit(d.members) {
      FrameOf(d.members);
    }
    if Ordinary(d) {
      TakenOrdinary(d);
    }
  }

  /**
   * The frames whose code is the standard's: text that is not JSON, null, and objects that are not of the version
   * or have a method, and an id and parameters of the kinds they may have.
   */
  predicate Comprehended(d: Doc) {
    match d
    case NotJson => true
    case NullDoc => true
    case NoObject => false
    case Members(members) =>
      AllFit(members) &&
      var o := FieldEnvelope(members);
      Versioned(o) ==> HasVerb(o) && LegalId(o.id) && LegalParams(o.params)
  }

  /**
   * The server gives the code of section 5.1 exactly to these; to JSON of another shape it gives that of text that
   * is not JSON, and it takes objects that are no requests for requests, or for calls of an unknown method.
   */
  lemma CodeExact(s: Setup, d: Doc)
    ensures (StandardCode(Taken(d)).Some? ==> s.ErrorOf(Unmarshal(d)) == StandardCode(Taken(d))) <==> Comprehended(d)
    ensures Ordinary(d) ==> StandardCode(Taken(d)) == StandardCode(d)
  {
    hide AllFit, Written, FieldEnvelope, NamedEnvelope, Ordinary, Stored;
    if d.Members? && AllFit(d.members) {
      FrameOf(d.members);
    }
    if Ordinary(d) {
      TakenOrdinary(d);
    }
  }

  // ------------------------------------------------------------- such frames

  const TWO := Some(Value(Str("2.0"), "\"2.0\""))
  const PING := Some(Value(Str("ping"), "\"ping\""))
  const INITIALIZED := Some(Value(Str("initialized"), "\"initialized\""))
  const ONE := Some(Value(Number, "1"))
  const NOTHING := Some(Value(Kind.Object, "{}"))

  lemma {:induction false} FieldConcat(a: seq<Member>, b: seq<Member>, field: string)
    ensures Field(a + b, field) == if Field(b, field).Some? then Field(b, field) else Field(a, field)
  {
    hide Matches;
    if b == [] {
      assert a + b == a;
    } else {
      assert (a + b)[..|a + b| - 1] == a + b[..|b| - 1];
      FieldConcat(a, b[..|b| - 1], field);
    }
  }

  lemma FieldGiven(name: string, v: Option<Value>, field: string)
    requires name == field && (Textual(field) && v.Some? ==> !v.value.kind.Null?)
    ensures Field(Given(name, v), field) == v
  {
    assert Field([], field) == None;
  }

  lemma FieldOther(name: string, v: Option<Value>, field: string)
    requires Fold(name) != Fold(field)
    ensures Field(Given(name, v), field) == None
  {
    hide Fold;
    assert Field([], field) == None;
  }

  predicate Texts(o: Envelope) {
    (o.jsonrpc.Some? ==> o.jsonrpc.value.kind.Str?) && (o.verb.Some? ==> o.verb.value.kind.Str?)
  }

  lemma WrittenField(o: Envelope, field: string)
    requires Texts(o) && field in [JSONRPC, ID, METHOD, PARAMS]
    ensures Field(Written(o), field) ==
      if field == PARAMS then o.params else if field == METHOD then o.verb
      else if field == ID then o.id else o.jsonrpc
  {
    hide Fold, Field;
    NamesApart();
    var a, b, c, d := Given(JSONRPC, o.jsonrpc), Given(ID, o.id), Given(METHOD, o.verb), Given(PARAMS, o.params);
    if field == JSONRPC {
      FieldGiven(JSONRPC, o.jsonrpc, field);
    } else {
      FieldOther(JSONRPC, o.jsonrpc, field);
    }
    if field == ID {
      FieldGiven(ID, o.id, field);
    } else {
      FieldOther(ID, o.id, field);
    }
    if field == METHOD {
      FieldGiven(METHOD, o.verb, field);
    } else {
      FieldOther(METHOD, o.verb, field);
    }
    if field == PARAMS {
      FieldGiven(PARAMS, o.params, field);
    } else {
      FieldOther(PARAMS, o.params, field);
    }
    FieldConcat(a, b, field);
    FieldConcat(a + b, c, field);
    FieldConcat(a + b + c, d, field);
  }

  /** An envelope written down is read as it was meant. */
  lemma WrittenRead(o: Envelope)
    requires Texts(o)
    ensures NamedEnvelope(Written(o)) == o
    ensures Unmarshal(Members(Written(o))) == Frame(TextOf(o.jsonrpc), RawOf(o.id), TextOf(o.verb), RawOf(o.params))
  {
    hide Stored, Named, Field;
    NamedWritten(o);
    WrittenField(o, JSONRPC);
    WrittenField(o, ID);
    WrittenField(o, METHOD);
    WrittenField(o, PARAMS);
    assert AllFit(Written(o)) by {
      hide Fold;
      NamesApart();
    }
    StoredFields(Written(o));
  }

  /** An array, a string, or an object with a member of the wrong type. */
  lemma WrongShapeCode(s: Setup, n: nat)
    ensures s.Answers([Unmarshal(NoObject)], n) == [Response(VERSION, "null", None, Some(PARSE_ERROR))]
    ensures StandardCode(NoObject) == Some(INVALID_REQUEST)
  {
    McpTheorems.Alone(s, Unread, n);
  }

  /** `{"jsonrpc": "2.0", "id": 1}` */
  lemma MethodlessCode(s: Setup, n: nat)
    ensures var d := Members(Written(Envelope(TWO, ONE, None, None)));
      && s.Answers([Unmarshal(d)], n) == [Response(VERSION, "1", None, Some(METHOD_NOT_FOUND))]
      && StandardCode(d) == Some(INVALID_REQUEST)
  {
    hide Written, NamedEnvelope, Unmarshal;
    WrittenRead(Envelope(TWO, ONE, None, None));
    McpTheorems.Alone(s, Frame(VERSION, "1", "", ""), n);
  }

  /** `{"jsonrpc": "2.0"}` */
  lemma MethodlessUnanswered(s: Setup, n: nat)
    ensures var d := Members(Written(Envelope(TWO, None, None, None)));
      && s.Answers([Unmarshal(d)], n) == []
      && Owed(d) && StandardCode(d) == Some(INVALID_REQUEST)
  {
    hide Written, NamedEnvelope, Unmarshal;
    WrittenRead(Envelope(TWO, None, None, None));
    McpTheorems.Alone(s, Frame(VERSION, "", "", ""), n);
  }

  /** `{"jsonrpc": "2.0", "id": {}, "method": "ping"}` */
  lemma ObjectIdAccepted(s: Setup, n: nat)
    ensures var d := Members(Written(Envelope(TWO, NOTHING, PING, None)));
      && s.Answers([Unmarshal(d)], n) == [Response(VERSION, "{}", Some(Empty), None)]
      && StandardCode(d) == Some(INVALID_REQUEST)
  {
    hide Written, NamedEnvelope, Unmarshal;
    WrittenRead(Envelope(TWO, NOTHING, PING, None));
    McpTheorems.Alone(s, Frame(VERSION, "{}", "ping", ""), n);
  }

  /** `{"jsonrpc": "2.0", "id": 1, "method": "ping", "params": 1}` */
  lemma NumberParamsAccepted(s: Setup, n: nat)
    ensures var d := Members(Written(Envelope(TWO, ONE, PING, ONE)));
      && s.Answers([Unmarshal(d)], n) == [Response(VERSION, "1", Some(Empty), None)]
      && StandardCode(d) == Some(INVALID_REQUEST)
  {
    hide Written, NamedEnvelope, Unmarshal;
    WrittenRead(Envelope(TWO, ONE, PING, ONE));
    McpTheorems.Alone(s, Frame(VERSION, "1", "ping", "1"), n);
  }

  /** `{"jsonrpc": "2.0", "id": 1, "method": "initialized"}` */
  lemma HandshakeWithIdUnanswered(s: Setup, n: nat)
    ensures var d := Members(Written(Envelope(TWO, ONE, INITIALIZED, None)));
      && s.Answers([Unmarshal(d)], n) == []
      && Owed(d) && IsRequest(d)
  {
    hide Written, NamedEnvelope, Unmarshal;
    WrittenRead(Envelope(TWO, ONE, INITIALIZED, None));
    McpTheorems.Alone(s, Frame(VERSION, "1", "initialized", ""), n);
  }

  /** The empty object, and null. */
  lemma VersionlessUnanswered(s: Setup, n: nat)
    ensures forall d :: d in {Members([]), NullDoc} ==>
      s.Answers([Unmarshal(d)], n) == [] && Owed(d)
  {
    McpTheorems.Alone(s, EMPTY_FRAME, n);
    assert Stored([]) == EMPTY_FRAME && Unmarshal(Members([])) == EMPTY_FRAME;
    assert Named([], JSONRPC) == None;
  }

  /** `{"jsonrpc": "2.0", "method": "ping", "ID": 1}`, a notification to the standard, is answered. */
  lemma MisspelledAnswered(s: Setup, n: nat)
    ensures var d := Members(Written(Envelope(TWO, None, PING, None)) + [Member("ID", ONE.value)]);
      && s.Answers([Unmarshal(d)], n) == [Response(VERSION, "1", Some(Empty), None)]
      && IsRequest(d) && !Owed(d)
  {
    var o, m := Envelope(TWO, None, PING, None), Member("ID", ONE.value);
    var members := Written(o) + [m];
    assert members[..|members| - 1] == Written(o);
    NamesApart();
    assert Fold("ID") == Fold(ID);
    hide Fold, Written;
    WrittenRead(o);
    assert NamedEnvelope(members) == o;
    assert AllFit(Written(o)) && AllFit(members);
    McpTheorems.Alone(s, Frame(VERSION, "1", "ping", ""), n);
  }
}

/** The switches of the overlay implement the key table, and nothing but the key table. */
module EnvPathProofs {
  import opened Prelude
  import opened EnvText
  import opened Settings
  import opened EnvPaths

  lemma ServerWords(w: string, k: ServerKey)
    ensures ServerKeyOf(w) == Some(k) <==> w == ServerWord(k)
  {
  }

  lemma NatsWords(w: string, k: NatsKey)
    ensures NatsKeyOf(w) == Some(k) <==> w == NatsWord(k)
  {
  }

  lemma NotifyWords(w: string, k: NotifyKey)
    ensures NotifyKeyOf(w) == Some(k) <==> w == NotifyWord(k)
  {
  }

  lemma McpKeyWords(w: string, k: McpKeyKey)
    ensures McpKeyKeyOf(w) == Some(k) <==> w == McpKeyWord(k)
  {
  }

  lemma OidcWords(w: string, k: OidcKey)
    ensures OidcKeyOf(w) == Some(k) <==> w == OidcWord(k)
  {
  }

  lemma RuleWords(w: string, k: RuleKey)
    ensures RuleKeyOf(w) == Some(k) <==> w == RuleWord(k)
    ensures RuleWord(k) != "groups_claim" && RuleWord(k) != "admin"
  {
  }

  lemma SessionWords(w: string, k: SessionKey)
    ensures SessionKeyOf(w) == Some(k) <==> w == SessionWord(k)
  {
  }

  lemma McpOauthWords(w: string, k: McpOauthKey)
    ensures McpOauthKeyOf(w) == Some(k) <==> w == McpOauthWord(k)
  {
  }

  lemma Matches2(a: Segment, b: Segment, open: bool, parts: seq<string>)
    ensures Matches(Path([a, b], open), parts) <==>
      && (if open then |parts| >= 2 else |parts| == 2)
      && SegmentMatches(a, parts[0]) && SegmentMatches(b, parts[1])
  {
    hide SegmentMatches;
    var s := [a, b];
    assert s[0] == a && s[1] == b;
  }

  lemma Matches3(a: Segment, b: Segment, c: Segment, open: bool, parts: seq<string>)
    ensures Matches(Path([a, b, c], open), parts) <==>
      && (if open then |parts| >= 3 else |parts| == 3)
      && SegmentMatches(a, parts[0]) && SegmentMatches(b, parts[1]) && SegmentMatches(c, parts[2])
  {
    hide SegmentMatches;
    var s := [a, b, c];
    assert s[0] == a && s[1] == b && s[2] == c;
  }

  lemma Matches4(a: Segment, b: Segment, c: Segment, d: Segment, open: bool, parts: seq<string>)
    ensures Matches(Path([a, b, c, d], open), parts) <==>
      && (if open then |parts| >= 4 else |parts| == 4)
      && SegmentMatches(a, parts[0]) && SegmentMatches(b, parts[1])
      && SegmentMatches(c, parts[2]) && SegmentMatches(d, parts[3])
  {
    hide SegmentMatches;
    var s := [a, b, c, d];
    assert s[0] == a && s[1] == b && s[2] == c && s[3] == d;
  }

  /** An entry sets a leaf exactly when its key matches the leaf's path and its value parses. */
  lemma ResolveExact(parts: seq<string>, val: string, t: Target, v: Value)
    ensures Resolve(parts, val) == Sets(t, v) <==>
      Matches(PathOf(t), parts) && ParseAs(t.Kind(), val) == Some(v)
  {
    hide Lower, Atoi, ParseAs, Matches, ResolveAuth, NatsKeyOf, NotifyKeyOf, ServerKeyOf;
    match t
    case ServerField(k) =>
      Matches2(Word("server"), Word(ServerWord(k)), false, parts);
      if |parts| == 2 { ServerWords(Lower(parts[1]), k); }
      AuthSetsAuth(parts, val);
    case NatsField(i, k) =>
      Matches3(Word("nats"), Position(i), Word(NatsWord(k)), true, parts);
      if |parts| >= 3 { NatsWords(Lower(parts[2]), k); }
      AuthSetsAuth(parts, val);
    case NotifyField(i, k) =>
      Matches3(Word("notify"), Position(i), Word(NotifyWord(k)), true, parts);
      if |parts| >= 3 { NotifyWords(Lower(parts[2]), k); }
      AuthSetsAuth(parts, val);
    case McpKeyField(i, k) =>
      ResolveMcpKey(parts, val, i, k, v);
    case AuthField(k) =>
      ResolveAuthField(parts, val, k, v);
  }

  lemma AuthSetsAuth(parts: seq<string>, val: string)
    ensures parts != [] && ResolveAuth(parts[1..], val).Sets? ==>
      var t := ResolveAuth(parts[1..], val).target;
      t.AuthField? || t.McpKeyField?
  {
    hide Lower, Atoi, ParseAs, OidcKeyOf, RuleKeyOf, SessionKeyOf, McpOauthKeyOf, McpKeyKeyOf;
  }

  lemma ResolveMcpKey(parts: seq<string>, val: string, i: nat, k: McpKeyKey, v: Value)
    ensures Resolve(parts, val) == Sets(McpKeyField(i, k), v) <==>
      Matches(PathOf(McpKeyField(i, k)), parts) && ParseAs(TextKind, val) == Some(v)
  {
    hide Lower, Atoi, ParseAs, Matches, OidcKeyOf, RuleKeyOf, SessionKeyOf, McpOauthKeyOf, McpKeyKeyOf;
    hide NatsKeyOf, NotifyKeyOf, ServerKeyOf;
    Matches4(Word("auth"), Word("mcp_keys"), Position(i), Word(McpKeyWord(k)), true, parts);
    if |parts| >= 4 {
      McpKeyWords(Lower(parts[3]), k);
    }
  }

  lemma ResolveAuthField(parts: seq<string>, val: string, k: AuthKey, v: Value)
    ensures Resolve(parts, val) == Sets(AuthField(k), v) <==>
      Matches(PathOf(AuthField(k)), parts) && ParseAs(k.Kind(), val) == Some(v)
  {
    hide Lower, Atoi, ParseAs, Matches, OidcKeyOf, RuleKeyOf, SessionKeyOf, McpOauthKeyOf, McpKeyKeyOf;
    hide NatsKeyOf, NotifyKeyOf, ServerKeyOf;
    match k
    case Enabled => Matches2(Word("auth"), Word("enabled"), true, parts);
    case Mode => Matches2(Word("auth"), Word("mode"), true, parts);
    case JwtAudiences => Matches3(Word("auth"), Word("jwt"), Word("audiences"), false, parts);
    case McpJwtEnabled => Matches3(Word("auth"), Word("mcp_jwt"), Word("enabled"), false, parts);
    case InOidc(o) => ResolveOidcField(parts, val, o, v);
    case InSession(s) => ResolveSessionField(parts, val, s, v);
    case InMcpOauth(m) => ResolveMcpOauthField(parts, val, m, v);
    case InAccess(a) => ResolveAccessField(parts, val, a, v);
  }

  lemma ResolveOidcField(parts: seq<string>, val: string, o: OidcKey, v: Value)
    ensures Resolve(parts, val) == Sets(AuthField(InOidc(o)), v) <==>
      Matches(PathOf(AuthField(InOidc(o))), parts) && ParseAs(o.Kind(), val) == Some(v)
  {
    hide Lower, Atoi, ParseAs, Matches, OidcKeyOf, RuleKeyOf, SessionKeyOf, McpOauthKeyOf, McpKeyKeyOf;
    hide NatsKeyOf, NotifyKeyOf, ServerKeyOf;
    Matches3(Word("auth"), Word("oidc"), Word(OidcWord(o)), false, parts);
    if |parts| == 3 {
      OidcWords(Lower(parts[2]), o);
    }
  }

  lemma ResolveSessionField(parts: seq<string>, val: string, s: SessionKey, v: Value)
    ensures Resolve(parts, val) == Sets(AuthField(InSession(s)), v) <==>
      Matches(PathOf(AuthField(InSession(s))), parts) && ParseAs(s.Kind(), val) == Some(v)
  {
    hide Lower, Atoi, ParseAs, Matches, OidcKeyOf, RuleKeyOf, SessionKeyOf, McpOauthKeyOf, McpKeyKeyOf;
    hide NatsKeyOf, NotifyKeyOf, ServerKeyOf;
    Matches3(Word("auth"), Word("session"), Word(SessionWord(s)), false, parts);
    if |parts| == 3 {
      SessionWords(Lower(parts[2]), s);
    }
  }

  lemma ResolveMcpOauthField(parts: seq<string>, val: string, m: McpOauthKey, v: Value)
    ensures Resolve(parts, val) == Sets(AuthField(InMcpOauth(m)), v) <==>
      Matches(PathOf(AuthField(InMcpOauth(m))), parts) && ParseAs(m.Kind(), val) == Some(v)
  {
    hide Lower, Atoi, ParseAs, Matches, OidcKeyOf, RuleKeyOf, SessionKeyOf, McpOauthKeyOf, McpKeyKeyOf;
    hide NatsKeyOf, NotifyKeyOf, ServerKeyOf;
    Matches3(Word("auth"), Word("mcp_oauth"), Word(McpOauthWord(m)), false, parts);
    if |parts| == 3 {
      McpOauthWords(Lower(parts[2]), m);
    }
  }

  lemma AccessSection(parts: seq<string>, val: string)
    requires |parts| >= 2 && Lower(parts[0]) == "auth" && Lower(parts[1]) == "access"
    ensures Resolve(parts, val) == ResolveAccess(parts[2..], val)
  {
    hide Lower, Atoi, ParseAs, OidcKeyOf, SessionKeyOf, McpOauthKeyOf, McpKeyKeyOf, ResolveAccess;
    hide NatsKeyOf, NotifyKeyOf, ServerKeyOf;
    assert parts[1..][1..] == parts[2..];
  }

  lemma AccessOnlyThere(parts: seq<string>, val: string)
    requires Resolve(parts, val).Sets? && Resolve(parts, val).target.AuthField?
    requires Resolve(parts, val).target.auth.InAccess?
    ensures |parts| >= 2 && Lower(parts[0]) == "auth" && Lower(parts[1]) == "access"
  {
    hide Lower, Atoi, ParseAs, OidcKeyOf, SessionKeyOf, McpOauthKeyOf, McpKeyKeyOf, ResolveAccess;
    hide NatsKeyOf, NotifyKeyOf, ServerKeyOf;
  }

  lemma ResolveAccessField(parts: seq<string>, val: string, a: AccessKey, v: Value)
    ensures Resolve(parts, val) == Sets(AuthField(InAccess(a)), v) <==>
      Matches(PathOf(AuthField(InAccess(a))), parts) && ParseAs(a.Kind(), val) == Some(v)
  {
    hide Lower, ParseAs, Matches, RuleKeyOf, Resolve, ResolveAuth;
    if Resolve(parts, val) == Sets(AuthField(InAccess(a)), v) {
      AccessOnlyThere(parts, val);
    }
    if |parts| >= 2 && Lower(parts[0]) == "auth" && Lower(parts[1]) == "access" {
      AccessSection(parts, val);
    }
    match a
    case GroupsClaim => Matches3(Word("auth"), Word("access"), Word("groups_claim"), true, parts);
    case SignIn(r) =>
      Matches3(Word("auth"), Word("access"), Word(RuleWord(r)), true, parts);
      if |parts| >= 3 { RuleWords(Lower(parts[2]), r); }
    case Admin(r) =>
      Matches4(Word("auth"), Word("access"), Word("admin"), Word(RuleWord(r)), false, parts);
      if |parts| == 4 { RuleWords(Lower(parts[3]), r); }
  }

  /** The element of an MCP key is addressed only after its field name was recognised. */
  ghost predicate NegativePosition(parts: seq<string>) {
    || (|parts| >= 3 && Lower(parts[0]) in ["nats", "notify"] && Negative(parts[1]))
    || (|parts| >= 4 && Lower(parts[0]) == "auth" && Lower(parts[1]) == "mcp_keys" && Negative(parts[2]) &&
        McpKeyKeyOf(Lower(parts[3])).Some?)
  }

  predicate Negative(part: string) {
    Atoi(part).Some? && Atoi(part).value < 0
  }

  /** The one way an entry can crash the process is a list position that parses to a negative number. */
  lemma PanicsExactly(parts: seq<string>, val: string)
    ensures Resolve(parts, val) == Panics <==> NegativePosition(parts)
  {
    hide Lower, Atoi, ParseAs, OidcKeyOf, RuleKeyOf, SessionKeyOf, McpOauthKeyOf, McpKeyKeyOf;
    hide NatsKeyOf, NotifyKeyOf, ServerKeyOf;
    assert forall s: string :: s in ["nats", "notify"] <==> s == "nats" || s == "notify";
  }
}

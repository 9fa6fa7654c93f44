/** The documented keys of the settings, and the field each of them ends up in. */
module EnvKeys {
  import opened Prelude
  import opened Strings
  import opened EnvText
  import opened Settings
  import opened EnvPaths
  import opened EnvOverlay
  import opened EnvValues
  import Proofs = EnvPathProofs

  /** The words of a leaf's key, in the documented upper case. */
  function Words(t: Target): seq<string> {
    match t
    case ServerField(k) => ["SERVER", if k.Host? then "HOST" else "PORT"]
    case NatsField(i, k) => ["NATS", Decimal(i), NatsName(k)]
    case NotifyField(i, k) => ["NOTIFY", Decimal(i), NotifyName(k)]
    case McpKeyField(i, k) => ["AUTH", "MCP_KEYS", Decimal(i), if k.Name? then "NAME" else "VALUE"]
    case AuthField(k) => AuthWords(k)
  }

  function NatsName(k: NatsKey): string {
    match k
    case Name => "NAME"
    case Url => "URL"
    case CredsFile => "CREDS_FILE"
    case User => "USER"
    case Password => "PASSWORD"
    case RequestTimeoutMs => "REQUEST_TIMEOUT_MS"
    case DiscoveryTimeoutMs => "DISCOVERY_TIMEOUT_MS"
  }

  function NotifyName(k: NotifyKey): string {
    match k
    case Provider => "PROVIDER"
    case Url => "URL"
    case Channel => "CHANNEL"
    case Username => "USERNAME"
  }

  function RuleName(k: RuleKey): string {
    match k
    case AllowedEmails => "ALLOWED_EMAILS"
    case AllowedDomains => "ALLOWED_DOMAINS"
    case AllowedGroups => "ALLOWED_GROUPS"
  }

  function AuthWords(k: AuthKey): seq<string> {
    match k
    case Enabled => ["AUTH", "ENABLED"]
    case Mode => ["AUTH", "MODE"]
    case JwtAudiences => ["AUTH", "JWT", "AUDIENCES"]
    case McpJwtEnabled => ["AUTH", "MCP_JWT", "ENABLED"]
    case InOidc(o) => ["AUTH", "OIDC", OidcName(o)]
    case InSession(s) => ["AUTH", "SESSION", SessionName(s)]
    case InMcpOauth(m) => ["AUTH", "MCP_OAUTH", McpOauthName(m)]
    case InAccess(a) =>
      match a
      case GroupsClaim => ["AUTH", "ACCESS", "GROUPS_CLAIM"]
      case SignIn(r) => ["AUTH", "ACCESS", RuleName(r)]
      case Admin(r) => ["AUTH", "ACCESS", "ADMIN", RuleName(r)]
  }

  function OidcName(k: OidcKey): string {
    match k
    case Issuer => "ISSUER"
    case ClientId => "CLIENT_ID"
    case ClientSecret => "CLIENT_SECRET"
    case RedirectUrl => "REDIRECT_URL"
    case Scopes => "SCOPES"
  }

  function SessionName(k: SessionKey): string {
    match k
    case Secret => "SECRET"
    case TtlSeconds => "TTL_SECONDS"
    case CookieName => "COOKIE_NAME"
    case Secure => "SECURE"
  }

  function McpOauthName(k: McpOauthKey): string {
    match k
    case Enabled => "ENABLED"
    case Resource => "RESOURCE"
    case AuthorizationServers => "AUTHORIZATION_SERVERS"
    case Audiences => "AUDIENCES"
    case SkipAudienceCheck => "SKIP_AUDIENCE_CHECK"
  }

  /** The environment entry that gives `t` the value `val`. */
  function EntryFor(t: Target, val: string): string {
    "CHESHMHAYASH__" + Join(Words(t), "__") + "=" + val
  }

  // ---------------------------------------------------------- the fields

  ghost predicate InRange(c: Config, t: Target) {
    match t
    case NatsField(i, _) => i < |c.nats|
    case NotifyField(i, _) => i < |c.notify|
    case McpKeyField(i, _) => i < |c.auth.mcpKeys|
    case _ => true
  }

  /** The field of the settings that is leaf `t`. */
  ghost function Field(c: Config, t: Target): Value
    requires InRange(c, t)
  {
    match t
    case ServerField(Host) => Text(c.server.host)
    case ServerField(Port) => Number(c.server.port)
    case NatsField(i, Name) => Text(c.nats[i].name)
    case NatsField(i, Url) => Text(c.nats[i].url)
    case NatsField(i, CredsFile) => Text(c.nats[i].credsFile)
    case NatsField(i, User) => Text(c.nats[i].user)
    case NatsField(i, Password) => Text(c.nats[i].password)
    case NatsField(i, RequestTimeoutMs) => Number(c.nats[i].requestTimeoutMs)
    case NatsField(i, DiscoveryTimeoutMs) => Number(c.nats[i].discoveryTimeoutMs)
    case NotifyField(i, Provider) => Text(c.notify[i].provider)
    case NotifyField(i, Url) => Text(c.notify[i].url)
    case NotifyField(i, Channel) => Text(c.notify[i].channel)
    case NotifyField(i, Username) => Text(c.notify[i].username)
    case McpKeyField(i, Name) => Text(c.auth.mcpKeys[i].name)
    case McpKeyField(i, Value) => Text(c.auth.mcpKeys[i].value)
    case AuthField(k) => AuthLeaf(c.auth, k)
  }

  ghost function AuthLeaf(a: Auth, k: AuthKey): Value {
    match k
    case Enabled => Flag(a.enabled)
    case Mode => Text(a.mode)
    case JwtAudiences => List(a.jwtAudiences)
    case McpJwtEnabled => Flag(a.mcpJwtEnabled)
    case InOidc(Issuer) => Text(a.oidc.issuer)
    case InOidc(ClientId) => Text(a.oidc.clientId)
    case InOidc(ClientSecret) => Text(a.oidc.clientSecret)
    case InOidc(RedirectUrl) => Text(a.oidc.redirectUrl)
    case InOidc(Scopes) => List(a.oidc.scopes)
    case InSession(Secret) => Text(a.session.secret)
    case InSession(TtlSeconds) => Number(a.session.ttlSeconds)
    case InSession(CookieName) => Text(a.session.cookieName)
    case InSession(Secure) => Flag(a.session.secure)
    case InMcpOauth(Enabled) => Flag(a.mcpOauth.enabled)
    case InMcpOauth(Resource) => Text(a.mcpOauth.resource)
    case InMcpOauth(AuthorizationServers) => List(a.mcpOauth.authorizationServers)
    case InMcpOauth(Audiences) => List(a.mcpOauth.audiences)
    case InMcpOauth(SkipAudienceCheck) => Flag(a.mcpOauth.skipAudienceCheck)
    case InAccess(GroupsClaim) => Text(a.access.groupsClaim)
    case InAccess(SignIn(AllowedEmails)) => List(a.access.signIn.allowedEmails)
    case InAccess(SignIn(AllowedDomains)) => List(a.access.signIn.allowedDomains)
    case InAccess(SignIn(AllowedGroups)) => List(a.access.signIn.allowedGroups)
    case InAccess(Admin(AllowedEmails)) => List(a.access.admin.allowedEmails)
    case InAccess(Admin(AllowedDomains)) => List(a.access.admin.allowedDomains)
    case InAccess(Admin(AllowedGroups)) => List(a.access.admin.allowedGroups)
  }

  lemma FieldIsRead(c: Config, t: Target)
    requires InRange(c, t)
    ensures Field(c, t) == Read(c, t)
  {
  }

  // --------------------------------------------------- what the keys are

  /** Two underscores never meet in the word, nor at its end. */
  predicate Plain(w: string) {
    && '=' !in w && (w != "" ==> w[|w| - 1] != '_')
    && forall i :: 0 <= i < |w| - 1 ==> !(w[i] == '_' && w[i + 1] == '_')
  }

  lemma PlainAvoids(w: string)
    requires Plain(w)
    ensures Avoids(w, SEPARATOR, |w|) && Avoids(w + SEPARATOR, SEPARATOR, |w|)
  {
    forall i | 0 <= i < |w| ensures !(SEPARATOR <= w[i..]) && !(SEPARATOR <= (w + SEPARATOR)[i..]) {
      assert w[i..][0] == w[i] && (w + SEPARATOR)[i..][0] == w[i];
      if i < |w| - 1 {
        assert w[i..][1] == w[i + 1] && (w + SEPARATOR)[i..][1] == w[i + 1];
      }
    }
  }

  lemma {:induction false} PlainJoin(words: seq<string>)
    requires forall i :: 0 <= i < |words| ==> Plain(words[i])
    ensures '=' !in Join(words, SEPARATOR)
  {
    hide Plain;
    if |words| == 1 {
      assert Plain(words[0]);
      PlainHasNoEquals(words[0]);
    } else if |words| > 1 {
      PlainHasNoEquals(words[0]);
      PlainJoin(words[1..]);
    }
  }

  lemma PlainHasNoEquals(w: string)
    requires Plain(w)
    ensures '=' !in w
  {
  }

  /** A documented key is spelled from its words. */
  lemma WordsSpell(t: Target, val: string)
    requires |Words(t)| >= 1 && forall i :: 0 <= i < |Words(t)| ==> Plain(Words(t)[i])
    ensures Spells(EntryFor(t, val), Words(t), val)
  {
    hide Plain, Words, Avoids, Join;
    forall i | 0 <= i < |Words(t)|
      ensures Avoids(Words(t)[i], SEPARATOR, |Words(t)[i]|) && Avoids(Words(t)[i] + SEPARATOR, SEPARATOR, |Words(t)[i]|)
    {
      PlainAvoids(Words(t)[i]);
    }
    PlainJoin(Words(t));
  }

  /** The word in upper case is the word in lower case. */
  predicate Says(word: string, key: string) {
    Plain(word) && Lower(word) == key
  }

  lemma RequestTimeoutMsSays()
    ensures Says("REQUEST_TIMEOUT_MS", "request_timeout_ms")
  {
    assert Lower("REQUEST_TIMEOUT_MS") == "request_timeout_ms";
  }

  lemma DiscoveryTimeoutMsSays()
    ensures Says("DISCOVERY_TIMEOUT_MS", "discovery_timeout_ms")
  {
    assert Lower("DISCOVERY_TIMEOUT_MS") == "discovery_timeout_ms";
  }

  lemma AuthorizationServersSays()
    ensures Says("AUTHORIZATION_SERVERS", "authorization_servers")
  {
    assert Lower("AUTHORIZATION_SERVERS") == "authorization_servers";
  }

  lemma SkipAudienceCheckSays()
    ensures Says("SKIP_AUDIENCE_CHECK", "skip_audience_check")
  {
    assert Lower("SKIP_AUDIENCE_CHECK") == "skip_audience_check";
  }

  lemma ServerSays(k: ServerKey)
    ensures Says("SERVER", "server") && Says(Words(ServerField(k))[1], ServerWord(k))
  {
    match k
    case Host => assert Lower("HOST") == "host";
    case Port => assert Lower("PORT") == "port";
  }

  lemma CredentialSays(k: NatsKey)
    requires k.CredsFile? || k.User? || k.Password?
    ensures Says(NatsName(k), NatsWord(k))
  {
    match k
    case CredsFile => assert Lower("CREDS_FILE") == "creds_file";
    case User => assert Lower("USER") == "user";
    case Password => assert Lower("PASSWORD") == "password";
  }

  lemma NatsSays(k: NatsKey)
    ensures Says(NatsName(k), NatsWord(k))
  {
    if k.CredsFile? || k.User? || k.Password? {
      CredentialSays(k);
      return;
    }
    match k
    case Name => assert Lower("NAME") == "name";
    case Url => assert Lower("URL") == "url";
    case RequestTimeoutMs => RequestTimeoutMsSays();
    case DiscoveryTimeoutMs => DiscoveryTimeoutMsSays();
  }

  lemma NotifySays(k: NotifyKey)
    ensures Says(NotifyName(k), NotifyWord(k))
  {
    match k
    case Provider => assert Lower("PROVIDER") == "provider";
    case Url => assert Lower("URL") == "url";
    case Channel => assert Lower("CHANNEL") == "channel";
    case Username => assert Lower("USERNAME") == "username";
  }

  lemma AllowedEmailsSays()
    ensures Says("ALLOWED_EMAILS", "allowed_emails")
  {
    assert Lower("ALLOWED_EMAILS") == "allowed_emails";
  }

  lemma AllowedDomainsSays()
    ensures Says("ALLOWED_DOMAINS", "allowed_domains")
  {
    assert Lower("ALLOWED_DOMAINS") == "allowed_domains";
  }

  lemma AllowedGroupsSays()
    ensures Says("ALLOWED_GROUPS", "allowed_groups")
  {
    assert Lower("ALLOWED_GROUPS") == "allowed_groups";
  }

  lemma ClientSecretSays()
    ensures Says("CLIENT_SECRET", "client_secret")
  {
    assert Lower("CLIENT_SECRET") == "client_secret";
  }

  lemma RedirectUrlSays()
    ensures Says("REDIRECT_URL", "redirect_url")
  {
    assert Lower("REDIRECT_URL") == "redirect_url";
  }

  lemma RuleSays(k: RuleKey)
    ensures Says(RuleName(k), RuleWord(k))
  {
    match k
    case AllowedEmails => AllowedEmailsSays();
    case AllowedDomains => AllowedDomainsSays();
    case AllowedGroups => AllowedGroupsSays();
  }

  lemma OidcSays(k: OidcKey)
    ensures Says(OidcName(k), OidcWord(k))
  {
    match k
    case Issuer => assert Lower("ISSUER") == "issuer";
    case ClientId => assert Lower("CLIENT_ID") == "client_id";
    case ClientSecret => ClientSecretSays();
    case RedirectUrl => RedirectUrlSays();
    case Scopes => assert Lower("SCOPES") == "scopes";
  }

  lemma SessionSays(k: SessionKey)
    ensures Says(SessionName(k), SessionWord(k))
  {
    match k
    case Secret => assert Lower("SECRET") == "secret";
    case TtlSeconds => assert Lower("TTL_SECONDS") == "ttl_seconds";
    case CookieName => assert Lower("COOKIE_NAME") == "cookie_name";
    case Secure => assert Lower("SECURE") == "secure";
  }

  lemma McpOauthSays(k: McpOauthKey)
    ensures Says(McpOauthName(k), McpOauthWord(k))
  {
    match k
    case Enabled => assert Lower("ENABLED") == "enabled";
    case Resource => assert Lower("RESOURCE") == "resource";
    case AuthorizationServers => AuthorizationServersSays();
    case Audiences => assert Lower("AUDIENCES") == "audiences";
    case SkipAudienceCheck => SkipAudienceCheckSays();
  }

  lemma SectionsSay()
    ensures Says("NATS", "nats") && Says("NOTIFY", "notify") && Says("AUTH", "auth")
    ensures Says("NAME", "name") && Says("VALUE", "value")
  {
  }

  lemma AuthLeavesSay()
    ensures Says("ENABLED", "enabled") && Says("MODE", "mode") && Says("AUDIENCES", "audiences")
  {
  }

  lemma AuthSectionsSay()
    ensures Says("JWT", "jwt") && Says("MCP_JWT", "mcp_jwt") && Says("OIDC", "oidc") && Says("SESSION", "session")
    ensures Says("MCP_OAUTH", "mcp_oauth")
  {
  }

  lemma AuthPartsSay()
    ensures Says("MCP_KEYS", "mcp_keys") && Says("ACCESS", "access")
    ensures Says("ADMIN", "admin") && Says("GROUPS_CLAIM", "groups_claim")
  {
  }

  lemma PositionSays(i: nat)
    requires i <= MAX_INT
    ensures Plain(Decimal(i)) && Atoi(Decimal(i)) == Some(i)
  {
    AtoiSpellings(i);
    MagnitudeDecimal(i);
  }

  /** The position in a list, where the leaf is in one. */
  predicate Writable(t: Target) {
    (t.NatsField? || t.NotifyField? || t.McpKeyField?) ==> t.index <= 0x7FFF_FFFF_FFFF_FFFF
  }

  /** The documented key of a leaf is on the leaf's path. */
  lemma WordsMatch(t: Target)
    requires Writable(t)
    ensures Matches(PathOf(t), Words(t)) && |Words(t)| >= 2
    ensures forall i :: 0 <= i < |Words(t)| ==> Plain(Words(t)[i])
  {
    hide Plain, Lower, Atoi, Decimal, NatsName, NotifyName, NatsWord, NotifyWord;
    SectionsSay();
    match t
    case ServerField(k) => ServerSays(k);
    case NatsField(i, k) =>
      NatsSays(k);
      PositionSays(i);
    case NotifyField(i, k) =>
      NotifySays(k);
      PositionSays(i);
    case McpKeyField(i, k) =>
      AuthPartsSay();
      PositionSays(i);
    case AuthField(k) => AuthWordsMatch(k);
  }

  lemma AuthWordsMatch(k: AuthKey)
    ensures Matches(PathOf(AuthField(k)), AuthWords(k)) && |AuthWords(k)| >= 2
    ensures forall i :: 0 <= i < |AuthWords(k)| ==> Plain(AuthWords(k)[i])
  {
    hide Plain, Lower, OidcName, SessionName, McpOauthName, RuleName, OidcWord, SessionWord, McpOauthWord, RuleWord;
    SectionsSay();
    AuthSectionsSay();
    AuthPartsSay();
    AuthLeavesSay();
    match k
    case InOidc(o) => OidcSays(o);
    case InSession(s) => SessionSays(s);
    case InMcpOauth(m) => McpOauthSays(m);
    case InAccess(SignIn(r)) => RuleSays(r);
    case InAccess(Admin(r)) => RuleSays(r);
    case _ =>
  }

  // ----------------------------------------------------------- what they do

  /** Only other sections are passed over. */
  lemma IgnoredExactly(parts: seq<string>, val: string)
    ensures Resolve(parts, val).Ignored? <==> parts == [] || Lower(parts[0]) !in ["server", "nats", "notify", "auth"]
  {
    hide Lower, Atoi, ParseAs, OidcKeyOf, RuleKeyOf, SessionKeyOf, McpOauthKeyOf, McpKeyKeyOf, NatsKeyOf, NotifyKeyOf, ServerKeyOf;
    assert forall s: string :: s in ["server", "nats", "notify", "auth"] <==> s == "server" || s == "nats" || s == "notify" || s == "auth";
  }

  lemma NoNegative(t: Target)
    requires Writable(t)
    ensures !Proofs.NegativePosition(Words(t)) && Lower(Words(t)[0]) in ["server", "nats", "notify", "auth"]
  {
    hide Lower, Atoi, Decimal, NatsName, NotifyName;
    hide OidcName, SessionName, McpOauthName, RuleName;
    SectionsSay();
    AuthSectionsSay();
    AuthPartsSay();
    match t
    case ServerField(k) => ServerSays(k);
    case NatsField(i, _) => PositionSays(i);
    case NotifyField(i, _) => PositionSays(i);
    case McpKeyField(i, _) => PositionSays(i);
    case AuthField(k) =>
  }

  /** A leaf's documented entry sets it to what the value says, and is rejected if the value says nothing. */
  lemma EntryReaches(t: Target, val: string)
    requires Writable(t)
    ensures match ParseAs(t.Kind(), val)
      case Some(v) => Entry(EntryFor(t, val)) == Sets(t, v)
      case None => Entry(EntryFor(t, val)) == Rejected
  {
    hide Words, Resolve, ParseAs, Matches, Plain, Lower, Entry, EntryFor, Proofs.NegativePosition;
    var words := Words(t);
    WordsMatch(t);
    WordsSpell(t, val);
    SpelledEntry(EntryFor(t, val), words, val);
    match ParseAs(t.Kind(), val)
    case Some(v) => Proofs.ResolveExact(words, val, t, v);
    case None =>
      NoNegative(t);
      Proofs.PanicsExactly(words, val);
      IgnoredExactly(words, val);
      NeverSets(words, val, t);
  }

  /** Which leaf a key sets does not depend on the value. */
  lemma SameTarget(parts: seq<string>, val: string, other: string)
    requires Resolve(parts, other).Sets?
    ensures Resolve(parts, val) == Assign(Resolve(parts, other).target, val)
  {
    hide Lower, Atoi, ParseAs, NatsKeyOf, NotifyKeyOf, ServerKeyOf, ResolveAuth;
    if parts != [] && Lower(parts[0]) == "auth" {
      SameAuthTarget(parts[1..], val, other);
    }
  }

  lemma SameAuthTarget(parts: seq<string>, val: string, other: string)
    requires ResolveAuth(parts, other).Sets?
    ensures ResolveAuth(parts, val) == Assign(ResolveAuth(parts, other).target, val)
  {
    hide Lower, Atoi, ParseAs, OidcKeyOf, RuleKeyOf, SessionKeyOf, McpOauthKeyOf, McpKeyKeyOf;
  }

  /** "0" says something to a leaf of any kind. */
  lemma ZeroParses(k: Kind)
    ensures ParseAs(k, "0").Some?
  {
    hide Csv, ParseBool;
    DecimalZero();
    FlagValue("0", false);
  }

  lemma DecimalZero()
    ensures Atoi("0") == Some(0)
  {
    AtoiSpellings(0);
  }

  lemma NeverSets(words: seq<string>, val: string, t: Target)
    requires Matches(PathOf(t), words) && ParseAs(t.Kind(), val) == None
    ensures !Resolve(words, val).Sets?
  {
    hide Resolve, ParseAs, Matches;
    ZeroParses(t.Kind());
    Proofs.ResolveExact(words, "0", t, ParseAs(t.Kind(), "0").value);
    SameTarget(words, val, "0");
  }

  /** What a value's text says to a leaf of each kind. */
  ghost predicate Means(k: Kind, val: string, v: Value) {
    match k
    case TextKind => v == Text(val)
    case NumberKind => v.Number? && IsNumeral(val, v.number)
    case FlagKind =>
      v.Flag? &&
      if v.flag then val == "1" || val == "t" || val == "T" || val == "true" || val == "TRUE" || val == "True"
      else val == "0" || val == "f" || val == "F" || val == "false" || val == "FALSE" || val == "False"
    case ListKind => v.List? && ListsItems(val, v.items)
  }

  /** The items between the commas, without the space around them, and without the missing ones. */
  ghost predicate ListsItems(val: string, items: seq<string>) {
    exists pieces :: ListsPieces(val, pieces) && Items(pieces) == items
  }

  ghost predicate ListsPieces(val: string, pieces: seq<Piece>) {
    AllFit(pieces) && pieces != [] && val == Join(Texts(pieces), ",")
  }

  lemma ListMeans(val: string, items: seq<string>)
    ensures ParseAs(ListKind, val) == Some(List(items)) <==> ListsItems(val, items)
  {
    hide ParseAs, AllFit, Texts, Items, Join;
    var pieces := ListSpelled(val);
    ListValue(pieces);
    assert ListsPieces(val, pieces);
    forall other | ListsPieces(val, other) ensures ParseAs(ListKind, val) == Some(List(Items(other))) {
      ListValue(other);
    }
  }

  lemma MeansExact(k: Kind, val: string, v: Value)
    ensures ParseAs(k, val) == Some(v) <==> Means(k, val, v)
  {
    hide Csv, Atoi, ParseBool, IsNumeral, ListsItems;
    match k
    case TextKind =>
    case NumberKind => if v.Number? { NumberValue(val, v.number); }
    case FlagKind => if v.Flag? { FlagValue(val, v.flag); }
    case ListKind => if v.List? { ListMeans(val, v.items); }
  }

  /** The documented entry of a leaf sets it to exactly what its value means, and is an error if it means nothing. */
  lemma EntryMeaning(t: Target, val: string)
    requires Writable(t)
    ensures forall v :: Entry(EntryFor(t, val)) == Sets(t, v) <==> Means(t.Kind(), val, v)
    ensures Entry(EntryFor(t, val)) == Rejected <==> forall v :: !Means(t.Kind(), val, v)
    ensures Entry(EntryFor(t, val)) == Rejected || exists v :: Means(t.Kind(), val, v)
  {
    hide ParseAs, Means, Entry, EntryFor;
    EntryReaches(t, val);
    forall v ensures ParseAs(t.Kind(), val) == Some(v) <==> Means(t.Kind(), val, v) {
      MeansExact(t.Kind(), val, v);
    }
    if ParseAs(t.Kind(), val).Some? {
      assert Means(t.Kind(), val, ParseAs(t.Kind(), val).value);
    }
  }

  // -------------------------------------------------------- the settings

  /** No entry after position `i` sets `t`. */
  ghost predicate LastFor(environ: seq<string>, i: nat, t: Target) {
    forall j :: i < j < |environ| ==> !(Entry(environ[j]).Sets? && Entry(environ[j]).target == t)
  }

  lemma {:induction false} LastIs(environ: seq<string>, i: nat, t: Target, v: Value)
    requires i < |environ| && Entry(environ[i]) == Sets(t, v) && LastFor(environ, i, t)
    ensures LastValue(environ, t) == Some(v)
    ensures forall l :: t.Needs(l) <= Needed(environ, l)
  {
    hide Entry;
    if i > 0 {
      assert environ[1..][i - 1] == environ[i];
      forall j | i - 1 < j < |environ[1..]|
        ensures !(Entry(environ[1..][j]).Sets? && Entry(environ[1..][j]).target == t)
      {
        assert environ[1..][j] == environ[j + 1];
      }
      LastIs(environ[1..], i - 1, t, v);
    } else {
      forall kv | kv in environ[1..] ensures !(Entry(kv).Sets? && Entry(kv).target == t) {
        var j :| 0 <= j < |environ[1..]| && environ[1..][j] == kv;
        assert environ[j + 1] == kv;
      }
      assert LastValue(environ[1..], t) == None;
    }
    assert environ[i] in environ;
  }

  /** In the settings, the field of a leaf holds what the value of the last entry for it means. */
  lemma FieldsHold(c: Config, environ: seq<string>, i: nat, t: Target, val: string)
    requires Overlay(c, environ).Done? && Writable(t)
    requires i < |environ| && environ[i] == EntryFor(t, val) && LastFor(environ, i, t)
    ensures InRange(Overlay(c, environ).config, t)
    ensures Means(t.Kind(), val, Field(Overlay(c, environ).config, t))
  {
    hide Entry, EntryFor, Means, Overlay, LastFor, LastValue, Needed, Read, Field;
    DoneExactly(c, environ);
    assert environ[i] in environ && Entry(environ[i]) != Rejected;
    EntryMeaning(t, val);
    var v: Value :| Means(t.Kind(), val, v);
    LastIs(environ, i, t, v);
    OverlayReads(c, environ, t);
    OverlayLengths(c, environ, NatsList);
    OverlayLengths(c, environ, NotifyList);
    OverlayLengths(c, environ, McpKeyList);
    var final := Overlay(c, environ).config;
    assert t.Needs(NatsList) <= Length(final, NatsList) && t.Needs(NotifyList) <= Length(final, NotifyList);
    assert t.Needs(McpKeyList) <= Length(final, McpKeyList);
    FieldIsRead(final, t);
  }

  /** And the field of a leaf no entry sets stays as it was. */
  lemma FieldsStay(c: Config, environ: seq<string>, t: Target)
    requires Overlay(c, environ).Done? && InRange(c, t)
    requires forall kv :: kv in environ ==> !(Entry(kv).Sets? && Entry(kv).target == t)
    ensures InRange(Overlay(c, environ).config, t)
    ensures Field(Overlay(c, environ).config, t) == Field(c, t)
  {
    hide Entry, Overlay, Read, Field;
    DoneExactly(c, environ);
    OverlayReads(c, environ, t);
    OverlayLengths(c, environ, NatsList);
    OverlayLengths(c, environ, NotifyList);
    OverlayLengths(c, environ, McpKeyList);
    FieldIsRead(c, t);
    FieldIsRead(Overlay(c, environ).config, t);
  }
}

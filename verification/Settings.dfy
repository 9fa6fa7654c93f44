/**
 * The settings record as nested values, and a name for every leaf the environment can set.  Each
 * record has a getter and a setter over its keys; the setters' contracts are the lens laws: the
 * written leaf reads back, every other leaf keeps its value.
 */
module Settings {

  datatype Kind = TextKind | NumberKind | FlagKind | ListKind

  datatype Value = Text(text: string) | Number(number: int) | Flag(flag: bool) | List(items: seq<string>) {
    function Kind(): Kind {
      match this
      case Text(_) => TextKind
      case Number(_) => NumberKind
      case Flag(_) => FlagKind
      case List(_) => ListKind
    }
  }

  // ------------------------------------------------------------- server

  datatype ServerKey = Host | Port {
    function Kind(): Kind { if Host? then TextKind else NumberKind }
  }

  datatype Server = Server(host: string, port: int) {
    function Get(k: ServerKey): (v: Value)
      ensures v.Kind() == k.Kind()
    {
      match k
      case Host => Text(host)
      case Port => Number(port)
    }

    function Set(k: ServerKey, v: Value): (r: Server)
      requires v.Kind() == k.Kind()
      ensures forall j :: r.Get(j) == if j == k then v else Get(j)
    {
      match k
      case Host => this.(host := v.text)
      case Port => this.(port := v.number)
    }
  }

  // --------------------------------------------------------------- nats

  datatype NatsKey = Name | Url | CredsFile | User | Password | RequestTimeoutMs | DiscoveryTimeoutMs {
    function Kind(): Kind {
      if RequestTimeoutMs? || DiscoveryTimeoutMs? then NumberKind else TextKind
    }
  }

  datatype Nats = Nats(name: string, url: string, credsFile: string, user: string, password: string,
                       requestTimeoutMs: int, discoveryTimeoutMs: int)
  {
    function Get(k: NatsKey): (v: Value)
      ensures v.Kind() == k.Kind()
    {
      match k
      case Name => Text(name)
      case Url => Text(url)
      case CredsFile => Text(credsFile)
      case User => Text(user)
      case Password => Text(password)
      case RequestTimeoutMs => Number(requestTimeoutMs)
      case DiscoveryTimeoutMs => Number(discoveryTimeoutMs)
    }

    function Set(k: NatsKey, v: Value): (r: Nats)
      requires v.Kind() == k.Kind()
      ensures forall j :: r.Get(j) == if j == k then v else Get(j)
    {
      match k
      case Name => this.(name := v.text)
      case Url => this.(url := v.text)
      case CredsFile => this.(credsFile := v.text)
      case User => this.(user := v.text)
      case Password => this.(password := v.text)
      case RequestTimeoutMs => this.(requestTimeoutMs := v.number)
      case DiscoveryTimeoutMs => this.(discoveryTimeoutMs := v.number)
    }
  }

  const NO_NATS := Nats("", "", "", "", "", 0, 0)

  // ------------------------------------------------------------- notify

  datatype NotifyKey = Provider | Url | Channel | Username

  datatype Notify = Notify(provider: string, url: string, channel: string, username: string) {
    function Get(k: NotifyKey): (v: Value)
      ensures v.Text?
    {
      match k
      case Provider => Text(provider)
      case Url => Text(url)
      case Channel => Text(channel)
      case Username => Text(username)
    }

    function Set(k: NotifyKey, v: Value): (r: Notify)
      requires v.Text?
      ensures forall j :: r.Get(j) == if j == k then v else Get(j)
    {
      match k
      case Provider => this.(provider := v.text)
      case Url => this.(url := v.text)
      case Channel => this.(channel := v.text)
      case Username => this.(username := v.text)
    }
  }

  const NO_NOTIFY := Notify("", "", "", "")

  // --------------------------------------------------------------- auth

  datatype McpKeyKey = Name | Value

  datatype McpKey = McpKey(name: string, value: string) {
    function Get(k: McpKeyKey): (v: Value)
      ensures v.Text?
    {
      match k
      case Name => Text(name)
      case Value => Text(value)
    }

    function Set(k: McpKeyKey, v: Value): (r: McpKey)
      requires v.Text?
      ensures forall j :: r.Get(j) == if j == k then v else Get(j)
    {
      match k
      case Name => this.(name := v.text)
      case Value => this.(value := v.text)
    }
  }

  const NO_MCP_KEY := McpKey("", "")

  datatype OidcKey = Issuer | ClientId | ClientSecret | RedirectUrl | Scopes {
    function Kind(): Kind { if Scopes? then ListKind else TextKind }
  }

  datatype Oidc = Oidc(issuer: string, clientId: string, clientSecret: string, redirectUrl: string,
                       scopes: seq<string>)
  {
    function Get(k: OidcKey): (v: Value)
      ensures v.Kind() == k.Kind()
    {
      match k
      case Issuer => Text(issuer)
      case ClientId => Text(clientId)
      case ClientSecret => Text(clientSecret)
      case RedirectUrl => Text(redirectUrl)
      case Scopes => List(scopes)
    }

    function Set(k: OidcKey, v: Value): (r: Oidc)
      requires v.Kind() == k.Kind()
      ensures forall j :: r.Get(j) == if j == k then v else Get(j)
    {
      match k
      case Issuer => this.(issuer := v.text)
      case ClientId => this.(clientId := v.text)
      case ClientSecret => this.(clientSecret := v.text)
      case RedirectUrl => this.(redirectUrl := v.text)
      case Scopes => this.(scopes := v.items)
    }
  }

  datatype RuleKey = AllowedEmails | AllowedDomains | AllowedGroups

  datatype Rule = Rule(allowedEmails: seq<string>, allowedDomains: seq<string>, allowedGroups: seq<string>) {
    function Get(k: RuleKey): (v: Value)
      ensures v.List?
    {
      match k
      case AllowedEmails => List(allowedEmails)
      case AllowedDomains => List(allowedDomains)
      case AllowedGroups => List(allowedGroups)
    }

    function Set(k: RuleKey, v: Value): (r: Rule)
      requires v.List?
      ensures forall j :: r.Get(j) == if j == k then v else Get(j)
    {
      match k
      case AllowedEmails => this.(allowedEmails := v.items)
      case AllowedDomains => this.(allowedDomains := v.items)
      case AllowedGroups => this.(allowedGroups := v.items)
    }
  }

  datatype AccessKey = SignIn(rule: RuleKey) | GroupsClaim | Admin(rule: RuleKey) {
    function Kind(): Kind { if GroupsClaim? then TextKind else ListKind }
  }

  /** The sign-in lists of the source's `AuthAccess` are grouped as `signIn`. */
  datatype Access = Access(signIn: Rule, groupsClaim: string, admin: Rule) {
    function Get(k: AccessKey): (v: Value)
      ensures v.Kind() == k.Kind()
    {
      match k
      case SignIn(r) => signIn.Get(r)
      case GroupsClaim => Text(groupsClaim)
      case Admin(r) => admin.Get(r)
    }

    function Set(k: AccessKey, v: Value): (r: Access)
      requires v.Kind() == k.Kind()
      ensures forall j :: r.Get(j) == if j == k then v else Get(j)
    {
      match k
      case SignIn(r) => this.(signIn := signIn.Set(r, v))
      case GroupsClaim => this.(groupsClaim := v.text)
      case Admin(r) => this.(admin := admin.Set(r, v))
    }
  }

  datatype SessionKey = Secret | TtlSeconds | CookieName | Secure {
    function Kind(): Kind {
      match this
      case TtlSeconds => NumberKind
      case Secure => FlagKind
      case _ => TextKind
    }
  }

  datatype Session = Session(secret: string, ttlSeconds: int, cookieName: string, secure: bool) {
    function Get(k: SessionKey): (v: Value)
      ensures v.Kind() == k.Kind()
    {
      match k
      case Secret => Text(secret)
      case TtlSeconds => Number(ttlSeconds)
      case CookieName => Text(cookieName)
      case Secure => Flag(secure)
    }

    function Set(k: SessionKey, v: Value): (r: Session)
      requires v.Kind() == k.Kind()
      ensures forall j :: r.Get(j) == if j == k then v else Get(j)
    {
      match k
      case Secret => this.(secret := v.text)
      case TtlSeconds => this.(ttlSeconds := v.number)
      case CookieName => this.(cookieName := v.text)
      case Secure => this.(secure := v.flag)
    }
  }

  datatype McpOauthKey = Enabled | Resource | AuthorizationServers | Audiences | SkipAudienceCheck {
    function Kind(): Kind {
      match this
      case Enabled => FlagKind
      case Resource => TextKind
      case AuthorizationServers => ListKind
      case Audiences => ListKind
      case SkipAudienceCheck => FlagKind
    }
  }

  datatype McpOauth = McpOauth(enabled: bool, resource: string, authorizationServers: seq<string>,
                               audiences: seq<string>, skipAudienceCheck: bool)
  {
    function Get(k: McpOauthKey): (v: Value)
      ensures v.Kind() == k.Kind()
    {
      match k
      case Enabled => Flag(enabled)
      case Resource => Text(resource)
      case AuthorizationServers => List(authorizationServers)
      case Audiences => List(audiences)
      case SkipAudienceCheck => Flag(skipAudienceCheck)
    }

    function Set(k: McpOauthKey, v: Value): (r: McpOauth)
      requires v.Kind() == k.Kind()
      ensures forall j :: r.Get(j) == if j == k then v else Get(j)
    {
      match k
      case Enabled => this.(enabled := v.flag)
      case Resource => this.(resource := v.text)
      case AuthorizationServers => this.(authorizationServers := v.items)
      case Audiences => this.(audiences := v.items)
      case SkipAudienceCheck => this.(skipAudienceCheck := v.flag)
    }
  }

  datatype AuthKey =
    | Enabled
    | Mode
    | InOidc(oidc: OidcKey)
    | InAccess(access: AccessKey)
    | InSession(session: SessionKey)
    | JwtAudiences
    | InMcpOauth(mcpOauth: McpOauthKey)
    | McpJwtEnabled
  {
    function Kind(): Kind {
      match this
      case Enabled => FlagKind
      case Mode => TextKind
      case InOidc(k) => k.Kind()
      case InAccess(k) => k.Kind()
      case InSession(k) => k.Kind()
      case JwtAudiences => ListKind
      case InMcpOauth(k) => k.Kind()
      case McpJwtEnabled => FlagKind
    }
  }

  datatype Auth = Auth(enabled: bool, mode: string, oidc: Oidc, access: Access, session: Session,
                       jwtAudiences: seq<string>, mcpKeys: seq<McpKey>, mcpOauth: McpOauth,
                       mcpJwtEnabled: bool)
  {
    function Get(k: AuthKey): (v: Value)
      ensures v.Kind() == k.Kind()
    {
      match k
      case Enabled => Flag(enabled)
      case Mode => Text(mode)
      case InOidc(o) => oidc.Get(o)
      case InAccess(a) => access.Get(a)
      case InSession(s) => session.Get(s)
      case JwtAudiences => List(jwtAudiences)
      case InMcpOauth(m) => mcpOauth.Get(m)
      case McpJwtEnabled => Flag(mcpJwtEnabled)
    }

    function Set(k: AuthKey, v: Value): (r: Auth)
      requires v.Kind() == k.Kind()
      ensures r.mcpKeys == mcpKeys
      ensures forall j :: r.Get(j) == if j == k then v else Get(j)
    {
      match k
      case Enabled => this.(enabled := v.flag)
      case Mode => this.(mode := v.text)
      case InOidc(o) => this.(oidc := oidc.Set(o, v))
      case InAccess(a) => this.(access := access.Set(a, v))
      case InSession(s) => this.(session := session.Set(s, v))
      case JwtAudiences => this.(jwtAudiences := v.items)
      case InMcpOauth(m) => this.(mcpOauth := mcpOauth.Set(m, v))
      case McpJwtEnabled => this.(mcpJwtEnabled := v.flag)
    }
  }

  // -------------------------------------------------------------- lists

  function Max(a: nat, b: nat): nat { if a < b then b else a }

  /** The element, or the zero element Go would append before it. */
  function At<T>(s: seq<T>, i: nat, zero: T): T {
    if i < |s| then s[i] else zero
  }

  function Grown<T>(s: seq<T>, n: nat, zero: T): (r: seq<T>)
    ensures |r| == Max(|s|, n) && s <= r
    ensures forall j: nat :: At(r, j, zero) == At(s, j, zero)
  {
    s + seq(Max(|s|, n) - |s|, _ => zero)
  }

  function Put<T>(s: seq<T>, i: nat, zero: T, x: T): (r: seq<T>)
    ensures |r| == Max(|s|, i + 1)
    ensures forall j: nat :: At(r, j, zero) == if j == i then x else At(s, j, zero)
  {
    Grown(s, i + 1, zero)[i := x]
  }

  lemma SameList<T>(a: seq<T>, b: seq<T>, zero: T)
    requires |a| == |b|
    requires forall j: nat :: At(a, j, zero) == At(b, j, zero)
    ensures a == b
  {
    forall j | 0 <= j < |a| ensures a[j] == b[j] {
      assert At(a, j, zero) == At(b, j, zero);
    }
  }

  // ------------------------------------------------------ whole settings

  datatype Config = Config(server: Server, nats: seq<Nats>, notify: seq<Notify>, auth: Auth)

  /** One settable leaf. */
  datatype Target =
    | ServerField(server: ServerKey)
    | NatsField(index: nat, nats: NatsKey)
    | NotifyField(index: nat, notify: NotifyKey)
    | AuthField(auth: AuthKey)
    | McpKeyField(index: nat, mcpKey: McpKeyKey)
  {
    function Kind(): Kind {
      match this
      case ServerField(k) => k.Kind()
      case NatsField(_, k) => k.Kind()
      case NotifyField(_, _) => TextKind
      case AuthField(k) => k.Kind()
      case McpKeyField(_, _) => TextKind
    }

    /** How long this target needs the given list to be. */
    function Needs(l: ListName): nat {
      match (this, l)
      case (NatsField(i, _), NatsList) => i + 1
      case (NotifyField(i, _), NotifyList) => i + 1
      case (McpKeyField(i, _), McpKeyList) => i + 1
      case _ => 0
    }
  }

  datatype ListName = NatsList | NotifyList | McpKeyList

  function Length(c: Config, l: ListName): nat {
    match l
    case NatsList => |c.nats|
    case NotifyList => |c.notify|
    case McpKeyList => |c.auth.mcpKeys|
  }

  function Read(c: Config, t: Target): (v: Value)
    ensures v.Kind() == t.Kind()
  {
    match t
    case ServerField(k) => c.server.Get(k)
    case NatsField(i, k) => At(c.nats, i, NO_NATS).Get(k)
    case NotifyField(i, k) => At(c.notify, i, NO_NOTIFY).Get(k)
    case AuthField(k) => c.auth.Get(k)
    case McpKeyField(i, k) => At(c.auth.mcpKeys, i, NO_MCP_KEY).Get(k)
  }

  function Write(c: Config, t: Target, v: Value): (r: Config)
    requires v.Kind() == t.Kind()
  {
    match t
    case ServerField(k) => c.(server := c.server.Set(k, v))
    case NatsField(i, k) => c.(nats := Put(c.nats, i, NO_NATS, At(c.nats, i, NO_NATS).Set(k, v)))
    case NotifyField(i, k) => c.(notify := Put(c.notify, i, NO_NOTIFY, At(c.notify, i, NO_NOTIFY).Set(k, v)))
    case AuthField(k) => c.(auth := c.auth.Set(k, v))
    case McpKeyField(i, k) =>
      var keys := c.auth.mcpKeys;
      c.(auth := c.auth.(mcpKeys := Put(keys, i, NO_MCP_KEY, At(keys, i, NO_MCP_KEY).Set(k, v))))
  }

  /** A write sets its own leaf and no other, and lengthens a list only as far as it must. */
  lemma ReadWrite(c: Config, t: Target, v: Value, u: Target)
    requires v.Kind() == t.Kind()
    ensures Read(Write(c, t, v), u) == if u == t then v else Read(c, u)
  {
    if t.McpKeyField? && u.AuthField? {
      AuthGetIgnoresKeys(c.auth, Write(c, t, v).auth.mcpKeys, u.auth);
    }
  }

  lemma AuthGetIgnoresKeys(a: Auth, keys: seq<McpKey>, k: AuthKey)
    ensures a.(mcpKeys := keys).Get(k) == a.Get(k)
  {
  }

  lemma LengthWrite(c: Config, t: Target, v: Value, l: ListName)
    requires v.Kind() == t.Kind()
    ensures Length(Write(c, t, v), l) == Max(Length(c, l), t.Needs(l))
  {
  }

  lemma SameServer(a: Server, b: Server)
    requires forall k :: a.Get(k) == b.Get(k)
    ensures a == b
  {
    assert a.Get(Host) == b.Get(Host) && a.Get(Port) == b.Get(Port);
  }

  lemma SameNats(a: Nats, b: Nats)
    requires forall k :: a.Get(k) == b.Get(k)
    ensures a == b
  {
    assert a.Get(NatsKey.Name) == b.Get(NatsKey.Name) && a.Get(NatsKey.Url) == b.Get(NatsKey.Url);
    assert a.Get(CredsFile) == b.Get(CredsFile) && a.Get(User) == b.Get(User);
    assert a.Get(Password) == b.Get(Password) && a.Get(RequestTimeoutMs) == b.Get(RequestTimeoutMs);
    assert a.Get(DiscoveryTimeoutMs) == b.Get(DiscoveryTimeoutMs);
  }

  lemma SameNotify(a: Notify, b: Notify)
    requires forall k :: a.Get(k) == b.Get(k)
    ensures a == b
  {
    assert a.Get(Provider) == b.Get(Provider) && a.Get(NotifyKey.Url) == b.Get(NotifyKey.Url);
    assert a.Get(Channel) == b.Get(Channel) && a.Get(Username) == b.Get(Username);
  }

  lemma SameMcpKey(a: McpKey, b: McpKey)
    requires forall k :: a.Get(k) == b.Get(k)
    ensures a == b
  {
    assert a.Get(McpKeyKey.Name) == b.Get(McpKeyKey.Name);
    assert a.Get(McpKeyKey.Value) == b.Get(McpKeyKey.Value);
  }

  lemma SameOidc(a: Oidc, b: Oidc)
    requires forall k :: a.Get(k) == b.Get(k)
    ensures a == b
  {
    assert a.Get(Issuer) == b.Get(Issuer) && a.Get(ClientId) == b.Get(ClientId);
    assert a.Get(ClientSecret) == b.Get(ClientSecret) && a.Get(RedirectUrl) == b.Get(RedirectUrl);
    assert a.Get(Scopes) == b.Get(Scopes);
  }

  lemma SameRule(a: Rule, b: Rule)
    requires forall k :: a.Get(k) == b.Get(k)
    ensures a == b
  {
    assert a.Get(AllowedEmails) == b.Get(AllowedEmails) && a.Get(AllowedDomains) == b.Get(AllowedDomains);
    assert a.Get(AllowedGroups) == b.Get(AllowedGroups);
  }

  lemma SameAccess(a: Access, b: Access)
    requires forall k :: a.Get(k) == b.Get(k)
    ensures a == b
  {
    forall k ensures a.signIn.Get(k) == b.signIn.Get(k) && a.admin.Get(k) == b.admin.Get(k) {
      assert a.Get(SignIn(k)) == b.Get(SignIn(k)) && a.Get(Admin(k)) == b.Get(Admin(k));
    }
    SameRule(a.signIn, b.signIn);
    SameRule(a.admin, b.admin);
    assert a.Get(GroupsClaim) == b.Get(GroupsClaim);
  }

  lemma SameSession(a: Session, b: Session)
    requires forall k :: a.Get(k) == b.Get(k)
    ensures a == b
  {
    assert a.Get(Secret) == b.Get(Secret) && a.Get(TtlSeconds) == b.Get(TtlSeconds);
    assert a.Get(CookieName) == b.Get(CookieName) && a.Get(Secure) == b.Get(Secure);
  }

  lemma SameMcpOauth(a: McpOauth, b: McpOauth)
    requires forall k :: a.Get(k) == b.Get(k)
    ensures a == b
  {
    assert a.Get(McpOauthKey.Enabled) == b.Get(McpOauthKey.Enabled) && a.Get(Resource) == b.Get(Resource);
    assert a.Get(AuthorizationServers) == b.Get(AuthorizationServers);
    assert a.Get(Audiences) == b.Get(Audiences) && a.Get(SkipAudienceCheck) == b.Get(SkipAudienceCheck);
  }

  lemma SameAuth(a: Auth, b: Auth)
    requires a.mcpKeys == b.mcpKeys
    requires forall k :: a.Get(k) == b.Get(k)
    ensures a == b
  {
    forall k ensures a.oidc.Get(k) == b.oidc.Get(k) { assert a.Get(InOidc(k)) == b.Get(InOidc(k)); }
    forall k ensures a.access.Get(k) == b.access.Get(k) { assert a.Get(InAccess(k)) == b.Get(InAccess(k)); }
    forall k ensures a.session.Get(k) == b.session.Get(k) { assert a.Get(InSession(k)) == b.Get(InSession(k)); }
    forall k ensures a.mcpOauth.Get(k) == b.mcpOauth.Get(k) {
      assert a.Get(InMcpOauth(k)) == b.Get(InMcpOauth(k));
    }
    SameOidc(a.oidc, b.oidc);
    SameAccess(a.access, b.access);
    SameSession(a.session, b.session);
    SameMcpOauth(a.mcpOauth, b.mcpOauth);
    assert a.Get(AuthKey.Enabled) == b.Get(AuthKey.Enabled) && a.Get(Mode) == b.Get(Mode);
    assert a.Get(JwtAudiences) == b.Get(JwtAudiences) && a.Get(McpJwtEnabled) == b.Get(McpJwtEnabled);
  }

  /** The leaves and the list lengths are all there is to a settings value. */
  lemma SameConfig(a: Config, b: Config)
    requires forall t :: Read(a, t) == Read(b, t)
    requires forall l :: Length(a, l) == Length(b, l)
    ensures a == b
  {
    assert Length(a, NatsList) == Length(b, NatsList) && Length(a, NotifyList) == Length(b, NotifyList);
    assert Length(a, McpKeyList) == Length(b, McpKeyList);
    forall k ensures a.server.Get(k) == b.server.Get(k) {
      assert Read(a, ServerField(k)) == Read(b, ServerField(k));
    }
    SameServer(a.server, b.server);
    forall j: nat ensures At(a.nats, j, NO_NATS) == At(b.nats, j, NO_NATS) {
      forall k ensures At(a.nats, j, NO_NATS).Get(k) == At(b.nats, j, NO_NATS).Get(k) {
        assert Read(a, NatsField(j, k)) == Read(b, NatsField(j, k));
      }
      SameNats(At(a.nats, j, NO_NATS), At(b.nats, j, NO_NATS));
    }
    SameList(a.nats, b.nats, NO_NATS);
    forall j: nat ensures At(a.notify, j, NO_NOTIFY) == At(b.notify, j, NO_NOTIFY) {
      forall k ensures At(a.notify, j, NO_NOTIFY).Get(k) == At(b.notify, j, NO_NOTIFY).Get(k) {
        assert Read(a, NotifyField(j, k)) == Read(b, NotifyField(j, k));
      }
      SameNotify(At(a.notify, j, NO_NOTIFY), At(b.notify, j, NO_NOTIFY));
    }
    SameList(a.notify, b.notify, NO_NOTIFY);
    forall j: nat ensures At(a.auth.mcpKeys, j, NO_MCP_KEY) == At(b.auth.mcpKeys, j, NO_MCP_KEY) {
      forall k ensures At(a.auth.mcpKeys, j, NO_MCP_KEY).Get(k) == At(b.auth.mcpKeys, j, NO_MCP_KEY).Get(k) {
        assert Read(a, McpKeyField(j, k)) == Read(b, McpKeyField(j, k));
      }
      SameMcpKey(At(a.auth.mcpKeys, j, NO_MCP_KEY), At(b.auth.mcpKeys, j, NO_MCP_KEY));
    }
    SameList(a.auth.mcpKeys, b.auth.mcpKeys, NO_MCP_KEY);
    forall k ensures a.auth.Get(k) == b.auth.Get(k) {
      assert Read(a, AuthField(k)) == Read(b, AuthField(k));
    }
    SameAuth(a.auth, b.auth);
  }
}

/**
 * What one environment entry asks for.  `Resolve` follows the source's nested switches; the table
 * `PathOf` lists, for every settable leaf, the key path documented for it, and `ResolveExact` says
 * the switches implement exactly that table.
 */
module EnvPaths {
  import opened Prelude
  import opened EnvText
  import opened Settings

  const PREFIX := "CHESHMHAYASH__"
  const SEPARATOR := "__"

  datatype Resolution =
    | Ignored
    | Rejected
    | Panics
    | Sets(target: Target, value: Value)
  {
    predicate Fits() { Sets? ==> value.Kind() == target.Kind() }
  }

  // ------------------------------------------------------- field names

  function ServerKeyOf(w: string): Option<ServerKey> {
    if w == "host" then Some(Host)
    else if w == "port" then Some(Port)
    else None
  }

  /** The struct tags `setNATSField` walks. */
  function NatsKeyOf(w: string): Option<NatsKey> {
    if w == "name" then Some(NatsKey.Name)
    else if w == "url" then Some(NatsKey.Url)
    else if w == "creds_file" then Some(CredsFile)
    else if w == "user" then Some(User)
    else if w == "password" then Some(Password)
    else if w == "request_timeout_ms" then Some(RequestTimeoutMs)
    else if w == "discovery_timeout_ms" then Some(DiscoveryTimeoutMs)
    else None
  }

  function NotifyKeyOf(w: string): Option<NotifyKey> {
    if w == "provider" then Some(Provider)
    else if w == "url" then Some(NotifyKey.Url)
    else if w == "channel" then Some(Channel)
    else if w == "username" then Some(Username)
    else None
  }

  function McpKeyKeyOf(w: string): Option<McpKeyKey> {
    if w == "name" then Some(McpKeyKey.Name)
    else if w == "value" then Some(McpKeyKey.Value)
    else None
  }

  function OidcKeyOf(w: string): Option<OidcKey> {
    if w == "issuer" then Some(Issuer)
    else if w == "client_id" then Some(ClientId)
    else if w == "client_secret" then Some(ClientSecret)
    else if w == "redirect_url" then Some(RedirectUrl)
    else if w == "scopes" then Some(Scopes)
    else None
  }

  function RuleKeyOf(w: string): Option<RuleKey> {
    if w == "allowed_emails" then Some(AllowedEmails)
    else if w == "allowed_domains" then Some(AllowedDomains)
    else if w == "allowed_groups" then Some(AllowedGroups)
    else None
  }

  function SessionKeyOf(w: string): Option<SessionKey> {
    if w == "secret" then Some(Secret)
    else if w == "ttl_seconds" then Some(TtlSeconds)
    else if w == "cookie_name" then Some(CookieName)
    else if w == "secure" then Some(Secure)
    else None
  }

  function McpOauthKeyOf(w: string): Option<McpOauthKey> {
    if w == "enabled" then Some(McpOauthKey.Enabled)
    else if w == "resource" then Some(Resource)
    else if w == "authorization_servers" then Some(AuthorizationServers)
    else if w == "audiences" then Some(Audiences)
    else if w == "skip_audience_check" then Some(SkipAudienceCheck)
    else None
  }

  // ----------------------------------------------------------- Resolve

  function ParseAs(k: Kind, val: string): (r: Option<Value>)
    ensures r.Some? ==> r.value.Kind() == k
  {
    match k
    case TextKind => Some(Text(val))
    case NumberKind => (match Atoi(val) case Some(n) => Some(Number(n)) case None => None)
    case FlagKind => (match ParseBool(val) case Some(b) => Some(Flag(b)) case None => None)
    case ListKind => Some(List(Csv(val)))
  }

  function Assign(t: Target, val: string): (r: Resolution)
    ensures r.Fits()
  {
    match ParseAs(t.Kind(), val)
    case None => Rejected
    case Some(v) => Sets(t, v)
  }

  function AssignAuth(k: AuthKey, val: string): (r: Resolution)
    ensures r.Fits()
  {
    Assign(AuthField(k), val)
  }

  function Resolve(parts: seq<string>, val: string): (r: Resolution)
    ensures r.Fits()
  {
    if parts == [] then Ignored
    else
      var section := Lower(parts[0]);
      if section == "server" then
        if |parts| != 2 then Rejected
        else
          match ServerKeyOf(Lower(parts[1]))
          case None => Rejected
          case Some(k) => Assign(ServerField(k), val)
      else if section == "nats" then
        if |parts| < 3 then Rejected
        else
          match Atoi(parts[1])
          case None => Rejected
          case Some(i) =>
            if i < 0 then Panics
            else
              match NatsKeyOf(Lower(parts[2]))
              case None => Rejected
              case Some(k) => Assign(NatsField(i, k), val)
      else if section == "notify" then
        if |parts| < 3 then Rejected
        else
          match Atoi(parts[1])
          case None => Rejected
          case Some(i) =>
            if i < 0 then Panics
            else
              match NotifyKeyOf(Lower(parts[2]))
              case None => Rejected
              case Some(k) => Assign(NotifyField(i, k), val)
      else if section == "auth" then ResolveAuth(parts[1..], val)
      else Ignored
  }

  function ResolveAuth(parts: seq<string>, val: string): (r: Resolution)
    ensures r.Fits()
  {
    if parts == [] then Rejected
    else
      var section := Lower(parts[0]);
      if section == "enabled" then AssignAuth(AuthKey.Enabled, val)
      else if section == "mode" then AssignAuth(Mode, val)
      else if section == "jwt" then
        if |parts| != 2 || Lower(parts[1]) != "audiences" then Rejected
        else AssignAuth(JwtAudiences, val)
      else if section == "oidc" then
        if |parts| != 2 then Rejected
        else
          match OidcKeyOf(Lower(parts[1]))
          case None => Rejected
          case Some(k) => AssignAuth(InOidc(k), val)
      else if section == "access" then ResolveAccess(parts[1..], val)
      else if section == "session" then
        if |parts| != 2 then Rejected
        else
          match SessionKeyOf(Lower(parts[1]))
          case None => Rejected
          case Some(k) => AssignAuth(InSession(k), val)
      else if section == "mcp_keys" then
        if |parts| < 3 then Rejected
        else
          match Atoi(parts[1])
          case None => Rejected
          case Some(i) =>
            match McpKeyKeyOf(Lower(parts[2]))
            case None => Rejected
            case Some(k) => if i < 0 then Panics else Assign(McpKeyField(i, k), val)
      else if section == "mcp_oauth" then
        if |parts| != 2 then Rejected
        else
          match McpOauthKeyOf(Lower(parts[1]))
          case None => Rejected
          case Some(k) => AssignAuth(InMcpOauth(k), val)
      else if section == "mcp_jwt" then
        if |parts| != 2 || Lower(parts[1]) != "enabled" then Rejected
        else AssignAuth(McpJwtEnabled, val)
      else Rejected
  }

  function ResolveAccess(parts: seq<string>, val: string): (r: Resolution)
    ensures r.Fits()
  {
    if parts == [] then Rejected
    else
      var key := Lower(parts[0]);
      if key == "groups_claim" then AssignAuth(InAccess(GroupsClaim), val)
      else if key == "admin" then
        if |parts| != 2 then Rejected
        else
          match RuleKeyOf(Lower(parts[1]))
          case None => Rejected
          case Some(k) => AssignAuth(InAccess(Admin(k)), val)
      else
        match RuleKeyOf(key)
        case None => Rejected
        case Some(k) => AssignAuth(InAccess(SignIn(k)), val)
  }

  // ------------------------------------------------------ the key table

  function ServerWord(k: ServerKey): string { if k.Host? then "host" else "port" }

  function NatsWord(k: NatsKey): string {
    match k
    case Name => "name"
    case Url => "url"
    case CredsFile => "creds_file"
    case User => "user"
    case Password => "password"
    case RequestTimeoutMs => "request_timeout_ms"
    case DiscoveryTimeoutMs => "discovery_timeout_ms"
  }

  function NotifyWord(k: NotifyKey): string {
    match k
    case Provider => "provider"
    case Url => "url"
    case Channel => "channel"
    case Username => "username"
  }

  function McpKeyWord(k: McpKeyKey): string { if k.Name? then "name" else "value" }

  function OidcWord(k: OidcKey): string {
    match k
    case Issuer => "issuer"
    case ClientId => "client_id"
    case ClientSecret => "client_secret"
    case RedirectUrl => "redirect_url"
    case Scopes => "scopes"
  }

  function RuleWord(k: RuleKey): string {
    match k
    case AllowedEmails => "allowed_emails"
    case AllowedDomains => "allowed_domains"
    case AllowedGroups => "allowed_groups"
  }

  function SessionWord(k: SessionKey): string {
    match k
    case Secret => "secret"
    case TtlSeconds => "ttl_seconds"
    case CookieName => "cookie_name"
    case Secure => "secure"
  }

  function McpOauthWord(k: McpOauthKey): string {
    match k
    case Enabled => "enabled"
    case Resource => "resource"
    case AuthorizationServers => "authorization_servers"
    case Audiences => "audiences"
    case SkipAudienceCheck => "skip_audience_check"
  }

  datatype Segment = Word(word: string) | Position(index: nat)

  /** `open` paths ignore further parts; the others must match to the last part. */
  datatype Path = Path(segments: seq<Segment>, open: bool)

  function PathOf(t: Target): Path {
    match t
    case ServerField(k) => Path([Word("server"), Word(ServerWord(k))], false)
    case NatsField(i, k) => Path([Word("nats"), Position(i), Word(NatsWord(k))], true)
    case NotifyField(i, k) => Path([Word("notify"), Position(i), Word(NotifyWord(k))], true)
    case McpKeyField(i, k) => Path([Word("auth"), Word("mcp_keys"), Position(i), Word(McpKeyWord(k))], true)
    case AuthField(k) =>
      match k
      case Enabled => Path([Word("auth"), Word("enabled")], true)
      case Mode => Path([Word("auth"), Word("mode")], true)
      case JwtAudiences => Path([Word("auth"), Word("jwt"), Word("audiences")], false)
      case InOidc(o) => Path([Word("auth"), Word("oidc"), Word(OidcWord(o))], false)
      case InSession(s) => Path([Word("auth"), Word("session"), Word(SessionWord(s))], false)
      case InMcpOauth(m) => Path([Word("auth"), Word("mcp_oauth"), Word(McpOauthWord(m))], false)
      case McpJwtEnabled => Path([Word("auth"), Word("mcp_jwt"), Word("enabled")], false)
      case InAccess(a) =>
        match a
        case GroupsClaim => Path([Word("auth"), Word("access"), Word("groups_claim")], true)
        case SignIn(r) => Path([Word("auth"), Word("access"), Word(RuleWord(r))], true)
        case Admin(r) => Path([Word("auth"), Word("access"), Word("admin"), Word(RuleWord(r))], false)
  }

  ghost predicate SegmentMatches(s: Segment, part: string) {
    match s
    case Word(w) => Lower(part) == w
    case Position(i) => Atoi(part) == Some(i)
  }

  ghost predicate Matches(p: Path, parts: seq<string>) {
    && (if p.open then |parts| >= |p.segments| else |parts| == |p.segments|)
    && forall i :: 0 <= i < |p.segments| ==> SegmentMatches(p.segments[i], parts[i])
  }
}

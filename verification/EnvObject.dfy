/** The settings object the overlay updates in place, entry by entry. */
module EnvObject {
  import opened Prelude
  import opened Strings
  import opened EnvText
  import opened Settings
  import opened EnvPaths
  import opened EnvOverlay

  /** How one call of the overlay ends: normally, with an error, or by crashing the process. */
  datatype Status = Applied | Error | Crash

  /** The settings a call leaves behind, given what its entry asks for. */
  ghost predicate Follows(before: Config, r: Resolution, status: Status, after: Config) {
    match r
    case Ignored => status == Applied && after == before
    case Sets(t, v) => r.Fits() && status == Applied && after == Write(before, t, v)
    case Rejected => status == Error && SameLeaves(before, after)
    case Panics => status == Crash && SameLeaves(before, after)
  }

  /** A failing entry may have lengthened a list, but it has set nothing. */
  ghost predicate SameLeaves(before: Config, after: Config) {
    forall t :: Read(after, t) == Read(before, t)
  }

  const NATS_TAGS := [("name", NatsKey.Name), ("url", NatsKey.Url), ("creds_file", CredsFile), ("user", User),
                      ("password", Password), ("request_timeout_ms", RequestTimeoutMs),
                      ("discovery_timeout_ms", DiscoveryTimeoutMs)]

  /** The walk over the struct tags of one cluster entry. */
  method FindNatsTag(key: string) returns (k: Option<NatsKey>)
    ensures k == NatsKeyOf(key)
  {
    for i := 0 to |NATS_TAGS|
      invariant forall j :: 0 <= j < i ==> NATS_TAGS[j].0 != key
    {
      if NATS_TAGS[i].0 == key {
        return Some(NATS_TAGS[i].1);
      }
    }
    assert NATS_TAGS[0].0 != key && NATS_TAGS[1].0 != key && NATS_TAGS[2].0 != key && NATS_TAGS[3].0 != key;
    assert NATS_TAGS[4].0 != key && NATS_TAGS[5].0 != key && NATS_TAGS[6].0 != key;
    return None;
  }

  lemma GrownByOne<T>(s: seq<T>, n: nat, zero: T)
    requires n >= |s|
    ensures Grown(s, n, zero) + [zero] == Grown(s, n + 1, zero)
    ensures Grown(s, |s|, zero) == s
  {
  }

  lemma GrownLeaves(c: Config, n: nat)
    ensures SameLeaves(c, c.(nats := Grown(c.nats, n, NO_NATS)))
    ensures SameLeaves(c, c.(notify := Grown(c.notify, n, NO_NOTIFY)))
    ensures SameLeaves(c, c.(auth := c.auth.(mcpKeys := Grown(c.auth.mcpKeys, n, NO_MCP_KEY))))
  {
    forall k ensures c.auth.(mcpKeys := Grown(c.auth.mcpKeys, n, NO_MCP_KEY)).Get(k) == c.auth.Get(k) {
      AuthGetIgnoresKeys(c.auth, Grown(c.auth.mcpKeys, n, NO_MCP_KEY), k);
    }
  }

  class LoadedSettings {
    var server: Server
    var nats: seq<Nats>
    var notify: seq<Notify>
    var auth: Auth

    ghost function Value(): Config
      reads this
    {
      Config(server, nats, notify, auth)
    }

    constructor (c: Config)
      ensures Value() == c
    {
      server, nats, notify, auth := c.server, c.nats, c.notify, c.auth;
    }

    method GrowNats(n: nat)
      modifies this`nats
      ensures nats == Grown(old(nats), n, NO_NATS)
    {
      GrownByOne(nats, |nats|, NO_NATS);
      while |nats| < n
        invariant |old(nats)| <= |nats| <= Max(|old(nats)|, n)
        invariant nats == Grown(old(nats), |nats|, NO_NATS)
      {
        GrownByOne(old(nats), |nats|, NO_NATS);
        nats := nats + [NO_NATS];
      }
    }

    method GrowNotify(n: nat)
      modifies this`notify
      ensures notify == Grown(old(notify), n, NO_NOTIFY)
    {
      GrownByOne(notify, |notify|, NO_NOTIFY);
      while |notify| < n
        invariant |old(notify)| <= |notify| <= Max(|old(notify)|, n)
        invariant notify == Grown(old(notify), |notify|, NO_NOTIFY)
      {
        GrownByOne(old(notify), |notify|, NO_NOTIFY);
        notify := notify + [NO_NOTIFY];
      }
    }

    method GrowMcpKeys(n: nat)
      modifies this`auth
      ensures auth == old(auth).(mcpKeys := Grown(old(auth).mcpKeys, n, NO_MCP_KEY))
    {
      GrownByOne(auth.mcpKeys, |auth.mcpKeys|, NO_MCP_KEY);
      while |auth.mcpKeys| < n
        invariant |old(auth).mcpKeys| <= |auth.mcpKeys| <= Max(|old(auth).mcpKeys|, n)
        invariant auth == old(auth).(mcpKeys := Grown(old(auth).mcpKeys, |auth.mcpKeys|, NO_MCP_KEY))
      {
        GrownByOne(old(auth).mcpKeys, |auth.mcpKeys|, NO_MCP_KEY);
        auth := auth.(mcpKeys := auth.mcpKeys + [NO_MCP_KEY]);
      }
    }

    /** One leaf outside the lists. */
    method SetAuth(k: AuthKey, val: string) returns (status: Status)
      modifies this`auth
      ensures Follows(old(Value()), AssignAuth(k, val), status, Value())
    {
      match ParseAs(k.Kind(), val)
      case None => return Error;
      case Some(v) =>
        auth := auth.Set(k, v);
        return Applied;
    }

    method SetNatsField(i: nat, key: string, val: string) returns (status: Status)
      requires i < |nats|
      modifies this`nats
      ensures match NatsKeyOf(key)
        case None => status == Error && nats == old(nats)
        case Some(k) =>
          match ParseAs(k.Kind(), val)
          case None => status == Error && nats == old(nats)
          case Some(v) => status == Applied && nats == old(nats)[i := old(nats)[i].Set(k, v)]
    {
      var found := FindNatsTag(key);
      match found
      case None => return Error;
      case Some(k) =>
        match ParseAs(k.Kind(), val)
        case None => return Error;
        case Some(v) =>
          nats := nats[i := nats[i].Set(k, v)];
          return Applied;
    }

    method SetNotifyField(i: nat, key: string, val: string) returns (status: Status)
      requires i < |notify|
      modifies this`notify
      ensures match NotifyKeyOf(key)
        case None => status == Error && notify == old(notify)
        case Some(k) => status == Applied && notify == old(notify)[i := old(notify)[i].Set(k, Text(val))]
    {
      match NotifyKeyOf(key)
      case None => return Error;
      case Some(k) =>
        notify := notify[i := notify[i].Set(k, Text(val))];
        return Applied;
    }

    method ApplyNats(parts: seq<string>, val: string) returns (status: Status)
      requires parts != [] && Lower(parts[0]) == "nats"
      modifies this`nats
      ensures Follows(old(Value()), Resolve(parts, val), status, Value())
    {
      hide Lower, Atoi, ParseAs, NatsKeyOf, ResolveAuth;
      if |parts| < 3 {
        return Error;
      }
      match Atoi(parts[1])
      case None => return Error;
      case Some(i) =>
        if i < 0 {
          return Crash;
        }
        GrowNats(i + 1);
        GrownLeaves(old(Value()), i + 1);
        status := SetNatsField(i, Lower(parts[2]), val);
    }

    method ApplyNotify(parts: seq<string>, val: string) returns (status: Status)
      requires parts != [] && Lower(parts[0]) == "notify"
      modifies this`notify
      ensures Follows(old(Value()), Resolve(parts, val), status, Value())
    {
      hide Lower, Atoi, NotifyKeyOf, ResolveAuth;
      if |parts| < 3 {
        return Error;
      }
      match Atoi(parts[1])
      case None => return Error;
      case Some(i) =>
        if i < 0 {
          return Crash;
        }
        GrowNotify(i + 1);
        GrownLeaves(old(Value()), i + 1);
        status := SetNotifyField(i, Lower(parts[2]), val);
    }

    method ApplyMcpKeys(parts: seq<string>, val: string) returns (status: Status)
      requires parts != [] && Lower(parts[0]) == "mcp_keys"
      modifies this`auth
      ensures Follows(old(Value()), ResolveAuth(parts, val), status, Value())
    {
      hide Lower, Atoi, McpKeyKeyOf, ResolveAccess, OidcKeyOf, SessionKeyOf, McpOauthKeyOf;
      if |parts| < 3 {
        return Error;
      }
      match Atoi(parts[1])
      case None => return Error;
      case Some(i) =>
        if i >= 0 {
          GrowMcpKeys(i + 1);
          GrownLeaves(old(Value()), i + 1);
        }
        match McpKeyKeyOf(Lower(parts[2]))
        case None => return Error;
        case Some(k) =>
          if i < 0 {
            return Crash;
          }
          auth := auth.(mcpKeys := auth.mcpKeys[i := auth.mcpKeys[i].Set(k, Text(val))]);
          return Applied;
    }

    method ApplyAccessEnv(parts: seq<string>, val: string) returns (status: Status)
      modifies this`auth
      ensures Follows(old(Value()), ResolveAccess(parts, val), status, Value())
    {
      hide Lower, ParseAs, RuleKeyOf;
      if |parts| == 0 {
        return Error;
      }
      var key := Lower(parts[0]);
      if key == "groups_claim" {
        status := SetAuth(InAccess(GroupsClaim), val);
      } else if key == "admin" {
        if |parts| != 2 {
          return Error;
        }
        match RuleKeyOf(Lower(parts[1]))
        case None => return Error;
        case Some(k) => status := SetAuth(InAccess(Admin(k)), val);
      } else {
        match RuleKeyOf(key)
        case None => return Error;
        case Some(k) => status := SetAuth(InAccess(SignIn(k)), val);
      }
    }

    method ApplyAuthEnv(parts: seq<string>, val: string) returns (status: Status)
      modifies this`auth
      ensures Follows(old(Value()), ResolveAuth(parts, val), status, Value())
    {
      hide Lower, Atoi, ParseAs, McpKeyKeyOf, ResolveAccess, OidcKeyOf, SessionKeyOf, McpOauthKeyOf, Follows;
      if |parts| == 0 {
        status := Fail();
        return;
      }
      var section := Lower(parts[0]);
      if section == "enabled" {
        status := SetAuth(AuthKey.Enabled, val);
      } else if section == "mode" {
        status := SetAuth(Mode, val);
      } else if section == "jwt" {
        if |parts| != 2 || Lower(parts[1]) != "audiences" {
          status := Fail();
        } else {
          status := SetAuth(JwtAudiences, val);
        }
      } else if section == "oidc" {
        if |parts| != 2 {
          status := Fail();
        } else {
          match OidcKeyOf(Lower(parts[1]))
          case None => status := Fail();
          case Some(k) => status := SetAuth(InOidc(k), val);
        }
      } else if section == "access" {
        status := ApplyAccessEnv(parts[1..], val);
      } else if section == "session" {
        if |parts| != 2 {
          status := Fail();
        } else {
          match SessionKeyOf(Lower(parts[1]))
          case None => status := Fail();
          case Some(k) => status := SetAuth(InSession(k), val);
        }
      } else if section == "mcp_keys" {
        status := ApplyMcpKeys(parts, val);
      } else if section == "mcp_oauth" {
        if |parts| != 2 {
          status := Fail();
        } else {
          match McpOauthKeyOf(Lower(parts[1]))
          case None => status := Fail();
          case Some(k) => status := SetAuth(InMcpOauth(k), val);
        }
      } else if section == "mcp_jwt" {
        if |parts| != 2 || Lower(parts[1]) != "enabled" {
          status := Fail();
        } else {
          status := SetAuth(McpJwtEnabled, val);
        }
      } else {
        status := Fail();
      }
    }

    method Fail() returns (status: Status)
      ensures status == Error
      ensures Follows(Value(), Rejected, status, Value())
    {
      return Error;
    }

    method ApplyEnvPath(parts: seq<string>, val: string) returns (status: Status)
      modifies this
      ensures Follows(old(Value()), Resolve(parts, val), status, Value())
    {
      hide Lower, Atoi, ParseAs, ResolveAuth, ServerKeyOf, NatsKeyOf, NotifyKeyOf;
      if |parts| == 0 {
        return Applied;
      }
      var section := Lower(parts[0]);
      if section == "server" {
        if |parts| != 2 {
          return Error;
        }
        match ServerKeyOf(Lower(parts[1]))
        case None => return Error;
        case Some(k) =>
          match ParseAs(k.Kind(), val) {
            case None => return Error;
            case Some(v) =>
              server := server.Set(k, v);
              return Applied;
          }
      } else if section == "nats" {
        status := ApplyNats(parts, val);
      } else if section == "notify" {
        status := ApplyNotify(parts, val);
      } else if section == "auth" {
        status := ApplyAuthEnv(parts[1..], val);
      } else {
        return Applied;
      }
    }

    /** `overlayEnv`: entry by entry, stopping at the first that fails. */
    method OverlayEnv(environ: seq<string>) returns (status: Status)
      modifies this
      ensures match status
        case Applied => Overlay(old(Value()), environ) == Done(Value())
        case Error => Overlay(old(Value()), environ) == Failed
        case Crash => Overlay(old(Value()), environ) == Crashed
    {
      hide Resolve, Cut, Split, Write, Read;
      for i := 0 to |environ|
        invariant Overlay(old(Value()), environ) == Overlay(Value(), environ[i..])
      {
        assert environ[i..][0] == environ[i] && environ[i..][1..] == environ[i + 1..];
        match Cut(environ[i])
        case None =>
        case Some((key, val)) =>
          if PREFIX <= key {
            var parts := Split(key[|PREFIX|..], SEPARATOR);
            status := ApplyEnvPath(parts, val);
            if status != Applied {
              return;
            }
          }
      }
      return Applied;
    }
  }
}

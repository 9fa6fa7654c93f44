/** `validate`, and what it says about the lists an environment overlay has lengthened. */
module EnvValidate {
  import opened EnvText
  import opened Settings
  import opened EnvOverlay
  import EnvObject

  datatype Verdict =
    | Accepted
    | NoClusters
    | NatsNameMissing(index: nat)
    | NatsUrlMissing(index: nat)
    | IssuerMissing
    | AllowlistMissing
    | ClientIdMissing
    | RedirectUrlMissing
    | SecretMissing
    | SecretTooShort
    | UnknownMode(mode: string)
    | ResourceMissing
    | McpOauthWithoutAuth
    | McpJwtWithoutAuth
    | McpKeyValueMissing(index: nat)

  const MODE_OIDC := "oidc"
  const MODE_JWT := "jwt"
  const MIN_SECRET: nat := 16

  function ModeOrDefault(a: Auth): string {
    if a.mode == "" then MODE_OIDC else Lower(a.mode)
  }

  /** The length of the UTF-8 form, which is what Go's `len` counts. */
  function ByteLength(s: string): nat {
    if s == "" then 0
    else
      var x := s[0] as int;
      (if x < 0x80 then 1 else if x < 0x800 then 2 else if x < 0x1_0000 then 3 else 4) + ByteLength(s[1..])
  }

  function ValidateAuthOidc(a: Auth): Verdict {
    if a.oidc.clientId == "" then ClientIdMissing
    else if a.oidc.redirectUrl == "" then RedirectUrlMissing
    else if a.session.secret == "" then SecretMissing
    else if ByteLength(a.session.secret) < MIN_SECRET then SecretTooShort
    else Accepted
  }

  function ValidateAuth(a: Auth): (v: Verdict)
    ensures v.Accepted? <==> AuthUsable(a)
  {
    ModeExact(a);
    if a.oidc.issuer == "" then IssuerMissing
    else if a.access.signIn == Rule([], [], []) then AllowlistMissing
    else
      var mode := ModeOrDefault(a);
      var byMode :=
        if mode == MODE_OIDC then ValidateAuthOidc(a)
        else if mode == MODE_JWT then Accepted
        else UnknownMode(a.mode);
      if !byMode.Accepted? then byMode
      else if a.mcpOauth.enabled && a.mcpOauth.resource == "" then ResourceMissing
      else Accepted
  }

  /** `s` is the word in letters of either case; a dotted capital I is an i too. */
  predicate IsWord(s: string, word: string) {
    |s| == |word| && forall i :: 0 <= i < |s| ==>
      s[i] == word[i] || (s[i] as int + 32 == word[i] as int && 'A' <= s[i] <= 'Z') || (s[i] == '\U{0130}' && word[i] == 'i')
  }

  /** No mode is the mode with a login. */
  predicate LoginMode(a: Auth) {
    a.mode == "" || IsWord(a.mode, "oidc")
  }

  predicate TokenMode(a: Auth) {
    IsWord(a.mode, "jwt")
  }

  /** What enabled authentication needs, mode by mode. */
  ghost predicate AuthUsable(a: Auth) {
    && a.oidc.issuer != ""
    && (a.access.signIn.allowedEmails != [] || a.access.signIn.allowedDomains != [] ||
        a.access.signIn.allowedGroups != [])
    && (LoginMode(a) || TokenMode(a))
    && (LoginMode(a) ==>
          a.oidc.clientId != "" && a.oidc.redirectUrl != "" && ByteLength(a.session.secret) >= 16)
    && (a.mcpOauth.enabled ==> a.mcpOauth.resource != "")
  }

  lemma ModeExact(a: Auth)
    ensures ModeOrDefault(a) == "oidc" <==> LoginMode(a)
    ensures ModeOrDefault(a) == "jwt" <==> TokenMode(a)
  {
    LowerIsWord(a.mode, "oidc");
    LowerIsWord(a.mode, "jwt");
  }

  lemma LowerIsWord(s: string, word: string)
    requires word == "oidc" || word == "jwt"
    ensures Lower(s) == word <==> IsWord(s, word)
  {
    if Lower(s) == word {
      forall i | 0 <= i < |s| ensures LowerChar(s[i]) == word[i] {
        assert Lower(s)[i] == word[i];
      }
    }
  }

  /** The bytes of a secret: one for each character, one more for each from U+0080 on, from U+0800 on and from
      U+10000 on. */
  lemma {:induction false} ByteLengthCounts(s: string)
    ensures ByteLength(s) == |s| + CountFrom(s, 0x80) + CountFrom(s, 0x800) + CountFrom(s, 0x1_0000)
  {
    if s != "" {
      ByteLengthCounts(s[1..]);
    }
  }

  function CountFrom(s: string, code: nat): nat {
    if s == "" then 0 else (if s[0] as int >= code then 1 else 0) + CountFrom(s[1..], code)
  }

  ghost predicate ClustersNamed(c: Config) {
    c.nats != [] && forall i :: 0 <= i < |c.nats| ==> c.nats[i].name != "" && c.nats[i].url != ""
  }

  ghost predicate Usable(c: Config) {
    && ClustersNamed(c)
    && (c.auth.enabled ==> AuthUsable(c.auth))
    && (c.auth.mcpOauth.enabled || c.auth.mcpJwtEnabled ==> c.auth.enabled)
    && (forall i :: 0 <= i < |c.auth.mcpKeys| ==> c.auth.mcpKeys[i].value != "")
  }

  /** `validate` accepts exactly the usable settings and names the first entry that is not. */
  method Validate(c: Config) returns (v: Verdict)
    ensures v.Accepted? <==> Usable(c)
    ensures v.NoClusters? <==> c.nats == []
    ensures v.NatsNameMissing? ==> v.index < |c.nats| && c.nats[v.index].name == ""
    ensures v.NatsUrlMissing? ==> v.index < |c.nats| && c.nats[v.index].url == "" && c.nats[v.index].name != ""
    ensures v.NatsNameMissing? || v.NatsUrlMissing? ==>
      forall j :: 0 <= j < v.index ==> c.nats[j].name != "" && c.nats[j].url != ""
    ensures ClustersNamed(c) && c.auth.enabled && !AuthUsable(c.auth) ==> v == ValidateAuth(c.auth)
    ensures ClustersNamed(c) && !c.auth.enabled && c.auth.mcpOauth.enabled ==> v == McpOauthWithoutAuth
    ensures ClustersNamed(c) && !c.auth.enabled && !c.auth.mcpOauth.enabled && c.auth.mcpJwtEnabled ==>
      v == McpJwtWithoutAuth
    ensures v.McpKeyValueMissing? ==>
      && v.index < |c.auth.mcpKeys| && c.auth.mcpKeys[v.index].value == ""
      && Usable(c.(auth := c.auth.(mcpKeys := c.auth.mcpKeys[..v.index])))
  {
    hide ByteLength, Lower;
    if |c.nats| == 0 {
      return NoClusters;
    }
    for i := 0 to |c.nats|
      invariant forall j :: 0 <= j < i ==> c.nats[j].name != "" && c.nats[j].url != ""
    {
      if c.nats[i].name == "" {
        return NatsNameMissing(i);
      }
      if c.nats[i].url == "" {
        return NatsUrlMissing(i);
      }
    }
    if c.auth.enabled {
      v := ValidateAuth(c.auth);
      if !v.Accepted? {
        return;
      }
    } else if c.auth.mcpOauth.enabled {
      return McpOauthWithoutAuth;
    } else if c.auth.mcpJwtEnabled {
      return McpJwtWithoutAuth;
    }
    for i := 0 to |c.auth.mcpKeys|
      invariant forall j :: 0 <= j < i ==> c.auth.mcpKeys[j].value != ""
    {
      if c.auth.mcpKeys[i].value == "" {
        v := McpKeyValueMissing(i);
        return;
      }
    }
    v := Accepted;
  }

  /** After an overlay a cluster is complete exactly when its last name and url are not empty. */
  lemma ClustersUsable(c: Config, environ: seq<string>)
    requires Acceptable(environ)
    ensures Overlay(c, environ).Done?
    ensures var n := Overlay(c, environ).config.nats;
      (forall i :: 0 <= i < |n| ==> n[i].name != "" && n[i].url != "") <==>
      (forall i: nat :: i < Max(|c.nats|, Needed(environ, NatsList)) ==>
        && LastValue(environ, NatsField(i, NatsKey.Name)).GetOr(Text(At(c.nats, i, NO_NATS).name)) != Text("")
        && LastValue(environ, NatsField(i, NatsKey.Url)).GetOr(Text(At(c.nats, i, NO_NATS).url)) != Text(""))
  {
    hide Overlay, LastValue, Needed, Acceptable, Entry;
    DoneExactly(c, environ);
    var n := Overlay(c, environ).config.nats;
    OverlayLengths(c, environ, NatsList);
    forall i: nat | i < |n|
      ensures Text(n[i].name) == LastValue(environ, NatsField(i, NatsKey.Name)).GetOr(Text(At(c.nats, i, NO_NATS).name))
      ensures Text(n[i].url) == LastValue(environ, NatsField(i, NatsKey.Url)).GetOr(Text(At(c.nats, i, NO_NATS).url))
    {
      OverlayReads(c, environ, NatsField(i, NatsKey.Name));
      OverlayReads(c, environ, NatsField(i, NatsKey.Url));
    }
  }

  /** A position skipped over in `nats` or `mcp_keys` never gets past validation. */
  lemma GapRejected(c: Config, environ: seq<string>, i: nat)
    requires Acceptable(environ)
    requires
      || (|c.nats| <= i < Needed(environ, NatsList) &&
          (LastValue(environ, NatsField(i, NatsKey.Name)).None? || LastValue(environ, NatsField(i, NatsKey.Url)).None?))
      || (|c.auth.mcpKeys| <= i < Needed(environ, McpKeyList) &&
          LastValue(environ, McpKeyField(i, McpKeyKey.Value)).None?)
    ensures Overlay(c, environ).Done? && !Usable(Overlay(c, environ).config)
  {
    hide Overlay, LastValue, Needed, Acceptable, Entry, AuthUsable;
    DoneExactly(c, environ);
    OverlayLengths(c, environ, NatsList);
    OverlayLengths(c, environ, McpKeyList);
    OverlayReads(c, environ, NatsField(i, NatsKey.Name));
    OverlayReads(c, environ, NatsField(i, NatsKey.Url));
    OverlayReads(c, environ, McpKeyField(i, McpKeyKey.Value));
  }

  datatype Loaded = Settings(config: Config) | Refused | Crash

  /** The part of `Load` after the defaults and the file: overlay, then validate. */
  method Load(c: Config, environ: seq<string>) returns (r: Loaded)
    ensures r.Settings? <==> Acceptable(environ) && Overlay(c, environ).Done? && Usable(Overlay(c, environ).config)
    ensures r.Settings? ==> Overlay(c, environ) == Done(r.config)
    ensures r.Crash? <==> Overlay(c, environ) == Crashed
  {
    hide Overlay, Acceptable, Usable;
    DoneExactly(c, environ);
    var settings := new EnvObject.LoadedSettings(c);
    var status := settings.OverlayEnv(environ);
    match status
    case Error => return Refused;
    case Crash => return Crash;
    case Applied =>
      var final := Config(settings.server, settings.nats, settings.notify, settings.auth);
      var verdict := Validate(final);
      return if verdict.Accepted? then Settings(final) else Refused;
  }
}

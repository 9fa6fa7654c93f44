/** Role resolution from a session's identity, and the two readers of its group claim. */
module Authorize {

  datatype Session = Session(email: string, groups: seq<string>)

  datatype Rule = Rule(emails: seq<string>, domains: seq<string>, groups: seq<string>) {
    predicate IsEmpty() { emails == [] && domains == [] && groups == [] }
  }

  datatype Role = Deny | ReadOnly | Admin {
    function Rank(): nat {
      match this
      case Deny => 0
      case ReadOnly => 1
      case Admin => 2
    }
  }

  /** The text after the last `@`; empty without one. */
  function DomainOf(email: string): (d: string)
    ensures '@' in email <==> exists local :: email == local + "@" + d && '@' !in d
    ensures '@' !in email ==> d == ""
  {
    if email == "" then ""
    else
      var n := |email| - 1;
      if email[n] == '@' then
        assert email == email[..n] + "@" + "";
        ""
      else
        var d := DomainOf(email[..n]);
        assert email == email[..n] + [email[n]];
        if '@' in email[..n] then
          var local :| email[..n] == local + "@" + d && '@' !in d;
          assert email == local + "@" + (d + [email[n]]);
          d + [email[n]]
        else ""
  }

  /** `same` is `strings.EqualFold`. */
  datatype Policy = Policy(signIn: Rule, admin: Rule, same: (string, string) -> bool) {

    predicate Has(list: seq<string>, x: string) {
      exists i :: 0 <= i < |list| && same(list[i], x)
    }

    predicate HasAny(list: seq<string>, xs: seq<string>) {
      exists j :: 0 <= j < |xs| && Has(list, xs[j])
    }

    predicate MatchIdentity(s: Session, r: Rule) {
      || Has(r.emails, s.email)
      || (DomainOf(s.email) != "" && Has(r.domains, DomainOf(s.email)))
      || HasAny(r.groups, s.groups)
    }

    function Authorize(s: Session): Role {
      var base := MatchIdentity(s, signIn);
      if admin.IsEmpty() then (if base then Admin else Deny)
      else if MatchIdentity(s, admin) then Admin
      else if base then ReadOnly
      else Deny
    }
  }

  /** The scans of `matchIdentity`, each returning at the first match. */
  method MatchIdentity(p: Policy, s: Session, r: Rule) returns (ok: bool)
    ensures ok == p.MatchIdentity(s, r)
  {
    hide DomainOf;
    for i := 0 to |r.emails|
      invariant forall j :: 0 <= j < i ==> !p.same(r.emails[j], s.email)
    {
      if p.same(r.emails[i], s.email) {
        return true;
      }
    }
    var domain := DomainOf(s.email);
    if domain != "" {
      for i := 0 to |r.domains|
        invariant forall j :: 0 <= j < i ==> !p.same(r.domains[j], domain)
      {
        if p.same(r.domains[i], domain) {
          return true;
        }
      }
    }
    for i := 0 to |r.groups|
      invariant forall j, k :: 0 <= j < i && 0 <= k < |s.groups| ==> !p.same(r.groups[j], s.groups[k])
    {
      for k := 0 to |s.groups|
        invariant forall m :: 0 <= m < k ==> !p.same(r.groups[i], s.groups[m])
      {
        if p.same(r.groups[i], s.groups[k]) {
          assert p.Has(r.groups, s.groups[k]);
          return true;
        }
      }
    }
    return false;
  }

  /** The identity is on the rule's lists: its email, the domain of its email after the last at-sign, or one of its
      groups, each under case folding. */
  ghost predicate Identified(p: Policy, s: Session, r: Rule) {
    || (exists i :: 0 <= i < |r.emails| && p.same(r.emails[i], s.email))
    || (exists i, local: string, domain: string ::
          0 <= i < |r.domains| && s.email == local + "@" + domain && '@' !in domain && domain != "" && p.same(r.domains[i], domain))
    || (exists i, j :: 0 <= i < |r.groups| && 0 <= j < |s.groups| && p.same(r.groups[i], s.groups[j]))
  }

  /** A text has one last at-sign. */
  lemma {:induction false} SameTail(a: string, b: string, c: string, d: string)
    requires a + "@" + b == c + "@" + d && '@' !in b && '@' !in d
    ensures b == d
    decreases |b|
  {
    var s, n := a + "@" + b, |a + "@" + b| - 1;
    assert s == c + "@" + d;
    assert s[n] == (if b == "" then '@' else b[|b| - 1]) && s[n] == (if d == "" then '@' else d[|d| - 1]);
    assert b == "" <==> d == "";
    if b != "" {
      var b', d' := b[..|b| - 1], d[..|d| - 1];
      assert s[..n] == a + "@" + b' && s[..n] == c + "@" + d';
      SameTail(a, b', c, d');
      assert b == b' + [s[n]] && d == d' + [s[n]];
    }
  }

  lemma SplitOnce(email: string, local: string, domain: string)
    requires email == local + "@" + domain && '@' !in domain
    ensures DomainOf(email) == domain
  {
    assert email[|local|] == '@';
    var other :| email == other + "@" + DomainOf(email) && '@' !in DomainOf(email);
    hide DomainOf;
    SameTail(local, domain, other, DomainOf(email));
  }

  lemma IdentifiedExact(p: Policy, s: Session, r: Rule)
    ensures p.MatchIdentity(s, r) <==> Identified(p, s, r)
  {
    hide DomainOf;
    forall i, local: string, domain: string
      | 0 <= i < |r.domains| && s.email == local + "@" + domain && '@' !in domain && domain != "" && p.same(r.domains[i], domain)
      ensures DomainOf(s.email) != "" && p.Has(r.domains, DomainOf(s.email))
    {
      SplitOnce(s.email, local, domain);
    }
    if DomainOf(s.email) != "" && p.Has(r.domains, DomainOf(s.email)) {
      var local :| s.email == local + "@" + DomainOf(s.email) && '@' !in DomainOf(s.email);
      var i :| 0 <= i < |r.domains| && p.same(r.domains[i], DomainOf(s.email));
      assert Identified(p, s, r);
    }
    if p.HasAny(r.groups, s.groups) {
      var j :| 0 <= j < |s.groups| && p.Has(r.groups, s.groups[j]);
      var i :| 0 <= i < |r.groups| && p.same(r.groups[i], s.groups[j]);
    }
    forall i, j | 0 <= i < |r.groups| && 0 <= j < |s.groups| && p.same(r.groups[i], s.groups[j])
      ensures p.HasAny(r.groups, s.groups)
    {
      assert p.Has(r.groups, s.groups[j]);
    }
  }

  /** The role, from the lists themselves: an admin list makes those on it administrators and leaves those who may
      sign in reading; without one whoever may sign in is an administrator. */
  lemma AuthorizeExact(p: Policy, s: Session)
    ensures var adminList := p.admin.emails != [] || p.admin.domains != [] || p.admin.groups != [];
      p.Authorize(s) ==
        if adminList && Identified(p, s, p.admin) then Admin
        else if !Identified(p, s, p.signIn) then Deny
        else if adminList then ReadOnly else Admin
  {
    hide Identified, Policy.MatchIdentity;
    IdentifiedExact(p, s, p.signIn);
    IdentifiedExact(p, s, p.admin);
  }

  /** Losing a group never gains a role. */
  lemma RoleGrowsWithGroups(p: Policy, s: Session, more: seq<string>)
    requires forall g :: g in s.groups ==> g in more
    ensures p.Authorize(s).Rank() <= p.Authorize(s.(groups := more)).Rank()
  {
    hide DomainOf;
    forall list | p.HasAny(list, s.groups) ensures p.HasAny(list, more) {
      var j :| 0 <= j < |s.groups| && p.Has(list, s.groups[j]);
      assert s.groups[j] in more;
      var k :| 0 <= k < |more| && more[k] == s.groups[j];
    }
  }

  // ---------------------------------------------------------- group claims

  /** A group claim as the identity provider sends it. */
  datatype Claim = Absent | Many(groups: seq<string>) | One(group: string) | Unreadable

  /** The reader of verified tokens. */
  function ExtractGroups(c: Claim): seq<string> {
    match c
    case Many(gs) => gs
    case One(g) => [g]
    case _ => []
  }

  /** The reader of unverified tokens. */
  function GroupsFromClaims(c: Claim): seq<string> {
    match c
    case Many(gs) => gs
    case One(g) => if g != "" then [g] else []
    case _ => []
  }

  /** Both readers lead to the same role. */
  ghost predicate ReadersAgree(p: Policy, email: string, c: Claim) {
    p.Authorize(Session(email, ExtractGroups(c))) == p.Authorize(Session(email, GroupsFromClaims(c)))
  }

  ghost predicate FoldsOnlyItself(p: Policy) {
    forall x :: p.same(x, "") <==> x == ""
  }

  lemma EmptyGroup(p: Policy, list: seq<string>)
    requires FoldsOnlyItself(p)
    ensures p.HasAny(list, [""]) <==> "" in list
    ensures !p.HasAny(list, [])
  {
    assert [""][0] == "";
    if "" in list {
      var i :| 0 <= i < |list| && list[i] == "";
      assert p.same(list[i], "");
      assert p.Has(list, [""][0]);
    }
  }

  /** Without an empty group on a list the two readers never disagree. */
  lemma ReadersAgreeMostly(p: Policy, email: string, c: Claim)
    requires FoldsOnlyItself(p)
    requires "" !in p.signIn.groups && "" !in p.admin.groups
    ensures ReadersAgree(p, email, c)
  {
    hide DomainOf, Policy.HasAny;
    EmptyGroup(p, p.signIn.groups);
    EmptyGroup(p, p.admin.groups);
  }

  /**
   * For everyone, exactly: both readers treat a user alike on every claim unless the empty group is on a list
   * that would give that user more than the email alone does.  In particular a user who may only read by email
   * becomes an administrator through the claim "" when the admin list holds the empty group.
   */
  lemma ReadersAgreeExactly(p: Policy, email: string)
    requires FoldsOnlyItself(p)
    ensures (forall c :: ReadersAgree(p, email, c)) <==>
      && ("" in p.admin.groups ==> p.Authorize(Session(email, [])) == Admin)
      && ("" in p.signIn.groups ==> p.Authorize(Session(email, [])) != Deny)
  {
    hide ReadersAgree, FoldsOnlyItself, Policy.Authorize;
    EmptyClaimExact(p, email);
    forall c | c != One("") ensures ReadersAgree(p, email, c) {
      OtherClaims(p, email, c);
    }
    if ReadersAgree(p, email, One("")) {
      forall c ensures ReadersAgree(p, email, c) {
      }
    }
  }

  lemma OtherClaims(p: Policy, email: string, c: Claim)
    requires c != One("")
    ensures ReadersAgree(p, email, c)
  {
    assert ExtractGroups(c) == GroupsFromClaims(c);
  }

  /** The one claim the readers see differently. */
  lemma EmptyClaimExact(p: Policy, email: string)
    requires FoldsOnlyItself(p)
    ensures ReadersAgree(p, email, One("")) <==>
      && ("" in p.admin.groups ==> p.Authorize(Session(email, [])) == Admin)
      && ("" in p.signIn.groups ==> p.Authorize(Session(email, [])) != Deny)
  {
    hide DomainOf, Policy.HasAny, Policy.Has;
    EmptyGroup(p, p.signIn.groups);
    EmptyGroup(p, p.admin.groups);
  }

  /** A user read-only by email, made an administrator by the empty claim at one reader and not at the other. */
  lemma EmptyClaimPromotes()
    ensures var p := Policy(Rule(["a"], [], []), Rule([], [], [""]), (x, y) => x == y);
      && p.Authorize(Session("a", ExtractGroups(One("")))) == Admin
      && p.Authorize(Session("a", GroupsFromClaims(One("")))) == ReadOnly
  {
    var p := Policy(Rule(["a"], [], []), Rule([], [], [""]), (x, y) => x == y);
    assert DomainOf("a") == "";
    assert p.Has(["a"], "a") by { assert p.same(["a"][0], "a"); }
    EmptyGroup(p, p.admin.groups);
    EmptyGroup(p, p.signIn.groups);
  }

  /** A rule with the same entries or more, in any order. */
  ghost predicate Widens(a: Rule, b: Rule) {
    Among(a.emails, b.emails) && Among(a.domains, b.domains) && Among(a.groups, b.groups)
  }

  ghost predicate Among(xs: seq<string>, ys: seq<string>) {
    forall x :: x in xs ==> x in ys
  }

  lemma HasMore(p: Policy, xs: seq<string>, ys: seq<string>, x: string)
    requires Among(xs, ys) && p.Has(xs, x)
    ensures p.Has(ys, x)
  {
    var i :| 0 <= i < |xs| && p.same(xs[i], x);
    assert xs[i] in ys;
    var j :| 0 <= j < |ys| && ys[j] == xs[i];
  }

  lemma MatchGrows(p: Policy, s: Session, a: Rule, b: Rule)
    requires Widens(a, b) && p.MatchIdentity(s, a)
    ensures p.MatchIdentity(s, b)
  {
    hide DomainOf, Policy.Has;
    forall x | p.Has(a.emails, x) ensures p.Has(b.emails, x) { HasMore(p, a.emails, b.emails, x); }
    forall x | p.Has(a.domains, x) ensures p.Has(b.domains, x) { HasMore(p, a.domains, b.domains, x); }
    forall x | p.Has(a.groups, x) ensures p.Has(b.groups, x) { HasMore(p, a.groups, b.groups, x); }
  }

  /**
   * Adding entries to either list, in whatever order, never takes a role away, with one exception: the first
   * admin entries demote exactly the signed-in users they do not match.
   */
  lemma WiderPolicy(p: Policy, q: Policy, s: Session)
    requires Widens(p.signIn, q.signIn) && Widens(p.admin, q.admin) && p.same == q.same
    ensures p.Authorize(s).Rank() > q.Authorize(s).Rank() <==>
      && p.admin.IsEmpty() && !q.admin.IsEmpty()
      && p.MatchIdentity(s, p.signIn) && !q.MatchIdentity(s, q.admin)
  {
    hide Policy.MatchIdentity;
    if p.MatchIdentity(s, p.signIn) {
      MatchGrows(p, s, p.signIn, q.signIn);
      SameMatch(p, q, s, q.signIn);
    }
    if p.MatchIdentity(s, p.admin) {
      MatchGrows(p, s, p.admin, q.admin);
      SameMatch(p, q, s, q.admin);
      NotEmpty(q, s);
    }
  }

  lemma SameMatch(p: Policy, q: Policy, s: Session, r: Rule)
    requires p.same == q.same
    ensures p.MatchIdentity(s, r) == q.MatchIdentity(s, r)
  {
    hide DomainOf;
    assert forall l, x :: p.Has(l, x) == q.Has(l, x);
  }

  lemma NotEmpty(p: Policy, s: Session)
    requires p.MatchIdentity(s, p.admin)
    ensures !p.admin.IsEmpty()
  {
    hide DomainOf;
  }
}

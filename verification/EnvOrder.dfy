/** When the order of the environment matters, exactly. */
module EnvOrder {
  import opened Prelude
  import opened Settings
  import opened EnvPaths
  import opened EnvOverlay

  ghost predicate Clash(a: string, b: string) {
    Entry(a).Sets? && Entry(b).Sets? && Entry(a).target == Entry(b).target
  }

  /** Entries that set the same leaf agree on its value. */
  ghost predicate Consistent(environ: seq<string>) {
    forall a, b :: a in environ && b in environ && Clash(a, b) ==> Entry(a).value == Entry(b).value
  }

  ghost predicate Rejects(environ: seq<string>) { exists kv :: kv in environ && Entry(kv).Rejected? }

  ghost predicate Crashes(environ: seq<string>) { exists kv :: kv in environ && Entry(kv).Panics? }

  ghost predicate SameEntries(a: seq<string>, b: seq<string>) {
    multiset(a) == multiset(b)
  }

  /** Every order of the environment gives the same outcome, from every starting point. */
  ghost predicate OrderFree(environ: seq<string>) {
    forall c, other :: SameEntries(other, environ) ==> Overlay(c, other) == Overlay(c, environ)
  }

  lemma SameMembers(a: seq<string>, b: seq<string>, kv: string)
    requires SameEntries(a, b)
    ensures kv in a <==> kv in b
  {
    assert kv in multiset(a) <==> kv in a;
    assert kv in multiset(b) <==> kv in b;
  }

  lemma ConsistentSame(c: Config, a: seq<string>, b: seq<string>)
    requires SameEntries(a, b) && Acceptable(b) && Consistent(b)
    ensures Overlay(c, a) == Overlay(c, b)
  {
    hide Entry, Overlay, LastValue, Needed, Consistent, SameEntries;
    forall kv ensures kv in a <==> kv in b {
      SameMembers(a, b, kv);
    }
    forall t ensures LastValue(a, t) == LastValue(b, t) {
      ConsistentValue(a, b, t);
    }
    forall l ensures Needed(a, l) == Needed(b, l) {
      NeededBound(a, b, l);
      NeededBound(b, a, l);
    }
    SameDescription(c, a, b);
  }

  lemma ConsistentValue(a: seq<string>, b: seq<string>, t: Target)
    requires Consistent(b)
    requires forall kv :: kv in a <==> kv in b
    ensures LastValue(a, t) == LastValue(b, t)
  {
    hide Entry;
    if LastValue(a, t).Some? {
      var x :| x in a && Entry(x) == Sets(t, LastValue(a, t).value);
      var y :| y in b && Entry(y) == Sets(t, LastValue(b, t).value);
      assert Clash(x, y);
    } else {
      assert LastValue(b, t).None?;
    }
  }

  lemma NeededBound(a: seq<string>, b: seq<string>, l: ListName)
    requires forall kv :: kv in a ==> kv in b
    ensures Needed(a, l) <= Needed(b, l)
  {
    hide Entry;
    if Needed(a, l) > 0 {
      var kv :| kv in a && Entry(kv).Sets? && Entry(kv).target.Needs(l) == Needed(a, l);
    }
  }

  /** Only the kind of the failures is left of an environment that fails. */
  lemma {:induction false} FailureKind(c: Config, environ: seq<string>)
    requires !Acceptable(environ)
    ensures !Crashes(environ) ==> Overlay(c, environ) == Failed
    ensures !Rejects(environ) ==> Overlay(c, environ) == Crashed
    decreases |environ|
  {
    hide Entry, Write;
    assert forall kv :: kv in environ <==> kv == environ[0] || kv in environ[1..];
    if Entry(environ[0]).Ignored? {
      FailureKind(c, environ[1..]);
    } else if Entry(environ[0]).Sets? {
      FailureKind(Write(c, Entry(environ[0]).target, Entry(environ[0]).value), environ[1..]);
    }
  }

  /** The environment with entry `i` moved to the front, or to the end. */
  lemma Moved(environ: seq<string>, i: nat)
    requires i < |environ|
    ensures SameEntries([environ[i]] + Without(environ, i), environ)
    ensures SameEntries(Without(environ, i) + [environ[i]], environ)
  {
    WithoutMultiset(environ, i);
  }

  lemma {:induction false} LastValueEnd(s: seq<string>, kv: string)
    requires Entry(kv).Sets?
    ensures LastValue(s + [kv], Entry(kv).target) == Some(Entry(kv).value)
  {
    hide Entry;
    if s != [] {
      assert (s + [kv])[1..] == s[1..] + [kv];
      LastValueEnd(s[1..], kv);
    }
  }

  /** Two entries that disagree on a leaf: one of them can be moved last to change the outcome. */
  lemma InconsistentDiffers(c: Config, environ: seq<string>, a: string, b: string)
    requires Acceptable(environ) && a in environ && b in environ
    requires Clash(a, b) && Entry(a).value != Entry(b).value
    ensures exists other :: SameEntries(other, environ) && Overlay(c, other) != Overlay(c, environ)
  {
    hide Entry, Overlay, Read;
    var t := Entry(a).target;
    var kv := if LastValue(environ, t) == Some(Entry(a).value) then b else a;
    var i :| 0 <= i < |environ| && environ[i] == kv;
    var other := Without(environ, i) + [kv];
    Moved(environ, i);
    forall x ensures x in other <==> x in environ {
      SameMembers(other, environ, x);
    }
    LastValueEnd(Without(environ, i), kv);
    OverlayReads(c, environ, t);
    OverlayReads(c, other, t);
    assert SameEntries(other, environ) && Overlay(c, other) != Overlay(c, environ);
  }

  lemma FrontDecides(c: Config, kv: string, rest: seq<string>)
    ensures Entry(kv).Rejected? ==> Overlay(c, [kv] + rest) == Failed
    ensures Entry(kv).Panics? ==> Overlay(c, [kv] + rest) == Crashed
  {
    hide Entry, Write;
  }

  lemma MixedFailuresDiffer(c: Config, environ: seq<string>)
    requires Rejects(environ) && Crashes(environ)
    ensures exists other :: SameEntries(other, environ) && Overlay(c, other) != Overlay(c, environ)
  {
    hide Entry, Overlay;
    var r :| 0 <= r < |environ| && Entry(environ[r]).Rejected?;
    var p :| 0 <= p < |environ| && Entry(environ[p]).Panics?;
    Moved(environ, r);
    Moved(environ, p);
    var first, second := [environ[r]] + Without(environ, r), [environ[p]] + Without(environ, p);
    FrontDecides(c, environ[r], Without(environ, r));
    FrontDecides(c, environ[p], Without(environ, p));
    if Overlay(c, environ) == Failed {
      assert SameEntries(second, environ) && Overlay(c, second) != Overlay(c, environ);
    } else {
      assert SameEntries(first, environ) && Overlay(c, first) != Overlay(c, environ);
    }
  }

  /**
   * The order of the environment is irrelevant exactly when entries for the same leaf agree, or, for
   * an environment that fails, when it does not both fail and crash.
   */
  lemma OrderExact(environ: seq<string>)
    ensures OrderFree(environ) <==>
      if Acceptable(environ) then Consistent(environ) else !(Rejects(environ) && Crashes(environ))
  {
    hide Entry, Overlay;
    var c := Config(Server("", 0), [], [], EMPTY_AUTH);
    if Acceptable(environ) {
      if Consistent(environ) {
        forall c, other | SameEntries(other, environ) ensures Overlay(c, other) == Overlay(c, environ) {
          ConsistentSame(c, other, environ);
        }
      } else {
        var a, b :| a in environ && b in environ && Clash(a, b) && Entry(a).value != Entry(b).value;
        InconsistentDiffers(c, environ, a, b);
      }
    } else if Rejects(environ) && Crashes(environ) {
      MixedFailuresDiffer(c, environ);
    } else {
      forall c, other | SameEntries(other, environ) ensures Overlay(c, other) == Overlay(c, environ) {
        forall x ensures x in other <==> x in environ {
          SameMembers(other, environ, x);
        }
        FailureKind(c, environ);
        FailureKind(c, other);
      }
    }
  }

  const EMPTY_AUTH := Auth(false, "", Oidc("", "", "", "", []), Access(Rule([], [], []), "", Rule([], [], [])),
                           Session("", 0, "", false), [], [], McpOauth(false, "", [], [], false), false)

  /** Entries for pairwise different leaves commute, unless a list position is negative. */
  lemma DistinctTargetsOrderFree(environ: seq<string>)
    requires forall i, j :: 0 <= i < j < |environ| ==> !Clash(environ[i], environ[j])
    requires !Crashes(environ)
    ensures OrderFree(environ)
  {
    hide Entry, OrderFree;
    OrderExact(environ);
    forall a, b | a in environ && b in environ && Clash(a, b)
      ensures Entry(a).value == Entry(b).value
    {
      var i :| 0 <= i < |environ| && environ[i] == a;
      var j :| 0 <= j < |environ| && environ[j] == b;
    }
  }
}

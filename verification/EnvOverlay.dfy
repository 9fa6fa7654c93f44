/**
 * The overlay of a whole environment on the settings: a fold over the entries in the order the
 * operating system lists them, and the order-free description of what it computes.
 */
module EnvOverlay {
  import opened Prelude
  import opened Strings
  import opened EnvText
  import opened Settings
  import opened EnvPaths
  import EnvPathProofs

  datatype Outcome = Done(config: Config) | Failed | Crashed

  /** Entries without `=` or without the prefix belong to other programs. */
  function Entry(kv: string): (r: Resolution)
    ensures r.Fits()
  {
    match Cut(kv)
    case None => Ignored
    case Some((key, val)) =>
      if PREFIX <= key then Resolve(Split(key[|PREFIX|..], SEPARATOR), val) else Ignored
  }

  function Overlay(c: Config, environ: seq<string>): Outcome
    decreases |environ|
  {
    if environ == [] then Done(c)
    else
      match Entry(environ[0])
      case Ignored => Overlay(c, environ[1..])
      case Rejected => Failed
      case Panics => Crashed
      case Sets(t, v) =>
        Overlay(Write(c, t, v), environ[1..])
  }

  // ----------------------------------------------- order-free description

  ghost predicate Acceptable(environ: seq<string>) {
    forall kv :: kv in environ ==> Entry(kv).Ignored? || Entry(kv).Sets?
  }

  /** The value of the last entry that sets `t`. */
  function LastValue(environ: seq<string>, t: Target): (v: Option<Value>)
    ensures v.None? <==> forall kv :: kv in environ ==> !(Entry(kv).Sets? && Entry(kv).target == t)
    ensures v.Some? ==> exists kv :: kv in environ && Entry(kv) == Sets(t, v.value)
  {
    if environ == [] then None
    else
      assert forall kv :: kv in environ <==> kv == environ[0] || kv in environ[1..];
      match LastValue(environ[1..], t)
      case Some(v) => Some(v)
      case None =>
        if Entry(environ[0]).Sets? && Entry(environ[0]).target == t then Some(Entry(environ[0]).value)
        else None
  }

  /** How long the entries need a list to be. */
  function Needed(environ: seq<string>, l: ListName): (n: nat)
    ensures forall kv :: kv in environ && Entry(kv).Sets? ==> Entry(kv).target.Needs(l) <= n
    ensures n == 0 || exists kv :: kv in environ && Entry(kv).Sets? && Entry(kv).target.Needs(l) == n
  {
    if environ == [] then 0
    else
      assert forall kv :: kv in environ <==> kv == environ[0] || kv in environ[1..];
      var n := Needed(environ[1..], l);
      if Entry(environ[0]).Sets? then Max(Entry(environ[0]).target.Needs(l), n) else n
  }

  /** The overlay completes exactly when every entry is acceptable. */
  lemma {:induction false} DoneExactly(c: Config, environ: seq<string>)
    ensures Overlay(c, environ).Done? <==> Acceptable(environ)
    decreases |environ|
  {
    hide Entry, Write;
    if environ != [] {
      assert forall kv :: kv in environ <==> kv == environ[0] || kv in environ[1..];
      if Entry(environ[0]).Ignored? {
        DoneExactly(c, environ[1..]);
      } else if Entry(environ[0]).Sets? {
        DoneExactly(Write(c, Entry(environ[0]).target, Entry(environ[0]).value), environ[1..]);
      }
    }
  }

  /** Otherwise the first unacceptable entry decides between an error and a crash. */
  lemma {:induction false} FirstBadDecides(c: Config, environ: seq<string>, i: nat)
    requires i < |environ| && Acceptable(environ[..i])
    requires Entry(environ[i]).Rejected? || Entry(environ[i]).Panics?
    ensures Overlay(c, environ) == if Entry(environ[i]).Panics? then Crashed else Failed
    decreases |environ|
  {
    hide Entry, Write;
    if i > 0 {
      assert environ[0] == environ[..i][0];
      assert environ[1..][..i - 1] == environ[..i][1..];
      var next := if Entry(environ[0]).Ignored? then c
                  else Write(c, Entry(environ[0]).target, Entry(environ[0]).value);
      FirstBadDecides(next, environ[1..], i - 1);
    }
  }

  /** Every leaf ends at the value of the last entry that sets it, or stays as it was. */
  lemma {:induction false} OverlayReads(c: Config, environ: seq<string>, t: Target)
    requires Acceptable(environ)
    ensures Overlay(c, environ).Done?
    ensures Read(Overlay(c, environ).config, t) == LastValue(environ, t).GetOr(Read(c, t))
    decreases |environ|
  {
    hide Entry, Write, Read;
    if environ != [] {
      assert forall kv :: kv in environ <==> kv == environ[0] || kv in environ[1..];
      if Entry(environ[0]).Ignored? {
        OverlayReads(c, environ[1..], t);
      } else {
        var first := Entry(environ[0]);
        OverlayReads(Write(c, first.target, first.value), environ[1..], t);
        ReadWrite(c, first.target, first.value, t);
      }
    }
  }

  /** Every list ends at its old length or at the largest position set in it, whichever is longer. */
  lemma {:induction false} OverlayLengths(c: Config, environ: seq<string>, l: ListName)
    requires Acceptable(environ)
    ensures Overlay(c, environ).Done?
    ensures Length(Overlay(c, environ).config, l) == Max(Length(c, l), Needed(environ, l))
    decreases |environ|
  {
    hide Entry, Write, Length;
    if environ != [] {
      assert forall kv :: kv in environ <==> kv == environ[0] || kv in environ[1..];
      if Entry(environ[0]).Ignored? {
        OverlayLengths(c, environ[1..], l);
      } else {
        var first := Entry(environ[0]);
        OverlayLengths(Write(c, first.target, first.value), environ[1..], l);
        LengthWrite(c, first.target, first.value, l);
      }
    }
  }

  /** The description determines the result. */
  lemma SameDescription(c: Config, a: seq<string>, b: seq<string>)
    requires Acceptable(a) && Acceptable(b)
    requires forall t :: LastValue(a, t) == LastValue(b, t)
    requires forall l :: Needed(a, l) == Needed(b, l)
    ensures Overlay(c, a) == Overlay(c, b)
  {
    hide *;
    DoneExactly(c, a);
    DoneExactly(c, b);
    forall t ensures Read(Overlay(c, a).config, t) == Read(Overlay(c, b).config, t) {
      OverlayReads(c, a, t);
      OverlayReads(c, b, t);
    }
    forall l ensures Length(Overlay(c, a).config, l) == Length(Overlay(c, b).config, l) {
      OverlayLengths(c, a, l);
      OverlayLengths(c, b, l);
    }
    SameConfig(Overlay(c, a).config, Overlay(c, b).config);
  }

  // ---------------------------------------------------------- idempotence

  /** Overlaying the same environment again changes nothing. */
  lemma OverlayTwice(c: Config, environ: seq<string>)
    requires Overlay(c, environ).Done?
    ensures Overlay(Overlay(c, environ).config, environ) == Overlay(c, environ)
  {
    hide *;
    DoneExactly(c, environ);
    var once := Overlay(c, environ).config;
    OverlaySettles(c, environ, once);
  }

  lemma OverlaySettles(c: Config, environ: seq<string>, once: Config)
    requires Acceptable(environ) && Overlay(c, environ) == Done(once)
    ensures Overlay(once, environ) == Done(once)
  {
    hide Overlay, Acceptable, LastValue, Needed, Read, Length;
    DoneExactly(once, environ);
    var twice := Overlay(once, environ).config;
    forall t ensures Read(twice, t) == Read(once, t) {
      OverlayReads(c, environ, t);
      OverlayReads(once, environ, t);
    }
    forall l ensures Length(twice, l) == Length(once, l) {
      OverlayLengths(c, environ, l);
      OverlayLengths(once, environ, l);
    }
    SameConfig(twice, once);
  }

  // -------------------------------------------------- spelling of an entry

  /** An entry spelled from the pieces of its key and its value. */
  ghost predicate Spells(kv: string, parts: seq<string>, val: string) {
    && kv == PREFIX + Join(parts, SEPARATOR) + "=" + val
    && '=' !in Join(parts, SEPARATOR)
    && Pieces(parts, SEPARATOR)
  }

  /** An environment string sets a leaf exactly when it spells the leaf's documented path and a value of its kind. */
  lemma EntryExact(kv: string, t: Target, v: Value)
    ensures Entry(kv) == Sets(t, v) <==>
      exists parts, val :: Spells(kv, parts, val) && Matches(PathOf(t), parts) && ParseAs(t.Kind(), val) == Some(v)
  {
    hide Resolve, Matches, ParseAs, Split, Join, Cut, Pieces;
    if Entry(kv) == Sets(t, v) {
      var (key, val) := Cut(kv).value;
      var parts := Split(key[|PREFIX|..], SEPARATOR);
      CutExact(kv, key, val);
      JoinSplit(key[|PREFIX|..], SEPARATOR);
      SplitPieces(key[|PREFIX|..], SEPARATOR);
      assert key == PREFIX + Join(parts, SEPARATOR);
      assert Spells(kv, parts, val);
      EnvPathProofs.ResolveExact(parts, val, t, v);
    }
    forall parts, val | Spells(kv, parts, val) && Matches(PathOf(t), parts) && ParseAs(t.Kind(), val) == Some(v)
      ensures Entry(kv) == Sets(t, v)
    {
      SpelledEntry(kv, parts, val);
      EnvPathProofs.ResolveExact(parts, val, t, v);
    }
  }

  lemma SpelledEntry(kv: string, parts: seq<string>, val: string)
    requires Spells(kv, parts, val)
    ensures Entry(kv) == Resolve(parts, val)
  {
    hide Resolve, Split, Join, Cut, Pieces;
    var key := PREFIX + Join(parts, SEPARATOR);
    PrefixHasNoEquals();
    CutExact(kv, key, val);
    assert key[|PREFIX|..] == Join(parts, SEPARATOR);
    SplitJoin(parts, SEPARATOR);
  }

  lemma PrefixHasNoEquals()
    ensures '=' !in PREFIX
  {
  }

  /** A key the program does not survive. */
  lemma NegativePositionCrashes(c: Config)
    ensures Overlay(c, ["CHESHMHAYASH__NATS__-1__NAME=x"]) == Crashed
  {
    hide Resolve, Cut;
    var parts := ["NATS", "-1", "NAME"];
    NegativePieces();
    assert parts[1..] == ["-1", "NAME"] && parts[1..][1..] == ["NAME"];
    assert Join(parts, SEPARATOR) == "NATS__-1__NAME";
    assert '=' !in "NATS__-1__NAME";
    assert PREFIX + "NATS__-1__NAME" + "=" + "x" == "CHESHMHAYASH__NATS__-1__NAME=x";
    SpelledEntry("CHESHMHAYASH__NATS__-1__NAME=x", parts, "x");
    NegativeResolves();
  }

  lemma NegativePieces()
    ensures Pieces(["NATS", "-1", "NAME"], SEPARATOR)
  {
    NoUnderscore("NATS");
    NoUnderscore("-1");
    NoUnderscore("NAME");
  }

  lemma NoUnderscore(p: string)
    requires '_' !in p
    ensures Avoids(p, SEPARATOR, |p|) && Avoids(p + SEPARATOR, SEPARATOR, |p|)
  {
    forall i | 0 <= i < |p| ensures !(SEPARATOR <= p[i..]) && !(SEPARATOR <= (p + SEPARATOR)[i..]) {
      assert p[i..][0] == p[i] && (p + SEPARATOR)[i..][0] == p[i];
    }
  }

  lemma NegativeResolves()
    ensures Resolve(["NATS", "-1", "NAME"], "x") == Panics
  {
    var parts := ["NATS", "-1", "NAME"];
    assert Lower("NATS") == "nats";
    assert "-1"[1..] == "1" && "1"[..0] == "";
    assert Magnitude("1") == 1;
    assert Atoi("-1") == Some(-1);
    assert parts[0] == "NATS" && parts[1] == "-1";
  }
}

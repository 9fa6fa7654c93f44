/** Splitting a text at a separator and joining the pieces, as `strings.Split` and `strings.Join` do. */
module Strings {

  /** The non-overlapping pieces of `s` between occurrences of `sep`, taken from the left. */
  function Split(s: string, sep: string): (parts: seq<string>)
    requires sep != ""
    ensures |parts| >= 1
    decreases |s|
  {
    if |s| < |sep| then [s]
    else if sep <= s then [""] + Split(s[|sep|..], sep)
    else
      var rest := Split(s[1..], sep);
      [[s[0]] + rest[0]] + rest[1..]
  }

  function Join(parts: seq<string>, sep: string): string {
    if |parts| == 0 then ""
    else if |parts| == 1 then parts[0]
    else parts[0] + sep + Join(parts[1..], sep)
  }

  /** `sep` does not start at any of the first `n` positions of `s`. */
  ghost predicate Avoids(s: string, sep: string, n: nat)
    requires n <= |s|
  {
    forall i :: 0 <= i < n ==> !(sep <= s[i..])
  }

  /** What a list of pieces looks like: every separator found in the joined text is one that joins. */
  ghost predicate Pieces(parts: seq<string>, sep: string) {
    && |parts| >= 1
    && (forall i :: 0 <= i < |parts| - 1 ==> Avoids(parts[i] + sep, sep, |parts[i]|))
    && Avoids(parts[|parts| - 1], sep, |parts[|parts| - 1]|)
  }

  lemma JoinExtended(c: char, rest: seq<string>, sep: string)
    requires |rest| >= 1
    ensures Join([[c] + rest[0]] + rest[1..], sep) == [c] + Join(rest, sep)
  {
    assert ([[c] + rest[0]] + rest[1..])[1..] == rest[1..];
  }

  lemma {:induction false} JoinSplit(s: string, sep: string)
    requires sep != ""
    ensures Join(Split(s, sep), sep) == s
    decreases |s|
  {
    if |s| < |sep| {
    } else if sep <= s {
      JoinSplit(s[|sep|..], sep);
      assert s == sep + s[|sep|..];
      assert ([""] + Split(s[|sep|..], sep))[1..] == Split(s[|sep|..], sep);
    } else {
      JoinSplit(s[1..], sep);
      JoinExtended(s[0], Split(s[1..], sep), sep);
    }
  }

  lemma {:induction false} SplitPieces(s: string, sep: string)
    requires sep != ""
    ensures Pieces(Split(s, sep), sep)
    decreases |s|
  {
    if |s| < |sep| {
    } else if sep <= s {
      SplitPieces(s[|sep|..], sep);
      var rest := Split(s[|sep|..], sep);
      var parts := [""] + rest;
      assert forall i :: 0 < i < |parts| ==> parts[i] == rest[i - 1];
    } else {
      SplitPieces(s[1..], sep);
      JoinSplit(s[1..], sep);
      var rest := Split(s[1..], sep);
      PiecesExtended(s, rest, sep);
    }
  }

  lemma PrefixOfLonger(sep: string, s: string, rest: string)
    requires |sep| <= |s|
    ensures sep <= s + rest <==> sep <= s
  {
    assert (s + rest)[..|sep|] == s[..|sep|];
  }

  /** One more leading character keeps a list of pieces, unless it completes a separator. */
  lemma PiecesExtended(s: string, rest: seq<string>, sep: string)
    requires sep != "" && s != "" && !(sep <= s)
    requires Pieces(rest, sep) && Join(rest, sep) == s[1..]
    ensures Pieces([[s[0]] + rest[0]] + rest[1..], sep)
  {
    hide Avoids;
    var first := [s[0]] + rest[0];
    var parts := [first] + rest[1..];
    assert forall i :: 0 < i < |parts| ==> parts[i] == rest[i];
    if |rest| == 1 {
      AvoidsExtended(s, rest[0], "", sep);
      assert rest[0] + "" == rest[0] && first + "" == first;
    } else {
      assert s == first + sep + Join(rest[1..], sep);
      PrefixOfLonger(sep, first + sep, Join(rest[1..], sep));
      AvoidsExtended(first + sep, rest[0], sep, sep);
    }
  }

  lemma AvoidsExtended(s: string, p: string, tail: string, sep: string)
    requires s != "" && !(sep <= s) && s[1..] == p + tail
    requires Avoids(p + tail, sep, |p|)
    ensures Avoids([s[0]] + p + tail, sep, |p| + 1)
  {
    var t := [s[0]] + p + tail;
    assert t == s;
    forall i | 0 <= i < |p| + 1 ensures !(sep <= t[i..]) {
      if i == 0 {
        assert t[0..] == s;
      } else {
        assert t[i..] == (p + tail)[i - 1..];
      }
    }
  }

  lemma {:induction false} SplitFirst(p: string, rest: string, sep: string)
    requires sep != "" && Avoids(p + sep, sep, |p|)
    ensures Split(p + sep + rest, sep) == [p] + Split(rest, sep)
    decreases |p|
  {
    var s := p + sep + rest;
    if p == "" {
      assert s == sep + rest;
      assert s[|sep|..] == rest;
    } else {
      assert !(sep <= (p + sep)[0..]);
      PrefixOfLonger(sep, p + sep, rest);
      var q := p[1..];
      forall i | 0 <= i < |q| ensures !(sep <= (q + sep)[i..]) {
        assert (q + sep)[i..] == (p + sep)[i + 1..];
      }
      SplitFirst(q, rest, sep);
      assert s[1..] == q + sep + rest;
      assert p == [p[0]] + q;
    }
  }

  lemma {:induction false} SplitLast(p: string, sep: string)
    requires sep != "" && Avoids(p, sep, |p|)
    ensures Split(p, sep) == [p]
    decreases |p|
  {
    if |p| >= |sep| {
      assert p[0..] == p;
      forall i | 0 <= i < |p[1..]| ensures !(sep <= p[1..][i..]) {
        assert p[1..][i..] == p[i + 1..];
      }
      SplitLast(p[1..], sep);
      assert p == [p[0]] + p[1..];
    }
  }

  /**
   * Split and Join are inverse: every string is the join of its pieces, and exactly the lists that
   * are pieces come back from the string they join to.
   */
  lemma {:induction false} SplitJoin(parts: seq<string>, sep: string)
    requires sep != ""
    ensures Split(Join(parts, sep), sep) == parts <==> Pieces(parts, sep)
    decreases |parts|
  {
    if Split(Join(parts, sep), sep) == parts {
      SplitPieces(Join(parts, sep), sep);
    }
    if Pieces(parts, sep) {
      if |parts| == 1 {
        SplitLast(parts[0], sep);
      } else {
        var rest := parts[1..];
        assert forall i :: 0 <= i < |rest| ==> rest[i] == parts[i + 1];
        SplitJoin(rest, sep);
        SplitFirst(parts[0], Join(rest, sep), sep);
        assert parts == [parts[0]] + rest;
      }
    }
  }

  lemma {:induction false} JoinSnoc(parts: seq<string>, x: string, sep: string)
    ensures Join(parts + [x], sep) == if parts == [] then x else Join(parts, sep) + sep + x
  {
    if |parts| == 1 {
      assert (parts + [x])[1..] == [x];
    } else if |parts| > 1 {
      assert (parts + [x])[1..] == parts[1..] + [x];
      JoinSnoc(parts[1..], x, sep);
    }
  }

  /** For a one-character separator the pieces are the texts without that character. */
  lemma SingleSeparator(p: string, sep: string)
    requires |sep| == 1
    ensures sep[0] !in p <==> Avoids(p, sep, |p|)
    ensures sep[0] !in p <==> Avoids(p + sep, sep, |p|)
  {
    forall i | 0 <= i < |p|
      ensures sep <= p[i..] <==> p[i] == sep[0]
      ensures sep <= (p + sep)[i..] <==> p[i] == sep[0]
    {
      assert p[i..][0] == p[i];
      assert (p + sep)[i..][0] == p[i];
    }
    if sep[0] in p {
      var i :| 0 <= i < |p| && p[i] == sep[0];
      assert sep <= p[i..] && sep <= (p + sep)[i..];
    }
  }
}

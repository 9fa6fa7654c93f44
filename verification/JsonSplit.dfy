/**
 * A scanner that knows no grammar, only bracket depth, strings and escapes, and cuts a text at the
 * commas it meets outside all of them.
 */
module JsonSplit {
  import opened JsonText

  datatype State = State(depth: int, inString: bool, escaped: bool)

  const TOP := State(0, false, false)

  function Step(st: State, c: char): State {
    if st.inString then
      if st.escaped then st.(escaped := false)
      else if c == '\\' then st.(escaped := true)
      else if c == '"' then st.(inString := false)
      else st
    else if c == '"' then st.(inString := true)
    else if c == '[' || c == '{' then st.(depth := st.depth + 1)
    else if c == ']' || c == '}' then st.(depth := st.depth - 1)
    else st
  }

  function After(s: string, st: State): State {
    if s == "" then st else After(s[1..], Step(st, s[0]))
  }

  predicate Cuts(c: char, st: State) {
    c == ',' && st == TOP
  }

  function Cut(s: string, st: State): (parts: seq<string>)
    ensures |parts| >= 1
  {
    if s == "" then [""]
    else if Cuts(s[0], st) then [""] + Cut(s[1..], st)
    else
      var rest := Cut(s[1..], Step(st, s[0]));
      [[s[0]] + rest[0]] + rest[1..]
  }

  /** Scanned from `st`, the text is not cut. */
  predicate Quiet(s: string, st: State) {
    s == "" || (!Cuts(s[0], st) && Quiet(s[1..], Step(st, s[0])))
  }

  lemma {:induction false} AfterConcat(a: string, b: string, st: State)
    ensures After(a + b, st) == After(b, After(a, st))
    ensures Quiet(a + b, st) <==> Quiet(a, st) && Quiet(b, After(a, st))
    decreases |a|
  {
    if a == "" {
      assert a + b == b;
    } else {
      assert (a + b)[1..] == a[1..] + b;
      AfterConcat(a[1..], b, Step(st, a[0]));
    }
  }

  /** The text leaves the scanner where it was, uncut. */
  predicate Passes(s: string, st: State) {
    After(s, st) == st && Quiet(s, st)
  }

  lemma PassesConcat(a: string, b: string, st: State)
    requires Passes(a, st) && Passes(b, st)
    ensures Passes(a + b, st)
  {
    AfterConcat(a, b, st);
  }

  predicate Inert(c: char) {
    c != ',' && c != '"' && c != '[' && c != ']' && c != '{' && c != '}'
  }

  lemma {:induction false} InertPasses(s: string, st: State)
    requires !st.inString
    requires forall i :: 0 <= i < |s| ==> Inert(s[i])
    ensures Passes(s, st)
    decreases |s|
  {
    if s != "" {
      assert Inert(s[0]);
      InertPasses(s[1..], st);
    }
  }

  lemma WsPasses(s: string, st: State)
    requires !st.inString && IsWs(s)
    ensures Passes(s, st)
  {
    InertPasses(s, st);
  }

  lemma DigitsPass(s: string, st: State)
    requires !st.inString && Digits(s)
    ensures Passes(s, st)
  {
    hide Passes;
    InertPasses(s, st);
  }

  lemma FractionPasses(s: string, st: State)
    requires !st.inString && s != "" && s[0] == '.' && Digits(s[1..])
    ensures Passes(s, st)
  {
    hide Passes;
    InertPasses(".", st);
    DigitsPass(s[1..], st);
    PassesConcat(".", s[1..], st);
    assert s == "." + s[1..];
  }

  lemma ExponentPasses(s: string, st: State)
    requires !st.inString && IsExponent(s)
    ensures Passes(s, st)
  {
    hide Passes;
    assert Inert(s[0]);
    var n := if s[1] in "+-" then 2 else 1;
    if n == 2 {
      assert Inert(s[1]);
    }
    InertPasses(s[..n], st);
    DigitsPass(s[n..], st);
    PassesConcat(s[..n], s[n..], st);
    assert s == s[..n] + s[n..];
  }

  lemma NumberPasses(s: string, st: State)
    requires !st.inString && IsNumber(s)
    ensures Passes(s, st)
  {
    hide Passes, IsExponent, Digits;
    var minus, whole, frac, exp :|
      && s == minus + whole + frac + exp
      && minus in ["", "-"]
      && Digits(whole) && (whole != "" && whole[0] == '0' ==> |whole| == 1)
      && (frac == "" || (frac[0] == '.' && Digits(frac[1..])))
      && (exp == "" || IsExponent(exp));
    InertPasses(minus, st);
    DigitsPass(whole, st);
    if frac == "" { InertPasses(frac, st); } else { FractionPasses(frac, st); }
    if exp == "" { InertPasses(exp, st); } else { ExponentPasses(exp, st); }
    PassesConcat(minus, whole, st);
    PassesConcat(minus + whole, frac, st);
    PassesConcat(minus + whole + frac, exp, st);
  }

  // ------------------------------------------------------------- strings

  lemma OneStep(c: char, st: State)
    ensures After([c], st) == Step(st, c)
    ensures Quiet([c], st) <==> !Cuts(c, st)
  {
    assert [c][1..] == "";
  }

  lemma CharPasses(x: Char, st: State)
    requires CharWf(x) && st.inString && !st.escaped
    ensures Passes(CharText(x), st)
  {
    match x
    case Plain(c) => OneStep(c, st);
    case Escaped(c) =>
      OneStep('\\', st);
      OneStep(c, st.(escaped := true));
      AfterConcat(['\\'], [c], st);
      assert ['\\', c] == ['\\'] + [c];
    case Hex(ds) =>
      OneStep('\\', st);
      OneStep('u', st.(escaped := true));
      AfterConcat(['\\'], ['u'], st);
      assert ['\\', 'u'] == ['\\'] + ['u'];
      HexPasses(ds, st);
      AfterConcat(['\\', 'u'], ds, st);
  }

  lemma {:induction false} HexPasses(s: string, st: State)
    requires st.inString && !st.escaped
    requires forall i :: 0 <= i < |s| ==> IsHexDigit(s[i])
    ensures Passes(s, st)
    decreases |s|
  {
    if s != "" {
      assert IsHexDigit(s[0]);
      HexPasses(s[1..], st);
    }
  }

  lemma {:induction false} CharsPass(xs: seq<Char>, st: State)
    requires forall i :: 0 <= i < |xs| ==> CharWf(xs[i])
    requires st.inString && !st.escaped
    ensures Passes(CharsText(xs), st)
  {
    if xs != [] {
      CharPasses(xs[0], st);
      CharsPass(xs[1..], st);
      PassesConcat(CharText(xs[0]), CharsText(xs[1..]), st);
    }
  }

  lemma StringPasses(xs: seq<Char>, st: State)
    requires forall i :: 0 <= i < |xs| ==> CharWf(xs[i])
    requires !st.inString && !st.escaped
    ensures Passes(StringText(xs), st)
  {
    hide CharsText;
    var inside := st.(inString := true);
    CharsPass(xs, inside);
    Wrapped("\"", CharsText(xs), "\"", st, inside);
  }

  /** A one-character opener, a text that passes inside it, and the closer that undoes the opener. */
  lemma Wrapped(open: string, s: string, close: string, st: State, inside: State)
    requires |open| == 1 && |close| == 1
    requires Step(st, open[0]) == inside && Step(inside, close[0]) == st
    requires !Cuts(open[0], st) && !Cuts(close[0], inside)
    requires Passes(s, inside)
    ensures Passes(open + s + close, st)
  {
    assert open[1..] == "" && close[1..] == "";
    assert After(open, st) == inside && Quiet(open, st);
    assert After(close, inside) == st && Quiet(close, inside);
    AfterConcat(open, s, st);
    AfterConcat(open + s, close, st);
  }

  // -------------------------------------------------------------- values

  lemma BracketsPass(gap: string, body: string, st: State)
    requires IsWs(gap) && !st.inString && !st.escaped && st.depth >= 0
    requires Passes(body, st.(depth := st.depth + 1))
    ensures Passes("[" + gap + body + "]", st)
    ensures Passes("{" + gap + body + "}", st)
  {
    hide Passes, IsWs;
    var inside := st.(depth := st.depth + 1);
    WsPasses(gap, inside);
    PassesConcat(gap, body, inside);
    Wrapped("[", gap + body, "]", st, inside);
    Wrapped("{", gap + body, "}", st, inside);
    assert "[" + gap + body + "]" == "[" + (gap + body) + "]";
    assert "{" + gap + body + "}" == "{" + (gap + body) + "}";
  }

  lemma {:induction false} ValuePasses(v: Value, st: State)
    requires ValueWf(v) && !st.inString && !st.escaped && st.depth >= 0
    ensures Passes(ValueText(v), st)
    decreases v
  {
    hide Passes, IsWs, CharWf, IsNumber;
    match v
    case Literal(w) => InertPasses(w, st);
    case Number(ds) => NumberPasses(ds, st);
    case Str(xs) => StringPasses(xs, st);
    case Arr(gap, es) =>
      ElementsPass(es, st.(depth := st.depth + 1));
      BracketsPass(gap, ElementsText(es), st);
    case Obj(gap, ms) =>
      MembersPass(ms, st.(depth := st.depth + 1));
      BracketsPass(gap, MembersText(ms), st);
  }

  lemma {:induction false} NodePasses(n: Node, st: State)
    requires NodeWf(n) && !st.inString && !st.escaped && st.depth >= 0
    ensures Passes(NodeText(n), st)
    decreases n
  {
    hide Passes;
    WsPasses(n.before, st);
    ValuePasses(n.value, st);
    WsPasses(n.after, st);
    PassesConcat(n.before, ValueText(n.value), st);
    PassesConcat(n.before + ValueText(n.value), n.after, st);
  }

  /** Below the top level a comma is one more character. */
  lemma CommaPasses(st: State)
    requires !st.inString && st.depth > 0
    ensures Passes(",", st) && Passes(":", st)
  {
    assert ","[1..] == "" && ":"[1..] == "";
  }

  lemma {:induction false} ElementsPass(es: seq<Node>, st: State)
    requires forall i :: 0 <= i < |es| ==> NodeWf(es[i])
    requires !st.inString && !st.escaped && st.depth > 0
    ensures Passes(ElementsText(es), st)
    decreases es
  {
    hide Passes;
    if |es| == 0 {
      InertPasses("", st);
    } else {
      NodePasses(es[0], st);
      if |es| > 1 {
        ElementsPass(es[1..], st);
        CommaPasses(st);
        PassesConcat(NodeText(es[0]), ",", st);
        PassesConcat(NodeText(es[0]) + ",", ElementsText(es[1..]), st);
      }
    }
  }

  lemma {:induction false} MemberPasses(m: Member, st: State)
    requires MemberWf(m) && !st.inString && !st.escaped && st.depth > 0
    ensures Passes(MemberText(m), st)
    decreases m
  {
    hide Passes;
    WsPasses(m.before, st);
    StringPasses(m.key, st);
    WsPasses(m.afterKey, st);
    CommaPasses(st);
    NodePasses(m.node, st);
    PassesConcat(m.before, StringText(m.key), st);
    PassesConcat(m.before + StringText(m.key), m.afterKey, st);
    PassesConcat(m.before + StringText(m.key) + m.afterKey, ":", st);
    PassesConcat(m.before + StringText(m.key) + m.afterKey + ":", NodeText(m.node), st);
  }

  lemma {:induction false} MembersPass(ms: seq<Member>, st: State)
    requires forall i :: 0 <= i < |ms| ==> MemberWf(ms[i])
    requires !st.inString && !st.escaped && st.depth > 0
    ensures Passes(MembersText(ms), st)
    decreases ms
  {
    hide Passes;
    if |ms| == 0 {
      InertPasses("", st);
    } else {
      MemberPasses(ms[0], st);
      if |ms| > 1 {
        MembersPass(ms[1..], st);
        CommaPasses(st);
        PassesConcat(MemberText(ms[0]), ",", st);
        PassesConcat(MemberText(ms[0]) + ",", MembersText(ms[1..]), st);
      }
    }
  }

  // ------------------------------------------------------------- cutting

  lemma {:induction false} CutQuiet(s: string, st: State)
    requires Quiet(s, st)
    ensures Cut(s, st) == [s]
  {
    if s != "" {
      CutQuiet(s[1..], Step(st, s[0]));
      assert s == [s[0]] + s[1..];
    }
  }

  lemma {:induction false} CutAt(s: string, rest: string, st: State)
    requires Quiet(s, st) && After(s, st) == TOP
    ensures Cut(s + "," + rest, st) == [s] + Cut(rest, TOP)
    decreases |s|
  {
    var t := s + "," + rest;
    if s == "" {
      assert t[1..] == rest;
    } else {
      assert t[1..] == s[1..] + "," + rest;
      CutAt(s[1..], rest, Step(st, s[0]));
      assert s == [s[0]] + s[1..];
    }
  }
}

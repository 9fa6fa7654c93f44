/**
 * JSON texts by the grammar of RFC 8259: concrete syntax trees with their whitespace, and the text
 * each tree stands for.
 */
module JsonText {

  /** A digit string, a word or an escape is kept as written; `Wf` says which are allowed. */
  datatype Value =
    | Literal(word: string)
    | Number(digits: string)
    | Str(chars: seq<Char>)
    | Arr(gap: string, elements: seq<Node>)
    | Obj(gap: string, members: seq<Member>)

  /** A value with the whitespace around it: section 2's `JSON-text`. */
  datatype Node = Node(before: string, value: Value, after: string)

  datatype Member = Member(before: string, key: seq<Char>, afterKey: string, node: Node)

  datatype Char = Plain(c: char) | Escaped(c: char) | Hex(digits: string)

  predicate IsWs(s: string) {
    forall i :: 0 <= i < |s| ==> s[i] in " \t\n\r"
  }

  predicate IsHexDigit(c: char) {
    '0' <= c <= '9' || 'a' <= c <= 'f' || 'A' <= c <= 'F'
  }

  predicate CharWf(x: Char) {
    match x
    case Plain(c) => c >= ' ' && c != '"' && c != '\\'
    case Escaped(c) => c in "\"\\/bfnrt"
    case Hex(ds) => |ds| == 4 && forall i :: 0 <= i < 4 ==> IsHexDigit(ds[i])
  }

  function CharText(x: Char): string {
    match x
    case Plain(c) => [c]
    case Escaped(c) => ['\\', c]
    case Hex(ds) => ['\\', 'u'] + ds
  }

  predicate Digits(s: string) {
    s != "" && forall i :: 0 <= i < |s| ==> '0' <= s[i] <= '9'
  }

  /** Section 6: `[ minus ] int [ frac ] [ exp ]`. */
  ghost predicate IsNumber(s: string) {
    exists minus, whole, frac, exp ::
      && s == minus + whole + frac + exp
      && minus in ["", "-"]
      && Digits(whole) && (whole[0] == '0' ==> |whole| == 1)
      && (frac == "" || (frac[0] == '.' && Digits(frac[1..])))
      && (exp == "" || IsExponent(exp))
  }

  predicate IsExponent(s: string) {
    && |s| >= 2
    && s[0] in "eE"
    && Digits(if s[1] in "+-" then s[2..] else s[1..])
  }

  function CharsText(xs: seq<Char>): string {
    if xs == [] then "" else CharText(xs[0]) + CharsText(xs[1..])
  }

  function StringText(xs: seq<Char>): string {
    "\"" + CharsText(xs) + "\""
  }

  function ValueText(v: Value): string
    decreases v
  {
    match v
    case Literal(w) => w
    case Number(ds) => ds
    case Str(xs) => StringText(xs)
    case Arr(gap, es) => "[" + gap + ElementsText(es) + "]"
    case Obj(gap, ms) => "{" + gap + MembersText(ms) + "}"
  }

  function NodeText(n: Node): string
    decreases n
  {
    n.before + ValueText(n.value) + n.after
  }

  function MemberText(m: Member): string
    decreases m
  {
    m.before + StringText(m.key) + m.afterKey + ":" + NodeText(m.node)
  }

  function ElementsText(es: seq<Node>): string
    decreases es
  {
    if |es| == 0 then ""
    else if |es| == 1 then NodeText(es[0])
    else NodeText(es[0]) + "," + ElementsText(es[1..])
  }

  function MembersText(ms: seq<Member>): string
    decreases ms
  {
    if |ms| == 0 then ""
    else if |ms| == 1 then MemberText(ms[0])
    else MemberText(ms[0]) + "," + MembersText(ms[1..])
  }

  /** The gap is the whitespace inside empty brackets. */
  ghost predicate ValueWf(v: Value)
    decreases v
  {
    match v
    case Literal(w) => w in ["null", "true", "false"]
    case Number(ds) => IsNumber(ds)
    case Str(xs) => forall i :: 0 <= i < |xs| ==> CharWf(xs[i])
    case Arr(gap, es) =>
      IsWs(gap) && (es != [] ==> gap == "") && forall i :: 0 <= i < |es| ==> NodeWf(es[i])
    case Obj(gap, ms) =>
      IsWs(gap) && (ms != [] ==> gap == "") && forall i :: 0 <= i < |ms| ==> MemberWf(ms[i])
  }

  ghost predicate NodeWf(n: Node)
    decreases n
  {
    IsWs(n.before) && ValueWf(n.value) && IsWs(n.after)
  }

  ghost predicate MemberWf(m: Member)
    decreases m
  {
    && IsWs(m.before)
    && (forall i :: 0 <= i < |m.key| ==> CharWf(m.key[i]))
    && IsWs(m.afterKey)
    && NodeWf(m.node)
  }

  /** A JSON text of RFC 8259. */
  ghost predicate Valid(text: string) {
    exists n :: NodeWf(n) && NodeText(n) == text
  }

  // ---------------------------------------------------------------- nesting

  const MAX_NESTING: nat := 10000

  /** How many brackets are open at the deepest place. */
  function Depth(v: Value): nat
    decreases v
  {
    match v
    case Arr(_, es) => 1 + ElementsDepth(es)
    case Obj(_, ms) => 1 + MembersDepth(ms)
    case _ => 0
  }

  function ElementsDepth(es: seq<Node>): nat
    decreases es
  {
    if es == [] then 0
    else
      var first, rest := Depth(es[0].value), ElementsDepth(es[1..]);
      if first > rest then first else rest
  }

  function MembersDepth(ms: seq<Member>): nat
    decreases ms
  {
    if ms == [] then 0
    else
      var first, rest := Depth(ms[0].node.value), MembersDepth(ms[1..]);
      if first > rest then first else rest
  }

  /** `json.Valid`: Go's scanner also gives up on texts nested too deeply. */
  ghost predicate GoValid(text: string) {
    exists n :: NodeWf(n) && NodeText(n) == text && Depth(n.value) <= MAX_NESTING
  }
}

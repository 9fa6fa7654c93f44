/** One line of input as JSON, and as `json.Unmarshal` reads it into the request struct. */
module McpFrames {
  import opened Prelude

  /** The text of a JSON value is never empty. */
  type RawText = s: string | s != "" witness "0"

  datatype Kind = Null | Boolean | Number | Str(content: string) | Array | Object

  datatype Value = Value(kind: Kind, raw: RawText)

  datatype Member = Member(name: string, value: Value)

  /** Text that is not JSON, the JSON value null, any other that is no object, or an object's members in order. */
  datatype Doc = NotJson | NullDoc | NoObject | Members(members: seq<Member>)

  /** What `json.Unmarshal` leaves in the request struct, where an absent member is the empty text, or nothing
      when it returns an error. */
  datatype Frame = Unread | Frame(jsonrpc: string, id: string, verb: string, params: string)

  const EMPTY_FRAME := Frame("", "", "", "")

  const JSONRPC := "jsonrpc"
  const ID := "id"
  const METHOD := "method"
  const PARAMS := "params"

  /** Upper case, as far as ASCII texts have to be told apart: the long s and the Kelvin sign fold to letters. */
  function FoldChar(c: char): char {
    if 'a' <= c <= 'z' then c - 'a' + 'A'
    else if c == '\U{017F}' then 'S'
    else if c == '\U{212A}' then 'K'
    else c
  }

  function Fold(s: string): string {
    seq(|s|, i requires 0 <= i < |s| => FoldChar(s[i]))
  }

  /** A member goes to the field whose name it has but for the case of letters. */
  predicate Matches(m: Member, field: string) {
    Fold(m.name) == Fold(field)
  }

  /** Two fields are strings, the others keep any value as raw text. */
  predicate Textual(field: string) {
    field == JSONRPC || field == METHOD
  }

  predicate Fits(m: Member) {
    Matches(m, JSONRPC) || Matches(m, METHOD) ==> m.value.kind.Str? || m.value.kind.Null?
  }

  predicate AllFit(members: seq<Member>) {
    forall i :: 0 <= i < |members| ==> Fits(members[i])
  }

  /** A null leaves a string as it is. */
  function NewText(before: string, v: Value): string {
    match v.kind
    case Str(content) => content
    case _ => before
  }

  function Store(f: Frame, m: Member): Frame
    requires f.Frame?
    ensures Store(f, m).Frame?
  {
    if Matches(m, JSONRPC) then f.(jsonrpc := NewText(f.jsonrpc, m.value))
    else if Matches(m, ID) then f.(id := m.value.raw)
    else if Matches(m, METHOD) then f.(verb := NewText(f.verb, m.value))
    else if Matches(m, PARAMS) then f.(params := m.value.raw)
    else f
  }

  function Stored(members: seq<Member>): Frame
    ensures Stored(members).Frame?
  {
    if members == [] then EMPTY_FRAME else Store(Stored(members[..|members| - 1]), members[|members| - 1])
  }

  /** A member of the wrong type fails the whole object; so does anything that is no object but null. */
  function Unmarshal(d: Doc): Frame {
    match d
    case NotJson => Unread
    case NullDoc => EMPTY_FRAME
    case NoObject => Unread
    case Members(members) => if AllFit(members) then Stored(members) else Unread
  }

  // ------------------------------------------------------- field by field

  /** The value a field ends up with: the last one given to it, nulls for a string not counted. */
  function Field(members: seq<Member>, field: string): Option<Value> {
    if members == [] then None
    else
      var last := members[|members| - 1];
      if Matches(last, field) && !(Textual(field) && last.value.kind.Null?) then Some(last.value)
      else Field(members[..|members| - 1], field)
  }

  function TextOf(v: Option<Value>): string {
    if v.Some? && v.value.kind.Str? then v.value.kind.content else ""
  }

  function RawOf(v: Option<Value>): string {
    if v.Some? then v.value.raw else ""
  }

  lemma NamesApart()
    ensures Fold(JSONRPC) != Fold(ID) && Fold(JSONRPC) != Fold(METHOD) && Fold(JSONRPC) != Fold(PARAMS)
    ensures Fold(ID) != Fold(METHOD) && Fold(ID) != Fold(PARAMS) && Fold(METHOD) != Fold(PARAMS)
  {
    assert Fold(METHOD)[0] == 'M' && Fold(PARAMS)[0] == 'P';
  }

  /** The order of members matters only among those of one field. */
  lemma {:induction false} StoredFields(members: seq<Member>)
    requires AllFit(members)
    ensures Stored(members) ==
      Frame(TextOf(Field(members, JSONRPC)), RawOf(Field(members, ID)),
            TextOf(Field(members, METHOD)), RawOf(Field(members, PARAMS)))
  {
    hide Fold;
    NamesApart();
    if members != [] {
      assert Fits(members[|members| - 1]);
      StoredFields(members[..|members| - 1]);
    }
  }
}

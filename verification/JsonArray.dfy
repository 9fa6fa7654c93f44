/**
 * The overview's replies on their way out: collected by `discover`, joined into one array by three
 * separately written functions, and cut apart again by any reader of the array.
 */
module JsonArray {
  import opened Strings
  import opened JsonText
  import opened JsonSplit

  function ArrayText(items: seq<string>): string {
    "[" + Join(items, ",") + "]"
  }

  // ---------------------------------------------------------- the joiners

  /** `bytes.Buffer` and `http.ResponseWriter`: text is only ever appended. */
  class Output {
    var header: map<string, string>
    var status: nat
    var body: string

    constructor ()
      ensures header == map[] && status == 0 && body == ""
    {
      header, status, body := map[], 0, "";
    }

    method Write(s: string)
      modifies this`body
      ensures body == old(body) + s
    {
      body := body + s;
    }
  }

  /** `marshalArray`, filling the snapshot of the cache. */
  method MarshalArray(items: seq<string>) returns (text: string)
    ensures text == ArrayText(items)
  {
    if |items| == 0 {
      return "[]";
    }
    var buf := new Output();
    buf.Write("[");
    for i := 0 to |items|
      invariant buf.body == "[" + Join(items[..i], ",")
    {
      if i > 0 {
        buf.Write(",");
      }
      buf.Write(items[i]);
      JoinSnoc(items[..i], items[i], ",");
      assert items[..i + 1] == items[..i] + [items[i]];
    }
    buf.Write("]");
    assert items[..|items|] == items;
    return buf.body;
  }

  /** `rawArray`, the text of an MCP tool result. */
  method RawArray(items: seq<string>) returns (text: string)
    ensures text == ArrayText(items)
  {
    if |items| == 0 {
      return "[]";
    }
    text := "[";
    for i := 0 to |items|
      invariant text == "[" + Join(items[..i], ",")
    {
      if i > 0 {
        text := text + ",";
      }
      text := text + items[i];
      JoinSnoc(items[..i], items[i], ",");
      assert items[..i + 1] == items[..i] + [items[i]];
    }
    text := text + "]";
    assert items[..|items|] == items;
  }

  /** `writeRawArray`, straight into an HTTP response. */
  method WriteRawArray(w: Output, items: seq<string>)
    modifies w
    ensures w.header == old(w.header)["Content-Type" := "application/json"] && w.status == 200
    ensures w.body == old(w.body) + ArrayText(items)
  {
    w.header := w.header["Content-Type" := "application/json"];
    w.status := 200;
    if |items| == 0 {
      w.Write("[]");
      return;
    }
    w.Write("[");
    for i := 0 to |items|
      invariant w.body == old(w.body) + ("[" + Join(items[..i], ","))
      invariant w.header == old(w.header)["Content-Type" := "application/json"] && w.status == 200
    {
      if i > 0 {
        w.Write(",");
      }
      w.Write(items[i]);
      JoinSnoc(items[..i], items[i], ",");
      assert items[..i + 1] == items[..i] + [items[i]];
    }
    w.Write("]");
    assert items[..|items|] == items;
  }

  // ------------------------------------------------------------- discover

  /** The arrivals that Go takes for JSON, in arrival order. */
  ghost function ValidOnes(arrivals: seq<string>): seq<string> {
    if arrivals == [] then []
    else
      var last := arrivals[|arrivals| - 1];
      ValidOnes(arrivals[..|arrivals| - 1]) + (if GoValid(last) then [last] else [])
  }

  /** The replies are the arrivals at increasing positions, and no valid arrival is left out. */
  ghost predicate Picked(arrivals: seq<string>, replies: seq<string>, at: seq<nat>) {
    && |at| == |replies|
    && (forall k :: 0 <= k < |at| ==> at[k] < |arrivals| && replies[k] == arrivals[at[k]] && GoValid(arrivals[at[k]]))
    && (forall k, l :: 0 <= k < l < |at| ==> at[k] < at[l])
    && (forall i :: 0 <= i < |arrivals| && GoValid(arrivals[i]) ==> i in at)
  }

  /** Order and completeness of the replies. */
  lemma {:induction false} ValidPicked(arrivals: seq<string>) returns (at: seq<nat>)
    ensures Picked(arrivals, ValidOnes(arrivals), at)
  {
    hide GoValid, Picked;
    if arrivals == [] {
      at := [];
      NonePicked();
    } else {
      var n := |arrivals| - 1;
      at := ValidPicked(arrivals[..n]);
      assert arrivals == arrivals[..n] + [arrivals[n]];
      PickedSnoc(arrivals[..n], arrivals[n], ValidOnes(arrivals[..n]), at);
      var replies := ValidOnes(arrivals[..n]);
      if GoValid(arrivals[n]) {
        at := at + [n];
        assert ValidOnes(arrivals) == replies + [arrivals[n]];
      } else {
        assert ValidOnes(arrivals) == replies;
      }
    }
  }

  lemma NonePicked()
    ensures Picked([], [], [])
  {
  }

  lemma PickedSnoc(arrivals: seq<string>, r: string, replies: seq<string>, at: seq<nat>)
    requires Picked(arrivals, replies, at)
    ensures if GoValid(r) then Picked(arrivals + [r], replies + [r], at + [|arrivals|]) else Picked(arrivals + [r], replies, at)
  {
    hide GoValid;
    var all, at' := arrivals + [r], if GoValid(r) then at + [|arrivals|] else at;
    assert forall i :: 0 <= i < |arrivals| ==> all[i] == arrivals[i];
    forall i | 0 <= i < |all| && GoValid(all[i]) ensures i in at' {
      if i < |arrivals| {
        var k :| 0 <= k < |at| && at[k] == i;
        assert at'[k] == i;
      } else {
        assert at'[|at|] == i;
      }
    }
  }

  /** `isValid` is the library's `json.Valid`; the arrivals are those before the deadline. */
  method Discover(arrivals: seq<string>, isValid: string -> bool) returns (replies: seq<string>)
    requires forall s :: isValid(s) <==> GoValid(s)
    ensures replies == ValidOnes(arrivals) && exists at :: Picked(arrivals, replies, at)
    ensures forall r :: r in replies ==> Valid(r)
  {
    replies := [];
    for i := 0 to |arrivals|
      invariant replies == ValidOnes(arrivals[..i])
      invariant forall r :: r in replies ==> Valid(r)
    {
      assert arrivals[..i + 1][..i] == arrivals[..i];
      if !isValid(arrivals[i]) {
        continue;
      }
      replies := replies + [arrivals[i]];
    }
    assert arrivals[..|arrivals|] == arrivals;
    ghost var at := ValidPicked(arrivals);
  }

  // -------------------------------------------------------- reading back

  /** The members of an array, by the scanner alone. */
  function Items(text: string): seq<string>
    requires |text| >= 2
  {
    if text == "[]" then [] else JsonSplit.Cut(text[1..|text| - 1], TOP)
  }

  ghost predicate AllValid(items: seq<string>) {
    forall i :: 0 <= i < |items| ==> Valid(items[i])
  }

  lemma {:induction false} CutJoined(items: seq<string>)
    requires AllValid(items) && items != []
    ensures JsonSplit.Cut(Join(items, ","), TOP) == items
  {
    assert Valid(items[0]);
    var n :| NodeWf(n) && NodeText(n) == items[0];
    NodePasses(n, TOP);
    if |items| == 1 {
      CutQuiet(items[0], TOP);
    } else {
      CutAt(items[0], Join(items[1..], ","), TOP);
      assert forall i :: 0 <= i < |items| - 1 ==> items[1..][i] == items[i + 1];
      CutJoined(items[1..]);
    }
  }

  lemma ValueNotEmpty(v: Value)
    requires ValueWf(v)
    ensures ValueText(v) != ""
  {
  }

  lemma ValidNotEmpty(text: string)
    requires Valid(text)
    ensures text != ""
  {
    hide ValueText, ValueWf;
    var n :| NodeWf(n) && NodeText(n) == text;
    ValueNotEmpty(n.value);
  }

  /** A reader cuts the array into exactly the replies it was joined from, byte for byte. */
  lemma ItemsOfArray(items: seq<string>)
    requires AllValid(items)
    ensures Items(ArrayText(items)) == items
  {
    hide JsonSplit.Cut, AllValid;
    if items != [] {
      var text := ArrayText(items);
      assert text[1..|text| - 1] == Join(items, ",");
      CutJoined(items);
      FirstNotEmpty(items);
      assert Join(items, ",") != "";
      assert |text| > 2;
    }
  }

  lemma FirstNotEmpty(items: seq<string>)
    requires AllValid(items) && items != []
    ensures items[0] != ""
  {
    ValidNotEmpty(items[0]);
  }

  /** Different replies never make the same array. */
  lemma ArrayInjective(a: seq<string>, b: seq<string>)
    requires AllValid(a) && AllValid(b)
    ensures ArrayText(a) == ArrayText(b) <==> a == b
  {
    hide *;
    if ArrayText(a) == ArrayText(b) {
      ItemsOfArray(a);
      ItemsOfArray(b);
    }
  }

  // ------------------------------------------------------ the array is JSON

  ghost predicate TreesOf(nodes: seq<Node>, items: seq<string>) {
    && |nodes| == |items|
    && forall i :: 0 <= i < |items| ==> NodeWf(nodes[i]) && NodeText(nodes[i]) == items[i]
  }

  lemma {:induction false} ElementsOf(items: seq<string>) returns (nodes: seq<Node>)
    requires AllValid(items)
    ensures TreesOf(nodes, items)
    ensures ElementsText(nodes) == Join(items, ",")
  {
    if items == [] {
      nodes := [];
    } else {
      assert Valid(items[0]);
      var n :| NodeWf(n) && NodeText(n) == items[0];
      assert forall i :: 0 <= i < |items| - 1 ==> items[1..][i] == items[i + 1];
      var rest := ElementsOf(items[1..]);
      nodes := [n] + rest;
      assert nodes[1..] == rest;
    }
  }

  /** The joined text is a JSON array whose elements are the joined replies. */
  lemma ArrayIsJson(items: seq<string>)
    requires AllValid(items)
    ensures exists nodes :: TreesOf(nodes, items) && ArrayText(items) == ValueText(Arr("", nodes))
    ensures Valid(ArrayText(items))
  {
    hide ElementsText, NodeText, Join, AllValid, TreesOf;
    var nodes := ElementsOf(items);
    assert ArrayText(items) == ValueText(Arr("", nodes));
    TreeIsValid(items, nodes);
  }

  lemma TreeIsValid(items: seq<string>, nodes: seq<Node>)
    requires TreesOf(nodes, items)
    ensures Valid(ValueText(Arr("", nodes)))
  {
    hide ElementsText, ValueText;
    var n := Node("", Arr("", nodes), "");
    assert NodeWf(n);
    assert NodeText(n) == ValueText(Arr("", nodes));
  }

  /** What the server-sent event framing relies on, exactly. */
  lemma {:induction false} JoinOneLine(items: seq<string>, c: char)
    requires c != ','
    ensures c !in Join(items, ",") <==> forall i :: 0 <= i < |items| ==> c !in items[i]
  {
    if |items| > 1 {
      JoinOneLine(items[1..], c);
      assert forall i :: 0 <= i < |items| - 1 ==> items[1..][i] == items[i + 1];
    }
  }

  lemma ArrayOneLine(items: seq<string>)
    ensures OneLine(ArrayText(items)) <==> forall i :: 0 <= i < |items| ==> OneLine(items[i])
  {
    JoinOneLine(items, '\n');
    JoinOneLine(items, '\r');
  }

  predicate OneLine(s: string) {
    '\n' !in s && '\r' !in s
  }
}

/** What the text of an entry means for a leaf of each kind, spelled out. */
module EnvValues {
  import opened Prelude
  import opened Strings
  import opened EnvText
  import opened Settings
  import opened EnvPaths

  // ----------------------------------------------------------- lists

  /** White space, as Unicode has it. */
  predicate White(c: char) {
    || c == '\t' || c == '\n' || c == '\U{0B}' || c == '\U{0C}' || c == '\r' || c == ' '
    || c == '\U{85}' || c == '\U{A0}' || c == '\U{1680}'
    || c == '\U{2000}' || c == '\U{2001}' || c == '\U{2002}' || c == '\U{2003}' || c == '\U{2004}' || c == '\U{2005}'
    || c == '\U{2006}' || c == '\U{2007}' || c == '\U{2008}' || c == '\U{2009}' || c == '\U{200A}'
    || c == '\U{2028}' || c == '\U{2029}' || c == '\U{202F}' || c == '\U{205F}' || c == '\U{3000}'
  }

  predicate Blank(s: string) {
    forall i :: 0 <= i < |s| ==> White(s[i])
  }

  /** An item and the space around it; the item may be missing. */
  datatype Piece = Piece(before: string, item: string, after: string) {
    predicate Fits() {
      && Blank(before) && Blank(after) && ',' !in item
      && (item == "" || (!White(item[0]) && !White(item[|item| - 1])))
    }

    function Text(): string { before + item + after }
  }

  function Texts(pieces: seq<Piece>): seq<string> {
    seq(|pieces|, i requires 0 <= i < |pieces| => pieces[i].Text())
  }

  /** The items that are there. */
  function Items(pieces: seq<Piece>): seq<string> {
    if pieces == [] then []
    else
      var last := pieces[|pieces| - 1];
      Items(pieces[..|pieces| - 1]) + if last.item != "" then [last.item] else []
  }

  ghost predicate AllFit(pieces: seq<Piece>) {
    forall i :: 0 <= i < |pieces| ==> pieces[i].Fits()
  }

  lemma WhiteIsSpace(c: char)
    ensures White(c) <==> IsSpace(c)
  {
  }

  lemma TrimFront(c: char, s: string)
    requires White(c)
    ensures TrimSpace([c] + s) == TrimSpace(s)
  {
    WhiteIsSpace(c);
    assert ([c] + s)[1..] == s;
  }

  lemma TrimBack(s: string, c: char)
    requires White(c) && (s == "" || !White(s[0]))
    ensures TrimSpace(s + [c]) == TrimSpace(s)
  {
    WhiteIsSpace(c);
    if s == "" {
      assert s + [c] == [c] + "";
      TrimFront(c, "");
    } else {
      WhiteIsSpace(s[0]);
      assert (s + [c])[..|s|] == s;
    }
  }

  lemma {:induction false} Trims(p: Piece)
    requires p.Fits()
    ensures TrimSpace(p.Text()) == p.item
    decreases |p.before| + |p.after|
  {
    hide White, TrimSpace;
    if p.before != "" {
      var q := p.(before := p.before[1..]);
      assert p.before == [p.before[0]] + q.before;
      assert p.Text() == [p.before[0]] + q.Text();
      TrimFront(p.before[0], q.Text());
      Trims(q);
    } else if p.after != "" && p.item == "" {
      var q := p.(after := p.after[1..]);
      assert p.Text() == [p.after[0]] + q.Text();
      TrimFront(p.after[0], q.Text());
      Trims(q);
    } else if p.after != "" {
      var n := |p.after| - 1;
      var q := p.(after := p.after[..n]);
      assert p.Text() == q.Text() + [p.after[n]] && q.Text()[0] == p.item[0];
      TrimBack(q.Text(), p.after[n]);
      Trims(q);
    } else {
      assert p.Text() == p.item;
      TrimmedStays(p.item);
    }
  }

  lemma TrimmedStays(s: string)
    requires s == "" || (!White(s[0]) && !White(s[|s| - 1]))
    ensures TrimSpace(s) == s
  {
    if s != "" {
      WhiteIsSpace(s[0]);
      WhiteIsSpace(s[|s| - 1]);
    }
  }

  lemma {:induction false} KeepsItems(pieces: seq<Piece>)
    requires AllFit(pieces)
    ensures Kept(Texts(pieces)) == Items(pieces)
  {
    hide TrimSpace, Piece.Text, Piece.Fits;
    if pieces != [] {
      var init, last := pieces[..|pieces| - 1], pieces[|pieces| - 1];
      KeepsItems(init);
      Trims(last);
      var texts := Texts(pieces);
      assert texts[..|texts| - 1] == Texts(init);
    }
  }

  lemma NoComma(p: Piece)
    requires p.Fits()
    ensures ',' !in p.Text()
  {
    WhiteIsSpace(',');
  }

  /** A list leaf gets the items between the commas, without the space around them. */
  lemma ListValue(pieces: seq<Piece>)
    requires AllFit(pieces) && pieces != []
    ensures ParseAs(ListKind, Join(Texts(pieces), ",")) == Some(List(Items(pieces)))
  {
    hide Split, Join, Piece.Text, Piece.Fits, Avoids;
    var texts := Texts(pieces);
    forall i | 0 <= i < |texts| ensures Avoids(texts[i], ",", |texts[i]|) && Avoids(texts[i] + ",", ",", |texts[i]|) {
      NoComma(pieces[i]);
      SingleSeparator(texts[i], ",");
    }
    SplitJoin(texts, ",");
    KeepsItems(pieces);
  }

  /** The piece a comma-free text is. */
  lemma {:induction false} AsPiece(s: string) returns (p: Piece)
    requires ',' !in s
    ensures p.Fits() && p.Text() == s
    decreases |s|
  {
    hide White;
    if s == "" {
      p := Piece("", "", "");
    } else if White(s[0]) {
      p := AsPiece(s[1..]);
      assert s == [s[0]] + s[1..];
      p := p.(before := [s[0]] + p.before);
    } else if White(s[|s| - 1]) {
      p := AsPiece(s[..|s| - 1]);
      assert s == s[..|s| - 1] + [s[|s| - 1]];
      p := p.(after := p.after + [s[|s| - 1]]);
    } else {
      p := Piece("", s, "");
    }
  }

  lemma {:induction false} AsPieces(texts: seq<string>) returns (pieces: seq<Piece>)
    requires forall i :: 0 <= i < |texts| ==> ',' !in texts[i]
    ensures AllFit(pieces) && Texts(pieces) == texts
  {
    hide Piece.Text, Piece.Fits;
    if texts == [] {
      pieces := [];
    } else {
      var init := texts[..|texts| - 1];
      var before := AsPieces(init);
      var p := AsPiece(texts[|texts| - 1]);
      pieces := before + [p];
      assert texts == init + [texts[|texts| - 1]];
    }
  }

  /** And every text is such a list. */
  lemma ListSpelled(val: string) returns (pieces: seq<Piece>)
    ensures AllFit(pieces) && pieces != [] && val == Join(Texts(pieces), ",")
  {
    var texts := Split(val, ",");
    JoinSplit(val, ",");
    SplitPieces(val, ",");
    forall i | 0 <= i < |texts| ensures ',' !in texts[i] {
      SingleSeparator(texts[i], ",");
    }
    pieces := AsPieces(texts);
  }

  // --------------------------------------------------------- numbers

  function Zeros(n: nat): string {
    seq(n, _ => '0')
  }

  /** A decimal number in the range of a 64-bit integer: a sign or none, zeros or none, and its digits. */
  ghost predicate IsNumeral(val: string, n: int) {
    exists sign: string, zeros: nat, m: nat :: SpelledAs(val, n, sign, zeros, m)
  }

  predicate SpelledAs(val: string, n: int, sign: string, zeros: nat, m: nat) {
    && (sign == "" || sign == "+" || sign == "-")
    && val == sign + Zeros(zeros) + Decimal(m)
    && n == (if sign == "-" then -(m as int) else m as int)
    && -0x8000_0000_0000_0000 <= n <= 0x7FFF_FFFF_FFFF_FFFF
  }

  lemma {:induction false} MagnitudeZeros(zeros: nat, m: nat)
    ensures AllDigits(Zeros(zeros) + Decimal(m)) && Magnitude(Zeros(zeros) + Decimal(m)) == m
    ensures Zeros(zeros) + Decimal(m) != "" && '0' <= (Zeros(zeros) + Decimal(m))[0] <= '9'
  {
    hide Magnitude, Decimal;
    MagnitudeDecimal(m);
    var all := Zeros(zeros) + Decimal(m);
    if zeros > 0 {
      var rest := Zeros(zeros - 1) + Decimal(m);
      MagnitudeZeros(zeros - 1, m);
      MagnitudePadded(rest);
      assert all == "0" + rest;
    } else {
      assert all == Decimal(m);
    }
  }

  lemma {:induction false} DigitsSpelled(digits: string) returns (zeros: nat)
    requires digits != "" && AllDigits(digits)
    ensures digits == Zeros(zeros) + Decimal(Magnitude(digits))
  {
    var init, d := digits[..|digits| - 1], digits[|digits| - 1];
    assert digits == init + [d];
    if init == "" {
      zeros := 0;
      assert Magnitude(init) == 0 && Decimal(Magnitude(digits)) == [d];
    } else {
      zeros := DigitsSpelled(init);
      var m := Magnitude(init);
      if m == 0 {
        zeros := zeros + 1;
        assert Decimal(0) == "0" && init == Zeros(zeros);
      } else {
        assert Magnitude(digits) / 10 == m;
        assert Decimal(Magnitude(digits)) == Decimal(m) + [d];
      }
    }
  }

  lemma AtoiSpelled(val: string, n: int, sign: string, zeros: nat, m: nat)
    requires SpelledAs(val, n, sign, zeros, m)
    ensures Atoi(val) == Some(n)
  {
    hide Magnitude, Decimal, AllDigits, Zeros;
    var digits := Zeros(zeros) + Decimal(m);
    MagnitudeZeros(zeros, m);
    if sign == "" {
      assert val == digits;
    } else {
      assert val == sign + digits && val[1..] == digits;
    }
  }

  lemma SpelledAtoi(val: string)
    requires Atoi(val).Some?
    ensures IsNumeral(val, Atoi(val).value)
  {
    hide Magnitude, Decimal, AllDigits, Zeros;
    var sign := if val[0] == '-' then "-" else if val[0] == '+' then "+" else "";
    var digits := if sign != "" then val[1..] else val;
    assert val == sign + digits;
    var zeros := DigitsSpelled(digits);
    assert val == sign + Zeros(zeros) + Decimal(Magnitude(digits));
    assert SpelledAs(val, Atoi(val).value, sign, zeros, Magnitude(digits));
  }

  /** A number leaf gets n from the decimal spellings of n, and nothing from any other text. */
  lemma NumberValue(val: string, n: int)
    ensures ParseAs(NumberKind, val) == Some(Number(n)) <==> IsNumeral(val, n)
    ensures ParseAs(NumberKind, val).Some? <==> exists k :: IsNumeral(val, k)
  {
    hide Atoi, SpelledAs;
    forall k, sign: string, zeros: nat, m: nat | SpelledAs(val, k, sign, zeros, m) ensures Atoi(val) == Some(k) {
      AtoiSpelled(val, k, sign, zeros, m);
    }
    if Atoi(val).Some? {
      SpelledAtoi(val);
    }
  }

  /** The decimal spelling is the usual one. */
  lemma DecimalExample()
    ensures Decimal(50712) == "50712"
  {
  }

  // ------------------------------------------------------ flags and texts

  lemma FlagValue(val: string, b: bool)
    ensures ParseAs(FlagKind, val) == Some(Flag(b)) <==>
      if b then val == "1" || val == "t" || val == "T" || val == "true" || val == "TRUE" || val == "True"
      else val == "0" || val == "f" || val == "F" || val == "false" || val == "FALSE" || val == "False"
  {
  }

  lemma TextValue(val: string)
    ensures ParseAs(TextKind, val) == Some(Text(val))
  {
  }
}

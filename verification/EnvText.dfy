/**
 * The string operations the environment overlay is built from: the Go library calls it makes
 * (`strings.Cut`, `strings.Split`, `strings.ToLower`, `strings.TrimSpace`, `strconv.Atoi`,
 * `strconv.ParseBool`) and the overlay's own `splitCSV`.
 */
module EnvText {
  import opened Prelude
  import opened Strings

  // ---------------------------------------------------------------- Cut

  /** The text before and after the first `=`. */
  function Cut(kv: string): Option<(string, string)> {
    if kv == "" then None
    else if kv[0] == '=' then Some(("", kv[1..]))
    else
      match Cut(kv[1..])
      case None => None
      case Some((key, val)) => Some(([kv[0]] + key, val))
  }

  lemma {:induction false} CutExact(kv: string, key: string, val: string)
    ensures Cut(kv) == Some((key, val)) <==> kv == key + "=" + val && '=' !in key
  {
    if kv == "" {
    } else if kv[0] == '=' {
      if key != "" && kv == key + "=" + val {
        assert kv[0] == key[0];
      }
    } else if key == "" {
    } else {
      CutExact(kv[1..], key[1..], val);
      assert key == [key[0]] + key[1..];
      if kv == key + "=" + val {
        assert kv[1..] == key[1..] + "=" + val;
      }
    }
  }

  // ------------------------------------------------------------ ToLower

  /**
   * Go's rune lower-casing as far as a comparison with an ASCII key can see it: besides A-Z, only the
   * Kelvin sign and the dotted capital I become ASCII letters.
   */
  function LowerChar(c: char): char {
    if 'A' <= c <= 'Z' then (c as int - 'A' as int + 'a' as int) as char
    else if c == '\U{212A}' then 'k'
    else if c == '\U{0130}' then 'i'
    else c
  }

  function Lower(s: string): string {
    seq(|s|, i requires 0 <= i < |s| => LowerChar(s[i]))
  }

  /** What becomes a small letter: the letter, its capital, and for two letters one character more. */
  lemma LowerCharExact(c: char, k: char)
    requires 'a' <= k <= 'z'
    ensures LowerChar(c) == k <==>
      c == k || c as int + 32 == k as int || (k == 'k' && c == '\U{212A}') || (k == 'i' && c == '\U{0130}')
  {
  }

  // --------------------------------------------------------------- Atoi

  const MAX_INT: int := 0x7FFF_FFFF_FFFF_FFFF

  predicate AllDigits(s: string) {
    forall i :: 0 <= i < |s| ==> '0' <= s[i] <= '9'
  }

  function Magnitude(s: string): nat
    requires AllDigits(s)
  {
    if s == "" then 0
    else Magnitude(s[..|s| - 1]) * 10 + (s[|s| - 1] as int - '0' as int)
  }

  /** An optional sign and at least one decimal digit, within the 64-bit signed range. */
  function Atoi(s: string): Option<int> {
    var digits := if s != "" && (s[0] == '-' || s[0] == '+') then s[1..] else s;
    if digits == "" || !AllDigits(digits) then None
    else
      var m: int := Magnitude(digits);
      var n := if s[0] == '-' then -m else m;
      if -MAX_INT - 1 <= n <= MAX_INT then Some(n) else None
  }

  function Decimal(n: nat): string {
    if n < 10 then [(n + '0' as int) as char]
    else Decimal(n / 10) + [(n % 10 + '0' as int) as char]
  }

  lemma {:induction false} MagnitudeDecimal(n: nat)
    ensures Decimal(n) != "" && AllDigits(Decimal(n)) && Magnitude(Decimal(n)) == n
  {
    if n < 10 {
      assert Decimal(n)[..0] == "";
    } else {
      MagnitudeDecimal(n / 10);
      assert Decimal(n)[..|Decimal(n)| - 1] == Decimal(n / 10);
    }
  }

  lemma {:induction false} MagnitudePadded(s: string)
    requires AllDigits(s)
    ensures AllDigits("0" + s) && Magnitude("0" + s) == Magnitude(s)
  {
    var t := "0" + s;
    if s == "" {
      assert t[..0] == "";
    } else {
      MagnitudePadded(s[..|s| - 1]);
      assert t[..|t| - 1] == "0" + s[..|s| - 1];
    }
  }

  /** Every list position can be written, and can be written in several ways. */
  lemma AtoiSpellings(n: nat)
    requires n <= MAX_INT
    ensures Atoi(Decimal(n)) == Atoi("+" + Decimal(n)) == Atoi("0" + Decimal(n)) == Some(n)
  {
    MagnitudeDecimal(n);
    MagnitudePadded(Decimal(n));
    assert ("+" + Decimal(n))[1..] == Decimal(n);
    assert AllDigits("0" + Decimal(n));
    assert Decimal(n)[0] != '-' && Decimal(n)[0] != '+';
  }

  // ---------------------------------------------------------- ParseBool

  function ParseBool(s: string): Option<bool> {
    if s in ["1", "t", "T", "true", "TRUE", "True"] then Some(true)
    else if s in ["0", "f", "F", "false", "FALSE", "False"] then Some(false)
    else None
  }

  // ----------------------------------------------------------- splitCSV

  predicate IsSpace(c: char) {
    var x := c as int;
    || 0x09 <= x <= 0x0D || x == 0x20 || x == 0x85 || x == 0xA0 || x == 0x1680
    || 0x2000 <= x <= 0x200A || x == 0x2028 || x == 0x2029 || x == 0x202F || x == 0x205F || x == 0x3000
  }

  predicate Trimmed(s: string) {
    s == "" || (!IsSpace(s[0]) && !IsSpace(s[|s| - 1]))
  }

  function TrimSpace(s: string): (r: string)
    ensures Trimmed(r)
    ensures Trimmed(s) ==> r == s
    ensures forall c :: c in r ==> c in s
    decreases |s|
  {
    if s == "" then ""
    else if IsSpace(s[0]) then TrimSpace(s[1..])
    else if IsSpace(s[|s| - 1]) then TrimSpace(s[..|s| - 1])
    else s
  }

  /** The trimmed parts that are not empty, in order. */
  function Kept(parts: seq<string>): seq<string> {
    if parts == [] then []
    else
      var p := TrimSpace(parts[|parts| - 1]);
      Kept(parts[..|parts| - 1]) + (if p != "" then [p] else [])
  }

  function Csv(v: string): seq<string> {
    Kept(Split(v, ","))
  }

  method SplitCsv(v: string) returns (out: seq<string>)
    ensures out == Csv(v)
  {
    var parts := Split(v, ",");
    out := [];
    for i := 0 to |parts|
      invariant out == Kept(parts[..i])
    {
      var p := TrimSpace(parts[i]);
      if p != "" {
        out := out + [p];
      }
      assert parts[..i + 1][..i] == parts[..i];
    }
    assert parts[..|parts|] == parts;
  }

  predicate IsItem(s: string) {
    s != "" && Trimmed(s) && ',' !in s
  }

  lemma {:induction false} KeptItems(parts: seq<string>)
    requires forall p :: p in parts ==> ',' !in p
    ensures forall x :: x in Kept(parts) ==> IsItem(x)
  {
    if parts != [] {
      KeptItems(parts[..|parts| - 1]);
    }
  }

  lemma {:induction false} KeptAll(parts: seq<string>)
    requires forall p :: p in parts ==> IsItem(p)
    ensures Kept(parts) == parts
  {
    if parts != [] {
      assert parts[|parts| - 1] in parts;
      KeptAll(parts[..|parts| - 1]);
      assert parts == parts[..|parts| - 1] + [parts[|parts| - 1]];
    }
  }

  /** Whatever the text, the items read from it are items. */
  lemma CsvItems(v: string)
    ensures forall x :: x in Csv(v) ==> IsItem(x)
  {
    SplitPieces(v, ",");
    var parts := Split(v, ",");
    forall p | p in parts ensures ',' !in p {
      SingleSeparator(p, ",");
    }
    KeptItems(parts);
  }

  lemma CsvJoin(items: seq<string>)
    requires forall x :: x in items ==> IsItem(x)
    ensures Csv(Join(items, ",")) == items
  {
    if items == [] {
      assert Split("", ",") == [""];
      assert [""][..0] == [];
    } else {
      forall i | 0 <= i < |items|
        ensures Avoids(items[i], ",", |items[i]|) && Avoids(items[i] + ",", ",", |items[i]|)
      {
        assert items[i] in items;
        SingleSeparator(items[i], ",");
      }
      SplitJoin(items, ",");
      KeptAll(items);
    }
  }

  /** A list is what some comma-separated text means exactly when all its members are items. */
  lemma CsvExact(items: seq<string>)
    ensures (forall x :: x in items ==> IsItem(x)) <==> (exists v :: Csv(v) == items)
  {
    hide Csv, IsItem;
    if forall x :: x in items ==> IsItem(x) {
      CsvJoin(items);
    }
    forall v | Csv(v) == items ensures forall x :: x in items ==> IsItem(x) {
      CsvItems(v);
    }
  }
}

/** Unpadded base64url, sections 3.2 and 5 of RFC 4648, as Go's RawURLEncoding reads
    and writes it: the decoder skips line breaks and ignores spare trailing bits. */
module Base64Url {
  import opened Prelude

  type Byte = x: int | 0 <= x < 256

  type Sextet = x: int | 0 <= x < 64

  // ----- the alphabet ---------------------------------------------------------------------

  function CharOf(s: Sextet): char {
    if s < 26 then 'A' + s as char
    else if s < 52 then 'a' + (s - 26) as char
    else if s < 62 then '0' + (s - 52) as char
    else if s == 62 then '-'
    else '_'
  }

  predicate InAlphabet(c: char) {
    'A' <= c <= 'Z' || 'a' <= c <= 'z' || '0' <= c <= '9' || c == '-' || c == '_'
  }

  function ValueOf(c: char): Sextet
    requires InAlphabet(c)
  {
    if 'A' <= c <= 'Z' then (c - 'A') as int
    else if 'a' <= c <= 'z' then (c - 'a') as int + 26
    else if '0' <= c <= '9' then (c - '0') as int + 52
    else if c == '-' then 62
    else 63
  }

  lemma CharRoundTrip(s: Sextet)
    ensures InAlphabet(CharOf(s)) && ValueOf(CharOf(s)) == s
  {
  }

  lemma ValueRoundTrip(c: char)
    requires InAlphabet(c)
    ensures CharOf(ValueOf(c)) == c
  {
  }

  // ----- bytes and sextets ------------------------------------------------------------------

  // Three bytes are twenty-four bits are four sextets; `Sextet1` is the second.

  function Sextet0(b0: Byte): Sextet { b0 / 4 }

  function Sextet1(b0: Byte, b1: Byte): Sextet { b0 % 4 * 16 + b1 / 16 }

  function Sextet2(b1: Byte, b2: Byte): Sextet { b1 % 16 * 4 + b2 / 64 }

  function Sextet3(b2: Byte): Sextet { b2 % 64 }

  function Byte0(s0: Sextet, s1: Sextet): Byte { s0 as int * 4 + s1 / 16 }

  function Byte1(s1: Sextet, s2: Sextet): Byte { s1 as int % 16 * 16 + s2 / 4 }

  function Byte2(s2: Sextet, s3: Sextet): Byte { s2 as int % 4 * 64 + s3 }

  function ToSextets(bs: seq<Byte>): seq<Sextet> {
    if |bs| == 0 then []
    else if |bs| == 1 then [Sextet0(bs[0]), Sextet1(bs[0], 0)]
    else if |bs| == 2 then [Sextet0(bs[0]), Sextet1(bs[0], bs[1]), Sextet2(bs[1], 0)]
    else [Sextet0(bs[0]), Sextet1(bs[0], bs[1]), Sextet2(bs[1], bs[2]), Sextet3(bs[2])] + ToSextets(bs[3..])
  }

  /** A lone trailing sextet cannot hold a byte. */
  function ToBytes(ss: seq<Sextet>): Option<seq<Byte>> {
    if |ss| == 0 then Some([])
    else if |ss| == 1 then None
    else if |ss| == 2 then Some([Byte0(ss[0], ss[1])])
    else if |ss| == 3 then Some([Byte0(ss[0], ss[1]), Byte1(ss[1], ss[2])])
    else
      match ToBytes(ss[4..])
      case None => None
      case Some(rest) => Some([Byte0(ss[0], ss[1]), Byte1(ss[1], ss[2]), Byte2(ss[2], ss[3])] + rest)
  }

  /** `ss` and `canonical` agree up to the bits of the last sextet that no byte uses:
      four of them after one odd byte, two after two. */
  predicate SameUpToSpareBits(ss: seq<Sextet>, canonical: seq<Sextet>) {
    && |ss| == |canonical|
    && (forall i :: 0 <= i < |ss| - 1 ==> ss[i] == canonical[i])
    && (|ss| > 0 ==>
          var a, b := ss[|ss| - 1], canonical[|ss| - 1];
          match |ss| % 4
          case 2 => a / 16 == b / 16
          case 3 => a / 4 == b / 4
          case _ => a == b)
  }

  lemma {:induction false} SextetsLength(bs: seq<Byte>)
    ensures |ToSextets(bs)| == (4 * |bs| + 2) / 3
    ensures |ToSextets(bs)| % 4 != 1
  {
    if |bs| >= 3 {
      SextetsLength(bs[3..]);
    }
  }

  /** Decoding is exact: `ss` yields `bs` precisely if it is the encoding of `bs` up
      to spare bits. */
  lemma {:induction false} ToBytesExact(ss: seq<Sextet>, bs: seq<Byte>)
    ensures ToBytes(ss) == Some(bs) <==> SameUpToSpareBits(ss, ToSextets(bs))
  {
    SextetsLength(bs);
    BytesLength(ss);
    if |ss| >= 4 && |bs| >= 3 {
      QuantumStep(ss, bs);
      ToBytesExact(ss[4..], bs[3..]);
    } else if |ss| == 2 && |bs| == 1 {
      TailExact(ss[0], ss[1], 0, bs[0], 0);
      assert bs == [bs[0]];
      assert SameUpToSpareBits(ss, ToSextets(bs)) <==> ss[0] == Sextet0(bs[0]) && ss[1] / 16 == Sextet1(bs[0], 0) / 16;
    } else if |ss| == 3 && |bs| == 2 {
      TailExact(ss[0], ss[1], ss[2], bs[0], bs[1]);
      assert bs == [bs[0], bs[1]];
    }
  }

  /** The first quantum of four sextets is right exactly when its three bytes are. */
  lemma QuantumStep(ss: seq<Sextet>, bs: seq<Byte>)
    requires |ss| >= 4 && |bs| >= 3
    ensures ToBytes(ss) == Some(bs) <==>
      ToBytes(ss[4..]) == Some(bs[3..]) && QuantumMatches(ss[0], ss[1], ss[2], ss[3], bs[0], bs[1], bs[2])
    ensures SameUpToSpareBits(ss, ToSextets(bs)) <==>
      SameUpToSpareBits(ss[4..], ToSextets(bs[3..])) && QuantumMatches(ss[0], ss[1], ss[2], ss[3], bs[0], bs[1], bs[2])
  {
    hide SameUpToSpareBits;
    QuantumExact(ss[0], ss[1], ss[2], ss[3], bs[0], bs[1], bs[2]);
    var head := [Sextet0(bs[0]), Sextet1(bs[0], bs[1]), Sextet2(bs[1], bs[2]), Sextet3(bs[2])];
    SpareBitsSplit(ss, head, ToSextets(bs[3..]));
    assert ss[..4] == [ss[0], ss[1], ss[2], ss[3]];
    assert bs == [bs[0], bs[1], bs[2]] + bs[3..];
  }

  predicate QuantumMatches(s0: Sextet, s1: Sextet, s2: Sextet, s3: Sextet, b0: Byte, b1: Byte, b2: Byte) {
    s0 == Sextet0(b0) && s1 == Sextet1(b0, b1) && s2 == Sextet2(b1, b2) && s3 == Sextet3(b2)
  }

  lemma QuantumExact(s0: Sextet, s1: Sextet, s2: Sextet, s3: Sextet, b0: Byte, b1: Byte, b2: Byte)
    ensures (Byte0(s0, s1) == b0 && Byte1(s1, s2) == b1 && Byte2(s2, s3) == b2) <==> QuantumMatches(s0, s1, s2, s3, b0, b1, b2)
  {
    FirstByteExact(s0, s1, b0, b1);
    if Byte0(s0, s1) == b0 {
      assert s1 % 16 * 16 + s2 / 4 == b1 <==> s1 % 16 == b1 / 16 && s2 / 4 == b1 % 16;
      assert s2 % 4 * 64 + s3 == b2 <==> s2 % 4 == b2 / 64 && s3 == b2 % 64;
    }
  }

  lemma FirstByteExact(s0: Sextet, s1: Sextet, b0: Byte, b1: Byte)
    ensures Byte0(s0, s1) == b0 <==> s0 == Sextet0(b0) && s1 / 16 == b0 % 4
    ensures s1 == Sextet1(b0, b1) <==> s1 / 16 == b0 % 4 && s1 % 16 == b1 / 16
  {
    QuotientRemainder(s0, s1 / 16, b0, 4);
    QuotientRemainder(b0 % 4, b1 / 16, s1, 16);
  }

  lemma QuotientRemainder(q: int, r: int, x: int, n: int)
    requires n == 4 || n == 16
    requires 0 <= r < n && 0 <= x
    ensures q * n + r == x <==> q == x / n && r == x % n
  {
    if n == 4 {
      assert x == x / 4 * 4 + x % 4;
    } else {
      assert x == x / 16 * 16 + x % 16;
    }
  }

  /** The same for a last group of one or two bytes. */
  lemma TailExact(s0: Sextet, s1: Sextet, s2: Sextet, b0: Byte, b1: Byte)
    ensures Byte0(s0, s1) == b0 <==> s0 == Sextet0(b0) && s1 / 16 == Sextet1(b0, 0) / 16
    ensures Byte0(s0, s1) == b0 && Byte1(s1, s2) == b1 <==>
      s0 == Sextet0(b0) && s1 == Sextet1(b0, b1) && s2 / 4 == Sextet2(b1, 0) / 4
  {
    FirstByteExact(s0, s1, b0, b1);
    assert s1 % 16 * 16 + s2 / 4 == b1 <==> s1 % 16 == b1 / 16 && s2 / 4 == b1 % 16;
  }

  lemma {:induction false} BytesLength(ss: seq<Sextet>)
    ensures ToBytes(ss).None? <==> |ss| % 4 == 1
    ensures ToBytes(ss).Some? ==> |ToBytes(ss).value| == 3 * |ss| / 4
  {
    if |ss| >= 4 {
      BytesLength(ss[4..]);
    }
  }

  lemma SpareBitsSplit(ss: seq<Sextet>, head: seq<Sextet>, tail: seq<Sextet>)
    requires |ss| >= 4 && |head| == 4
    ensures SameUpToSpareBits(ss, head + tail) <==> ss[..4] == head && SameUpToSpareBits(ss[4..], tail)
  {
    var all := head + tail;
    if |ss| == |all| {
      if SameUpToSpareBits(ss, all) {
        forall i | 0 <= i < 4 ensures ss[i] == head[i] {
          assert all[i] == head[i];
        }
        forall i | 0 <= i < |ss[4..]| - 1 ensures ss[4..][i] == tail[i] {
          assert all[i + 4] == tail[i];
        }
      }
      if ss[..4] == head && SameUpToSpareBits(ss[4..], tail) {
        forall i | 0 <= i < |ss| - 1 ensures ss[i] == all[i] {
          if i < 4 {
            assert ss[..4][i] == ss[i];
          } else {
            assert ss[4..][i - 4] == ss[i];
          }
        }
      }
    }
  }

  // ----- text ---------------------------------------------------------------------------------

  function Text(ss: seq<Sextet>): string {
    if ss == [] then "" else [CharOf(ss[0])] + Text(ss[1..])
  }

  function Encode(bs: seq<Byte>): string {
    Text(ToSextets(bs))
  }

  function Sextets(t: string): Option<seq<Sextet>> {
    if t == "" then Some([])
    else if !InAlphabet(t[0]) then None
    else
      match Sextets(t[1..])
      case None => None
      case Some(rest) => Some([ValueOf(t[0])] + rest)
  }

  /** The decoder skips carriage returns and line feeds wherever they stand. */
  function WithoutBreaks(t: string): string {
    if t == "" then ""
    else if t[0] == '\r' || t[0] == '\n' then WithoutBreaks(t[1..])
    else [t[0]] + WithoutBreaks(t[1..])
  }

  function Decode(t: string): Option<seq<Byte>> {
    match Sextets(WithoutBreaks(t))
    case None => None
    case Some(ss) => ToBytes(ss)
  }

  predicate AllInAlphabet(t: string) {
    forall i :: 0 <= i < |t| ==> InAlphabet(t[i])
  }

  lemma {:induction false} TextSextets(ss: seq<Sextet>)
    ensures Sextets(Text(ss)) == Some(ss)
    ensures |Text(ss)| == |ss| && AllInAlphabet(Text(ss))
    ensures WithoutBreaks(Text(ss)) == Text(ss)
  {
    if ss != [] {
      CharRoundTrip(ss[0]);
      TextSextets(ss[1..]);
      assert Text(ss)[1..] == Text(ss[1..]);
      assert ss == [ss[0]] + ss[1..];
    }
  }

  lemma {:induction false} SextetsText(t: string)
    ensures Sextets(t).Some? <==> AllInAlphabet(t)
    ensures Sextets(t).Some? ==> Text(Sextets(t).value) == t
  {
    if t != "" {
      SextetsText(t[1..]);
      if InAlphabet(t[0]) {
        ValueRoundTrip(t[0]);
        if AllInAlphabet(t[1..]) {
          forall i | 0 <= i < |t| ensures InAlphabet(t[i]) {
            assert i > 0 ==> t[1..][i - 1] == t[i];
          }
          assert t == [t[0]] + t[1..];
        }
      }
      if AllInAlphabet(t) {
        forall i | 0 <= i < |t[1..]| ensures InAlphabet(t[1..][i]) {
          assert t[1..][i] == t[i + 1];
        }
      }
    }
  }

  /** For every byte string, whatever its length modulo 3. */
  lemma DecodeEncode(bs: seq<Byte>)
    ensures Decode(Encode(bs)) == Some(bs)
  {
    TextSextets(ToSextets(bs));
    ToBytesExact(ToSextets(bs), bs);
  }

  /** Exactly which texts decode to `bs`: those that, without line breaks, are in the
      alphabet and spell the encoding of `bs` up to spare bits. */
  lemma DecodeExact(t: string, bs: seq<Byte>)
    ensures Decode(t) == Some(bs) <==>
      Sextets(WithoutBreaks(t)).Some? && SameUpToSpareBits(Sextets(WithoutBreaks(t)).value, ToSextets(bs))
  {
    if Sextets(WithoutBreaks(t)).Some? {
      ToBytesExact(Sextets(WithoutBreaks(t)).value, bs);
    }
  }

  /** Encodings have the length the RFC gives and contain neither dots nor breaks. */
  lemma EncodeShape(bs: seq<Byte>)
    ensures |Encode(bs)| == (4 * |bs| + 2) / 3
    ensures '.' !in Encode(bs)
    ensures Encode(bs) == "" <==> bs == []
  {
    SextetsLength(bs);
    TextSextets(ToSextets(bs));
  }

  // ----- against the standard -------------------------------------------------------------------

  /** A group of three bytes and its four sextets are the same 24-bit number, most significant first. */
  lemma GroupValue(b0: Byte, b1: Byte, b2: Byte)
    ensures var ss := ToSextets([b0, b1, b2]);
      |ss| == 4 &&
      ss[0] as int * 0x4_0000 + ss[1] as int * 0x1000 + ss[2] as int * 0x40 + ss[3] as int ==
        b0 as int * 0x1_0000 + b1 as int * 0x100 + b2 as int
  {
    assert [b0, b1, b2][3..] == [];
  }

  /** The alphabet of section 5: capital letters, small letters, digits, minus and underline. */
  lemma Alphabet()
    ensures CharOf(0) == 'A' && CharOf(25) == 'Z' && CharOf(26) == 'a' && CharOf(51) == 'z'
    ensures CharOf(52) == '0' && CharOf(61) == '9' && CharOf(62) == '-' && CharOf(63) == '_'
    ensures forall s: Sextet :: s < 25 || 26 <= s < 51 || 52 <= s < 61 ==> CharOf(s + 1) as int == CharOf(s) as int + 1
  {
  }

  lemma {:induction false} TextConcat(a: seq<Sextet>, b: seq<Sextet>)
    ensures Text(a + b) == Text(a) + Text(b)
  {
    if a == [] {
      assert a + b == b;
    } else {
      assert (a + b)[1..] == a[1..] + b;
      TextConcat(a[1..], b);
    }
  }

  lemma FourText(a: Sextet, b: Sextet, c: Sextet, d: Sextet)
    ensures Text([a, b, c, d]) == [CharOf(a), CharOf(b), CharOf(c), CharOf(d)]
  {
    assert [a, b, c, d][1..] == [b, c, d] && [b, c, d][1..] == [c, d] && [c, d][1..] == [d] && [d][1..] == [];
    assert Text([]) == "";
    assert Text([d]) == [CharOf(d)] + "";
    assert Text([c, d]) == [CharOf(c)] + Text([d]);
    assert Text([b, c, d]) == [CharOf(b)] + Text([c, d]);
  }

  /** The first three bytes are encoded on their own. */
  lemma FullGroup(b0: Byte, b1: Byte, b2: Byte, rest: seq<Byte>)
    ensures Encode([b0, b1, b2] + rest) ==
      [CharOf(Sextet0(b0)), CharOf(Sextet1(b0, b1)), CharOf(Sextet2(b1, b2)), CharOf(Sextet3(b2))] + Encode(rest)
  {
    hide Text, CharOf, Sextet0, Sextet1, Sextet2, Sextet3;
    var ss := [Sextet0(b0), Sextet1(b0, b1), Sextet2(b1, b2), Sextet3(b2)];
    assert ([b0, b1, b2] + rest)[3..] == rest;
    TextConcat(ss, ToSextets(rest));
    FourText(Sextet0(b0), Sextet1(b0, b1), Sextet2(b1, b2), Sextet3(b2));
  }

  lemma OneGroup(b0: Byte, b1: Byte, b2: Byte)
    ensures Encode([b0, b1, b2]) ==
      [CharOf(Sextet0(b0)), CharOf(Sextet1(b0, b1)), CharOf(Sextet2(b1, b2)), CharOf(Sextet3(b2))]
  {
    hide CharOf, Sextet0, Sextet1, Sextet2, Sextet3, Encode;
    FullGroup(b0, b1, b2, []);
    NoText();
    assert [b0, b1, b2] + [] == [b0, b1, b2];
  }

  /** Test vectors of section 10, without their padding, and one with the last two letters. */
  lemma Vectors()
    ensures Encode([102, 111, 111]) == "Zm9v" && Encode([98, 97, 114]) == "YmFy"
    ensures Encode([102, 111, 111, 98, 97, 114]) == "Zm9vYmFy"
    ensures Encode([251, 255, 191]) == "-_-_"
  {
    hide Encode;
    OneGroup(102, 111, 111);
    OneGroup(98, 97, 114);
    OneGroup(251, 255, 191);
    TwoGroups([102, 111, 111], [98, 97, 114]);
    assert "Zm9v" + "YmFy" == "Zm9vYmFy";
    assert [102, 111, 111] + [98, 97, 114] == [102, 111, 111, 98, 97, 114];
  }

  lemma TwoGroups(a: seq<Byte>, b: seq<Byte>)
    requires |a| == 3
    ensures Encode(a + b) == Encode(a) + Encode(b)
  {
    hide CharOf, Sextet0, Sextet1, Sextet2, Sextet3, Encode;
    assert a == [a[0], a[1], a[2]];
    FullGroup(a[0], a[1], a[2], b);
    OneGroup(a[0], a[1], a[2]);
  }

  lemma NoText()
    ensures Encode([]) == ""
  {
  }

  /** And those that end in one byte or two. */
  lemma ShortVectors()
    ensures Encode([102]) == "Zg" && Encode([102, 111]) == "Zm8"
  {
    assert Text([]) == "";
    var one, two := ToSextets([102]), ToSextets([102, 111]);
    assert one == [25, 32] && one[1..] == [32] && [32][1..] == [];
    assert two == [25, 38, 60] && two[1..] == [38, 60] && [38, 60][1..] == [60] && [60][1..] == [];
    assert Text([32]) == "g" && Text([60]) == "8" && Text([38, 60]) == "m8";
  }
}

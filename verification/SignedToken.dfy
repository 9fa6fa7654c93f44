/** The signed tokens of internal/auth/session.go. The MAC is HMAC-SHA256 under the
    signer's key, of which only its 32-byte length is used; JSON is a codec that
    reads back what it wrote. */
module SignedToken {
  import opened Prelude
  import opened Base64Url

  type Bytes = seq<Byte>

  datatype Error =
    | MalformedToken
    | MalformedSignature
    | BadSignature
    | MalformedPayload
    | NotEncodable
    | NotDecodable
    | Expired

  datatype Result<+T> = Ok(value: T) | Err(error: Error)

  function LastIndex(s: string, c: char): int {
    if s == "" then -1
    else if s[|s| - 1] == c then |s| - 1
    else LastIndex(s[..|s| - 1], c)
  }

  lemma {:induction false} LastIndexSplits(a: string, c: char, b: string)
    requires c !in b
    ensures LastIndex(a + [c] + b, c) == |a|
  {
    var s := a + [c] + b;
    if b != "" {
      assert s[..|s| - 1] == a + [c] + b[..|b| - 1];
      assert s[|s| - 1] == b[|b| - 1];
      LastIndexSplits(a, c, b[..|b| - 1]);
    }
  }

  lemma {:induction false} LastIndexFinds(s: string, c: char)
    ensures var i := LastIndex(s, c);
      -1 <= i < |s| && (i >= 0 ==> s == s[..i] + [c] + s[i + 1..] && c !in s[i + 1..])
  {
    if s != "" && s[|s| - 1] != c {
      var init := s[..|s| - 1];
      LastIndexFinds(init, c);
      var i := LastIndex(init, c);
      if i >= 0 {
        assert s[..i] == init[..i];
        assert s[i + 1..] == init[i + 1..] + [s[|s| - 1]];
      }
    }
  }

  /** The signer, reduced to the MAC its key gives. */
  datatype Signer = Signer(mac: string -> Bytes) {

    ghost predicate Valid() {
      forall m :: |mac(m)| == 32
    }

    function Sign(payload: Bytes): string {
      var b64 := Encode(payload);
      b64 + "." + Encode(mac(b64))
    }

    function Verify(token: string): Result<Bytes> {
      var dot := LastIndex(token, '.');
      if dot <= 0 || dot == |token| - 1 then Err(MalformedToken)
      else
        LastIndexFinds(token, '.');
        var b64, tag := token[..dot], token[dot + 1..];
        match Decode(tag)
        case None => Err(MalformedSignature)
        case Some(want) =>
          if want != mac(b64) then Err(BadSignature)
          else
            match Decode(b64)
            case None => Err(MalformedPayload)
            case Some(payload) => Ok(payload)
    }

    /** The two parts a token must have to be accepted for `payload`. */
    ghost predicate Accepts(b64: string, tag: string, payload: Bytes) {
      && b64 != "" && tag != "" && '.' !in tag
      && Decode(tag) == Some(mac(b64))
      && Decode(b64) == Some(payload)
    }

    lemma AcceptedSplits(token: string, payload: Bytes) returns (b64: string, tag: string)
      requires Verify(token) == Ok(payload)
      ensures token == b64 + "." + tag && Accepts(b64, tag, payload)
    {
      hide Decode, LastIndex;
      LastIndexFinds(token, '.');
      var dot := LastIndex(token, '.');
      b64, tag := token[..dot], token[dot + 1..];
    }

    lemma PartsAccepted(b64: string, tag: string, payload: Bytes)
      requires Accepts(b64, tag, payload)
      ensures Verify(b64 + "." + tag) == Ok(payload)
    {
      hide Decode, LastIndex;
      var token := b64 + "." + tag;
      LastIndexSplits(b64, '.', tag);
      assert token == b64 + ['.'] + tag;
      assert token[..|b64|] == b64 && token[|b64| + 1..] == tag;
    }

    /** Acceptance is exact. */
    lemma VerifyExact(token: string, payload: Bytes)
      ensures Verify(token) == Ok(payload) <==> exists b64, tag :: token == b64 + "." + tag && Accepts(b64, tag, payload)
    {
      hide Verify, Accepts;
      if Verify(token) == Ok(payload) {
        var b64, tag := AcceptedSplits(token, payload);
      }
      forall b64, tag | token == b64 + "." + tag && Accepts(b64, tag, payload) ensures Verify(token) == Ok(payload) {
        PartsAccepted(b64, tag, payload);
      }
    }

    /** A signed payload verifies to itself, unless it is empty: then the token
        starts with its dot and is refused. */
    lemma VerifySigned(payload: Bytes)
      requires Valid()
      ensures Verify(Sign(payload)) == if payload == [] then Err(MalformedToken) else Ok(payload)
    {
      var b64 := Encode(payload);
      var tag := Encode(mac(b64));
      EncodeShape(payload);
      EncodeShape(mac(b64));
      DecodeEncode(payload);
      DecodeEncode(mac(b64));
      LastIndexSplits(b64, '.', tag);
      var token := Sign(payload);
      assert token == b64 + ['.'] + tag;
      assert token[..|b64|] == b64 && token[|b64| + 1..] == tag;
    }

    /** So signing again what a token carried gives an accepted token for it exactly
        when the payload is not empty. */
    lemma ResignAccepted(token: string, payload: Bytes)
      requires Valid() && Verify(token) == Ok(payload)
      ensures Verify(Sign(payload)) == Ok(payload) <==> payload != []
    {
      VerifySigned(payload);
    }

    /** Empty payloads can be accepted though none can be signed. */
    lemma EmptyPayloadAccepted() returns (token: string)
      requires Valid()
      ensures Verify(token) == Ok([]) && Verify(Sign([])) == Err(MalformedToken)
    {
      token := "\n" + "." + Encode(mac("\n"));
      EncodeShape(mac("\n"));
      DecodeEncode(mac("\n"));
      assert WithoutBreaks("\n") == "";
      assert Accepts("\n", Encode(mac("\n")), []);
      VerifyExact(token, []);
      VerifySigned([]);
    }
  }

  // ----- sessions and flows -------------------------------------------------------------------

  datatype SessionData = SessionData(
    sub: string,
    email: string,
    name: string,
    givenName: string,
    familyName: string,
    groups: seq<string>,
    exp: int)

  datatype FlowData = FlowData(state: string, nonce: string, verifier: string, returnTo: string, exp: int)

  /** encoding/json on one type. */
  datatype Codec<!D> = Codec(marshal: D -> Option<Bytes>, unmarshal: Bytes -> Option<D>, exp: D -> int)

  /** What is written is not empty and reads back the same. */
  ghost predicate Invertible<D(!new)>(json: Codec<D>) {
    forall d :: json.marshal(d).Some? ==> json.marshal(d).value != [] && json.unmarshal(json.marshal(d).value) == Some(d)
  }

  /** signSession and signFlow. */
  function SignData<D>(s: Signer, json: Codec<D>, d: D): Result<string> {
    match json.marshal(d)
    case None => Err(NotEncodable)
    case Some(buf) => Ok(s.Sign(buf))
  }

  /** readSession and readFlow at time `now`; an expiry of 0 means none. */
  function ReadData<D>(s: Signer, json: Codec<D>, token: string, now: int): Result<D> {
    match s.Verify(token)
    case Err(e) => Err(e)
    case Ok(buf) =>
      match json.unmarshal(buf)
      case None => Err(NotDecodable)
      case Some(d) => if json.exp(d) != 0 && now > json.exp(d) then Err(Expired) else Ok(d)
  }

  /** A signed session or flow reads back as itself until it expires, and is
      reported expired from then on. */
  lemma ReadSigned<D(!new)>(s: Signer, json: Codec<D>, d: D, now: int)
    requires s.Valid() && Invertible(json) && SignData(s, json, d).Ok?
    ensures ReadData(s, json, SignData(s, json, d).value, now) ==
      if json.exp(d) == 0 || now <= json.exp(d) then Ok(d) else Err(Expired)
  {
    s.VerifySigned(json.marshal(d).value);
  }

  lemma SessionRoundTrip(s: Signer, json: Codec<SessionData>, d: SessionData, now: int)
    requires s.Valid() && Invertible(json) && (forall x: SessionData :: json.exp(x) == x.exp) && SignData(s, json, d).Ok?
    ensures ReadData(s, json, SignData(s, json, d).value, now) == Ok(d) <==> d.exp == 0 || now <= d.exp
  {
    ReadSigned(s, json, d, now);
  }

  lemma FlowRoundTrip(s: Signer, json: Codec<FlowData>, d: FlowData, now: int)
    requires s.Valid() && Invertible(json) && (forall x: FlowData :: json.exp(x) == x.exp) && SignData(s, json, d).Ok?
    ensures ReadData(s, json, SignData(s, json, d).value, now) == Ok(d) <==> d.exp == 0 || now <= d.exp
  {
    ReadSigned(s, json, d, now);
  }
}

/** What a reader of the signed bytes finds in them, in the documented order. */
module TranscriptLayout {
  import opened Text
  import opened Canonical
  import opened Transcripts
  import Base64Url

  /** Bytes are read as fields (true) and eight-byte integers (false), and must end there. */
  function ReadItems(b: seq<byte>, shape: seq<bool>): Option<seq<Item>> {
    if shape == [] then
      if b == [] then Some([]) else None
    else if shape[0] then
      match ReadField(b)
      case None => None
      case Some(p) =>
        match ReadItems(p.rest, shape[1..])
        case None => None
        case Some(rest) => Some([Field(p.value)] + rest)
    else
      match ReadInt64(b)
      case None => None
      case Some(p) =>
        match ReadItems(p.rest, shape[1..])
        case None => None
        case Some(rest) => if -TWO_63 <= p.value < TWO_63 then Some([Word(p.value)] + rest) else None
  }

  function ShapeOf(items: seq<Item>): seq<bool> {
    seq(|items|, i requires 0 <= i < |items| => items[i].Field?)
  }

  lemma ShapeTail(items: seq<Item>)
    requires items != []
    ensures ShapeOf(items) != [] && ShapeOf(items)[0] == items[0].Field? && ShapeOf(items)[1..] == ShapeOf(items[1..])
  {
  }

  lemma ReadsFirst(item: Item, rest: seq<byte>, shape: seq<bool>, items: seq<Item>)
    requires Fits(item) && shape != [] && shape[0] == item.Field? && ReadItems(rest, shape[1..]) == Some(items)
    ensures ReadItems(Append([], item) + rest, shape) == Some([item] + items)
  {
    match item {
      case Field(b) => FieldRoundTrip(b, rest);
      case Word(n) => Int64RoundTrip(n, rest);
    }
  }

  /** Reading undoes writing, item by item, and nothing is left over. */
  lemma {:induction false} ReadsBack(items: seq<Item>)
    requires AllFit(items)
    ensures ReadItems(Transcript(items), ShapeOf(items)) == Some(items)
  {
    if items == [] {
      assert ShapeOf(items) == [];
    } else {
      var first, rest := items[0], items[1..];
      TranscriptHead(items);
      ShapeTail(items);
      ReadsBack(rest);
      ReadsFirst(first, Transcript(rest), ShapeOf(items), rest);
      assert [first] + rest == items;
    }
  }

  function TextField(s: string): Item {
    Field(Utf8(s))
  }

  /** The documented fields of a challenge: domain, protocol version, fingerprint, challenge
      id, challenge value, subject type, subject id, tenant, host, device, purpose, and the
      times of issue and expiry. */
  function ChallengeFields(c: Challenge, fingerprint: seq<byte>, value: seq<byte>): seq<Item> {
    [TextField("MYCODEX-RELAY-" + "CHALLENGE-V1"), Word(c.version), Field(fingerprint), TextField(c.id), Field(value),
     TextField(c.scope.subjectType), TextField(c.scope.subjectId), TextField(c.scope.tenant),
     TextField(c.scope.host), TextField(c.scope.device), TextField(c.scope.purpose),
     Word(c.issuedAt), Word(c.expiresAt)]
  }

  /** And of a proof: domain, protocol version one, the challenge's own bytes, the relay's
      signature, subject type, subject id. */
  function ProofFields(c: Challenge, bytes: seq<byte>, signature: seq<byte>): seq<Item> {
    [TextField("MYCODEX-RELAY-" + "PROOF-V1"), Word(1), Field(bytes), Field(signature),
     TextField(c.scope.subjectType), TextField(c.scope.subjectId)]
  }

  lemma ChallengeItemsAre(c: Challenge, fingerprint: seq<byte>, value: seq<byte>)
    requires ShortTexts(c) && |fingerprint| == 32 && |value| == 32
    ensures ChallengeItems(c, fingerprint, value) == ChallengeFields(c, fingerprint, value)
  {
  }

  lemma ProofItemsAre(c: Challenge, bytes: seq<byte>, signature: seq<byte>)
    requires ShortTexts(c) && |bytes| < TWO_32 && |signature| == 64
    ensures ProofItems(c, bytes, signature) == ProofFields(c, bytes, signature)
  {
  }

  /** The signed challenge reads as its documented fields in their order, and ends there. */
  lemma ChallengeLayout(c: Challenge, fingerprint: seq<byte>, value: seq<byte>)
    requires ShortTexts(c)
    requires Base64Url.DecodeExact(c.fingerprint, 32) == Some(fingerprint) && Base64Url.DecodeExact(c.value, 32) == Some(value)
    ensures ChallengeTranscript(c).Some?
    ensures ReadItems(ChallengeTranscript(c).value, ShapeOf(ChallengeFields(c, fingerprint, value))) ==
            Some(ChallengeFields(c, fingerprint, value))
  {
    ChallengeItemsAre(c, fingerprint, value);
    ReadsBack(ChallengeItems(c, fingerprint, value));
  }

  /** And so does the signed proof. */
  lemma ProofLayout(c: Challenge, bytes: seq<byte>, signature: seq<byte>)
    requires ShortTexts(c) && |bytes| < TWO_32 && Base64Url.DecodeExact(c.relaySignature, 64) == Some(signature)
    ensures ProofTranscript(c, bytes).Some?
    ensures ReadItems(ProofTranscript(c, bytes).value, ShapeOf(ProofFields(c, bytes, signature))) ==
            Some(ProofFields(c, bytes, signature))
  {
    ProofItemsAre(c, bytes, signature);
    ReadsBack(ProofItems(c, bytes, signature));
  }

  /** Without the right number of bytes behind its three texts there is no transcript. */
  lemma NoTranscript(c: Challenge, bytes: seq<byte>)
    requires ShortTexts(c) && |bytes| < TWO_32
    ensures ChallengeTranscript(c).None? <==> Base64Url.DecodeExact(c.fingerprint, 32).None? || Base64Url.DecodeExact(c.value, 32).None?
    ensures ProofTranscript(c, bytes).None? <==> Base64Url.DecodeExact(c.relaySignature, 64).None?
  {
  }

  // ----- bytes -----

  /** A length prefix is four bytes, most significant first. */
  lemma LengthBytes(value: seq<byte>)
    requires |value| < 4294967296
    ensures AppendField([], value) ==
            [|value| / 16777216, |value| / 65536 % 256, |value| / 256 % 256, |value| % 256] + value
  {
    var n := |value|;
    assert BigEndian(n, 4) == BigEndian(n / 256, 3) + [n % 256];
    assert BigEndian(n / 256, 3) == BigEndian(n / 256 / 256, 2) + [n / 256 % 256];
    assert BigEndian(n / 256 / 256, 2) == BigEndian(n / 256 / 256 / 256, 1) + [n / 256 / 256 % 256];
    assert BigEndian(n / 256 / 256 / 256, 1) == BigEndian(n / 256 / 256 / 256 / 256, 0) + [n / 256 / 256 / 256 % 256];
  }

  function Weight(b: seq<byte>): int
    requires |b| == 8
  {
    b[0] as int * 0x100_0000_0000_0000 + b[1] as int * 0x1_0000_0000_0000 + b[2] as int * 0x100_0000_0000
    + b[3] as int * 0x1_0000_0000 + b[4] as int * 0x100_0000 + b[5] as int * 0x1_0000 + b[6] as int * 0x100 + b[7]
  }

  /** An integer is eight bytes, most significant first, in two's complement. */
  lemma IntegerBytes(value: int64)
    ensures |AppendInt64([], value)| == 8
    ensures Weight(AppendInt64([], value)) == (if value < 0 then value as int + 0x1_0000_0000_0000_0000 else value)
  {
    var n: int := if value < 0 then value as int + TWO_64 else value;
    BigEndianWeight(n);
    assert AppendInt64([], value) == BigEndian(n, 8);
  }

  lemma BigEndianWeight(n: nat)
    requires n < 0x1_0000_0000_0000_0000
    ensures Weight(BigEndian(n, 8)) == n
  {
    var a := n / 256;
    var b := a / 256;
    var c := b / 256;
    var d := c / 256;
    var e := d / 256;
    var f := e / 256;
    var g := f / 256;
    assert BigEndian(n, 8) == BigEndian(a, 7) + [n % 256];
    assert BigEndian(a, 7) == BigEndian(b, 6) + [a % 256];
    assert BigEndian(b, 6) == BigEndian(c, 5) + [b % 256];
    assert BigEndian(c, 5) == BigEndian(d, 4) + [c % 256];
    assert BigEndian(d, 4) == BigEndian(e, 3) + [d % 256];
    assert BigEndian(e, 3) == BigEndian(f, 2) + [e % 256];
    assert BigEndian(f, 2) == BigEndian(g, 1) + [f % 256];
    assert BigEndian(g, 1) == BigEndian(g / 256, 0) + [g % 256];
  }
}

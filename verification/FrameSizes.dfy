/** How many bytes a frame takes on the wire, against the socket's read limit. */
module FrameSizes {
  import opened Text
  import opened Base64Url
  import opened Frames
  import Decimal

  /** Bytes of one character inside a JSON string, with the escapes of Go's encoder. */
  function EscapedBytes(c: char): (n: nat)
    ensures n <= 6 * |Utf8Char(c)|
  {
    if c == '"' || c == '\\' then 2
    else if c < ' ' || c == '<' || c == '>' || c == '&' || c == '\U{2028}' || c == '\U{2029}' then 6
    else |Utf8Char(c)|
  }

  function EscapedLength(s: string): nat {
    if s == "" then 0 else EscapedBytes(s[0]) + EscapedLength(s[1..])
  }

  function QuotedLength(s: string): nat {
    EscapedLength(s) + 2
  }

  function ValueLength(r: Raw): nat {
    match r
    case Str(s) => QuotedLength(s)
    case Num(t) => |t|
    case Other => 0
  }

  /** A member with its colon and the comma or brace that follows it. The schema's names
      are plain ASCII, so a name takes its length and two quotes. */
  function MemberLength(m: Member): nat {
    |m.name| + 2 + 1 + ValueLength(m.value) + 1
  }

  function MembersLength(members: seq<Member>): nat {
    if members == [] then 0 else MemberLength(members[0]) + MembersLength(members[1..])
  }

  /** Bytes of the object written without any white space. */
  function CompactLength(members: seq<Member>): nat {
    1 + MembersLength(members)
  }

  lemma {:induction false} EscapedBound(s: string)
    ensures EscapedLength(s) <= 6 * |Utf8(s)| <= 24 * |s|
  {
    if s != "" {
      EscapedBound(s[1..]);
    }
  }

  lemma {:induction false} PlainLength(s: string)
    requires InAlphabet(s)
    ensures EscapedLength(s) == |s|
  {
    if s != "" {
      assert Value(s[0]).Some?;
      PlainLength(s[1..]);
    }
  }

  lemma Base64Quoted(s: string)
    requires DecodeBase64(s).Some?
    ensures QuotedLength(s) == EncodedLength(|DecodeBase64(s).value|) + 2
  {
    var b := DecodeBase64(s).value;
    DecodeBase64Accepts(s, b);
    DecodeEncode(b);
    EncodeLength(b);
    PlainLength(s);
  }

  lemma {:induction false} LengthOfConcat(a: seq<Member>, b: seq<Member>)
    ensures MembersLength(a + b) == MembersLength(a) + MembersLength(b)
  {
    if a == [] {
      assert a + b == b;
    } else {
      LengthOfConcat(a[1..], b);
      assert (a + b)[1..] == a[1..] + b;
    }
  }

  const SMALL := 800

  /** A short name with a number, an identifier, a fixed word or a short base64 text. */
  predicate SmallMember(m: Member) {
    |m.name| <= 20 && ValueLength(m.value) <= 770
  }

  lemma {:induction false} SmallMembers(members: seq<Member>)
    requires forall i :: 0 <= i < |members| ==> SmallMember(members[i])
    ensures MembersLength(members) <= SMALL * |members|
  {
    if members != [] {
      SmallMembers(members[1..]);
    }
  }

  lemma IdentifierIsSmall(s: string)
    requires FrameIdentifier(s)
    ensures QuotedLength(s) <= 770
  {
    EscapedBound(s);
  }

  lemma WordIsSmall(s: string)
    requires |s| <= 30
    ensures QuotedLength(s) <= 770
  {
    EscapedBound(s);
  }

  lemma Base64IsSmall(s: string, length: nat)
    requires ValidBase64(s, length) && length <= 65
    ensures QuotedLength(s) <= 770
  {
    Base64Quoted(s);
  }

  lemma NumberIsSmall(n: int)
    requires 0 <= n <= MAX_INT64
    ensures ValueLength(Number(n)) <= 770
  {
    assert Decimal.Pow10(19) > MAX_INT64 by {
      assert Decimal.Pow10(5) == 100000;
      assert Decimal.Pow10(10) == 10000000000;
      assert Decimal.Pow10(15) == 1000000000000000;
    }
    Decimal.PrintLength(n, 19);
  }

  predicate SmallText(s: string) {
    QuotedLength(s) <= 770
  }

  predicate SmallNumber(n: int) {
    ValueLength(Number(n)) <= 770
  }

  lemma RouteLength(f: Frame)
    requires SmallNumber(f.protocolVersion) && SmallText(f.frameType) && SmallText(f.sessionId)
    requires SmallText(f.tenant) && SmallText(f.host) && SmallText(f.device) && SmallText(f.direction)
    ensures MembersLength(RouteMembers(f)) <= 7 * SMALL
  {
    SmallMembers(RouteMembers(f));
  }

  lemma RouteIsSmall(f: Frame)
    requires RouteOk(f) && TypeOk(f.frameType, f.body)
    ensures MembersLength(RouteMembers(f)) <= 7 * SMALL
  {
    NumberIsSmall(f.protocolVersion);
    WordIsSmall(f.frameType);
    Base64IsSmall(f.sessionId, 32);
    IdentifierIsSmall(f.tenant);
    IdentifierIsSmall(f.host);
    IdentifierIsSmall(f.device);
    WordIsSmall(f.direction);
    RouteLength(f);
  }

  lemma HelloLength(b: Body)
    requires b.Hello? && SmallNumber(b.bindingVersion) && SmallNumber(b.keyVersion) && SmallNumber(b.createdAt)
    requires SmallText(b.ephemeralKey) && SmallText(b.nonce) && SmallText(b.signature)
    ensures MembersLength(BodyMembers(b)) <= 6 * SMALL
  {
    SmallMembers(BodyMembers(b));
  }

  lemma HelloIsSmall(b: Body, configuredMax: int, onCurve: seq<byte> -> bool)
    requires b.Hello? && NumbersOk(b) && BodyOk(b, configuredMax, onCurve)
    ensures MembersLength(BodyMembers(b)) <= 6 * SMALL
  {
    NumberIsSmall(b.bindingVersion);
    NumberIsSmall(b.keyVersion);
    NumberIsSmall(b.createdAt);
    Base64IsSmall(b.ephemeralKey, 65);
    Base64IsSmall(b.nonce, 32);
    Base64IsSmall(b.signature, 64);
    HelloLength(b);
  }

  lemma ConfirmationIsSmall(f: Frame, configuredMax: int, onCurve: seq<byte> -> bool)
    requires ValidFrame(f, configuredMax, onCurve) && f.body.Confirmation?
    ensures MembersLength(BodyMembers(f.body)) <= 2 * SMALL
  {
    WordIsSmall(f.body.senderRole);
    Base64IsSmall(f.body.confirmation, 32);
    SmallMembers(BodyMembers(f.body));
  }

  lemma EnvelopeLength(b: Body)
    requires b.Envelope? && SmallNumber(b.sequence) && SmallNumber(b.createdAt)
    requires SmallText(b.kind) && SmallText(b.messageId) && SmallText(b.payloadEncoding) && SmallText(b.nonce)
    ensures MembersLength(BodyMembers(b)) <= 7 * SMALL + EscapedLength(b.ciphertext)
  {
    var front := BodyMembers(b)[..6];
    var last := Member("ciphertext", Str(b.ciphertext));
    assert BodyMembers(b) == front + [last];
    SmallMembers(front);
    LengthOfConcat(front, [last]);
    assert [last][1..] == [];
  }

  lemma EnvelopeIsBounded(f: Frame, configuredMax: int, onCurve: seq<byte> -> bool)
    requires f.body.Envelope? && NumbersOk(f.body) && BodyOk(f.body, configuredMax, onCurve)
    requires ValidDirection(f.direction) && DirectionFits(f.frameType, f.direction, f.body)
    ensures MembersLength(BodyMembers(f.body))
         <= 7 * SMALL + EncodedLength(EffectiveMessageBytes(configuredMax) + GCM_TAG_BYTES)
  {
    var b := f.body;
    WordIsSmall(b.kind);
    IdentifierIsSmall(b.messageId);
    NumberIsSmall(b.sequence);
    NumberIsSmall(b.createdAt);
    WordIsSmall(b.payloadEncoding);
    Base64IsSmall(b.nonce, 12);
    EnvelopeLength(b);
    CiphertextIsBounded(b, configuredMax, onCurve);
  }

  lemma CiphertextIsBounded(b: Body, configuredMax: int, onCurve: seq<byte> -> bool)
    requires b.Envelope? && BodyOk(b, configuredMax, onCurve)
    ensures EscapedLength(b.ciphertext) <= EncodedLength(EffectiveMessageBytes(configuredMax) + GCM_TAG_BYTES)
  {
    Base64Quoted(b.ciphertext);
    EncodedLengthMonotone(|DecodeBase64(b.ciphertext).value|, EffectiveMessageBytes(configuredMax) + GCM_TAG_BYTES);
  }

  lemma EncodedLengthMonotone(a: nat, b: nat)
    requires a <= b
    ensures EncodedLength(a) <= EncodedLength(b)
  {
    assert a / 3 <= b / 3;
  }

  /** The clamp to the protocol maximum never bites: the largest configured quota meets it exactly. */
  lemma ClampIsIdle(configured: int)
    ensures WireFrameLimit(configured) == EncodedLength(EffectiveMessageBytes(configured) + GCM_TAG_BYTES) + 64 * 1024
    ensures EffectiveMessageBytes(configured) == MAX_PLAINTEXT_BYTES ==> WireFrameLimit(configured) == MAX_WIRE_FRAME_BYTES
  {
    EncodedLengthMonotone(EffectiveMessageBytes(configured) + GCM_TAG_BYTES, MAX_PLAINTEXT_BYTES + GCM_TAG_BYTES);
  }

  /** Every valid frame, written compactly, passes the socket's read limit. */
  lemma ValidFrameFits(f: Frame, configuredMax: int, onCurve: seq<byte> -> bool)
    requires ValidFrame(f, configuredMax, onCurve)
    ensures CompactLength(Print(f)) <= WireFrameLimit(configuredMax)
  {
    ClampIsIdle(configuredMax);
    LengthOfConcat(RouteMembers(f), BodyMembers(f.body));
    RouteIsSmall(f);
    match f.body {
      case Hello(_, _, _, _, _, _) => HelloIsSmall(f.body, configuredMax, onCurve);
      case Confirmation(_, _) => ConfirmationIsSmall(f, configuredMax, onCurve);
      case Envelope(_, _, _, _, _, _, _) => EnvelopeIsBounded(f, configuredMax, onCurve);
    }
  }
}

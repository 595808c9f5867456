/** The relay-visible frames. Lexing is left to the JSON decoder: an object arrives as
    its list of members, each value already read as a string, a number or something else. */
module Frames {
  import opened Text
  import opened Base64Url
  import Decimal

  const WINDOWS_TO_MOBILE := "windows_to_mobile"
  const MOBILE_TO_WINDOWS := "mobile_to_windows"
  const CLIENT_HELLO := "session.client_hello"
  const SERVER_HELLO := "session.server_hello"
  const CONFIRMATION := "session.confirmation"
  const ENVELOPE := "session.envelope"
  const ENCRYPTED_JSON := "encrypted-json"
  const MAX_PLAINTEXT_BYTES := 11 * 1024 * 1024
  const GCM_TAG_BYTES := 16
  const MAX_WIRE_FRAME_BYTES := 15444672
  const MAX_SEQUENCE := 0xFFFF_FFFF
  const MAX_INT64 := 0x7FFF_FFFF_FFFF_FFFF

  /** A JSON value: a string by its content, a number by its spelling. */
  datatype Raw = Str(value: string) | Num(text: string) | Other

  datatype Member = Member(name: string, value: Raw)

  type Object = map<string, Raw>

  datatype Body =
    | Hello(bindingVersion: int, keyVersion: int, ephemeralKey: string, nonce: string, createdAt: int, signature: string)
    | Confirmation(senderRole: string, confirmation: string)
    | Envelope(kind: string, messageId: string, sequence: int, createdAt: int, payloadEncoding: string,
               nonce: string, ciphertext: string)

  datatype Frame = Frame(
    protocolVersion: int,
    frameType: string,
    sessionId: string,
    tenant: string,
    host: string,
    device: string,
    direction: string,
    body: Body)

  function EffectiveMessageBytes(configured: int): nat {
    if configured < 0 || configured > MAX_PLAINTEXT_BYTES then MAX_PLAINTEXT_BYTES else configured
  }

  function WireFrameLimit(configured: int): nat {
    var limit := EncodedLength(EffectiveMessageBytes(configured) + GCM_TAG_BYTES) + 64 * 1024;
    if limit > MAX_WIRE_FRAME_BYTES then MAX_WIRE_FRAME_BYTES else limit
  }

  // ----- objects -----

  ghost predicate DistinctNames(members: seq<Member>) {
    forall i, j :: 0 <= i < j < |members| ==> members[i].name != members[j].name
  }

  function Table(members: seq<Member>): Object {
    if members == [] then map[]
    else Table(members[..|members| - 1])[members[|members| - 1].name := members[|members| - 1].value]
  }

  /** strictObject: a repeated name spoils the object. */
  method StrictObject(members: seq<Member>) returns (r: Option<Object>)
    ensures r.Some? <==> DistinctNames(members)
    ensures r.Some? ==> r.value == Table(members)
  {
    var values: Object := map[];
    var i := 0;
    while i < |members|
      invariant 0 <= i <= |members|
      invariant DistinctNames(members[..i]) && values == Table(members[..i])
      invariant values.Keys == set j | 0 <= j < i :: members[j].name
    {
      if members[i].name in values {
        var j :| 0 <= j < i && members[j].name == members[i].name;
        return None;
      }
      assert members[..i + 1][..i] == members[..i];
      values := values[members[i].name := members[i].value];
      i := i + 1;
    }
    assert members[..i] == members;
    return Some(values);
  }

  // ----- fields -----

  function RequiredString(o: Object, key: string): Option<string> {
    if key in o && o[key].Str? && o[key].value != "" then Some(o[key].value) else None
  }

  predicate FrameIdentifier(s: string) {
    s != "" && |Utf8(s)| <= 128 && Trimmed(s)
  }

  /** boundedInt and boundedUint: the regular expression, then the 64-bit parse and the bounds. */
  function BoundedInt(o: Object, key: string, minimum: int, maximum: int): (r: Option<int>) {
    if key in o && o[key].Num? && Decimal.IsCanonical(o[key].text) && Decimal.AllDigits(o[key].text) then
      var value := Decimal.ValueOf(o[key].text);
      if minimum <= value <= maximum then Some(value) else None
    else None
  }

  /** An integer is accepted exactly when it is spelled the canonical way and lies in range. */
  lemma BoundedIntAccepts(o: Object, key: string, minimum: nat, maximum: int, n: int)
    ensures BoundedInt(o, key, minimum, maximum) == Some(n)
      <==> minimum <= n <= maximum && key in o && o[key] == Num(Decimal.Print(n))
  {
    if key in o && o[key].Num? && Decimal.IsCanonical(o[key].text) {
      Decimal.CanonicalIsPrinted(o[key].text);
    }
    if 0 <= n {
      Decimal.PrintIsCanonical(n);
    }
  }

  const ROUTE_KEYS := ["protocolVersion", "frameType", "sessionId", "tenantId", "hostId", "deviceId", "direction"]
  const HELLO_KEYS := ROUTE_KEYS + ["bindingVersion", "keyVersion", "ephemeralPublicKey", "nonce", "createdAt", "signature"]
  const CONFIRMATION_KEYS := ROUTE_KEYS + ["senderRole", "confirmation"]
  const ENVELOPE_KEYS := ROUTE_KEYS + ["kind", "messageId", "sequence", "createdAt", "payloadEncoding", "nonce", "ciphertext"]

  predicate RequireKeys(o: Object, keys: seq<string>) {
    |o| == |keys| && forall k :: k in keys ==> k in o
  }

  /** validBase64(key, 65) followed by DecodeSEC1PublicKey. */
  predicate ValidPublicKey(s: string, onCurve: seq<byte> -> bool) {
    ValidBase64(s, 65) && DecodeBase64(s).value[0] == 4 && onCurve(DecodeBase64(s).value)
  }

  predicate ValidDirection(s: string) {
    s == MOBILE_TO_WINDOWS || s == WINDOWS_TO_MOBILE
  }

  /** Each parser reads its fields, then checks them; the two orders differ from the source
      only in when the one error is raised. */
  function ReadRoute(o: Object, frameType: string, body: Body): Option<Frame> {
    var version :- BoundedInt(o, "protocolVersion", 1, MAX_INT64);
    var sessionId :- RequiredString(o, "sessionId");
    var tenant :- RequiredString(o, "tenantId");
    var host :- RequiredString(o, "hostId");
    var device :- RequiredString(o, "deviceId");
    var direction :- RequiredString(o, "direction");
    Some(Frame(version, frameType, sessionId, tenant, host, device, direction, body))
  }

  predicate RouteOk(f: Frame) {
    && f.protocolVersion == 1 && ValidBase64(f.sessionId, 32)
    && FrameIdentifier(f.tenant) && FrameIdentifier(f.host) && FrameIdentifier(f.device)
    && ValidDirection(f.direction)
  }

  function ReadHello(o: Object): Option<Body> {
    var bindingVersion :- BoundedInt(o, "bindingVersion", 1, MAX_INT64);
    var keyVersion :- BoundedInt(o, "keyVersion", 1, MAX_INT64);
    var ephemeralKey :- RequiredString(o, "ephemeralPublicKey");
    var nonce :- RequiredString(o, "nonce");
    var createdAt :- BoundedInt(o, "createdAt", 0, MAX_INT64);
    var signature :- RequiredString(o, "signature");
    Some(Hello(bindingVersion, keyVersion, ephemeralKey, nonce, createdAt, signature))
  }

  function ReadConfirmation(o: Object): Option<Body> {
    var senderRole :- RequiredString(o, "senderRole");
    var confirmation :- RequiredString(o, "confirmation");
    Some(Confirmation(senderRole, confirmation))
  }

  function ReadEnvelope(o: Object): Option<Body> {
    var kind :- RequiredString(o, "kind");
    var messageId :- RequiredString(o, "messageId");
    var sequence :- BoundedInt(o, "sequence", 1, MAX_SEQUENCE);
    var createdAt :- BoundedInt(o, "createdAt", 0, MAX_INT64);
    var payloadEncoding :- RequiredString(o, "payloadEncoding");
    var nonce :- RequiredString(o, "nonce");
    var ciphertext :- RequiredString(o, "ciphertext");
    Some(Envelope(kind, messageId, sequence, createdAt, payloadEncoding, nonce, ciphertext))
  }

  predicate CiphertextFits(s: string, configuredMax: int) {
    && DecodeBase64(s).Some?
    && GCM_TAG_BYTES <= |DecodeBase64(s).value| <= EffectiveMessageBytes(configuredMax) + GCM_TAG_BYTES
  }

  /** Which direction a frame may travel in. */
  predicate DirectionFits(frameType: string, direction: string, body: Body) {
    match body
    case Hello(_, _, _, _, _, _) =>
      && (frameType == CLIENT_HELLO ==> direction == MOBILE_TO_WINDOWS)
      && (frameType == SERVER_HELLO ==> direction == WINDOWS_TO_MOBILE)
    case Confirmation(role, _) =>
      || (role == "android" && direction == MOBILE_TO_WINDOWS)
      || (role == "windows" && direction == WINDOWS_TO_MOBILE)
    case Envelope(kind, _, _, _, _, _, _) =>
      && (direction == MOBILE_TO_WINDOWS ==> kind == "rpc.request")
      && (direction == WINDOWS_TO_MOBILE ==> kind == "rpc.response" || kind == "event")
  }

  /** The checks on the fields of a body once they are read. */
  predicate BodyOk(b: Body, configuredMax: int, onCurve: seq<byte> -> bool) {
    match b
    case Hello(_, _, ephemeralKey, nonce, _, signature) =>
      ValidPublicKey(ephemeralKey, onCurve) && ValidBase64(nonce, 32) && ValidBase64(signature, 64)
    case Confirmation(_, confirmation) =>
      ValidBase64(confirmation, 32)
    case Envelope(_, messageId, _, _, payloadEncoding, nonce, ciphertext) =>
      && FrameIdentifier(messageId) && payloadEncoding == ENCRYPTED_JSON
      && ValidBase64(nonce, 12) && CiphertextFits(ciphertext, configuredMax)
  }

  function ReadBody(o: Object, frameType: string): Option<Body> {
    if frameType == CLIENT_HELLO || frameType == SERVER_HELLO then
      if RequireKeys(o, HELLO_KEYS) then ReadHello(o) else None
    else if frameType == CONFIRMATION then
      if RequireKeys(o, CONFIRMATION_KEYS) then ReadConfirmation(o) else None
    else if frameType == ENVELOPE then
      if RequireKeys(o, ENVELOPE_KEYS) then ReadEnvelope(o) else None
    else None
  }

  function ReadFrame(o: Object): Option<Frame> {
    var frameType :- RequiredString(o, "frameType");
    var body :- ReadBody(o, frameType);
    ReadRoute(o, frameType, body)
  }

  predicate FrameOk(f: Frame, configuredMax: int, onCurve: seq<byte> -> bool) {
    RouteOk(f) && BodyOk(f.body, configuredMax, onCurve) && DirectionFits(f.frameType, f.direction, f.body)
  }

  /** ParseRelayFrame once the members are in a table. */
  function ParseObject(o: Object, configuredMax: int, onCurve: seq<byte> -> bool): Option<Frame> {
    var frame :- ReadFrame(o);
    if FrameOk(frame, configuredMax, onCurve) then Some(frame) else None
  }

  ghost function ParseMembers(members: seq<Member>, configuredMax: int, onCurve: seq<byte> -> bool): Option<Frame> {
    if DistinctNames(members) then ParseObject(Table(members), configuredMax, onCurve) else None
  }

  method ParseRelayFrame(members: seq<Member>, configuredMax: int, onCurve: seq<byte> -> bool) returns (r: Option<Frame>)
    ensures r == ParseMembers(members, configuredMax, onCurve)
  {
    var o := StrictObject(members);
    if o.None? {
      return None;
    }
    return ParseObject(o.value, configuredMax, onCurve);
  }

  // ----- the grammar, stated on its own -----

  predicate NumbersOk(b: Body) {
    match b
    case Hello(bindingVersion, keyVersion, _, _, createdAt, _) =>
      1 <= bindingVersion <= MAX_INT64 && 1 <= keyVersion <= MAX_INT64 && 0 <= createdAt <= MAX_INT64
    case Confirmation(_, _) => true
    case Envelope(_, _, sequence, createdAt, _, _, _) =>
      1 <= sequence <= MAX_SEQUENCE && 0 <= createdAt <= MAX_INT64
  }

  predicate TypeOk(frameType: string, b: Body) {
    match b
    case Hello(_, _, _, _, _, _) => frameType == CLIENT_HELLO || frameType == SERVER_HELLO
    case Confirmation(_, _) => frameType == CONFIRMATION
    case Envelope(_, _, _, _, _, _, _) => frameType == ENVELOPE
  }

  predicate ValidFrame(f: Frame, configuredMax: int, onCurve: seq<byte> -> bool) {
    TypeOk(f.frameType, f.body) && NumbersOk(f.body) && FrameOk(f, configuredMax, onCurve)
  }

  function Number(n: int): Raw {
    Num(if n < 0 then "-" + Decimal.Print(-n) else Decimal.Print(n))
  }

  function RouteMembers(f: Frame): seq<Member> {
    [Member("protocolVersion", Number(f.protocolVersion)), Member("frameType", Str(f.frameType)),
     Member("sessionId", Str(f.sessionId)), Member("tenantId", Str(f.tenant)), Member("hostId", Str(f.host)),
     Member("deviceId", Str(f.device)), Member("direction", Str(f.direction))]
  }

  function BodyMembers(b: Body): seq<Member> {
    match b
    case Hello(bindingVersion, keyVersion, ephemeralKey, nonce, createdAt, signature) =>
      [Member("bindingVersion", Number(bindingVersion)), Member("keyVersion", Number(keyVersion)),
       Member("ephemeralPublicKey", Str(ephemeralKey)), Member("nonce", Str(nonce)),
       Member("createdAt", Number(createdAt)), Member("signature", Str(signature))]
    case Confirmation(senderRole, confirmation) =>
      [Member("senderRole", Str(senderRole)), Member("confirmation", Str(confirmation))]
    case Envelope(kind, messageId, sequence, createdAt, payloadEncoding, nonce, ciphertext) =>
      [Member("kind", Str(kind)), Member("messageId", Str(messageId)), Member("sequence", Number(sequence)),
       Member("createdAt", Number(createdAt)), Member("payloadEncoding", Str(payloadEncoding)),
       Member("nonce", Str(nonce)), Member("ciphertext", Str(ciphertext))]
  }

  /** The members of a frame in schema order. */
  function Print(f: Frame): seq<Member> {
    RouteMembers(f) + BodyMembers(f.body)
  }
}

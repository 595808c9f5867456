/** The frames the relay lets through, written out: seven kinds, what each carries, and the
    members that spell it. The parser reads exactly these. */
module FrameRules {
  import opened Text
  import opened Base64Url
  import opened Frames
  import opened FrameGrammar
  import Decimal

  /** What a frame is for, with its contents as bytes. */
  datatype Note =
    | ClientHello(binding: int, version: int, point: seq<byte>, nonce: seq<byte>, at: int, signature: seq<byte>)
    | ServerHello(binding: int, version: int, point: seq<byte>, nonce: seq<byte>, at: int, signature: seq<byte>)
    | PhoneConfirms(bytes: seq<byte>)
    | WindowsConfirms(bytes: seq<byte>)
    | Request(id: string, number: int, at: int, nonce: seq<byte>, ciphertext: seq<byte>)
    | Response(id: string, number: int, at: int, nonce: seq<byte>, ciphertext: seq<byte>)
    | Event(id: string, number: int, at: int, nonce: seq<byte>, ciphertext: seq<byte>)

  datatype Wire = Wire(session: seq<byte>, tenant: string, host: string, device: string, note: Note)

  predicate WireName(s: string) {
    s != "" && |Utf8(s)| <= 128 && !IsSpace(s[0]) && !IsSpace(s[|s| - 1])
  }

  /** Eleven mebibytes of plaintext, or less if so configured. */
  function PlaintextLimit(configured: int): int {
    if 0 <= configured <= 11534336 then configured else 11534336
  }

  predicate HelloOk(binding: int, version: int, point: seq<byte>, nonce: seq<byte>, at: int, signature: seq<byte>, onCurve: seq<byte> -> bool) {
    && 1 <= binding <= 9223372036854775807 && 1 <= version <= 9223372036854775807 && 0 <= at <= 9223372036854775807
    && |point| == 65 && point[0] == 4 && onCurve(point) && |nonce| == 32 && |signature| == 64
  }

  predicate MessageOk(id: string, number: int, at: int, nonce: seq<byte>, ciphertext: seq<byte>, configured: int) {
    && WireName(id) && 1 <= number <= 4294967295 && 0 <= at <= 9223372036854775807
    && |nonce| == 12 && 16 <= |ciphertext| <= PlaintextLimit(configured) + 16
  }

  predicate NoteOk(n: Note, configured: int, onCurve: seq<byte> -> bool) {
    match n
    case ClientHello(b, v, p, nonce, at, s) => HelloOk(b, v, p, nonce, at, s, onCurve)
    case ServerHello(b, v, p, nonce, at, s) => HelloOk(b, v, p, nonce, at, s, onCurve)
    case PhoneConfirms(bytes) => |bytes| == 32
    case WindowsConfirms(bytes) => |bytes| == 32
    case Request(id, number, at, nonce, c) => MessageOk(id, number, at, nonce, c, configured)
    case Response(id, number, at, nonce, c) => MessageOk(id, number, at, nonce, c, configured)
    case Event(id, number, at, nonce, c) => MessageOk(id, number, at, nonce, c, configured)
  }

  predicate WireOk(w: Wire, configured: int, onCurve: seq<byte> -> bool) {
    |w.session| == 32 && WireName(w.tenant) && WireName(w.host) && WireName(w.device) && NoteOk(w.note, configured, onCurve)
  }

  function TypeText(n: Note): string {
    match n
    case ClientHello(_, _, _, _, _, _) => "session.client_hello"
    case ServerHello(_, _, _, _, _, _) => "session.server_hello"
    case PhoneConfirms(_) => "session.confirmation"
    case WindowsConfirms(_) => "session.confirmation"
    case Request(_, _, _, _, _) => "session.envelope"
    case Response(_, _, _, _, _) => "session.envelope"
    case Event(_, _, _, _, _) => "session.envelope"
  }

  predicate FromPhone(n: Note) {
    n.ClientHello? || n.PhoneConfirms? || n.Request?
  }

  function DirectionText(n: Note): string {
    if FromPhone(n) then "mobile_to_windows" else "windows_to_mobile"
  }

  function HelloMembers(b: int, v: int, p: seq<byte>, nonce: seq<byte>, at: int, s: seq<byte>): seq<Member> {
    [Member("bindingVersion", Number(b)), Member("keyVersion", Number(v)), Member("ephemeralPublicKey", Str(Encode(p))),
     Member("nonce", Str(Encode(nonce))), Member("createdAt", Number(at)), Member("signature", Str(Encode(s)))]
  }

  function MessageMembers(kind: string, id: string, number: int, at: int, nonce: seq<byte>, c: seq<byte>): seq<Member> {
    [Member("kind", Str(kind)), Member("messageId", Str(id)), Member("sequence", Number(number)), Member("createdAt", Number(at)),
     Member("payloadEncoding", Str("encrypted-json")), Member("nonce", Str(Encode(nonce))), Member("ciphertext", Str(Encode(c)))]
  }

  function NoteMembers(n: Note): seq<Member> {
    match n
    case ClientHello(b, v, p, nonce, at, s) => HelloMembers(b, v, p, nonce, at, s)
    case ServerHello(b, v, p, nonce, at, s) => HelloMembers(b, v, p, nonce, at, s)
    case PhoneConfirms(bytes) => [Member("senderRole", Str("android")), Member("confirmation", Str(Encode(bytes)))]
    case WindowsConfirms(bytes) => [Member("senderRole", Str("windows")), Member("confirmation", Str(Encode(bytes)))]
    case Request(id, number, at, nonce, c) => MessageMembers("rpc.request", id, number, at, nonce, c)
    case Response(id, number, at, nonce, c) => MessageMembers("rpc.response", id, number, at, nonce, c)
    case Event(id, number, at, nonce, c) => MessageMembers("event", id, number, at, nonce, c)
  }

  /** The members that spell a frame. */
  function Spelled(w: Wire): seq<Member> {
    [Member("protocolVersion", Num("1")), Member("frameType", Str(TypeText(w.note))), Member("sessionId", Str(Encode(w.session))),
     Member("tenantId", Str(w.tenant)), Member("hostId", Str(w.host)), Member("deviceId", Str(w.device)),
     Member("direction", Str(DirectionText(w.note)))] + NoteMembers(w.note)
  }

  function BodyOf(n: Note): Body {
    match n
    case ClientHello(b, v, p, nonce, at, s) => Hello(b, v, Encode(p), Encode(nonce), at, Encode(s))
    case ServerHello(b, v, p, nonce, at, s) => Hello(b, v, Encode(p), Encode(nonce), at, Encode(s))
    case PhoneConfirms(bytes) => Confirmation("android", Encode(bytes))
    case WindowsConfirms(bytes) => Confirmation("windows", Encode(bytes))
    case Request(id, number, at, nonce, c) => Envelope("rpc.request", id, number, at, "encrypted-json", Encode(nonce), Encode(c))
    case Response(id, number, at, nonce, c) => Envelope("rpc.response", id, number, at, "encrypted-json", Encode(nonce), Encode(c))
    case Event(id, number, at, nonce, c) => Envelope("event", id, number, at, "encrypted-json", Encode(nonce), Encode(c))
  }

  function FrameOf(w: Wire): Frame {
    Frame(1, TypeText(w.note), Encode(w.session), w.tenant, w.host, w.device, DirectionText(w.note), BodyOf(w.note))
  }

  // ----- from wires to valid frames -----

  lemma EncodedIsValid(b: seq<byte>)
    ensures ValidBase64(Encode(b), |b|) && DecodeBase64(Encode(b)) == Some(b)
  {
    DecodeBase64Accepts(Encode(b), b);
  }

  lemma NameIsIdentifier(s: string)
    ensures WireName(s) <==> FrameIdentifier(s)
  {
    TrimSpaceIsTrimmed(s);
  }

  lemma LimitIs(configured: int)
    ensures EffectiveMessageBytes(configured) == PlaintextLimit(configured)
  {
  }

  lemma HelloIsValid(n: Note, configured: int, onCurve: seq<byte> -> bool)
    requires (n.ClientHello? || n.ServerHello?) && NoteOk(n, configured, onCurve)
    ensures TypeOk(TypeText(n), BodyOf(n)) && NumbersOk(BodyOf(n)) && BodyOk(BodyOf(n), configured, onCurve)
    ensures DirectionFits(TypeText(n), DirectionText(n), BodyOf(n))
  {
    EncodedIsValid(n.point);
    EncodedIsValid(n.nonce);
    EncodedIsValid(n.signature);
    TypesDiffer();
  }

  lemma ConfirmationIsValid(n: Note, configured: int, onCurve: seq<byte> -> bool)
    requires (n.PhoneConfirms? || n.WindowsConfirms?) && NoteOk(n, configured, onCurve)
    ensures TypeOk(TypeText(n), BodyOf(n)) && NumbersOk(BodyOf(n)) && BodyOk(BodyOf(n), configured, onCurve)
    ensures DirectionFits(TypeText(n), DirectionText(n), BodyOf(n))
  {
    EncodedIsValid(n.bytes);
  }

  lemma MessageIsValid(n: Note, configured: int, onCurve: seq<byte> -> bool)
    requires (n.Request? || n.Response? || n.Event?) && NoteOk(n, configured, onCurve)
    ensures TypeOk(TypeText(n), BodyOf(n)) && NumbersOk(BodyOf(n)) && BodyOk(BodyOf(n), configured, onCurve)
    ensures DirectionFits(TypeText(n), DirectionText(n), BodyOf(n))
  {
    EncodedIsValid(n.nonce);
    EncodedIsValid(n.ciphertext);
    NameIsIdentifier(n.id);
    LimitIs(configured);
    DirectionsDiffer();
  }

  lemma DirectionsDiffer()
    ensures "mobile_to_windows" != "windows_to_mobile"
  {
    assert "mobile_to_windows"[0] != "windows_to_mobile"[0];
  }

  lemma WireIsValid(w: Wire, configured: int, onCurve: seq<byte> -> bool)
    requires WireOk(w, configured, onCurve)
    ensures ValidFrame(FrameOf(w), configured, onCurve)
  {
    EncodedIsValid(w.session);
    NameIsIdentifier(w.tenant);
    NameIsIdentifier(w.host);
    NameIsIdentifier(w.device);
    if w.note.ClientHello? || w.note.ServerHello? {
      HelloIsValid(w.note, configured, onCurve);
    } else if w.note.PhoneConfirms? || w.note.WindowsConfirms? {
      ConfirmationIsValid(w.note, configured, onCurve);
    } else {
      MessageIsValid(w.note, configured, onCurve);
    }
  }

  lemma OneIsPrinted()
    ensures Number(1) == Num("1")
  {
  }

  lemma PrintedAsSpelled(w: Wire)
    ensures Print(FrameOf(w)) == Spelled(w)
  {
    OneIsPrinted();
    assert RouteMembers(FrameOf(w)) == Spelled(w)[..7];
    assert BodyMembers(BodyOf(w.note)) == NoteMembers(w.note);
  }

  // ----- from valid frames to wires -----

  lemma BytesOf(s: string, length: nat) returns (b: seq<byte>)
    requires ValidBase64(s, length)
    ensures |b| == length && s == Encode(b) && DecodeBase64(s) == Some(b)
  {
    b := DecodeBase64(s).value;
    DecodeBase64Accepts(s, b);
  }

  lemma HelloNote(f: Frame, configured: int, onCurve: seq<byte> -> bool) returns (n: Note)
    requires ValidFrame(f, configured, onCurve) && f.body.Hello?
    ensures NoteOk(n, configured, onCurve) && f.frameType == TypeText(n) && f.direction == DirectionText(n) && f.body == BodyOf(n)
  {
    var b := f.body;
    var point := BytesOf(b.ephemeralKey, 65);
    var nonce := BytesOf(b.nonce, 32);
    var signature := BytesOf(b.signature, 64);
    TypesDiffer();
    n := if f.frameType == CLIENT_HELLO then ClientHello(b.bindingVersion, b.keyVersion, point, nonce, b.createdAt, signature)
         else ServerHello(b.bindingVersion, b.keyVersion, point, nonce, b.createdAt, signature);
  }

  lemma ConfirmationNote(f: Frame, configured: int, onCurve: seq<byte> -> bool) returns (n: Note)
    requires ValidFrame(f, configured, onCurve) && f.body.Confirmation?
    ensures NoteOk(n, configured, onCurve) && f.frameType == TypeText(n) && f.direction == DirectionText(n) && f.body == BodyOf(n)
  {
    var bytes := BytesOf(f.body.confirmation, 32);
    n := if f.body.senderRole == "android" then PhoneConfirms(bytes) else WindowsConfirms(bytes);
  }

  lemma MessageNote(f: Frame, configured: int, onCurve: seq<byte> -> bool) returns (n: Note)
    requires ValidFrame(f, configured, onCurve) && f.body.Envelope?
    ensures NoteOk(n, configured, onCurve) && f.frameType == TypeText(n) && f.direction == DirectionText(n) && f.body == BodyOf(n)
  {
    var b := f.body;
    var nonce := BytesOf(b.nonce, 12);
    var c := BytesOf(b.ciphertext, |DecodeBase64(b.ciphertext).value|);
    NameIsIdentifier(b.messageId);
    LimitIs(configured);
    n := if f.direction == MOBILE_TO_WINDOWS then Request(b.messageId, b.sequence, b.createdAt, nonce, c)
         else if b.kind == "event" then Event(b.messageId, b.sequence, b.createdAt, nonce, c)
         else Response(b.messageId, b.sequence, b.createdAt, nonce, c);
  }

  lemma ValidIsWire(f: Frame, configured: int, onCurve: seq<byte> -> bool) returns (w: Wire)
    requires ValidFrame(f, configured, onCurve)
    ensures WireOk(w, configured, onCurve) && f == FrameOf(w)
  {
    var session := BytesOf(f.sessionId, 32);
    NameIsIdentifier(f.tenant);
    NameIsIdentifier(f.host);
    NameIsIdentifier(f.device);
    var n;
    match f.body {
      case Hello(_, _, _, _, _, _) => n := HelloNote(f, configured, onCurve);
      case Confirmation(_, _) => n := ConfirmationNote(f, configured, onCurve);
      case Envelope(_, _, _, _, _, _, _) => n := MessageNote(f, configured, onCurve);
    }
    w := Wire(session, f.tenant, f.host, f.device, n);
  }

  // ----- the parser -----

  /** Some frame of the seven kinds, within its limits, is spelled by these members in some
      order and reads as f. */
  ghost predicate Reads(members: seq<Member>, configured: int, onCurve: seq<byte> -> bool, f: Frame) {
    exists w :: SpelledBy(members, configured, onCurve, f, w)
  }

  predicate SpelledBy(members: seq<Member>, configured: int, onCurve: seq<byte> -> bool, f: Frame, w: Wire) {
    WireOk(w, configured, onCurve) && f == FrameOf(w) && multiset(members) == multiset(Spelled(w))
  }

  /** The parser accepts exactly the spellings of the seven kinds of frame, whatever their
      order, and reads them as what they spell. */
  lemma ParserReadsWires(members: seq<Member>, configured: int, onCurve: seq<byte> -> bool, f: Frame)
    ensures ParseMembers(members, configured, onCurve) == Some(f) <==> Reads(members, configured, onCurve, f)
  {
    ParserAccepts(members, configured, onCurve, f);
    if ParseMembers(members, configured, onCurve) == Some(f) {
      var w := ValidIsWire(f, configured, onCurve);
      PrintedAsSpelled(w);
      assert SpelledBy(members, configured, onCurve, f, w);
    }
    if Reads(members, configured, onCurve, f) {
      var w :| SpelledBy(members, configured, onCurve, f, w);
      WireIsValid(w, configured, onCurve);
      PrintedAsSpelled(w);
    }
  }

  /** The sender's side, the kind and the direction of a frame go together. */
  predicate DirectionRule(f: Frame) {
    match f.body
    case Hello(_, _, _, _, _, _) =>
      || (f.frameType == "session.client_hello" && f.direction == "mobile_to_windows")
      || (f.frameType == "session.server_hello" && f.direction == "windows_to_mobile")
    case Confirmation(role, _) =>
      && f.frameType == "session.confirmation"
      && ((role == "android" && f.direction == "mobile_to_windows") || (role == "windows" && f.direction == "windows_to_mobile"))
    case Envelope(kind, _, _, _, _, _, _) =>
      && f.frameType == "session.envelope"
      && (|| (kind == "rpc.request" && f.direction == "mobile_to_windows")
          || ((kind == "rpc.response" || kind == "event") && f.direction == "windows_to_mobile"))
  }

  lemma WireDirection(w: Wire)
    ensures DirectionRule(FrameOf(w))
  {
  }

  lemma AcceptedDirection(members: seq<Member>, configured: int, onCurve: seq<byte> -> bool, f: Frame)
    requires ParseMembers(members, configured, onCurve) == Some(f)
    ensures DirectionRule(f)
  {
    ParserReadsWires(members, configured, onCurve, f);
    var w :| SpelledBy(members, configured, onCurve, f, w);
    WireDirection(w);
  }
}

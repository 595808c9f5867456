/** The frame parser against the grammar: what it accepts, in which member orders, and
    how large the accepted text can be. */
module FrameGrammar {
  import opened Text
  import opened Base64Url
  import opened Frames

  // ----- member lists and tables -----

  /** Every member is in the object with its value. */
  ghost predicate Holds(o: Object, members: seq<Member>) {
    forall m :: m in members ==> m.name in o && o[m.name] == m.value
  }

  ghost function Names(members: seq<Member>): set<string> {
    set m | m in members :: m.name
  }

  lemma {:induction false} TableOfMembers(members: seq<Member>)
    requires DistinctNames(members)
    ensures Table(members).Keys == Names(members) && Holds(Table(members), members)
  {
    if members != [] {
      var front, last := members[..|members| - 1], members[|members| - 1];
      TableOfMembers(front);
      assert forall m :: m in members <==> m in front || m == last;
      assert forall m :: m in front ==> m.name != last.name;
      assert last in members;
      assert Names(members) == Names(front) + {last.name};
    }
  }

  lemma {:induction false} CountOfMember(members: seq<Member>, m: Member)
    requires DistinctNames(members)
    ensures multiset(members)[m] == if m in members then 1 else 0
  {
    if members != [] {
      var front, last := members[..|members| - 1], members[|members| - 1];
      CountOfMember(front, m);
      assert members == front + [last];
      assert forall x :: x in front ==> x.name != last.name;
    }
  }

  lemma {:induction false} CountOfRepeated(members: seq<Member>, i: nat, j: nat)
    requires i < j < |members| && members[i] == members[j]
    ensures multiset(members)[members[i]] >= 2
  {
    var left, right := members[..j], members[j..];
    assert members == left + right;
    assert left[i] == members[i] && right[0] == members[j];
    assert members[i] in left && members[i] in right;
    assert multiset(members) == multiset(left) + multiset(right);
  }

  lemma ReorderedNames(members: seq<Member>, printed: seq<Member>)
    requires multiset(members) == multiset(printed) && DistinctNames(printed)
    ensures DistinctNames(members)
  {
    forall i, j | 0 <= i < j < |members| ensures members[i].name != members[j].name {
      assert members[i] in multiset(members) && members[j] in multiset(members);
      CountOfMember(printed, members[i]);
      if members[i] == members[j] {
        CountOfRepeated(members, i, j);
      }
    }
  }

  /** A list of members is a reordering of a duplicate-free one exactly when it too is
      duplicate-free and its table holds the same members and no other name. */
  lemma Reordering(members: seq<Member>, printed: seq<Member>)
    requires DistinctNames(printed)
    ensures multiset(members) == multiset(printed) <==>
          && DistinctNames(members) && Table(members).Keys == Names(printed) && Holds(Table(members), printed)
  {
    if multiset(members) == multiset(printed) {
      ReorderedTable(members, printed);
    } else if DistinctNames(members) && Table(members).Keys == Names(printed) && Holds(Table(members), printed) {
      TableOfMembers(members);
      forall m ensures multiset(members)[m] == multiset(printed)[m] {
        CountOfMember(members, m);
        CountOfMember(printed, m);
        SameMember(members, printed, m);
      }
    }
  }

  lemma ReorderedTable(members: seq<Member>, printed: seq<Member>)
    requires DistinctNames(printed) && multiset(members) == multiset(printed)
    ensures DistinctNames(members) && Table(members).Keys == Names(printed) && Holds(Table(members), printed)
  {
    ReorderedNames(members, printed);
    TableOfMembers(members);
    forall m ensures m in members <==> m in printed {
      assert m in members <==> m in multiset(members);
      assert m in printed <==> m in multiset(printed);
    }
  }

  lemma SameMember(members: seq<Member>, printed: seq<Member>, m: Member)
    requires DistinctNames(members) && Holds(Table(members), members)
    requires Table(members).Keys == Names(members) == Names(printed) && Holds(Table(members), printed)
    ensures m in members <==> m in printed
  {
    if m in members {
      assert m.name in Names(printed);
      var p :| p in printed && p.name == m.name;
    }
    if m in printed {
      assert m.name in Names(members);
      var p :| p in members && p.name == m.name;
    }
  }

  // ----- required keys -----

  ghost predicate NoRepeats(keys: seq<string>) {
    forall i, j :: 0 <= i < j < |keys| ==> keys[i] != keys[j]
  }

  ghost function KeySet(keys: seq<string>): set<string> {
    set k | k in keys
  }

  lemma {:induction false} KeySetSize(keys: seq<string>)
    requires NoRepeats(keys)
    ensures |KeySet(keys)| == |keys|
  {
    if keys != [] {
      var front, last := keys[..|keys| - 1], keys[|keys| - 1];
      KeySetSize(front);
      assert KeySet(keys) == KeySet(front) + {last};
      assert last !in front;
    }
  }

  lemma SubsetOfSameSize(a: set<string>, b: set<string>)
    requires a <= b && |a| == |b|
    ensures a == b
  {
    assert b == a + (b - a);
  }

  /** Counting the names and finding each wanted one leaves room for no other. */
  lemma RequireKeysMeans(o: Object, keys: seq<string>)
    requires NoRepeats(keys)
    ensures RequireKeys(o, keys) <==> o.Keys == KeySet(keys)
  {
    KeySetSize(keys);
    assert |o| == |o.Keys|;
    assert forall k :: k in keys ==> k in KeySet(keys);
    if RequireKeys(o, keys) {
      SubsetOfSameSize(KeySet(keys), o.Keys);
    }
  }

  function KeysOf(b: Body): seq<string> {
    match b
    case Hello(_, _, _, _, _, _) => HELLO_KEYS
    case Confirmation(_, _) => CONFIRMATION_KEYS
    case Envelope(_, _, _, _, _, _, _) => ENVELOPE_KEYS
  }

  lemma SchemaKeys(b: Body)
    ensures NoRepeats(KeysOf(b))
  {
  }

  ghost function NameList(members: seq<Member>): seq<string> {
    seq(|members|, i requires 0 <= i < |members| => members[i].name)
  }

  lemma NameListMeans(members: seq<Member>, keys: seq<string>)
    requires NameList(members) == keys
    ensures Names(members) == KeySet(keys)
    ensures NoRepeats(keys) ==> DistinctNames(members)
  {
    assert forall i :: 0 <= i < |members| ==> members[i].name == keys[i];
    forall k | k in keys ensures k in Names(members) {
      var i :| 0 <= i < |keys| && keys[i] == k;
      assert members[i] in members;
    }
  }

  lemma RouteNames(f: Frame)
    ensures NameList(RouteMembers(f)) == ROUTE_KEYS
  {
  }

  lemma BodyNames(b: Body)
    ensures ROUTE_KEYS + NameList(BodyMembers(b)) == KeysOf(b)
  {
    var names := NameList(BodyMembers(b));
    match b {
      case Hello(_, _, _, _, _, _) =>
        assert names == ["bindingVersion", "keyVersion", "ephemeralPublicKey", "nonce", "createdAt", "signature"];
      case Confirmation(_, _) =>
        assert names == ["senderRole", "confirmation"];
      case Envelope(_, _, _, _, _, _, _) =>
        assert names == ["kind", "messageId", "sequence", "createdAt", "payloadEncoding", "nonce", "ciphertext"];
    }
  }

  lemma PrintedNames(f: Frame)
    ensures DistinctNames(Print(f)) && Names(Print(f)) == KeySet(KeysOf(f.body))
  {
    SchemaKeys(f.body);
    RouteNames(f);
    BodyNames(f.body);
    NameListOfConcat(RouteMembers(f), BodyMembers(f.body));
    NameListMeans(Print(f), KeysOf(f.body));
  }

  lemma NameListOfConcat(a: seq<Member>, b: seq<Member>)
    ensures NameList(a + b) == NameList(a) + NameList(b)
  {
  }

  // ----- what each part of the parser accepts -----

  lemma HoldsBoth(o: Object, a: seq<Member>, b: seq<Member>)
    ensures Holds(o, a + b) <==> Holds(o, a) && Holds(o, b)
  {
    assert forall m :: m in a + b <==> m in a || m in b;
  }

  lemma Base64IsNotEmpty(s: string, length: nat)
    requires ValidBase64(s, length) && 0 < length
    ensures s != ""
  {
    DecodeBase64Accepts(s, DecodeBase64(s).value);
    EncodeLength(DecodeBase64(s).value);
  }

  ghost predicate At(o: Object, name: string, value: Raw) {
    name in o && o[name] == value
  }

  lemma HoldsHello(o: Object, b: Body)
    requires b.Hello?
    ensures Holds(o, BodyMembers(b)) <==>
          && At(o, "bindingVersion", Number(b.bindingVersion)) && At(o, "keyVersion", Number(b.keyVersion))
          && At(o, "ephemeralPublicKey", Str(b.ephemeralKey)) && At(o, "nonce", Str(b.nonce))
          && At(o, "createdAt", Number(b.createdAt)) && At(o, "signature", Str(b.signature))
  {
    var m := BodyMembers(b);
    if Holds(o, m) {
      assert m[0] in m && m[1] in m && m[2] in m && m[3] in m && m[4] in m && m[5] in m;
    }
  }

  lemma HoldsEnvelope(o: Object, b: Body)
    requires b.Envelope?
    ensures Holds(o, BodyMembers(b)) <==>
          && At(o, "kind", Str(b.kind)) && At(o, "messageId", Str(b.messageId)) && At(o, "sequence", Number(b.sequence))
          && At(o, "createdAt", Number(b.createdAt)) && At(o, "payloadEncoding", Str(b.payloadEncoding))
          && At(o, "nonce", Str(b.nonce)) && At(o, "ciphertext", Str(b.ciphertext))
  {
    var m := BodyMembers(b);
    if Holds(o, m) {
      assert m[0] in m && m[1] in m && m[2] in m && m[3] in m && m[4] in m && m[5] in m && m[6] in m;
    }
  }

  lemma HoldsConfirmation(o: Object, b: Body)
    requires b.Confirmation?
    ensures Holds(o, BodyMembers(b)) <==>
          && At(o, "senderRole", Str(b.senderRole)) && At(o, "confirmation", Str(b.confirmation))
  {
    var m := BodyMembers(b);
    if Holds(o, m) {
      assert m[0] in m && m[1] in m;
    }
  }

  lemma HoldsRoute(o: Object, f: Frame)
    ensures Holds(o, RouteMembers(f)) <==>
          && At(o, "protocolVersion", Number(f.protocolVersion)) && At(o, "frameType", Str(f.frameType))
          && At(o, "sessionId", Str(f.sessionId)) && At(o, "tenantId", Str(f.tenant)) && At(o, "hostId", Str(f.host))
          && At(o, "deviceId", Str(f.device)) && At(o, "direction", Str(f.direction))
  {
    var m := RouteMembers(f);
    if Holds(o, m) {
      assert m[0] in m && m[1] in m && m[2] in m && m[3] in m && m[4] in m && m[5] in m && m[6] in m;
    }
  }

  predicate TextsPresent(b: Body) {
    match b
    case Hello(_, _, ephemeralKey, nonce, _, signature) => ephemeralKey != "" && nonce != "" && signature != ""
    case Confirmation(senderRole, confirmation) => senderRole != "" && confirmation != ""
    case Envelope(kind, messageId, _, _, payloadEncoding, nonce, ciphertext) =>
      kind != "" && messageId != "" && payloadEncoding != "" && nonce != "" && ciphertext != ""
  }

  lemma IntAt(o: Object, key: string, minimum: nat, maximum: int, n: int)
    ensures BoundedInt(o, key, minimum, maximum) == Some(n) <==> minimum <= n <= maximum && At(o, key, Number(n))
  {
    BoundedIntAccepts(o, key, minimum, maximum, n);
  }

  lemma StringAt(o: Object, key: string, s: string)
    ensures RequiredString(o, key) == Some(s) <==> s != "" && At(o, key, Str(s))
  {
  }

  lemma HelloReads(o: Object, b: Body)
    requires b.Hello?
    ensures ReadHello(o) == Some(b) <==> Holds(o, BodyMembers(b)) && NumbersOk(b) && TextsPresent(b)
  {
    IntAt(o, "bindingVersion", 1, MAX_INT64, b.bindingVersion);
    IntAt(o, "keyVersion", 1, MAX_INT64, b.keyVersion);
    IntAt(o, "createdAt", 0, MAX_INT64, b.createdAt);
    StringAt(o, "ephemeralPublicKey", b.ephemeralKey);
    StringAt(o, "nonce", b.nonce);
    StringAt(o, "signature", b.signature);
    HoldsHello(o, b);
  }

  lemma ConfirmationReads(o: Object, b: Body)
    requires b.Confirmation?
    ensures ReadConfirmation(o) == Some(b) <==> Holds(o, BodyMembers(b)) && NumbersOk(b) && TextsPresent(b)
  {
    HoldsConfirmation(o, b);
  }

  lemma EnvelopeReads(o: Object, b: Body)
    requires b.Envelope?
    ensures ReadEnvelope(o) == Some(b) <==> Holds(o, BodyMembers(b)) && NumbersOk(b) && TextsPresent(b)
  {
    IntAt(o, "sequence", 1, MAX_SEQUENCE, b.sequence);
    IntAt(o, "createdAt", 0, MAX_INT64, b.createdAt);
    StringAt(o, "kind", b.kind);
    StringAt(o, "messageId", b.messageId);
    StringAt(o, "payloadEncoding", b.payloadEncoding);
    StringAt(o, "nonce", b.nonce);
    StringAt(o, "ciphertext", b.ciphertext);
    HoldsEnvelope(o, b);
  }

  function ReadFields(o: Object, b: Body): Option<Body> {
    match b
    case Hello(_, _, _, _, _, _) => ReadHello(o)
    case Confirmation(_, _) => ReadConfirmation(o)
    case Envelope(_, _, _, _, _, _, _) => ReadEnvelope(o)
  }

  lemma TypesDiffer()
    ensures CLIENT_HELLO != CONFIRMATION && CLIENT_HELLO != ENVELOPE && SERVER_HELLO != CONFIRMATION
    ensures SERVER_HELLO != ENVELOPE && CONFIRMATION != ENVELOPE
  {
  }

  lemma ReadersKeepKind(o: Object)
    ensures ReadHello(o).Some? ==> ReadHello(o).value.Hello?
    ensures ReadConfirmation(o).Some? ==> ReadConfirmation(o).value.Confirmation?
    ensures ReadEnvelope(o).Some? ==> ReadEnvelope(o).value.Envelope?
  {
  }

  lemma BodyDispatch(o: Object, frameType: string, b: Body)
    ensures ReadBody(o, frameType) == Some(b) <==>
              TypeOk(frameType, b) && RequireKeys(o, KeysOf(b)) && ReadFields(o, b) == Some(b)
  {
    TypesDiffer();
    ReadersKeepKind(o);
  }

  lemma FieldsRead(o: Object, b: Body)
    ensures ReadFields(o, b) == Some(b) <==> Holds(o, BodyMembers(b)) && NumbersOk(b) && TextsPresent(b)
  {
    if b.Hello? {
      HelloReads(o, b);
    } else if b.Confirmation? {
      ConfirmationReads(o, b);
    } else {
      EnvelopeReads(o, b);
    }
  }

  lemma RouteReads(o: Object, f: Frame)
    requires At(o, "frameType", Str(f.frameType)) && f.frameType != ""
    ensures ReadRoute(o, f.frameType, f.body) == Some(f) <==>
              && Holds(o, RouteMembers(f)) && 1 <= f.protocolVersion <= MAX_INT64
              && f.sessionId != "" && f.tenant != "" && f.host != "" && f.device != "" && f.direction != ""
  {
    IntAt(o, "protocolVersion", 1, MAX_INT64, f.protocolVersion);
    StringAt(o, "sessionId", f.sessionId);
    StringAt(o, "tenantId", f.tenant);
    StringAt(o, "hostId", f.host);
    StringAt(o, "deviceId", f.device);
    StringAt(o, "direction", f.direction);
    HoldsRoute(o, f);
  }

  lemma ValidTextsPresent(f: Frame, configuredMax: int, onCurve: seq<byte> -> bool)
    requires ValidFrame(f, configuredMax, onCurve)
    ensures TextsPresent(f.body) && f.frameType != ""
    ensures f.sessionId != "" && f.tenant != "" && f.host != "" && f.device != "" && f.direction != ""
  {
    Base64IsNotEmpty(f.sessionId, 32);
    match f.body {
      case Hello(_, _, ephemeralKey, nonce, _, signature) =>
        Base64IsNotEmpty(ephemeralKey, 65);
        Base64IsNotEmpty(nonce, 32);
        Base64IsNotEmpty(signature, 64);
      case Confirmation(_, confirmation) =>
        Base64IsNotEmpty(confirmation, 32);
      case Envelope(_, _, _, _, _, nonce, ciphertext) =>
        Base64IsNotEmpty(nonce, 12);
        Base64IsNotEmpty(ciphertext, |DecodeBase64(ciphertext).value|);
    }
  }

  lemma RouteKeepsBody(o: Object, frameType: string, b: Body)
    ensures var r := ReadRoute(o, frameType, b); r.Some? ==> r.value.frameType == frameType && r.value.body == b
  {
  }

  lemma ReadSteps(o: Object, f: Frame)
    ensures ReadFrame(o) == Some(f) <==>
              && RequiredString(o, "frameType") == Some(f.frameType)
              && ReadBody(o, f.frameType) == Some(f.body)
              && ReadRoute(o, f.frameType, f.body) == Some(f)
  {
    var frameType := RequiredString(o, "frameType");
    if frameType.Some? {
      var body := ReadBody(o, frameType.value);
      if body.Some? {
        RouteKeepsBody(o, frameType.value, body.value);
      }
    }
  }

  lemma ObjectSound(o: Object, f: Frame)
    requires RequiredString(o, "frameType") == Some(f.frameType)
    requires ReadBody(o, f.frameType) == Some(f.body) && ReadRoute(o, f.frameType, f.body) == Some(f)
    ensures TypeOk(f.frameType, f.body) && NumbersOk(f.body)
    ensures o.Keys == Names(Print(f)) && Holds(o, Print(f))
  {
    BodyDispatch(o, f.frameType, f.body);
    FieldsRead(o, f.body);
    StringAt(o, "frameType", f.frameType);
    RouteReads(o, f);
    SchemaKeys(f.body);
    RequireKeysMeans(o, KeysOf(f.body));
    PrintedNames(f);
    HoldsBoth(o, RouteMembers(f), BodyMembers(f.body));
  }

  lemma ObjectComplete(o: Object, f: Frame)
    requires TypeOk(f.frameType, f.body) && NumbersOk(f.body) && TextsPresent(f.body) && f.frameType != ""
    requires 1 <= f.protocolVersion <= MAX_INT64
    requires f.sessionId != "" && f.tenant != "" && f.host != "" && f.device != "" && f.direction != ""
    requires o.Keys == Names(Print(f)) && Holds(o, Print(f))
    ensures RequiredString(o, "frameType") == Some(f.frameType)
    ensures ReadBody(o, f.frameType) == Some(f.body) && ReadRoute(o, f.frameType, f.body) == Some(f)
  {
    HoldsBoth(o, RouteMembers(f), BodyMembers(f.body));
    HoldsRoute(o, f);
    StringAt(o, "frameType", f.frameType);
    PrintedNames(f);
    SchemaKeys(f.body);
    RequireKeysMeans(o, KeysOf(f.body));
    FieldsRead(o, f.body);
    BodyDispatch(o, f.frameType, f.body);
    RouteReads(o, f);
  }

  /** The parser accepts a list of members as a frame exactly when the frame is valid and
      the list is a reordering of the frame's own members: the schema's names once each,
      nothing else, every integer in its one canonical spelling. Printing and parsing are
      thereby inverse to each other, whatever the member order. */
  lemma ParserAccepts(members: seq<Member>, configuredMax: int, onCurve: seq<byte> -> bool, f: Frame)
    ensures ParseMembers(members, configuredMax, onCurve) == Some(f) <==>
              ValidFrame(f, configuredMax, onCurve) && multiset(members) == multiset(Print(f))
  {
    PrintedNames(f);
    Reordering(members, Print(f));
    var o := Table(members);
    ReadSteps(o, f);
    if ParseMembers(members, configuredMax, onCurve) == Some(f) {
      ObjectSound(o, f);
    }
    if ValidFrame(f, configuredMax, onCurve) && multiset(members) == multiset(Print(f)) {
      ValidTextsPresent(f, configuredMax, onCurve);
      ObjectComplete(o, f);
    }
  }
}

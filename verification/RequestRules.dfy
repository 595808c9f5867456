/** Which pairing and enrolment requests are let through, by what they spell: the bytes
    behind their texts, and the limits. */
module RequestRules {
  import opened Text
  import opened Tables
  import opened Pairing
  import opened PairingRequests
  import Base64Url
  import Keys
  import Hosts

  // ----- texts -----

  /** White space, code point by code point. */
  const WHITE_SPACE: set<int> :=
    {0x9, 0xA, 0xB, 0xC, 0xD, 0x20, 0x85, 0xA0, 0x1680, 0x2000, 0x2001, 0x2002, 0x2003, 0x2004, 0x2005, 0x2006, 0x2007,
     0x2008, 0x2009, 0x200A, 0x2028, 0x2029, 0x202F, 0x205F, 0x3000}

  lemma SpaceRule(c: char)
    ensures IsSpace(c) <==> c as int in WHITE_SPACE
  {
  }

  /** An identifier: one to 128 bytes of UTF-8 without white space. */
  predicate Plain(s: string) {
    1 <= |Utf8(s)| <= 128 && forall i :: 0 <= i < |s| ==> s[i] as int !in WHITE_SPACE
  }

  lemma IdentifierRule(s: string)
    ensures ValidIdentifier(s) <==> Plain(s)
  {
    TrimSpaceIsTrimmed(s);
    forall i | 0 <= i < |s| ensures IsSpace(s[i]) <==> s[i] as int in WHITE_SPACE {
      SpaceRule(s[i]);
    }
  }

  /** The text is base64url of the bytes, without padding; line breaks may stand inside it. */
  predicate Spells(s: string, b: seq<byte>) {
    s != "" && s[0] as int !in WHITE_SPACE && s[|s| - 1] as int !in WHITE_SPACE && Base64Url.DropLineBreaks(s) == Base64Url.Encode(b)
  }

  ghost predicate SpellsSome(s: string, length: int) {
    exists b :: Spells(s, b) && |b| == length
  }

  ghost predicate SpellsBetween(s: string, least: int, most: int) {
    exists b :: Spells(s, b) && least <= |b| <= most
  }

  lemma TrimmedEnds(s: string)
    requires s != ""
    ensures Trimmed(s) <==> s[0] as int !in WHITE_SPACE && s[|s| - 1] as int !in WHITE_SPACE
  {
    TrimSpaceIsTrimmed(s);
    SpaceRule(s[0]);
    SpaceRule(s[|s| - 1]);
  }

  lemma StrictRule(s: string, b: seq<byte>)
    ensures Base64Url.DecodeStrict(s) == Some(b) <==> Spells(s, b)
  {
    Base64Url.StrictDecodeAccepts(s, b);
    if s != "" {
      TrimmedEnds(s);
    }
  }

  lemma ExactRule(s: string, length: nat)
    ensures Base64Url.DecodeExact(s, length).Some? <==> SpellsSome(s, length)
  {
    if Base64Url.DecodeExact(s, length).Some? {
      StrictRule(s, Base64Url.DecodeExact(s, length).value);
    }
    if SpellsSome(s, length) {
      var b :| Spells(s, b) && |b| == length;
      StrictRule(s, b);
    }
  }

  lemma BetweenRule(s: string, least: nat, most: nat)
    ensures SpellsBetween(s, least, most) <==>
              Base64Url.DecodeStrict(s).Some? && least <= |Base64Url.DecodeStrict(s).value| <= most
  {
    if Base64Url.DecodeStrict(s).Some? {
      StrictRule(s, Base64Url.DecodeStrict(s).value);
    }
    if SpellsBetween(s, least, most) {
      var b :| Spells(s, b) && least <= |b| <= most;
      StrictRule(s, b);
    }
  }

  /** A public key: an uncompressed point of 65 bytes on the curve. */
  ghost predicate SpellsPoint(s: string, onCurve: seq<byte> -> bool) {
    exists b :: Spells(s, b) && |b| == 65 && b[0] == 4 && onCurve(b)
  }

  lemma KeyRule(s: string, onCurve: seq<byte> -> bool)
    ensures Keys.ValidKey(s, onCurve) <==> SpellsPoint(s, onCurve)
  {
    if Keys.ValidKey(s, onCurve) {
      StrictRule(s, Base64Url.DecodeExact(s, 65).value);
    }
    if SpellsPoint(s, onCurve) {
      var b :| Spells(s, b) && |b| == 65 && b[0] == 4 && onCurve(b);
      StrictRule(s, b);
    }
  }

  // ----- requests -----

  predicate NamesPlain(h: ClaimHeader) {
    Plain(h.invite) && Plain(h.tenant) && Plain(h.host) && Plain(h.claim) && Plain(h.device)
  }

  ghost predicate ClaimTexts(env: Env, h: ClaimHeader, nonce: string, ciphertext: string) {
    && SpellsSome(h.clientNonce, 32) && SpellsSome(nonce, 12)
    && 16 <= h.ciphertextLength <= 262144 && SpellsSome(ciphertext, h.ciphertextLength) && env.headerBytes(h) <= 8192
  }

  lemma NamesRule(h: ClaimHeader)
    ensures NamesPlain(h) <==>
              ValidIdentifier(h.invite) && ValidIdentifier(h.tenant) && ValidIdentifier(h.host) && ValidIdentifier(h.claim) && ValidIdentifier(h.device)
  {
    IdentifierRule(h.invite);
    IdentifierRule(h.tenant);
    IdentifierRule(h.host);
    IdentifierRule(h.claim);
    IdentifierRule(h.device);
  }

  lemma CiphertextRule(ciphertext: string, length: int)
    ensures 16 <= length <= 262144 && SpellsSome(ciphertext, length) <==>
              && Base64Url.DecodeStrict(ciphertext).Some? && 16 <= |Base64Url.DecodeStrict(ciphertext).value| <= 262144
              && |Base64Url.DecodeStrict(ciphertext).value| == length
  {
    if length >= 0 {
      ExactRule(ciphertext, length);
    }
  }

  /** A claim is refused for its names, for its device identity, or for its texts, in this
      order, and otherwise accepted. */
  lemma ClaimRule(env: Env, h: ClaimHeader, nonce: string, ciphertext: string)
    ensures ClaimError(env, h, nonce, ciphertext) ==
            if !NamesPlain(h) then Some(InvalidClaim)
            else if !(h.keyVersion >= 1 && SpellsPoint(h.agreementKey, env.onCurve)) then Some(InvalidDeviceIdentity)
            else if !ClaimTexts(env, h, nonce, ciphertext) then Some(InvalidClaim)
            else None
  {
    NamesRule(h);
    KeyRule(h.agreementKey, env.onCurve);
    ExactRule(h.clientNonce, 32);
    ExactRule(nonce, 12);
    CiphertextRule(ciphertext, h.ciphertextLength);
  }

  ghost predicate ApprovalIdentity(env: Env, r: ApproveRequest) {
    && Plain(r.tenant) && Plain(r.host) && Plain(r.claim) && r.approval.keyVersion >= 1 && r.approval.bindingVersion >= 1
    && r.approval.signingKey != r.approval.agreementKey
    && SpellsPoint(r.approval.signingKey, env.onCurve) && SpellsPoint(r.approval.agreementKey, env.onCurve)
  }

  ghost predicate ApprovalTexts(a: Approval) {
    SpellsBetween(a.header, 1, 8192) && SpellsSome(a.nonce, 12) && SpellsBetween(a.ciphertext, 16, 262144)
  }

  /** An approval is refused for its names and keys, or for its texts, and otherwise accepted. */
  lemma ApprovalRule(env: Env, r: ApproveRequest)
    ensures ApprovalError(env, r) ==
            if !ApprovalIdentity(env, r) then Some(InvalidDeviceIdentity)
            else if !ApprovalTexts(r.approval) then Some(InvalidApproval)
            else None
  {
    IdentifierRule(r.tenant);
    IdentifierRule(r.host);
    IdentifierRule(r.claim);
    KeyRule(r.approval.signingKey, env.onCurve);
    KeyRule(r.approval.agreementKey, env.onCurve);
    BetweenRule(r.approval.header, 1, 8192);
    ExactRule(r.approval.nonce, 12);
    BetweenRule(r.approval.ciphertext, 16, 262144);
  }

  /** The host service's keys: the bytes of a point, with line breaks strewn in anywhere. */
  ghost predicate HostPoint(s: string, onCurve: seq<byte> -> bool) {
    exists b :: Base64Url.DropLineBreaks(s) == Base64Url.Encode(b) && |b| == 65 && b[0] == 4 && onCurve(b)
  }

  lemma HostKeyRule(s: string, onCurve: seq<byte> -> bool)
    ensures Keys.ValidHostKey(s, onCurve) <==> HostPoint(s, onCurve)
  {
    if Keys.ValidHostKey(s, onCurve) {
      Base64Url.StrictDecodeAccepts(s, Base64Url.StrictDecode(s).value);
    }
    if HostPoint(s, onCurve) {
      var b :| Base64Url.DropLineBreaks(s) == Base64Url.Encode(b) && |b| == 65 && b[0] == 4 && onCurve(b);
      Base64Url.StrictDecodeAccepts(s, b);
    }
  }

  /** An enrolment is refused for a blank name, or for its identity, and otherwise accepted. */
  lemma EnrollmentRule(e: Hosts.Enrollment, onCurve: seq<byte> -> bool)
    ensures Hosts.EnrollmentError(e, onCurve) ==
            if TrimSpace(e.tenant) == "" || TrimSpace(e.host) == "" || TrimSpace(e.displayName) == "" then Some(Hosts.InvalidEnrollment)
            else if !(e.keyVersion >= 1 && e.signingKey != e.agreementKey && HostPoint(e.signingKey, onCurve) && HostPoint(e.agreementKey, onCurve))
            then Some(Hosts.InvalidIdentity)
            else None
  {
    HostKeyRule(e.signingKey, onCurve);
    HostKeyRule(e.agreementKey, onCurve);
  }

  /** An invite's names are identifiers once trimmed, it ends after now in milliseconds, and
      it lives at most ten minutes to the nanosecond. */
  lemma InviteRule(k: InviteKey, now: int, nanos: submilli, expires: int)
    ensures InviteArgumentsOk(k, now, nanos, expires) <==>
              && Plain(k.tenant) && Plain(k.host) && Plain(k.invite)
              && now < expires / 1_000_000 && expires <= now * 1_000_000 + nanos + 600_000_000_000
  {
    IdentifierRule(k.tenant);
    IdentifierRule(k.host);
    IdentifierRule(k.invite);
  }

  /** A token is thirty-two bytes, known by their hash. */
  lemma TokenRule(env: Env, token: string, b: seq<byte>)
    requires Spells(token, b)
    ensures TokenHash(env, token) == if |b| == 32 then Some(env.sha(b)) else None
  {
    StrictRule(token, b);
  }

  lemma NoToken(env: Env, token: string)
    ensures TokenHash(env, token).Some? <==> SpellsSome(token, 32)
  {
    ExactRule(token, 32);
  }

  // ----- plans -----

  /** The host service enrols as the plan of the request says. */
  lemma EnrolmentPlan(env: Env, digest: Digest, db: Tables, e: Hosts.Enrollment, enabled: bool, op: Op, now: int)
    requires op == Op.EnrollHost(e, enabled)
    ensures Execute(digest, db, Plan(env, op, now), now) ==
            match Hosts.Enroll(db, e, enabled, env.onCurve) {
              case Enrolled(after) => Step(after, Done)
              case Refused(reason) => Step(db, Failed(EnrollRefused(reason)))
            }
  {
    PlansAre(env, op, now);
  }

  /** What each request comes down to: names are trimmed everywhere but in a submitted or
      approved claim and a revocation, and CancelInvite also keeps them as given. */
  lemma PlansAre(env: Env, op: Op, now: int)
    ensures match op
            case RejectClaim(t, h, c) => Plan(env, op, now) == RejectAction(TrimSpace(t), TrimSpace(h), TrimSpace(c))
            case ListClaims(t, h) => Plan(env, op, now) == ListAction(TrimSpace(t), TrimSpace(h))
            case FindDevice(t, h, c) => Plan(env, op, now) == FindAction(TrimSpace(t), TrimSpace(h), TrimSpace(c))
            case CancelInvite(t, h, i) =>
              Plan(env, op, now) == WithdrawAction(InviteKey(TrimSpace(t), TrimSpace(h), TrimSpace(i)), InviteKey(t, h, i))
            case RevokeDevice(t, h, d) => Plan(env, op, now) == RevokeAction(DeviceKey(t, h, d))
            case SetTenant(t, enabled) => Plan(env, op, now) == TenantAction(t, enabled)
            case CreateInvite(t, h, i, nanos, expires, active) =>
              var k := InviteKey(TrimSpace(t), TrimSpace(h), TrimSpace(i));
              Plan(env, op, now) ==
                if InviteArgumentsOk(k, now, nanos, expires) then InviteAction(k, expires / 1_000_000, active) else RefuseAction(InvalidInvite)
            case SubmitClaim(h, nonce, ciphertext, raw) =>
              Plan(env, op, now) ==
                if ClaimError(env, h, nonce, ciphertext).None? then SubmitAction(h, nonce, ciphertext, env.sha(raw))
                else RefuseAction(ClaimError(env, h, nonce, ciphertext).value)
            case ApproveClaim(r) =>
              Plan(env, op, now) == if ApprovalError(env, r).None? then ApproveAction(r) else RefuseAction(ApprovalError(env, r).value)
            case GetClaim(c, token) =>
              Plan(env, op, now) ==
                if TokenHash(env, token).Some? then ViewAction(TrimSpace(c), TokenHash(env, token).value) else RefuseAction(Unauthorized)
            case CancelClaim(c, token) =>
              Plan(env, op, now) ==
                if TokenHash(env, token).Some? then CancelAction(TrimSpace(c), TokenHash(env, token).value) else RefuseAction(Unauthorized)
            case EnrollHost(e, enabled) =>
              Plan(env, op, now) ==
                if Hosts.EnrollmentError(e, env.onCurve).None?
                then PinAction(HostKey(TrimSpace(e.tenant), TrimSpace(e.host)), TrimSpace(e.displayName), e, enabled)
                else RefuseAction(EnrollRefused(Hosts.EnrollmentError(e, env.onCurve).value))
  {
  }
}

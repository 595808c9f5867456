/** Challenges, proofs and tickets: the validation of requests and the single statements
    the auth service is made of. */
module Auth {
  import opened Text
  import opened Tables
  import opened Transcripts
  import opened Canonical
  import opened Keys
  import Base64Url

  const SUBJECT_HOST := "host"
  const SUBJECT_DEVICE := "device"
  const INVITE_CREATE := "pairing_invite_create"
  const INVITE_CANCEL := "pairing_invite_cancel"
  const CLAIM_LIST := "pairing_claim_list"
  const CLAIM_APPROVE := "pairing_claim_approve"
  const CLAIM_REJECT := "pairing_claim_reject"
  const DEVICE_LIST := "device_list"
  const DEVICE_REVOKE := "device_revoke"
  const WEBSOCKET_HOST := "websocket_host"
  const WEBSOCKET_DEVICE := "websocket_device"
  const MAX_LIFETIME := 60_000 // milliseconds

  datatype Error =
    | InvalidScope | InvalidPurpose | InvalidSubjectType | SubjectNotFound | InvalidSubjectKey
    | InvalidChallenge | ChallengeExpired | InvalidProof | ChallengeConsumed | InvalidTicket | InternalError

  /** The relay's own identity and the cryptography it uses without defining it. */
  datatype Crypto = Crypto(
    fingerprint: string,
    sha: seq<byte> -> seq<byte>,
    onCurve: seq<byte> -> bool,
    sign: seq<byte> -> string,
    relaySigned: (seq<byte>, string) -> bool,
    verifies: (string, seq<byte>, string) -> bool)

  datatype ChallengeRow = ChallengeRow(
    hash: seq<byte>,
    version: int,
    fingerprint: string,
    relaySignature: string,
    scope: Scope,
    issuedAt: int,
    expiresAt: int,
    consumedAt: Option<int>)

  datatype TicketRow = TicketRow(scope: Scope, issuedAt: int, expiresAt: int, consumedAt: Option<int>)

  datatype AuthTables = AuthTables(challenges: map<string, ChallengeRow>, tickets: map<seq<byte>, TicketRow>)

  // ----- validation -----

  predicate ValidPurpose(p: string) {
    || p == INVITE_CREATE || p == INVITE_CANCEL || p == CLAIM_LIST || p == CLAIM_APPROVE || p == CLAIM_REJECT
    || p == DEVICE_LIST || p == DEVICE_REVOKE || p == WEBSOCKET_HOST || p == WEBSOCKET_DEVICE
  }

  /** The purposes of a host that concern one device. */
  predicate NamesDevice(p: string) {
    p == CLAIM_APPROVE || p == CLAIM_REJECT || p == DEVICE_REVOKE || p == WEBSOCKET_HOST
  }

  /** validateScope. */
  function ScopeError(s: Scope): Option<Error> {
    if TrimSpace(s.subjectId) == "" || TrimSpace(s.tenant) == "" || TrimSpace(s.host) == ""
       || !Trimmed(s.subjectId) || !Trimmed(s.tenant) || !Trimmed(s.host) || !Trimmed(s.device) then Some(InvalidScope)
    else if !ValidPurpose(s.purpose) then Some(InvalidPurpose)
    else if s.subjectType == SUBJECT_HOST then
      if s.subjectId != s.host || s.purpose == WEBSOCKET_DEVICE || (s.device == "" <==> NamesDevice(s.purpose))
      then Some(InvalidScope) else None
    else if s.subjectType == SUBJECT_DEVICE then
      if s.device == "" || s.subjectId != s.device || s.purpose != WEBSOCKET_DEVICE then Some(InvalidScope) else None
    else Some(InvalidSubjectType)
  }

  /** What a valid scope says: who the subject is, and which purposes name a device. */
  lemma ValidScope(s: Scope)
    requires ScopeError(s).None?
    ensures s.subjectType == SUBJECT_HOST || s.subjectType == SUBJECT_DEVICE
    ensures s.subjectType == SUBJECT_HOST ==> s.subjectId == s.host && (s.device != "" <==> NamesDevice(s.purpose))
    ensures s.subjectType == SUBJECT_DEVICE ==> s.subjectId == s.device && s.device != ""
    ensures s.subjectType == SUBJECT_DEVICE <==> s.purpose == WEBSOCKET_DEVICE
  {
  }

  /** The scope a host's ticket must have to act on one device. */
  function HostScope(tenant: string, host: string, device: string, purpose: string): Scope {
    Scope(SUBJECT_HOST, host, tenant, host, device, purpose)
  }

  // ----- subjects -----

  predicate HostUp(db: Tables, tenant: string, host: string) {
    HostKey(tenant, host) in db.hosts && db.hosts[HostKey(tenant, host)].enabled && !db.hosts[HostKey(tenant, host)].revoked
  }

  /** The key a subject is registered with, whatever its state. */
  function RegisteredKey(db: Tables, s: Scope): Option<string> {
    if s.subjectType == SUBJECT_HOST then
      if HostKey(s.tenant, s.subjectId) in db.hosts then Some(db.hosts[HostKey(s.tenant, s.subjectId)].signingKey) else None
    else if s.subjectType == SUBJECT_DEVICE then
      if DeviceKey(s.tenant, s.host, s.subjectId) in db.devices
      then Some(db.devices[DeviceKey(s.tenant, s.host, s.subjectId)].signingKey) else None
    else None
  }

  /** Tenant enabled, host up, and for a device subject the device not revoked. */
  predicate SubjectUp(db: Tables, s: Scope) {
    && TenantEnabled(db, s.tenant)
    && (|| (s.subjectType == SUBJECT_HOST && HostUp(db, s.tenant, s.subjectId))
        || (s.subjectType == SUBJECT_DEVICE && HostUp(db, s.tenant, s.host)
            && DeviceKey(s.tenant, s.host, s.subjectId) in db.devices && !db.devices[DeviceKey(s.tenant, s.host, s.subjectId)].revoked))
  }

  /** The existence tests inside the two consuming updates. */
  predicate SubjectActive(db: Tables, s: Scope) {
    SubjectUp(db, s) && RegisteredKey(db, s) != Some("")
  }

  /** The query of subjectSigningKey. */
  function ActiveKey(db: Tables, s: Scope): Option<string> {
    if SubjectUp(db, s) then RegisteredKey(db, s) else None
  }

  function SubjectKeyError(db: Tables, s: Scope, onCurve: seq<byte> -> bool): Option<Error> {
    match ActiveKey(db, s)
    case None => Some(SubjectNotFound)
    case Some(key) => if ValidKey(key, onCurve) then None else Some(InvalidSubjectKey)
  }

  // ----- the statements -----

  /** The insert of CreateChallenge; None when the id is taken. */
  function InsertChallenge(t: AuthTables, c: Challenge, hash: seq<byte>): Option<AuthTables> {
    if c.id in t.challenges then None
    else
      var row := ChallengeRow(hash, c.version, c.fingerprint, c.relaySignature, c.scope, c.issuedAt, c.expiresAt, None);
      Some(t.(challenges := t.challenges[c.id := row]))
  }

  predicate RowMatches(row: ChallengeRow, c: Challenge, hash: seq<byte>) {
    && row.hash == hash && row.version == c.version && row.fingerprint == c.fingerprint
    && row.relaySignature == c.relaySignature && row.scope == c.scope
    && row.issuedAt == c.issuedAt && row.expiresAt == c.expiresAt
  }

  /** consumeChallenge; None when no row changes. */
  function SpendChallenge(db: Tables, t: AuthTables, c: Challenge, hash: seq<byte>, now: int): Option<AuthTables> {
    if c.id in t.challenges && RowMatches(t.challenges[c.id], c, hash) && t.challenges[c.id].consumedAt.None?
       && t.challenges[c.id].expiresAt > now && SubjectActive(db, c.scope) then
      Some(t.(challenges := t.challenges[c.id := t.challenges[c.id].(consumedAt := Some(now))]))
    else None
  }

  /** The insert of Prove; None when the hash is taken. */
  function InsertTicket(t: AuthTables, ticket: seq<byte>, s: Scope, now: int): Option<AuthTables> {
    if ticket in t.tickets then None
    else Some(t.(tickets := t.tickets[ticket := TicketRow(s, now, now + MAX_LIFETIME, None)]))
  }

  /** The update of ConsumeTicket; None when no row changes. */
  function SpendTicket(db: Tables, t: AuthTables, ticket: seq<byte>, expected: Scope, now: int): Option<AuthTables> {
    if ticket in t.tickets && t.tickets[ticket].scope == expected && t.tickets[ticket].consumedAt.None?
       && t.tickets[ticket].expiresAt > now && SubjectActive(db, expected) then
      Some(t.(tickets := t.tickets[ticket := t.tickets[ticket].(consumedAt := Some(now))]))
    else None
  }

  // ----- requests -----

  /** The challenge CreateChallenge signs. */
  function NewChallenge(crypto: Crypto, s: Scope, id: string, value: seq<byte>, issuedAt: int64): Challenge
    requires issuedAt as int + MAX_LIFETIME < TWO_63
  {
    Challenge(PROTOCOL_VERSION, crypto.fingerprint, id, Base64Url.Encode(value), s, issuedAt, issuedAt as int + MAX_LIFETIME, "")
  }

  /** Go's int64 subtraction. */
  function Minus64(a: int64, b: int64): int64 {
    (a as int - b as int + TWO_63) % (2 * TWO_63) - TWO_63
  }

  /** The clock checks of Prove, with the subtraction of the source. */
  predicate TimeOk(c: Challenge, now: int) {
    c.issuedAt <= now < c.expiresAt && Minus64(c.expiresAt, c.issuedAt) as int <= MAX_LIFETIME
  }

  /** The lifetime check also passes when the subtraction overflows, and only then does it
      let a longer challenge through. */
  lemma LifetimeCheck(c: Challenge, now: int)
    requires c.issuedAt <= now < c.expiresAt
    ensures var life := c.expiresAt as int - c.issuedAt as int;
            TimeOk(c, now) <==> life <= MAX_LIFETIME || life >= TWO_63
  {
    var life := c.expiresAt as int - c.issuedAt as int;
    if life < TWO_63 {
      assert (life + TWO_63) % (2 * TWO_63) == life + TWO_63;
    } else {
      assert life + TWO_63 == 2 * TWO_63 + (life - TWO_63);
      assert (life + TWO_63) % (2 * TWO_63) == life - TWO_63;
    }
  }

  /** Such a challenge: the widest lifetime there is passes the check. */
  lemma OverlongChallengePasses(c: Challenge)
    ensures var long := c.(issuedAt := -TWO_63, expiresAt := TWO_63 - 1);
            TimeOk(long, 0) && long.expiresAt as int - long.issuedAt as int > MAX_LIFETIME
  {
    LifetimeCheck(c.(issuedAt := -TWO_63, expiresAt := TWO_63 - 1), 0);
  }

  /** What Prove checks before it reads the subject's key. */
  function ChallengeError(crypto: Crypto, c: Challenge, now: int): Option<Error>
    requires ShortTexts(c)
  {
    if c.version != PROTOCOL_VERSION || c.fingerprint != crypto.fingerprint then Some(InvalidChallenge)
    else if ScopeError(c.scope).Some? then ScopeError(c.scope)
    else if !TimeOk(c, now) then Some(ChallengeExpired)
    else if ChallengeValue(c).None? || RelaySignature(c).None? || ChallengeTranscript(c).None? then Some(InvalidChallenge)
    else if !crypto.relaySigned(ChallengeTranscript(c).value, c.relaySignature) then Some(InvalidChallenge)
    else None
  }

  /** The challenge's own bytes can be a field of the proof. */
  predicate Countable(c: Challenge) {
    ShortTexts(c) && (ChallengeTranscript(c).Some? ==> |ChallengeTranscript(c).value| < TWO_32)
  }

  /** The subject's signature over the proof transcript. */
  predicate ProofVerifies(crypto: Crypto, c: Challenge, key: string, signature: string)
    requires Countable(c)
  {
    && ChallengeTranscript(c).Some? && ProofTranscript(c, ChallengeTranscript(c).value).Some?
    && crypto.verifies(key, ProofTranscript(c, ChallengeTranscript(c).value).value, signature)
  }
}

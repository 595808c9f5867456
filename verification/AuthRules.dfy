/** Which scopes, challenges and proofs are let through, and what is stored and handed out,
    with the texts and numbers of the protocol written out. */
module AuthRules {
  import opened Text
  import opened Tables
  import opened Transcripts
  import opened Canonical
  import opened Auth
  import opened ActiveSubjects
  import opened AuthService
  import Base64Url
  import Keys

  predicate Name(s: string) {
    s != "" && Trimmed(s)
  }

  predicate HostPurpose(p: string) {
    p == "pairing_invite_create" || p == "pairing_invite_cancel" || p == "pairing_claim_list" || p == "device_list"
  }

  predicate HostDevicePurpose(p: string) {
    p == "pairing_claim_approve" || p == "pairing_claim_reject" || p == "device_revoke" || p == "websocket_host"
  }

  predicate DevicePurpose(p: string) {
    p == "websocket_device"
  }

  /** A host acts for itself, or on one device; a device only opens its socket. */
  predicate ScopeTable(s: Scope) {
    || (s.subjectType == "host" && s.subjectId == s.host && s.device == "" && HostPurpose(s.purpose))
    || (s.subjectType == "host" && s.subjectId == s.host && s.device != "" && HostDevicePurpose(s.purpose))
    || (s.subjectType == "device" && s.subjectId == s.device && s.device != "" && DevicePurpose(s.purpose))
  }

  lemma BlankIsEmptyOrUntrimmed(s: string)
    ensures TrimSpace(s) == "" || !Trimmed(s) <==> !Name(s)
  {
  }

  lemma PurposesRule(p: string)
    ensures ValidPurpose(p) <==> HostPurpose(p) || HostDevicePurpose(p) || DevicePurpose(p)
    ensures NamesDevice(p) <==> HostDevicePurpose(p)
  {
  }

  predicate ScopeNames(s: Scope) {
    Name(s.subjectId) && Name(s.tenant) && Name(s.host) && Trimmed(s.device)
  }

  /** A scope is valid exactly when its names are trimmed and the table has it. */
  lemma ScopeRule(s: Scope)
    ensures ScopeError(s).None? <==> ScopeNames(s) && ScopeTable(s)
  {
    BlankIsEmptyOrUntrimmed(s.subjectId);
    BlankIsEmptyOrUntrimmed(s.tenant);
    BlankIsEmptyOrUntrimmed(s.host);
    PurposesRule(s.purpose);
    PurposesApart(s.purpose);
  }

  lemma PurposesApart(p: string)
    ensures !(HostPurpose(p) && HostDevicePurpose(p)) && !(DevicePurpose(p) && (HostPurpose(p) || HostDevicePurpose(p)))
  {
  }

  predicate KnownPurpose(p: string) {
    HostPurpose(p) || HostDevicePurpose(p) || DevicePurpose(p)
  }

  /** Otherwise the refusal names what is wrong: the scope, the purpose or the subject type. */
  lemma ScopeErrorRule(s: Scope)
    requires !(ScopeNames(s) && ScopeTable(s))
    ensures ScopeError(s) ==
            Some(if !ScopeNames(s) then InvalidScope else if !KnownPurpose(s.purpose) then InvalidPurpose
                 else if s.subjectType != "host" && s.subjectType != "device" then InvalidSubjectType else InvalidScope)
  {
    BlankIsEmptyOrUntrimmed(s.subjectId);
    BlankIsEmptyOrUntrimmed(s.tenant);
    BlankIsEmptyOrUntrimmed(s.host);
    PurposesRule(s.purpose);
    PurposesApart(s.purpose);
  }

  // ----- subjects -----

  /** A subject's key can be used exactly when the subject is up and the key is a point. */
  lemma KeyErrorRule(db: Tables, s: Scope, onCurve: seq<byte> -> bool)
    ensures SubjectKeyError(db, s, onCurve).None? <==> Up(db, s) && Keys.ValidKey(KeyOfSubject(db, s), onCurve)
  {
    ActiveMeansUp(db, s);
    if SubjectKeyError(db, s, onCurve).None? {
      KeyedSubjectIsActive(db, s, onCurve);
    }
  }

  // ----- challenges -----

  /** What the relay signs for a scope: version one, its own fingerprint, a life of sixty
      seconds. */
  lemma NewChallengeRule(crypto: Crypto, s: Scope, id: string, value: seq<byte>, now: int64)
    requires now as int + 60_000 < TWO_63
    ensures var c := NewChallenge(crypto, s, id, value, now);
            && c.version == 1 && c.fingerprint == crypto.fingerprint && c.id == id && c.value == Base64Url.Encode(value)
            && c.scope == s && c.issuedAt == now && c.expiresAt as int == now as int + 60_000
  {
  }

  /** What CreateChallenge answers and stores when it succeeds: the challenge signed over its
      own transcript, and an unconsumed row with its columns and the hash of its value. */
  lemma CreationRule(crypto: Crypto, db: Tables, t: AuthTables, s: Scope, id: string, value: seq<byte>, now: int64)
    requires now as int + 60_000 < TWO_63 && ShortTexts(NewChallenge(crypto, s, id, value, now))
    requires Creation(crypto, db, t, s, id, value, now).Ok?
    ensures var (n, c) := Creation(crypto, db, t, s, id, value, now).value;
            var unsigned := NewChallenge(crypto, s, id, value, now);
            && ChallengeTranscript(unsigned).Some?
            && c == unsigned.(relaySignature := crypto.sign(ChallengeTranscript(unsigned).value))
            && id !in t.challenges && n.tickets == t.tickets
            && n.challenges == t.challenges[id :=
                 ChallengeRow(crypto.sha(value), 1, crypto.fingerprint, c.relaySignature, s, now, now as int + 60_000, None)]
  {
    var unsigned := NewChallenge(crypto, s, id, value, now);
    assert CreationError(crypto, db, unsigned).None?;
  }

  /** Before the subject's key is read, a challenge is refused unless it is of version one and
      of this relay, its scope is valid, it is neither early nor late nor too long, its texts
      have their lengths, and the relay's own signature over it verifies. */
  predicate Presentable(crypto: Crypto, c: Challenge, now: int)
    requires ShortTexts(c)
  {
    && c.version == 1 && c.fingerprint == crypto.fingerprint && ScopeNames(c.scope) && ScopeTable(c.scope)
    && c.issuedAt <= now < c.expiresAt
    && (c.expiresAt as int - c.issuedAt as int <= 60_000 || c.expiresAt as int - c.issuedAt as int >= 0x8000_0000_0000_0000)
    && Base64Url.DecodeExact(c.value, 32).Some? && Base64Url.DecodeExact(c.relaySignature, 64).Some?
    && Base64Url.DecodeExact(c.fingerprint, 32).Some?
    && ChallengeTranscript(c).Some? && crypto.relaySigned(ChallengeTranscript(c).value, c.relaySignature)
  }

  lemma TimeRule(c: Challenge, now: int)
    ensures TimeOk(c, now) <==>
              && c.issuedAt <= now < c.expiresAt
              && (c.expiresAt as int - c.issuedAt as int <= 60_000 || c.expiresAt as int - c.issuedAt as int >= 0x8000_0000_0000_0000)
  {
    if c.issuedAt <= now < c.expiresAt {
      LifetimeCheck(c, now);
    }
  }

  lemma TranscriptExists(c: Challenge)
    requires ShortTexts(c)
    ensures ChallengeTranscript(c).Some? <==> Base64Url.DecodeExact(c.fingerprint, 32).Some? && Base64Url.DecodeExact(c.value, 32).Some?
  {
  }

  lemma ChallengeRule(crypto: Crypto, c: Challenge, now: int)
    requires ShortTexts(c)
    ensures ChallengeError(crypto, c, now).None? <==> Presentable(crypto, c, now)
  {
    ScopeRule(c.scope);
    TimeRule(c, now);
    TranscriptExists(c);
  }

  /** Otherwise the refusal is of the challenge, of its scope, or of its age. */
  lemma ChallengeErrorRule(crypto: Crypto, c: Challenge, now: int)
    requires ShortTexts(c) && !Presentable(crypto, c, now)
    ensures ChallengeError(crypto, c, now) ==
            if c.version != 1 || c.fingerprint != crypto.fingerprint then Some(InvalidChallenge)
            else if ScopeError(c.scope).Some? then ScopeError(c.scope)
            else if !TimeOk(c, now) then Some(ChallengeExpired)
            else Some(InvalidChallenge)
  {
    ScopeRule(c.scope);
    TimeRule(c, now);
    TranscriptExists(c);
  }

  // ----- proofs -----

  /** A proof is accepted exactly when the challenge is presentable, the signature is of 64
      bytes, the subject is up with a good key, and the signature verifies under that key. */
  lemma ProofRule(crypto: Crypto, db: Tables, c: Challenge, signature: string, now: int)
    requires Countable(c)
    ensures ProofError(crypto, db, c, signature, now).None? <==>
              && Presentable(crypto, c, now) && Base64Url.DecodeExact(signature, 64).Some?
              && Up(db, c.scope) && Keys.ValidKey(KeyOfSubject(db, c.scope), crypto.onCurve)
              && ProofTranscript(c, ChallengeTranscript(c).value).Some?
              && crypto.verifies(KeyOfSubject(db, c.scope), ProofTranscript(c, ChallengeTranscript(c).value).value, signature)
  {
    ChallengeRule(crypto, c, now);
    KeyErrorRule(db, c.scope, crypto.onCurve);
    ActiveMeansUp(db, c.scope);
    ProofErrorSteps(crypto, db, c, signature, now);
  }

  lemma ProofErrorSteps(crypto: Crypto, db: Tables, c: Challenge, signature: string, now: int)
    requires Countable(c)
    ensures ProofError(crypto, db, c, signature, now).None? <==>
              && ChallengeError(crypto, c, now).None? && Base64Url.DecodeExact(signature, 64).Some?
              && SubjectKeyError(db, c.scope, crypto.onCurve).None?
              && ActiveKey(db, c.scope).Some? && ProofVerifies(crypto, c, ActiveKey(db, c.scope).value, signature)
  {
  }

  /** The ticket handed out: the text of its bytes, the scope's purpose, sixty seconds. */
  lemma TicketRule(ticketValue: seq<byte>, s: Scope, now: int)
    ensures TicketFor(ticketValue, s, now) == Ticket(Base64Url.Encode(ticketValue), s.purpose, now + 60_000)
  {
  }

  /** Prove consumes the challenge, then stores the ticket under the hash of its bytes. */
  lemma ProvingRule(crypto: Crypto, db: Tables, t: AuthTables, c: Challenge, signature: string, ticketValue: seq<byte>, now: int)
    requires Countable(c) && Proving(crypto, db, t, c, signature, ticketValue, now).1.Ok?
    ensures var (n, r) := Proving(crypto, db, t, c, signature, ticketValue, now);
            && ChallengeValue(c).Some? && c.id in t.challenges && crypto.sha(ticketValue) !in t.tickets
            && t.challenges[c.id].hash == crypto.sha(ChallengeValue(c).value) && t.challenges[c.id].consumedAt == None
            && n.challenges == t.challenges[c.id := t.challenges[c.id].(consumedAt := Some(now))]
            && n.tickets == t.tickets[crypto.sha(ticketValue) := TicketRow(c.scope, now, now + 60_000, None)]
            && r.value == Ticket(Base64Url.Encode(ticketValue), c.scope.purpose, now + 60_000)
  {
    PassedChecks(crypto, db, c, signature, now);
    var hash, ticket := crypto.sha(ChallengeValue(c).value), crypto.sha(ticketValue);
    ChallengeSpends(db, t, c, hash, now);
    TicketMints(SpendChallenge(db, t, c, hash, now).value, ticket, c.scope, now);
    TicketRule(ticketValue, c.scope, now);
  }

  /** A ticket text is accepted exactly when it spells thirty-two bytes whose hash is a live
      ticket of a valid scope with the subject up. */
  lemma UsingRule(crypto: Crypto, db: Tables, t: AuthTables, raw: string, s: Scope, now: int)
    ensures Using(crypto, db, t, raw, s, now).1.None? <==>
              && ScopeNames(s) && ScopeTable(s) && Base64Url.DecodeExact(raw, 32).Some?
              && var hash := crypto.sha(Base64Url.DecodeExact(raw, 32).value);
                 hash in t.tickets && t.tickets[hash].scope == s && t.tickets[hash].consumedAt == None
                 && now < t.tickets[hash].expiresAt && Up(db, s)
    ensures Using(crypto, db, t, raw, s, now).1.Some? ==> Using(crypto, db, t, raw, s, now).0 == t
  {
    ScopeRule(s);
    if Base64Url.DecodeExact(raw, 32).Some? {
      TicketSpends(db, t, crypto.sha(Base64Url.DecodeExact(raw, 32).value), s, now);
    }
  }
}

/** The auth service: its three requests, each run without interruption. */
module AuthService {
  import opened Text
  import opened Tables
  import opened Transcripts
  import opened Canonical
  import opened Auth
  import opened Pairing
  import opened Protocol
  import Base64Url
  import Keys

  datatype Result<+T> = Ok(value: T) | Err(error: Auth.Error)

  datatype Ticket = Ticket(text: string, purpose: string, expiresAt: int)

  // ----- what each request does -----

  /** Everything CreateChallenge checks before it signs. */
  function CreationError(crypto: Crypto, db: Tables, c: Challenge): Option<Auth.Error>
    requires ShortTexts(c)
  {
    if ScopeError(c.scope).Some? then ScopeError(c.scope)
    else if SubjectKeyError(db, c.scope, crypto.onCurve).Some? then SubjectKeyError(db, c.scope, crypto.onCurve)
    else if ChallengeTranscript(c).None? then Some(InvalidChallenge)
    else None
  }

  function Stored(t: AuthTables, c: Challenge, hash: seq<byte>): Result<(AuthTables, Challenge)> {
    match InsertChallenge(t, c, hash)
    case Some(t') => Ok((t', c))
    case None => Err(Auth.InternalError)
  }

  /** CreateChallenge: the challenge returned and the tables after it. */
  function Creation(crypto: Crypto, db: Tables, t: AuthTables, s: Scope, id: string, value: seq<byte>, now: int64)
    : Result<(AuthTables, Challenge)>
    requires now as int + MAX_LIFETIME < TWO_63 && ShortTexts(NewChallenge(crypto, s, id, value, now))
  {
    var c := NewChallenge(crypto, s, id, value, now);
    match CreationError(crypto, db, c)
    case Some(e) => Err(e)
    case None => Stored(t, c.(relaySignature := crypto.sign(ChallengeTranscript(c).value)), crypto.sha(value))
  }

  /** Everything Prove checks before it consumes the challenge. */
  function ProofError(crypto: Crypto, db: Tables, c: Challenge, signature: string, now: int): Option<Auth.Error>
    requires Countable(c)
  {
    if ChallengeError(crypto, c, now).Some? then ChallengeError(crypto, c, now)
    else if Base64Url.DecodeExact(signature, 64).None? then Some(InvalidProof)
    else if SubjectKeyError(db, c.scope, crypto.onCurve).Some? then SubjectKeyError(db, c.scope, crypto.onCurve)
    else if !ProofVerifies(crypto, c, ActiveKey(db, c.scope).value, signature) then Some(InvalidProof)
    else None
  }

  /** The two writes of Prove: once the challenge is consumed it stays consumed, even when
      the ticket cannot be stored. */
  function SpendAndMint(db: Tables, t: AuthTables, c: Challenge, hash: seq<byte>, ticket: seq<byte>, now: int)
    : (AuthTables, Option<Auth.Error>)
  {
    match SpendChallenge(db, t, c, hash, now)
    case None => (t, Some(ChallengeConsumed))
    case Some(spent) =>
      match InsertTicket(spent, ticket, c.scope, now)
      case None => (spent, Some(Auth.InternalError))
      case Some(minted) => (minted, None)
  }

  function TicketFor(ticketValue: seq<byte>, s: Scope, now: int): Ticket {
    Ticket(Base64Url.Encode(ticketValue), s.purpose, now + MAX_LIFETIME)
  }

  /** Prove: the tables it leaves, whatever its answer, and the answer. */
  function Proving(
    crypto: Crypto, db: Tables, t: AuthTables, c: Challenge, signature: string, ticketValue: seq<byte>, now: int)
    : (AuthTables, Result<Ticket>)
    requires Countable(c)
  {
    match ProofError(crypto, db, c, signature, now)
    case Some(e) => (t, Err(e))
    case None =>
      var (after, refusal) := SpendAndMint(db, t, c, crypto.sha(ChallengeValue(c).value), crypto.sha(ticketValue), now);
      (after, if refusal.Some? then Err(refusal.value) else Ok(TicketFor(ticketValue, c.scope, now)))
  }

  /** ConsumeTicket. */
  function Using(crypto: Crypto, db: Tables, t: AuthTables, raw: string, expected: Scope, now: int)
    : (AuthTables, Option<Auth.Error>)
  {
    if ScopeError(expected).Some? then (t, ScopeError(expected))
    else
      match Base64Url.DecodeExact(raw, CREDENTIAL_BYTES)
      case None => (t, Some(InvalidTicket))
      case Some(value) =>
        match SpendTicket(db, t, crypto.sha(value), expected, now)
        case None => (t, Some(InvalidTicket))
        case Some(t') => (t', None)
  }

  class Service {
    const store: Database
    const crypto: Crypto
    var challenges: map<string, ChallengeRow>
    var tickets: map<seq<byte>, TicketRow>

    constructor (store: Database, crypto: Crypto)
      ensures this.store == store && this.crypto == crypto && Rows() == AuthTables(map[], map[])
    {
      this.store, this.crypto := store, crypto;
      challenges, tickets := map[], map[];
    }

    function Rows(): AuthTables
      reads this
    {
      AuthTables(challenges, tickets)
    }

    /** subjectSigningKey. */
    method SubjectSigningKey(s: Scope) returns (r: Result<string>)
      ensures match SubjectKeyError(store.Contents(), s, crypto.onCurve)
              case None => r == Ok(ActiveKey(store.Contents(), s).value)
              case Some(e) => r == Err(e)
    {
      var db := store.Contents();
      var key := ActiveKey(db, s);
      if key.None? {
        return Err(SubjectNotFound);
      }
      if !Keys.ValidKey(key.value, crypto.onCurve) {
        return Err(InvalidSubjectKey);
      }
      return Ok(key.value);
    }

    /** CreateChallenge; `id` and `value` are its two random strings. */
    method CreateChallenge(s: Scope, id: string, value: seq<byte>, now: int64) returns (r: Result<Challenge>)
      requires now as int + MAX_LIFETIME < TWO_63 && ShortTexts(NewChallenge(crypto, s, id, value, now))
      modifies this`challenges
      ensures match Creation(crypto, store.Contents(), old(Rows()), s, id, value, now)
              case Ok((t, c)) => r == Ok(c) && Rows() == t
              case Err(e) => r == Err(e) && Rows() == old(Rows())
    {
      var refusal := ScopeError(s);
      if refusal.Some? {
        return Err(refusal.value);
      }
      var key := SubjectSigningKey(s);
      if key.Err? {
        return Err(key.error);
      }
      var challenge := NewChallenge(crypto, s, id, value, now);
      var transcript := ChallengeTranscript(challenge);
      if transcript.None? {
        return Err(InvalidChallenge);
      }
      assert CreationError(crypto, store.Contents(), challenge).None?;
      r := StoreChallenge(challenge.(relaySignature := crypto.sign(transcript.value)), crypto.sha(value));
    }

    /** The insert at the end of CreateChallenge. */
    method StoreChallenge(c: Challenge, hash: seq<byte>) returns (r: Result<Challenge>)
      modifies this`challenges
      ensures match Stored(old(Rows()), c, hash)
              case Ok((t, _)) => r == Ok(c) && Rows() == t
              case Err(e) => r == Err(e) && Rows() == old(Rows())
    {
      if c.id in challenges {
        return Err(Auth.InternalError);
      }
      challenges := challenges[c.id :=
        ChallengeRow(hash, c.version, c.fingerprint, c.relaySignature, c.scope, c.issuedAt, c.expiresAt, None)];
      return Ok(c);
    }

    /** consumeChallenge. */
    method ConsumeChallenge(c: Challenge, hash: seq<byte>, now: int) returns (ok: bool)
      modifies this`challenges
      ensures match SpendChallenge(store.Contents(), old(Rows()), c, hash, now)
              case Some(t) => ok && Rows() == t
              case None => !ok && Rows() == old(Rows())
    {
      ok := c.id in challenges && RowMatches(challenges[c.id], c, hash) && challenges[c.id].consumedAt.None?
            && challenges[c.id].expiresAt > now && SubjectActive(store.Contents(), c.scope);
      if ok {
        challenges := challenges[c.id := challenges[c.id].(consumedAt := Some(now))];
      }
    }

    /** Prove; `ticketValue` is the random credential. */
    method Prove(c: Challenge, signature: string, ticketValue: seq<byte>, now: int) returns (r: Result<Ticket>)
      requires Countable(c)
      modifies this`challenges, this`tickets
      ensures (Rows(), r) == Proving(crypto, store.Contents(), old(Rows()), c, signature, ticketValue, now)
    {
      var refusal := ChallengeError(crypto, c, now);
      if refusal.Some? {
        return Err(refusal.value);
      }
      if Base64Url.DecodeExact(signature, 64).None? {
        return Err(InvalidProof);
      }
      var key := SubjectSigningKey(c.scope);
      if key.Err? {
        return Err(key.error);
      }
      if !ProofVerifies(crypto, c, key.value, signature) {
        return Err(InvalidProof);
      }
      var consumed := ConsumeChallenge(c, crypto.sha(ChallengeValue(c).value), now);
      if !consumed {
        return Err(ChallengeConsumed);
      }
      var hash := crypto.sha(ticketValue);
      if hash in tickets {
        return Err(Auth.InternalError);
      }
      tickets := tickets[hash := TicketRow(c.scope, now, now + MAX_LIFETIME, None)];
      return Ok(TicketFor(ticketValue, c.scope, now));
    }

    /** ConsumeTicket. */
    method ConsumeTicket(raw: string, expected: Scope, now: int) returns (refusal: Option<Auth.Error>)
      modifies this`tickets
      ensures (Rows(), refusal) == Using(crypto, store.Contents(), old(Rows()), raw, expected, now)
    {
      refusal := ScopeError(expected);
      if refusal.Some? {
        return;
      }
      var value := Base64Url.DecodeExact(raw, CREDENTIAL_BYTES);
      if value.None? {
        return Some(InvalidTicket);
      }
      var hash := crypto.sha(value.value);
      if hash !in tickets || tickets[hash].scope != expected || tickets[hash].consumedAt.Some?
         || tickets[hash].expiresAt <= now || !SubjectActive(store.Contents(), expected) {
        return Some(InvalidTicket);
      }
      tickets := tickets[hash := tickets[hash].(consumedAt := Some(now))];
      return None;
    }
  }

  // ----- the whole exchange -----

  /** The relay's signature verifies under its own key and has the size of one. */
  ghost predicate SignerOk(crypto: Crypto) {
    && (forall b :: crypto.relaySigned(b, crypto.sign(b)))
    && (forall b :: Base64Url.DecodeExact(crypto.sign(b), 64).Some?)
  }

  /** The relay's signature is not part of what it signs. */
  lemma SigningKeepsTranscript(c: Challenge, signature: string)
    requires ShortTexts(c)
    ensures ShortTexts(c.(relaySignature := signature))
    ensures ChallengeTranscript(c.(relaySignature := signature)) == ChallengeTranscript(c)
  {
  }

  lemma Passes(crypto: Crypto, c: Challenge, now: int)
    requires ShortTexts(c) && ScopeError(c.scope).None? && c.version == PROTOCOL_VERSION && c.fingerprint == crypto.fingerprint
    requires ChallengeValue(c).Some? && RelaySignature(c).Some? && ChallengeTranscript(c).Some?
    requires crypto.relaySigned(ChallengeTranscript(c).value, c.relaySignature)
    ensures ChallengeError(crypto, c, now).None? <==> TimeOk(c, now)
  {
  }

  /** A challenge the relay creates passes Prove's checks until it expires. */
  lemma CreatedChallengePasses(
    crypto: Crypto, db: Tables, t: AuthTables, s: Scope, id: string, value: seq<byte>, issued: int64, now: int)
    requires issued as int + MAX_LIFETIME < TWO_63 && ShortTexts(NewChallenge(crypto, s, id, value, issued))
    requires |value| == CREDENTIAL_BYTES && SignerOk(crypto)
    requires Creation(crypto, db, t, s, id, value, issued).Ok?
    ensures var c := Creation(crypto, db, t, s, id, value, issued).value.1;
            && ShortTexts(c) && ChallengeValue(c) == Some(value)
            && (ChallengeError(crypto, c, now).None? <==> issued <= now < issued as int + MAX_LIFETIME)
  {
    var c := Creation(crypto, db, t, s, id, value, issued).value.1;
    var unsigned := NewChallenge(crypto, s, id, value, issued);
    var transcript := ChallengeTranscript(unsigned).value;
    SigningKeepsTranscript(unsigned, crypto.sign(transcript));
    assert c == unsigned.(relaySignature := crypto.sign(transcript));
    Base64Url.DecodeExactEncode(value);
    assert crypto.relaySigned(transcript, c.relaySignature);
    Passes(crypto, c, now);
    if c.issuedAt <= now < c.expiresAt {
      LifetimeCheck(c, now);
    }
  }

  /** A row written for a challenge serves it, and is consumed with its ticket. */
  lemma SpentOnce(db: Tables, t: AuthTables, c: Challenge, hash: seq<byte>, ticket: seq<byte>, now: int, use: int)
    requires InsertChallenge(t, c, hash).Some? && ticket !in t.tickets
    requires SubjectActive(db, c.scope) && now < c.expiresAt && use < now + MAX_LIFETIME
    ensures var t1 := InsertChallenge(t, c, hash).value;
            var (t2, refused) := SpendAndMint(db, t1, c, hash, ticket, now);
            && refused == None
            && SpendTicket(db, t2, ticket, c.scope, use).Some?
            && var t3 := SpendTicket(db, t2, ticket, c.scope, use).value;
            && c.id in t3.challenges && t3.challenges[c.id].consumedAt.Some?
            && ticket in t3.tickets && t3.tickets[ticket].consumedAt.Some?
  {
  }

  lemma KeyedSubjectIsActive(db: Tables, s: Scope, onCurve: seq<byte> -> bool)
    requires SubjectKeyError(db, s, onCurve).None?
    ensures SubjectActive(db, s)
  {
  }

  /** What an accepted proof can rely on. */
  ghost predicate ProofGiven(crypto: Crypto, db: Tables, c: Challenge, signature: string) {
    && Countable(c) && Base64Url.DecodeExact(signature, 64).Some?
    && ActiveKey(db, c.scope).Some? && ProofVerifies(crypto, c, ActiveKey(db, c.scope).value, signature)
  }

  lemma GivenProofPasses(crypto: Crypto, db: Tables, c: Challenge, signature: string, now: int)
    requires ProofGiven(crypto, db, c, signature)
    requires SubjectKeyError(db, c.scope, crypto.onCurve).None? && ChallengeError(crypto, c, now).None?
    ensures ProofError(crypto, db, c, signature, now).None?
  {
  }

  lemma UsingTheTicket(crypto: Crypto, db: Tables, t: AuthTables, ticketValue: seq<byte>, s: Scope, now: int)
    requires |ticketValue| == CREDENTIAL_BYTES && ScopeError(s).None?
    ensures Using(crypto, db, t, Base64Url.Encode(ticketValue), s, now) ==
            match SpendTicket(db, t, crypto.sha(ticketValue), s, now) {
              case None => (t, Some(InvalidTicket))
              case Some(t') => (t', None)
            }
  {
    Base64Url.DecodeExactEncode(ticketValue);
  }

  lemma StoredOk(t: AuthTables, c: Challenge, hash: seq<byte>)
    requires Stored(t, c, hash).Ok?
    ensures Stored(t, c, hash).value.1 == c && InsertChallenge(t, c, hash) == Some(Stored(t, c, hash).value.0)
    ensures Stored(t, c, hash).value.0.tickets == t.tickets
  {
  }

  lemma CreationOk(crypto: Crypto, db: Tables, t: AuthTables, s: Scope, id: string, value: seq<byte>, issued: int64)
    requires issued as int + MAX_LIFETIME < TWO_63 && ShortTexts(NewChallenge(crypto, s, id, value, issued))
    requires Creation(crypto, db, t, s, id, value, issued).Ok?
    ensures var (t1, c) := Creation(crypto, db, t, s, id, value, issued).value;
            && c.scope == s && c.expiresAt as int == issued as int + MAX_LIFETIME && t1.tickets == t.tickets
            && InsertChallenge(t, c, crypto.sha(value)) == Some(t1)
            && ScopeError(s).None? && SubjectKeyError(db, s, crypto.onCurve).None?
  {
    var unsigned := NewChallenge(crypto, s, id, value, issued);
    assert CreationError(crypto, db, unsigned).None?;
    StoredOk(t, unsigned.(relaySignature := crypto.sign(ChallengeTranscript(unsigned).value)), crypto.sha(value));
  }

  /** A consumed challenge is never proved again, whatever else has changed. */
  lemma ConsumedIsRefused(crypto: Crypto, db: Tables, t: AuthTables, c: Challenge, signature: string, ticketValue: seq<byte>, now: int)
    requires Countable(c) && c.id in t.challenges && t.challenges[c.id].consumedAt.Some?
    ensures Proving(crypto, db, t, c, signature, ticketValue, now).0 == t
    ensures Proving(crypto, db, t, c, signature, ticketValue, now).1.Err?
  {
    assert forall hash :: SpendChallenge(db, t, c, hash, now).None?;
  }

  /** Likewise a consumed ticket. */
  lemma UsedIsRefused(crypto: Crypto, db: Tables, t: AuthTables, ticketValue: seq<byte>, s: Scope, now: int)
    requires |ticketValue| == CREDENTIAL_BYTES && ScopeError(s).None?
    requires crypto.sha(ticketValue) in t.tickets && t.tickets[crypto.sha(ticketValue)].consumedAt.Some?
    ensures Using(crypto, db, t, Base64Url.Encode(ticketValue), s, now) == (t, Some(InvalidTicket))
  {
    UsingTheTicket(crypto, db, t, ticketValue, s, now);
  }

  /** Create, prove, use: with the subject's key registered and active throughout, its
      signature valid and the clock within the limits, the ticket is accepted. Over any
      later tables, reached by whatever moves, the same challenge and the same ticket are
      refused. */
  lemma ExchangeCompletes(
    crypto: Crypto, db: Tables, t: AuthTables, s: Scope, id: string, value: seq<byte>, issued: int64,
    signature: string, ticketValue: seq<byte>, now: int, use: int,
    db': Tables, t': AuthTables, signature': string, ticketValue': seq<byte>, later: int)
    requires issued as int + MAX_LIFETIME < TWO_63 && ShortTexts(NewChallenge(crypto, s, id, value, issued))
    requires |value| == CREDENTIAL_BYTES == |ticketValue| && SignerOk(crypto)
    requires Creation(crypto, db, t, s, id, value, issued).Ok?
    requires ProofGiven(crypto, db, Creation(crypto, db, t, s, id, value, issued).value.1, signature)
    requires crypto.sha(ticketValue) !in t.tickets
    requires issued <= now < issued as int + MAX_LIFETIME && use < now + MAX_LIFETIME
    ensures var (t1, c) := Creation(crypto, db, t, s, id, value, issued).value;
            var (t2, proved) := Proving(crypto, db, t1, c, signature, ticketValue, now);
            && proved.Ok?
            && var (t3, used) := Using(crypto, db, t2, proved.value.text, s, use);
            && used == None
            && (AuthMoves(t3, t') ==>
                  && Proving(crypto, db', t', c, signature', ticketValue', later).0 == t'
                  && Proving(crypto, db', t', c, signature', ticketValue', later).1.Err?
                  && Using(crypto, db', t', proved.value.text, s, later) == (t', Some(InvalidTicket)))
  {
    CreationOk(crypto, db, t, s, id, value, issued);
    CreatedChallengePasses(crypto, db, t, s, id, value, issued, now);
    var (t1, c) := Creation(crypto, db, t, s, id, value, issued).value;
    GivenProofPasses(crypto, db, c, signature, now);
    KeyedSubjectIsActive(db, s, crypto.onCurve);
    var ticket := crypto.sha(ticketValue);
    SpentOnce(db, t, c, crypto.sha(value), ticket, now, use);
    var (t2, _) := SpendAndMint(db, t1, c, crypto.sha(value), ticket, now);
    UsingTheTicket(crypto, db, t2, ticketValue, s, use);
    var (t3, _) := Using(crypto, db, t2, Base64Url.Encode(ticketValue), s, use);
    if AuthMoves(t3, t') {
      assert SameButConsumed(t3.challenges[c.id], t'.challenges[c.id]) && SameTicket(t3.tickets[ticket], t'.tickets[ticket]);
      ConsumedIsRefused(crypto, db', t', c, signature', ticketValue', later);
      UsedIsRefused(crypto, db', t', ticketValue, s, later);
    }
  }

  // ----- the interleaved model -----

  /** The signature check of Prove, as the interleaved model takes it. */
  function CheckOf(crypto: Crypto): Check {
    (c: Challenge, key: string, signature: string) => Countable(c) && ProofVerifies(crypto, c, key, signature)
  }

  /** Verify, spend and mint, one after the other. */
  function AfterProof(
    rules: Rules, w: World, id: nat, c: Challenge, hash: seq<byte>, key: string, signature: string, ticket: seq<byte>, now: int): World
  {
    Next(rules, Next(rules, Next(rules, w, Verify(id, c, hash, key, signature, now)), Spend(id)), Mint(id, ticket))
  }

  /** Prove without interruption is the three moves of the interleaved model. */
  lemma ThreeMoves(
    rules: Rules, w: World, id: nat, c: Challenge, hash: seq<byte>, key: string, signature: string, ticket: seq<byte>, now: int)
    requires id !in w.proofs
    ensures var n := AfterProof(rules, w, id, c, hash, key, signature, ticket, now);
            && id in n.proofs && n.db == w.db
            && n.auth == SpendAndMint(w.db, w.auth, c, hash, ticket, now).0
            && (n.proofs[id].Ticketed? <==> SpendAndMint(w.db, w.auth, c, hash, ticket, now).1.None?)
  {
    var a := Next(rules, w, Verify(id, c, hash, key, signature, now));
    assert a == w.(proofs := w.proofs[id := Verified(c, hash, key, signature, now)]);
    var b := Next(rules, a, Spend(id));
    assert b == SpendProof(a, id);
    assert b.proofs[id].Spent? ==> Next(rules, b, Mint(id, ticket)) == MintTicket(b, id, ticket);
  }

  lemma PassedChallenge(crypto: Crypto, c: Challenge, now: int)
    requires ShortTexts(c) && ChallengeError(crypto, c, now).None?
    ensures ChallengeValue(c).Some? && TimeOk(c, now)
  {
  }

  lemma PassedProof(crypto: Crypto, db: Tables, c: Challenge, signature: string, now: int)
    requires Countable(c) && ProofError(crypto, db, c, signature, now).None?
    ensures ChallengeError(crypto, c, now).None? && ActiveKey(db, c.scope).Some?
    ensures ProofVerifies(crypto, c, ActiveKey(db, c.scope).value, signature)
  {
  }

  lemma PassedChecks(crypto: Crypto, db: Tables, c: Challenge, signature: string, now: int)
    requires Countable(c) && ProofError(crypto, db, c, signature, now).None?
    ensures ChallengeValue(c).Some? && ActiveKey(db, c.scope).Some? && TimeOk(c, now)
    ensures CheckOf(crypto)(c, ActiveKey(db, c.scope).value, signature)
  {
    PassedProof(crypto, db, c, signature, now);
    PassedChallenge(crypto, c, now);
  }

  lemma CheckedMayVerify(rules: Rules, w: World, id: nat, c: Challenge, hash: seq<byte>, key: string, signature: string, now: int)
    requires id !in w.proofs && ActiveKey(w.db, c.scope) == Some(key) && TimeOk(c, now) && rules.check(c, key, signature)
    ensures MoveOk(rules, w, Verify(id, c, hash, key, signature, now))
  {
  }

  /** A request that passes every check of Prove may make the first of these moves. */
  lemma PassedProofVerifies(digest: Digest, crypto: Crypto, w: World, id: nat, c: Challenge, signature: string, now: int)
    requires Countable(c) && id !in w.proofs && ProofError(crypto, w.db, c, signature, now).None?
    ensures ChallengeValue(c).Some? && ActiveKey(w.db, c.scope).Some?
    ensures MoveOk(Rules(digest, CheckOf(crypto)), w,
                   Verify(id, c, crypto.sha(ChallengeValue(c).value), ActiveKey(w.db, c.scope).value, signature, now))
  {
    PassedChecks(crypto, w.db, c, signature, now);
    CheckedMayVerify(Rules(digest, CheckOf(crypto)), w, id, c, crypto.sha(ChallengeValue(c).value),
                     ActiveKey(w.db, c.scope).value, signature, now);
  }
}

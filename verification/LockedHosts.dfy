/** Enrolment takes signing keys that authentication will not: such a host can never get in. */
module LockedHosts {
  import opened Text
  import opened Tables
  import opened Pairing
  import opened PairingRequests
  import opened Transcripts
  import opened Canonical
  import opened Keys
  import opened Auth
  import opened AuthService
  import opened Protocol
  import opened ProtocolSafety
  import Hosts
  import Scenarios
  import Vouching

  /** A line break after a good signing key does not keep a host from enrolling. */
  lemma BreakEnrols(e: Hosts.Enrollment, onCurve: seq<byte> -> bool)
    requires Hosts.EnrollmentError(e, onCurve).None? && e.signingKey + "\n" != e.agreementKey
    ensures Hosts.EnrollmentError(e.(signingKey := e.signingKey + "\n"), onCurve).None?
    ensures !Trimmed(e.signingKey + "\n")
  {
    TrailingBreakKey(e.signingKey, onCurve);
    AuthWantsTrimmedKeys(e.signingKey + "\n", onCurve);
  }

  /** Without a usable key of an active subject neither request gets anywhere. */
  lemma NoKeyNoTicket(
    crypto: Crypto, db: Tables, t: AuthTables, s: Scope, id: string, value: seq<byte>, issued: int64,
    c: Challenge, signature: string, ticketValue: seq<byte>, now: int)
    requires issued as int + MAX_LIFETIME < TWO_63 && ShortTexts(NewChallenge(crypto, s, id, value, issued))
    requires Countable(c) && c.scope == s && SubjectKeyError(db, s, crypto.onCurve).Some?
    ensures Creation(crypto, db, t, s, id, value, issued).Err?
    ensures Proving(crypto, db, t, c, signature, ticketValue, now).0 == t
    ensures Proving(crypto, db, t, c, signature, ticketValue, now).1.Err?
  {
  }

  /** A host whose pinned key is not trimmed is locked out for the rest of every run: no
      challenge is created for it and no proof of it accepted, and enrolment cannot help. */
  lemma UntrimmedKeyLocksOut(
    rules: Rules, crypto: Crypto, worlds: seq<World>, moves: seq<Move>, i: nat, j: nat, s: Scope, key: string)
    requires IsRun(rules, worlds, moves) && i <= j < |worlds|
    requires RegisteredKey(worlds[i].db, s) == Some(key) && !Trimmed(key)
    ensures SubjectKeyError(worlds[j].db, s, crypto.onCurve).Some?
  {
    KeysNeverChange(rules, worlds, moves, i, j, s);
    AuthWantsTrimmedKeys(key, crypto.onCurve);
  }

  lemma SecondWorld(rules: Rules, env: Env, worlds: seq<World>, moves: seq<Move>, s: Scope, e: Hosts.Enrollment)
    requires IsRun(rules, worlds, moves) && |moves| >= 2 && moves[..2] == Vouching.HostMoves(env, s, e)
    requires Hosts.EnrollmentError(e, env.onCurve).None? && e.tenant == TrimSpace(e.tenant) == s.tenant
    requires e.host == TrimSpace(e.host) == s.host
    ensures worlds[2].db == Vouching.HostTables(s, e)
  {
    Scenarios.TenantDispatch(env, s.tenant, Op.SetTenant(s.tenant, true), 0);
    Scenarios.EnrollDispatch(env, e, Op.EnrollHost(e, true), 0);
    Vouching.EnrolledHost(rules.digest, HostKey(s.tenant, s.host), TrimSpace(e.displayName), e);
    assert moves[0] == moves[..2][0] && moves[1] == moves[..2][1];
    assert IsStep(rules, worlds, moves, 0) && IsStep(rules, worlds, moves, 1);
  }

  /** The host itself: enrolled by real requests with such a key, it is refused in every
      later state of every run that begins so. */
  lemma LockedOutHost(
    rules: Rules, env: Env, crypto: Crypto, worlds: seq<World>, moves: seq<Move>, s: Scope, e: Hosts.Enrollment, j: nat)
    requires IsRun(rules, worlds, moves) && |moves| >= 2 && moves[..2] == Vouching.HostMoves(env, s, e) && 2 <= j < |worlds|
    requires Hosts.EnrollmentError(e, env.onCurve).None? && !Trimmed(e.signingKey) && e.tenant == s.tenant && e.host == s.host
    requires ScopeError(s).None? && s.subjectType == SUBJECT_HOST
    ensures SubjectKeyError(worlds[j].db, s, crypto.onCurve).Some?
  {
    ValidScope(s);
    SecondWorld(rules, env, worlds, moves, s, e);
    UntrimmedKeyLocksOut(rules, crypto, worlds, moves, 2, j, s, e.signingKey);
  }
}

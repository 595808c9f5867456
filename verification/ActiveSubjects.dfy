/** Active, in the fields of the tables: what holds whenever a challenge or a ticket is
    consumed, and what a disabled tenant cannot do. */
module ActiveSubjects {
  import opened Text
  import opened Tables
  import opened Pairing
  import opened Transcripts
  import opened Canonical
  import opened Auth
  import opened Protocol
  import opened ProtocolSafety
  import AuthService
  import Keys

  /** Tenant enabled; host enrolled, enabled, not revoked, with a key; and for a device the
      device approved, not revoked, with a key. */
  predicate Up(db: Tables, s: Scope) {
    && s.tenant in db.tenants && db.tenants[s.tenant] == true
    && (|| (&& s.subjectType == "host" && HostKey(s.tenant, s.subjectId) in db.hosts
            && var h := db.hosts[HostKey(s.tenant, s.subjectId)];
               h.enabled && !h.revoked && h.signingKey != "")
        || (&& s.subjectType == "device" && HostKey(s.tenant, s.host) in db.hosts
            && DeviceKey(s.tenant, s.host, s.subjectId) in db.devices
            && var h, d := db.hosts[HostKey(s.tenant, s.host)], db.devices[DeviceKey(s.tenant, s.host, s.subjectId)];
               h.enabled && !h.revoked && !d.revoked && d.signingKey != ""))
  }

  /** The key such a subject answers with. */
  function KeyOfSubject(db: Tables, s: Scope): string
    requires Up(db, s)
  {
    if s.subjectType == "host" then db.hosts[HostKey(s.tenant, s.subjectId)].signingKey
    else db.devices[DeviceKey(s.tenant, s.host, s.subjectId)].signingKey
  }

  lemma TypesDiffer()
    ensures "host" != "device"
  {
    assert |"host"| != |"device"|;
  }

  lemma ActiveMeansUp(db: Tables, s: Scope)
    ensures SubjectActive(db, s) <==> Up(db, s)
    ensures Up(db, s) ==> ActiveKey(db, s) == Some(KeyOfSubject(db, s))
  {
    TypesDiffer();
  }

  // ----- the statements -----

  /** A ticket is consumed exactly when it is stored for this very scope, unconsumed,
      unexpired, and its subject is up; and then that row alone changes. */
  lemma TicketSpends(db: Tables, t: AuthTables, ticket: seq<byte>, s: Scope, now: int)
    ensures SpendTicket(db, t, ticket, s, now).Some? <==>
              && ticket in t.tickets && t.tickets[ticket].scope == s && t.tickets[ticket].consumedAt == None
              && now < t.tickets[ticket].expiresAt && Up(db, s)
    ensures SpendTicket(db, t, ticket, s, now).Some? ==>
              var n := SpendTicket(db, t, ticket, s, now).value;
              n.challenges == t.challenges && n.tickets == t.tickets[ticket := t.tickets[ticket].(consumedAt := Some(now))]
  {
    ActiveMeansUp(db, s);
  }

  /** A challenge is consumed exactly when its row agrees with it in every column, is
      unconsumed and unexpired, and its subject is up. */
  lemma ChallengeSpends(db: Tables, t: AuthTables, c: Challenge, hash: seq<byte>, now: int)
    ensures SpendChallenge(db, t, c, hash, now).Some? <==>
              && c.id in t.challenges && now < c.expiresAt && Up(db, c.scope)
              && t.challenges[c.id] == ChallengeRow(hash, c.version, c.fingerprint, c.relaySignature, c.scope, c.issuedAt, c.expiresAt, None)
    ensures SpendChallenge(db, t, c, hash, now).Some? ==>
              var n := SpendChallenge(db, t, c, hash, now).value;
              n.tickets == t.tickets && n.challenges == t.challenges[c.id := t.challenges[c.id].(consumedAt := Some(now))]
  {
    ActiveMeansUp(db, c.scope);
  }

  /** A new ticket is unconsumed, of the challenge's scope, and good for sixty seconds. */
  lemma TicketMints(t: AuthTables, ticket: seq<byte>, s: Scope, now: int)
    ensures InsertTicket(t, ticket, s, now) ==
            if ticket in t.tickets then None
            else Some(AuthTables(t.challenges, t.tickets[ticket := TicketRow(s, now, now + 60_000, None)]))
  {
  }

  // ----- over runs -----

  /** When a ticket is accepted its subject is up. */
  lemma AcceptedWhileUp(rules: Rules, worlds: seq<World>, moves: seq<Move>, i: nat)
    requires IsRun(rules, worlds, moves) && i < |moves| && worlds[i + 1].accepted != worlds[i].accepted
    ensures |worlds[i + 1].accepted| == |worlds[i].accepted| + 1
    ensures Up(worlds[i].db, worlds[i + 1].accepted[|worlds[i].accepted|].scope)
  {
    AcceptedWhileActive(rules, worlds, moves, i);
    ActiveMeansUp(worlds[i].db, worlds[i + 1].accepted[|worlds[i].accepted|].scope);
  }

  /** When a challenge is consumed its subject is up, and the signature was checked under the
      key the subject's row has. */
  lemma SpentWhileUp(rules: Rules, worlds: seq<World>, moves: seq<Move>, i: nat, id: nat)
    requires IsRun(rules, worlds, moves) && i < |moves|
    requires id in worlds[i + 1].proofs && worlds[i + 1].proofs[id].Spent?
    requires id in worlds[i].proofs ==> !worlds[i].proofs[id].Spent?
    ensures var p := worlds[i + 1].proofs[id];
            Up(worlds[i].db, p.challenge.scope) && KeyOfSubject(worlds[i].db, p.challenge.scope) == p.key
            && rules.check(p.challenge, p.key, p.signature)
  {
    SpentUnderActiveKey(rules, worlds, moves, i, id);
    var p := worlds[i + 1].proofs[id];
    assert SubjectActive(worlds[i].db, p.challenge.scope);
    ActiveMeansUp(worlds[i].db, p.challenge.scope);
  }

  // ----- a disabled tenant -----

  predicate Enables(m: Move, tenant: string) {
    m == Pair(TenantAction(tenant, true), if m.Pair? then m.at else 0)
  }

  predicate Disabled(db: Tables, tenant: string) {
    tenant in db.tenants && !db.tenants[tenant]
  }

  lemma TenantsAfter(digest: Digest, db: Tables, a: Action, now: int)
    ensures Execute(digest, db, a, now).db.tenants == if a.TenantAction? then db.tenants[a.tenant := a.enabled] else db.tenants
  {
  }

  lemma NextTenants(rules: Rules, w: World, m: Move, tenant: string)
    requires MoveOk(rules, w, m) && Disabled(w.db, tenant) && !Enables(m, tenant)
    ensures Disabled(Next(rules, w, m).db, tenant)
  {
    match m {
      case Pair(a, at) => TenantsAfter(rules.digest, w.db, a, at);
      case Settle(id, plan, at) => TenantsAfter(rules.digest, w.db, plan, at);
      case _ => assert Next(rules, w, m).db == w.db;
    }
  }

  lemma StepTenants(rules: Rules, worlds: seq<World>, moves: seq<Move>, i: nat, tenant: string)
    requires IsRun(rules, worlds, moves) && i < |moves| && Disabled(worlds[i].db, tenant) && !Enables(moves[i], tenant)
    ensures Disabled(worlds[i + 1].db, tenant)
  {
    assert IsStep(rules, worlds, moves, i);
    NextTenants(rules, worlds[i], moves[i], tenant);
  }

  lemma {:induction false} StaysDisabled(rules: Rules, worlds: seq<World>, moves: seq<Move>, i: nat, j: nat, tenant: string)
    requires IsRun(rules, worlds, moves) && i <= j < |worlds| && Disabled(worlds[i].db, tenant)
    requires forall p :: i <= p < j ==> !Enables(moves[p], tenant)
    ensures Disabled(worlds[j].db, tenant)
  {
    if i < j {
      StaysDisabled(rules, worlds, moves, i, j - 1, tenant);
      StepTenants(rules, worlds, moves, j - 1, tenant);
    }
  }

  lemma DisablingStep(rules: Rules, worlds: seq<World>, moves: seq<Move>, i: nat, tenant: string, at: int)
    requires IsRun(rules, worlds, moves) && i < |moves| && moves[i] == Pair(TenantAction(tenant, false), at)
    ensures Disabled(worlds[i + 1].db, tenant)
  {
    assert IsStep(rules, worlds, moves, i);
    TenantsAfter(rules.digest, worlds[i].db, TenantAction(tenant, false), at);
  }

  /** From the move that disables a tenant until one that enables it, no ticket of it is
      accepted and no challenge of it consumed. */
  lemma DisabledTenantWaits(
    rules: Rules, worlds: seq<World>, moves: seq<Move>, i: nat, j: nat, tenant: string, at: int)
    requires IsRun(rules, worlds, moves) && i < j < |moves| && moves[i] == Pair(TenantAction(tenant, false), at)
    requires forall p :: i < p < j ==> !Enables(moves[p], tenant)
    ensures Disabled(worlds[j].db, tenant)
    ensures worlds[j + 1].accepted != worlds[j].accepted ==>
              |worlds[j + 1].accepted| > |worlds[j].accepted| && worlds[j + 1].accepted[|worlds[j].accepted|].scope.tenant != tenant
    ensures forall id :: id in worlds[j + 1].proofs && worlds[j + 1].proofs[id].Spent?
                         && (id in worlds[j].proofs ==> !worlds[j].proofs[id].Spent?) ==>
                           worlds[j + 1].proofs[id].challenge.scope.tenant != tenant
  {
    DisablingStep(rules, worlds, moves, i, tenant, at);
    StaysDisabled(rules, worlds, moves, i + 1, j, tenant);
    if worlds[j + 1].accepted != worlds[j].accepted {
      AcceptedWhileUp(rules, worlds, moves, j);
    }
    forall id | id in worlds[j + 1].proofs && worlds[j + 1].proofs[id].Spent?
                && (id in worlds[j].proofs ==> !worlds[j].proofs[id].Spent?)
      ensures worlds[j + 1].proofs[id].challenge.scope.tenant != tenant
    {
      SpentWhileUp(rules, worlds, moves, j, id);
    }
  }

  /** Nor is there a usable key for it, so that no challenge of it is made or proved. */
  lemma DisabledTenantHasNoKey(db: Tables, s: Scope, onCurve: seq<byte> -> bool)
    requires s.tenant in db.tenants && !db.tenants[s.tenant]
    ensures SubjectKeyError(db, s, onCurve) == Some(SubjectNotFound)
  {
    ActiveMeansUp(db, s);
  }

  /** CreateChallenge for a disabled tenant is an error and stores nothing. */
  lemma DisabledTenantGetsNothing(
    crypto: Crypto, db: Tables, t: AuthTables, s: Scope, id: string, value: seq<byte>, now: int64)
    requires now as int + 60_000 < TWO_63 && ShortTexts(NewChallenge(crypto, s, id, value, now))
    requires s.tenant in db.tenants && !db.tenants[s.tenant]
    ensures AuthService.Creation(crypto, db, t, s, id, value, now).Err?
  {
    DisabledTenantHasNoKey(db, s, crypto.onCurve);
  }
}

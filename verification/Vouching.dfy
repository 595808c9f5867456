/** What the acceptance of a ticket says about the device the ticket names. */
module Vouching {
  import opened Text
  import opened Tables
  import opened Pairing
  import opened PairingRequests
  import opened Transcripts
  import opened Auth
  import opened Protocol
  import Hosts
  import Keys
  import Scenarios

  /** The device a scope names, if it names one, is paired and not revoked. */
  predicate DeviceUp(db: Tables, s: Scope) {
    s.device != "" ==>
      var k := DeviceKey(s.tenant, s.host, s.device);
      k in db.devices && !db.devices[k].revoked
  }

  /** The last move of the run accepted a ticket of this scope. */
  predicate Accepts(w: World, n: World, s: Scope) {
    |n.accepted| == |w.accepted| + 1 && n.accepted[|w.accepted|].scope == s
  }

  /** In every run, whenever a ticket of this scope is accepted its device is up. */
  ghost predicate Vouches(rules: Rules, s: Scope) {
    forall moves :: !AcceptsAbsent(rules, moves, s)
  }

  /** Some run of these moves ends with the acceptance of such a ticket, the device not up. */
  ghost predicate AcceptsAbsent(rules: Rules, moves: seq<Move>, s: Scope) {
    exists worlds :: IsRun(rules, worlds, moves) && AbsentAtLast(worlds, s)
  }

  predicate AbsentAtLast(worlds: seq<World>, s: Scope) {
    && |worlds| >= 2 && Accepts(worlds[|worlds| - 2], worlds[|worlds| - 1], s)
    && !DeviceUp(worlds[|worlds| - 2].db, s)
  }

  lemma ActiveSubjectsDevice(db: Tables, s: Scope)
    requires ScopeError(s).None? && !NamesDevice(s.purpose) && SubjectActive(db, s)
    ensures DeviceUp(db, s)
  {
    ValidScope(s);
  }

  lemma VouchedStep(rules: Rules, w: World, m: Move, s: Scope)
    requires ScopeError(s).None? && !NamesDevice(s.purpose) && Accepts(w, Next(rules, w, m), s)
    ensures DeviceUp(w.db, s)
  {
    NextAccepts(rules, w, m);
    ActiveSubjectsDevice(w.db, s);
  }

  // ----- the run of a host without devices -----

  /** A host that can enrol, and answers a challenge of this scope. */
  predicate Answers(rules: Rules, env: Env, s: Scope, e: Hosts.Enrollment, c: Challenge, signature: string) {
    && Hosts.EnrollmentError(e, env.onCurve).None? && e.tenant == s.tenant && e.host == s.host
    && c.scope == s && c.expiresAt as int == c.issuedAt as int + MAX_LIFETIME && rules.check(c, e.signingKey, signature)
  }

  /** Enrol, ask for a challenge, answer it; then use the ticket. */
  function HostMoves(env: Env, s: Scope, e: Hosts.Enrollment): seq<Move> {
    [Pair(Plan(env, Op.SetTenant(s.tenant, true), 0), 0), Pair(Plan(env, Op.EnrollHost(e, true), 0), 0)]
  }

  function TicketMoves(s: Scope, key: string, c: Challenge, signature: string, hash: seq<byte>, ticket: seq<byte>): seq<Move> {
    [Issue(c, hash), Verify(0, c, hash, key, signature, c.issuedAt), Spend(0), Mint(0, ticket)]
  }

  ghost predicate RunTo(rules: Rules, moves: seq<Move>, w: World) {
    exists worlds :: IsRun(rules, worlds, moves) && worlds[|moves|] == w
  }

  lemma Extend(rules: Rules, worlds: seq<World>, moves: seq<Move>, m: Move)
    requires IsRun(rules, worlds, moves) && MoveOk(rules, worlds[|moves|], m)
    ensures IsRun(rules, worlds + [Next(rules, worlds[|moves|], m)], moves + [m])
  {
    var more, all := worlds + [Next(rules, worlds[|moves|], m)], moves + [m];
    forall i | 0 <= i < |all| ensures IsStep(rules, more, all, i) {
      assert i < |moves| ==> IsStep(rules, worlds, moves, i);
    }
  }

  lemma RunToNext(rules: Rules, moves: seq<Move>, w: World, m: Move)
    requires RunTo(rules, moves, w) && MoveOk(rules, w, m)
    ensures RunTo(rules, moves + [m], Next(rules, w, m))
  {
    var worlds :| IsRun(rules, worlds, moves) && worlds[|moves|] == w;
    Extend(rules, worlds, moves, m);
    assert (worlds + [Next(rules, w, m)])[|moves + [m]|] == Next(rules, w, m);
  }

  lemma RunToStart(rules: Rules)
    ensures RunTo(rules, [], START)
  {
    assert IsRun(rules, [START], []);
  }

  function HostTables(s: Scope, e: Hosts.Enrollment): Tables {
    var row := HostRow(TrimSpace(e.displayName), e.signingKey, e.agreementKey, e.keyVersion, true, false);
    Scenarios.OneTenant(s.tenant).(hosts := map[HostKey(s.tenant, s.host) := row])
  }

  lemma EnrolledHost(digest: Digest, k: HostKey, name: string, e: Hosts.Enrollment)
    ensures Execute(digest, EMPTY, TenantAction(k.tenant, true), 0).db == Scenarios.OneTenant(k.tenant)
    ensures Execute(digest, Scenarios.OneTenant(k.tenant), PinAction(k, name, e, true), 0).db ==
            Scenarios.OneTenant(k.tenant).(hosts := map[k := HostRow(name, e.signingKey, e.agreementKey, e.keyVersion, true, false)])
  {
  }

  lemma HostRun(rules: Rules, env: Env, s: Scope, e: Hosts.Enrollment)
    requires Hosts.EnrollmentError(e, env.onCurve).None? && e.tenant == TrimSpace(e.tenant) == s.tenant
    requires e.host == TrimSpace(e.host) == s.host
    ensures RunTo(rules, HostMoves(env, s, e), START.(db := HostTables(s, e)))
  {
    var k, name, moves := HostKey(s.tenant, s.host), TrimSpace(e.displayName), HostMoves(env, s, e);
    Scenarios.TenantDispatch(env, s.tenant, Op.SetTenant(s.tenant, true), 0);
    Scenarios.EnrollDispatch(env, e, Op.EnrollHost(e, true), 0);
    EnrolledHost(rules.digest, k, name, e);
    TwoPairs(rules, TenantAction(s.tenant, true), PinAction(k, name, e, true), Scenarios.OneTenant(s.tenant), HostTables(s, e));
    assert moves == [Pair(TenantAction(s.tenant, true), 0), Pair(PinAction(k, name, e, true), 0)];
  }

  lemma TwoPairs(rules: Rules, a: Action, b: Action, one: Tables, two: Tables)
    requires ActionOk(a, 0) && ActionOk(b, 0) && !a.ApproveAction? && !b.ApproveAction?
    requires Execute(rules.digest, EMPTY, a, 0).db == one && Execute(rules.digest, one, b, 0).db == two
    ensures RunTo(rules, [Pair(a, 0), Pair(b, 0)], START.(db := two))
  {
    RunToStart(rules);
    RunToNext(rules, [], START, Pair(a, 0));
    assert [] + [Pair(a, 0)] == [Pair(a, 0)];
    RunToNext(rules, [Pair(a, 0)], START.(db := one), Pair(b, 0));
    assert [Pair(a, 0)] + [Pair(b, 0)] == [Pair(a, 0), Pair(b, 0)];
  }

  function IssuedRow(c: Challenge, hash: seq<byte>, consumedAt: Option<int>): ChallengeRow {
    ChallengeRow(hash, c.version, c.fingerprint, c.relaySignature, c.scope, c.issuedAt, c.expiresAt, consumedAt)
  }

  /** The states between the four moves, over any tables. */
  function Issued(db: Tables, c: Challenge, hash: seq<byte>): World {
    START.(db := db, auth := AuthTables(map[c.id := IssuedRow(c, hash, None)], map[]))
  }

  function Read(db: Tables, c: Challenge, hash: seq<byte>, key: string, signature: string): World {
    Issued(db, c, hash).(proofs := map[0 := Verified(c, hash, key, signature, c.issuedAt)])
  }

  function Answered(db: Tables, c: Challenge, hash: seq<byte>, key: string, signature: string): World {
    START.(db := db, auth := AuthTables(map[c.id := IssuedRow(c, hash, Some(c.issuedAt))], map[]),
           proofs := map[0 := Spent(c, hash, key, signature, c.issuedAt)])
  }

  function Minted(db: Tables, c: Challenge, hash: seq<byte>, key: string, signature: string, ticket: seq<byte>): World {
    var w := Answered(db, c, hash, key, signature);
    w.(auth := AuthTables(w.auth.challenges, map[ticket := TicketRow(c.scope, c.issuedAt, c.issuedAt + MAX_LIFETIME, None)]),
       proofs := map[0 := Ticketed(c, hash, key, signature, c.issuedAt, ticket)])
  }

  lemma IssueMove(rules: Rules, db: Tables, c: Challenge, hash: seq<byte>)
    ensures Next(rules, START.(db := db), Issue(c, hash)) == Issued(db, c, hash)
  {
  }

  lemma ReadMove(rules: Rules, db: Tables, c: Challenge, hash: seq<byte>, key: string, signature: string)
    requires c.expiresAt as int == c.issuedAt as int + MAX_LIFETIME
    requires ActiveKey(db, c.scope) == Some(key) && rules.check(c, key, signature)
    ensures var w, m := Issued(db, c, hash), Verify(0, c, hash, key, signature, c.issuedAt);
            MoveOk(rules, w, m) && Next(rules, w, m) == Read(db, c, hash, key, signature)
  {
    LifetimeCheck(c, c.issuedAt);
  }

  lemma SpendMove(rules: Rules, db: Tables, c: Challenge, hash: seq<byte>, key: string, signature: string)
    requires c.expiresAt as int == c.issuedAt as int + MAX_LIFETIME && SubjectActive(db, c.scope)
    ensures Next(rules, Read(db, c, hash, key, signature), Spend(0)) == Answered(db, c, hash, key, signature)
  {
    var w := Read(db, c, hash, key, signature);
    assert Next(rules, w, Spend(0)) == SpendProof(w, 0);
  }

  lemma MintMove(rules: Rules, db: Tables, c: Challenge, hash: seq<byte>, key: string, signature: string, ticket: seq<byte>)
    ensures Next(rules, Answered(db, c, hash, key, signature), Mint(0, ticket)) == Minted(db, c, hash, key, signature, ticket)
  {
    var w := Answered(db, c, hash, key, signature);
    assert Next(rules, w, Mint(0, ticket)) == MintTicket(w, 0, ticket);
  }

  lemma UseMove(rules: Rules, db: Tables, c: Challenge, hash: seq<byte>, key: string, signature: string, ticket: seq<byte>)
    requires SubjectActive(db, c.scope)
    ensures var w := Minted(db, c, hash, key, signature, ticket);
            Accepts(w, Next(rules, w, Use(ticket, c.scope, c.issuedAt)), c.scope)
  {
    var w := Minted(db, c, hash, key, signature, ticket);
    assert Next(rules, w, Use(ticket, c.scope, c.issuedAt)) == UseTicket(w, ticket, c.scope, c.issuedAt);
  }

  lemma TicketRun(
    rules: Rules, moves: seq<Move>, db: Tables, c: Challenge, hash: seq<byte>, key: string, signature: string, ticket: seq<byte>)
    requires RunTo(rules, moves, START.(db := db)) && c.expiresAt as int == c.issuedAt as int + MAX_LIFETIME
    requires ActiveKey(db, c.scope) == Some(key) && key != "" && rules.check(c, key, signature)
    ensures RunTo(rules, moves + TicketMoves(c.scope, key, c, signature, hash, ticket), Minted(db, c, hash, key, signature, ticket))
  {
    var m := TicketMoves(c.scope, key, c, signature, hash, ticket);
    IssueMove(rules, db, c, hash);
    ReadMove(rules, db, c, hash, key, signature);
    SpendMove(rules, db, c, hash, key, signature);
    MintMove(rules, db, c, hash, key, signature, ticket);
    FourMore(rules, moves, START.(db := db), m[0], Issued(db, c, hash), m[1], Read(db, c, hash, key, signature),
             m[2], Answered(db, c, hash, key, signature), m[3], Minted(db, c, hash, key, signature, ticket));
    assert m == [m[0], m[1], m[2], m[3]];
  }

  lemma FourMore(
    rules: Rules, moves: seq<Move>, w0: World, a: Move, w1: World, b: Move, w2: World, c: Move, w3: World, d: Move, w4: World)
    requires RunTo(rules, moves, w0) && MoveOk(rules, w0, a) && w1 == Next(rules, w0, a)
    requires MoveOk(rules, w1, b) && w2 == Next(rules, w1, b)
    requires MoveOk(rules, w2, c) && w3 == Next(rules, w2, c)
    requires MoveOk(rules, w3, d) && w4 == Next(rules, w3, d)
    ensures RunTo(rules, moves + [a, b, c, d], w4)
  {
    RunToNext(rules, moves, w0, a);
    RunToNext(rules, moves + [a], w1, b);
    RunToNext(rules, moves + [a] + [b], w2, c);
    RunToNext(rules, moves + [a] + [b] + [c], w3, d);
    assert moves + [a, b, c, d] == moves + [a] + [b] + [c] + [d];
  }

  lemma EndsAbsent(rules: Rules, moves: seq<Move>, w: World, m: Move, s: Scope)
    requires RunTo(rules, moves, w) && MoveOk(rules, w, m) && Accepts(w, Next(rules, w, m), s) && !DeviceUp(w.db, s)
    ensures AcceptsAbsent(rules, moves + [m], s)
  {
    var worlds :| IsRun(rules, worlds, moves) && worlds[|moves|] == w;
    Extend(rules, worlds, moves, m);
    assert AbsentAtLast(worlds + [Next(rules, w, m)], s);
  }

  /** A run in which a ticket naming a device is accepted although no such device exists: a
      host enrols, proves its key and uses its ticket, and nobody ever paired. */
  lemma AcceptedForAbsentDevice(
    rules: Rules, env: Env, s: Scope, e: Hosts.Enrollment, c: Challenge, signature: string, hash: seq<byte>, ticket: seq<byte>)
    requires ScopeError(s).None? && NamesDevice(s.purpose) && Answers(rules, env, s, e, c, signature)
    ensures AcceptsAbsent(rules,
              HostMoves(env, s, e) + TicketMoves(s, e.signingKey, c, signature, hash, ticket) + [Use(ticket, s, c.issuedAt)], s)
  {
    HostScopeFacts(env, s, e);
    var db := HostTables(s, e);
    HostRun(rules, env, s, e);
    TicketRun(rules, HostMoves(env, s, e), db, c, hash, e.signingKey, signature, ticket);
    UseMove(rules, db, c, hash, e.signingKey, signature, ticket);
    EndsAbsent(rules, HostMoves(env, s, e) + TicketMoves(s, e.signingKey, c, signature, hash, ticket),
               Minted(db, c, hash, e.signingKey, signature, ticket), Use(ticket, s, c.issuedAt), s);
  }

  lemma HostScopeFacts(env: Env, s: Scope, e: Hosts.Enrollment)
    requires ScopeError(s).None? && NamesDevice(s.purpose) && e.tenant == s.tenant && e.host == s.host
    requires Hosts.EnrollmentError(e, env.onCurve).None?
    ensures e.tenant == TrimSpace(e.tenant) && e.host == TrimSpace(e.host) && s.device != "" && e.signingKey != ""
    ensures ActiveKey(HostTables(s, e), s) == Some(e.signingKey)
  {
    ValidScope(s);
    EmptyKeyIsInvalid(env.onCurve);
  }

  lemma EmptyKeyIsInvalid(onCurve: seq<byte> -> bool)
    ensures !Keys.ValidHostKey("", onCurve)
  {
  }

  ghost predicate CanAnswer(rules: Rules, env: Env, s: Scope) {
    exists e, c, signature :: Answers(rules, env, s, e, c, signature)
  }

  /** Acceptance vouches for the device a ticket names, in every run, exactly when the device
      is the subject: a host's tickets for approving, rejecting, revoking or serving a device
      are accepted whatever that device's row says. */
  lemma AcceptanceVouchesForDevice(rules: Rules, env: Env, s: Scope)
    requires ScopeError(s).None? && CanAnswer(rules, env, s)
    ensures Vouches(rules, s) <==> !NamesDevice(s.purpose)
  {
    if NamesDevice(s.purpose) {
      var e, c, signature :| Answers(rules, env, s, e, c, signature);
      NotVouched(rules, env, s, e, c, signature, []);
    } else {
      forall moves ensures !AcceptsAbsent(rules, moves, s) {
        NeverAbsent(rules, moves, s);
      }
    }
  }

  lemma NotVouched(
    rules: Rules, env: Env, s: Scope, e: Hosts.Enrollment, c: Challenge, signature: string, ticket: seq<byte>)
    requires ScopeError(s).None? && NamesDevice(s.purpose) && Answers(rules, env, s, e, c, signature)
    ensures !Vouches(rules, s)
  {
    AcceptedForAbsentDevice(rules, env, s, e, c, signature, ticket, ticket);
  }

  lemma NeverAbsent(rules: Rules, moves: seq<Move>, s: Scope)
    requires ScopeError(s).None? && !NamesDevice(s.purpose)
    ensures !AcceptsAbsent(rules, moves, s)
  {
    forall worlds | IsRun(rules, worlds, moves) ensures !AbsentAtLast(worlds, s) {
      LastStepVouched(rules, worlds, moves, s);
    }
  }

  lemma LastStepVouched(rules: Rules, worlds: seq<World>, moves: seq<Move>, s: Scope)
    requires IsRun(rules, worlds, moves) && ScopeError(s).None? && !NamesDevice(s.purpose)
    ensures !AbsentAtLast(worlds, s)
  {
    var n := |moves| - 1;
    if n >= 0 && Accepts(worlds[n], worlds[n + 1], s) {
      assert IsStep(rules, worlds, moves, n);
      VouchedStep(rules, worlds[n], moves[n], s);
    }
  }
}

/** Runs of the hub for what can go wrong: a host and a device pair, connect, and the host's
    frame is routed. */
module HubScenarios {
  import opened Text
  import opened Tables
  import opened Pairing
  import opened PairingRequests
  import opened RouteKeys
  import opened Auth
  import opened Scenarios
  import opened Hub
  import opened HubRuns
  import opened HubTheorems
  import opened HubTenants
  import Hosts
  import Keys
  import DeviceHistory

  // ----- runs, move by move -----

  ghost predicate RunTo(digest: Digest, parse: Parser, moves: seq<Move>, w: World) {
    exists worlds :: IsRun(digest, parse, worlds, moves) && worlds[|moves|] == w
  }

  lemma Extend(digest: Digest, parse: Parser, worlds: seq<World>, moves: seq<Move>, m: Move)
    requires IsRun(digest, parse, worlds, moves) && MoveOk(worlds[|moves|], m)
    ensures IsRun(digest, parse, worlds + [Next(digest, parse, worlds[|moves|], m)], moves + [m])
  {
    var more, all := worlds + [Next(digest, parse, worlds[|moves|], m)], moves + [m];
    forall i | 0 <= i < |all| ensures IsStep(digest, parse, more, all, i) {
      assert i < |moves| ==> IsStep(digest, parse, worlds, moves, i);
    }
  }

  lemma RunToNext(digest: Digest, parse: Parser, moves: seq<Move>, w: World, m: Move)
    requires RunTo(digest, parse, moves, w) && MoveOk(w, m)
    ensures RunTo(digest, parse, moves + [m], Next(digest, parse, w, m))
  {
    var worlds :| IsRun(digest, parse, worlds, moves) && worlds[|moves|] == w;
    Extend(digest, parse, worlds, moves, m);
    assert (worlds + [Next(digest, parse, w, m)])[|moves + [m]|] == Next(digest, parse, w, m);
  }

  lemma RunToStart(digest: Digest, parse: Parser)
    ensures RunTo(digest, parse, [], START)
  {
    assert IsRun(digest, parse, [START], []);
  }

  /** Pairing requests as moves. */
  function PairMoves(calls: seq<Call>): seq<Move> {
    seq(|calls|, i requires 0 <= i < |calls| => Pair(calls[i].action, calls[i].now))
  }

  ghost predicate Harmless(calls: seq<Call>) {
    CallsOk(calls) && forall i :: 0 <= i < |calls| ==> !calls[i].action.RevokeAction?
  }

  lemma PairStep(digest: Digest, parse: Parser, moves: seq<Move>, db: Tables, c: Call)
    requires RunTo(digest, parse, moves, START.(db := db)) && ActionOk(c.action, c.now) && !c.action.RevokeAction?
    ensures RunTo(digest, parse, moves + [Pair(c.action, c.now)], START.(db := Execute(digest, db, c.action, c.now).db))
  {
    RunToNext(digest, parse, moves, START.(db := db), Pair(c.action, c.now));
  }

  lemma {:induction false} PairingRun(digest: Digest, parse: Parser, calls: seq<Call>)
    requires Harmless(calls)
    ensures RunTo(digest, parse, PairMoves(calls), START.(db := Run(digest, EMPTY, calls)))
  {
    if calls == [] {
      RunToStart(digest, parse);
      assert PairMoves(calls) == [];
    } else {
      var n := |calls| - 1;
      PairingRun(digest, parse, calls[..n]);
      PairStep(digest, parse, PairMoves(calls[..n]), Run(digest, EMPTY, calls[..n]), calls[n]);
      assert PairMoves(calls) == PairMoves(calls[..n]) + [Pair(calls[n].action, calls[n].now)];
    }
  }

  // ----- two sessions -----

  /** Two unused tickets, for a host's session and a device's. */
  function Tickets(s: Session, t: Session, a: seq<byte>, b: seq<byte>, usedA: Option<int>, usedB: Option<int>): AuthTables {
    AuthTables(map[], map[a := TicketRow(SessionScope(s), 0, MAX_LIFETIME, usedA), b := TicketRow(SessionScope(t), 0, MAX_LIFETIME, usedB)])
  }

  function SessionMoves(s: Session, t: Session, a: seq<byte>, b: seq<byte>): seq<Move> {
    [AuthStep(Tickets(s, t, a, b, None, None)), Admit(1, s, a, 0), Begin(1), Admit(2, t, b, 0), Begin(2)]
  }

  /** The states between those moves. */
  function Ticketed(db: Tables, s: Session, t: Session, a: seq<byte>, b: seq<byte>): World {
    START.(db := db, auth := Tickets(s, t, a, b, None, None))
  }

  function HostAdmitted(db: Tables, s: Session, t: Session, a: seq<byte>, b: seq<byte>): World {
    START.(db := db, auth := Tickets(s, t, a, b, Some(0), None), waiting := map[1 := Admission(s, a)])
  }

  function HostIn(db: Tables, s: Session, t: Session, a: seq<byte>, b: seq<byte>, key: string): World {
    START.(db := db, auth := Tickets(s, t, a, b, Some(0), None), routes := Routes(map[key := 1], map[], false, 1),
           conns := map[1 := Conn(s, a, Running, false)])
  }

  function DeviceAdmitted(db: Tables, s: Session, t: Session, a: seq<byte>, b: seq<byte>, key: string): World {
    HostIn(db, s, t, a, b, key).(auth := Tickets(s, t, a, b, Some(0), Some(0)), waiting := map[2 := Admission(t, b)])
  }

  function BothIn(db: Tables, s: Session, t: Session, a: seq<byte>, b: seq<byte>, key: string): World {
    START.(db := db, auth := Tickets(s, t, a, b, Some(0), Some(0)), routes := Routes(map[key := 1], map[key := 2], false, 2),
           conns := map[1 := Conn(s, a, Running, false), 2 := Conn(t, b, Running, false)])
  }

  /** A host session and a device session of one key, both welcome. */
  predicate Welcome(db: Tables, s: Session, t: Session, key: string) {
    && s.role == HostRole && t.role == DeviceRole && SessionOk(s) && SessionOk(t) && KeyOf(s) == key == KeyOf(t)
    && DeviceLive(db, DeviceOfSession(s)) && DeviceLive(db, DeviceOfSession(t))
    && SubjectActive(db, SessionScope(s)) && SubjectActive(db, SessionScope(t))
  }

  lemma AdmitHost(digest: Digest, parse: Parser, db: Tables, s: Session, t: Session, a: seq<byte>, b: seq<byte>)
    requires a != b && SubjectActive(db, SessionScope(s))
    ensures Next(digest, parse, Ticketed(db, s, t, a, b), Admit(1, s, a, 0)) == HostAdmitted(db, s, t, a, b)
  {
    var w := Ticketed(db, s, t, a, b);
    assert Next(digest, parse, w, Admit(1, s, a, 0)) == AdmitConn(w, 1, s, a, 0);
  }

  lemma BeginHost(digest: Digest, parse: Parser, db: Tables, s: Session, t: Session, a: seq<byte>, b: seq<byte>, key: string)
    requires s.role == HostRole && KeyOf(s) == key && DeviceLive(db, DeviceOfSession(s))
    ensures Next(digest, parse, HostAdmitted(db, s, t, a, b), Begin(1)) == HostIn(db, s, t, a, b, key)
  {
    var w := HostAdmitted(db, s, t, a, b);
    assert Next(digest, parse, w, Begin(1)) == BeginConn(w, 1);
    assert AddedAt(NO_ROUTES, 1, key, HostRole) == Change(Routes(map[key := 1], map[], false, 1), multiset{});
  }

  lemma AdmitDevice(digest: Digest, parse: Parser, db: Tables, s: Session, t: Session, a: seq<byte>, b: seq<byte>, key: string)
    requires a != b && SubjectActive(db, SessionScope(t))
    ensures Next(digest, parse, HostIn(db, s, t, a, b, key), Admit(2, t, b, 0)) == DeviceAdmitted(db, s, t, a, b, key)
  {
    var w := HostIn(db, s, t, a, b, key);
    assert Next(digest, parse, w, Admit(2, t, b, 0)) == AdmitConn(w, 2, t, b, 0);
  }

  lemma BeginDevice(digest: Digest, parse: Parser, db: Tables, s: Session, t: Session, a: seq<byte>, b: seq<byte>, key: string)
    requires t.role == DeviceRole && KeyOf(t) == key && DeviceLive(db, DeviceOfSession(t))
    ensures Next(digest, parse, DeviceAdmitted(db, s, t, a, b, key), Begin(2)) == BothIn(db, s, t, a, b, key)
  {
    var w := DeviceAdmitted(db, s, t, a, b, key);
    assert Next(digest, parse, w, Begin(2)) == BeginConn(w, 2);
    assert AddedAt(w.routes, 2, key, DeviceRole) == Change(Routes(map[key := 1], map[key := 2], false, 2), multiset{});
  }

  ghost predicate StepTo(digest: Digest, parse: Parser, w: World, m: Move, n: World) {
    MoveOk(w, m) && n == Next(digest, parse, w, m)
  }

  lemma OneMore(digest: Digest, parse: Parser, moves: seq<Move>, w: World, m: Move, n: World, more: seq<Move>)
    requires RunTo(digest, parse, moves, w) && StepTo(digest, parse, w, m, n) && more == moves + [m]
    ensures RunTo(digest, parse, more, n)
  {
    RunToNext(digest, parse, moves, w, m);
  }

  lemma TwoMore(digest: Digest, parse: Parser, moves: seq<Move>, w: World, a: Move, x: World, b: Move, n: World)
    requires RunTo(digest, parse, moves, w) && StepTo(digest, parse, w, a, x) && StepTo(digest, parse, x, b, n)
    ensures RunTo(digest, parse, moves + [a, b], n)
  {
    OneMore(digest, parse, moves, w, a, x, moves + [a]);
    OneMore(digest, parse, moves + [a], x, b, n, moves + [a, b]);
  }

  lemma HostJoins(
    digest: Digest, parse: Parser, moves: seq<Move>, db: Tables, s: Session, t: Session, a: seq<byte>, b: seq<byte>, key: string)
    requires RunTo(digest, parse, moves, Ticketed(db, s, t, a, b)) && Welcome(db, s, t, key) && a != b
    ensures RunTo(digest, parse, moves + [Admit(1, s, a, 0), Begin(1)], HostIn(db, s, t, a, b, key))
  {
    AdmitHost(digest, parse, db, s, t, a, b);
    BeginHost(digest, parse, db, s, t, a, b, key);
    TwoMore(digest, parse, moves, Ticketed(db, s, t, a, b), Admit(1, s, a, 0), HostAdmitted(db, s, t, a, b), Begin(1),
            HostIn(db, s, t, a, b, key));
  }

  lemma DeviceJoins(
    digest: Digest, parse: Parser, moves: seq<Move>, db: Tables, s: Session, t: Session, a: seq<byte>, b: seq<byte>, key: string)
    requires RunTo(digest, parse, moves, HostIn(db, s, t, a, b, key)) && Welcome(db, s, t, key) && a != b
    ensures RunTo(digest, parse, moves + [Admit(2, t, b, 0), Begin(2)], BothIn(db, s, t, a, b, key))
  {
    AdmitDevice(digest, parse, db, s, t, a, b, key);
    BeginDevice(digest, parse, db, s, t, a, b, key);
    TwoMore(digest, parse, moves, HostIn(db, s, t, a, b, key), Admit(2, t, b, 0), DeviceAdmitted(db, s, t, a, b, key), Begin(2),
            BothIn(db, s, t, a, b, key));
  }

  lemma TicketsAppear(digest: Digest, parse: Parser, moves: seq<Move>, db: Tables, s: Session, t: Session, a: seq<byte>, b: seq<byte>)
    requires RunTo(digest, parse, moves, START.(db := db))
    ensures RunTo(digest, parse, moves + [AuthStep(Tickets(s, t, a, b, None, None))], Ticketed(db, s, t, a, b))
  {
    RunToNext(digest, parse, moves, START.(db := db), AuthStep(Tickets(s, t, a, b, None, None)));
  }

  lemma SessionsRun(
    digest: Digest, parse: Parser, moves: seq<Move>, db: Tables, s: Session, t: Session, a: seq<byte>, b: seq<byte>, key: string)
    requires RunTo(digest, parse, moves, START.(db := db)) && Welcome(db, s, t, key) && a != b
    ensures RunTo(digest, parse, moves + SessionMoves(s, t, a, b), BothIn(db, s, t, a, b, key))
  {
    var m := SessionMoves(s, t, a, b);
    TicketsAppear(digest, parse, moves, db, s, t, a, b);
    HostJoins(digest, parse, moves + [m[0]], db, s, t, a, b, key);
    DeviceJoins(digest, parse, moves + [m[0]] + [m[1], m[2]], db, s, t, a, b, key);
    Regrouped(moves, m);
  }

  lemma Regrouped(moves: seq<Move>, m: seq<Move>)
    requires |m| == 5
    ensures moves + m == moves + [m[0]] + [m[1], m[2]] + [m[3], m[4]]
  {
  }

  // ----- the host's frame -----

  /** A message that parses to a frame its sender may send. */
  predicate Sends(parse: Parser, s: Session, data: seq<byte>) {
    parse(data).Some? && SenderError(s, parse(data).value) == None
  }

  function Decided(db: Tables, s: Session, t: Session, a: seq<byte>, b: seq<byte>, key: string, data: seq<byte>): World {
    BothIn(db, s, t, a, b, key).(
      conns := map[1 := Conn(s, a, Writing(0), false), 2 := Conn(t, b, Running, false)], decisions := [Delivery(1, 2, data)])
  }

  lemma HostDecides(
    digest: Digest, parse: Parser, db: Tables, s: Session, t: Session, a: seq<byte>, b: seq<byte>, key: string, data: seq<byte>)
    requires s.role == HostRole && KeyOf(s) == key && Sends(parse, s, data)
    ensures StepTo(digest, parse, BothIn(db, s, t, a, b, key), Decide(1, data), Decided(db, s, t, a, b, key, data))
  {
    var w := BothIn(db, s, t, a, b, key);
    ForwardsToOpposite(w.routes, 1, s, parse(data).value, 2);
    assert Next(digest, parse, w, Decide(1, data)) == DecideConn(parse, w, 1, data);
  }

  lemma DecisionRun(
    digest: Digest, parse: Parser, moves: seq<Move>, db: Tables, s: Session, t: Session, a: seq<byte>, b: seq<byte>, key: string,
    data: seq<byte>)
    requires RunTo(digest, parse, moves, START.(db := db)) && Welcome(db, s, t, key) && a != b && Sends(parse, s, data)
    ensures RunTo(digest, parse, moves + SessionMoves(s, t, a, b), BothIn(db, s, t, a, b, key))
    ensures RunTo(digest, parse, moves + SessionMoves(s, t, a, b) + [Decide(1, data)], Decided(db, s, t, a, b, key, data))
  {
    SessionsRun(digest, parse, moves, db, s, t, a, b, key);
    HostDecides(digest, parse, db, s, t, a, b, key, data);
    OneMore(digest, parse, moves + SessionMoves(s, t, a, b), BothIn(db, s, t, a, b, key), Decide(1, data),
            Decided(db, s, t, a, b, key, data), moves + SessionMoves(s, t, a, b) + [Decide(1, data)]);
  }

  // ----- paired kits -----

  function HostSession(kit: Kit): Session {
    Session(kit.header.tenant, kit.header.host, kit.header.device, HostRole)
  }

  function DeviceSession(kit: Kit): Session {
    Session(kit.header.tenant, kit.header.host, kit.header.device, DeviceRole)
  }

  /** The kit's host and device are in the tables as its requests put them there. */
  predicate Settled(db: Tables, kit: Kit) {
    && TenantEnabled(db, kit.header.tenant)
    && HostKey(kit.header.tenant, kit.header.host) in db.hosts
    && db.hosts[HostKey(kit.header.tenant, kit.header.host)] == HostRowOf(kit)
    && DeviceName(kit) in db.devices && db.devices[DeviceName(kit)] == DeviceHistory.BoundRow(kit.approval, 0)
  }

  lemma NoEmptyKeys(onCurve: seq<byte> -> bool)
    ensures !Keys.ValidHostKey("", onCurve) && !Keys.ValidKey("", onCurve)
  {
  }

  lemma EnrolledKey(env: Env, e: Hosts.Enrollment)
    requires Hosts.EnrollmentError(e, env.onCurve).None?
    ensures e.signingKey != ""
  {
    NoEmptyKeys(env.onCurve);
  }

  lemma ApprovedKey(env: Env, r: ApproveRequest)
    requires ApprovalError(env, r).None?
    ensures r.approval.signingKey != ""
  {
    NoEmptyKeys(env.onCurve);
  }

  lemma SubjectsUp(db: Tables, kit: Kit)
    requires Settled(db, kit) && kit.enrollment.signingKey != "" && kit.approval.signingKey != ""
    ensures SubjectActive(db, SessionScope(HostSession(kit))) && SubjectActive(db, SessionScope(DeviceSession(kit)))
    ensures DeviceLive(db, DeviceName(kit))
  {
    assert SUBJECT_HOST != SUBJECT_DEVICE;
  }

  lemma SettledWelcome(env: Env, db: Tables, kit: Kit, other: Kit)
    requires Genuine(env, kit) && Genuine(env, other) && Settled(db, kit) && Settled(db, other)
    requires KeyOf(HostSession(kit)) == KeyOf(DeviceSession(other))
    ensures Welcome(db, HostSession(kit), DeviceSession(other), KeyOf(HostSession(kit)))
  {
    EnrolledKey(env, kit.enrollment);
    ApprovedKey(env, RequestOf(kit));
    EnrolledKey(env, other.enrollment);
    ApprovedKey(env, RequestOf(other));
    GenuineNames(env, kit);
    GenuineNames(env, other);
    SubjectsUp(db, kit);
    SubjectsUp(db, other);
  }

  /** The tenant and everything a kit asks for. */
  function KitCalls(env: Env, kit: Kit): seq<Call> {
    [Call(Plan(env, TenantOp(kit), 0), 0)] + PairCalls(env, kit)
  }

  lemma ActionsHarmless(kit: Kit, tokenHash: seq<byte>)
    requires NameOk(InviteName(kit))
    ensures Harmless(PairActions(kit, tokenHash))
  {
  }

  lemma HarmlessConcat(a: seq<Call>, b: seq<Call>)
    requires Harmless(a) && Harmless(b)
    ensures Harmless(a + b)
  {
  }

  lemma TenantHarmless(tenant: string)
    ensures Harmless([Call(TenantAction(tenant, true), 0)])
  {
  }

  lemma KitHarmless(env: Env, kit: Kit)
    requires Genuine(env, kit)
    ensures Harmless(PairCalls(env, kit)) && Harmless(KitCalls(env, kit))
    ensures KitCalls(env, kit) == [Call(TenantAction(kit.header.tenant, true), 0)] + PairActions(kit, env.sha(kit.rawToken))
  {
    SloppyPlan(env, kit);
    TenantDispatch(env, kit.header.tenant, TenantOp(kit), 0);
    PairPlans(env, kit);
    ActionsHarmless(kit, env.sha(kit.rawToken));
    TenantHarmless(kit.header.tenant);
    HarmlessConcat([Call(TenantAction(kit.header.tenant, true), 0)], PairActions(kit, env.sha(kit.rawToken)));
  }

  lemma TenantStep(digest: Digest, tenant: string)
    ensures Run(digest, EMPTY, [Call(TenantAction(tenant, true), 0)]) == OneTenant(tenant)
  {
    RunAppend(digest, EMPTY, [], Call(TenantAction(tenant, true), 0));
    assert [] + [Call(TenantAction(tenant, true), 0)] == [Call(TenantAction(tenant, true), 0)];
  }

  lemma KitRun(env: Env, kit: Kit)
    requires Genuine(env, kit)
    ensures PairedWith(OneTenant(kit.header.tenant), Run(DigestOf(env), EMPTY, KitCalls(env, kit)), kit)
  {
    KitHarmless(env, kit);
    TenantPairs(DigestOf(env), kit, env.sha(kit.rawToken));
  }

  lemma KitSettled(env: Env, kit: Kit)
    requires Genuine(env, kit)
    ensures Settled(Run(DigestOf(env), EMPTY, KitCalls(env, kit)), kit)
  {
    KitRun(env, kit);
  }

  lemma TenantPairs(digest: Digest, kit: Kit, tokenHash: seq<byte>)
    requires kit.approval.agreementKey == kit.header.agreementKey && kit.approval.keyVersion == kit.header.keyVersion
    ensures var calls := [Call(TenantAction(kit.header.tenant, true), 0)] + PairActions(kit, tokenHash);
            PairedWith(OneTenant(kit.header.tenant), Run(digest, EMPTY, calls), kit)
  {
    TenantStep(digest, kit.header.tenant);
    RunConcat(digest, EMPTY, [Call(TenantAction(kit.header.tenant, true), 0)], PairActions(kit, tokenHash));
    PairRun(digest, OneTenant(kit.header.tenant), kit, tokenHash);
  }

  // ----- a write after the revocation -----

  function RevokedTables(db: Tables, k: DeviceKey): Tables
    requires k in db.devices
  {
    db.(devices := db.devices[k := db.devices[k].(revoked := true)])
  }

  lemma RevokeMoves(digest: Digest, parse: Parser, w: World, k: DeviceKey)
    requires DeviceLive(w.db, k)
    ensures Next(digest, parse, w, Move.RevokeDevice(k)).db == RevokedTables(w.db, k)
    ensures Next(digest, parse, w, Move.RevokeDevice(k)).conns == w.conns
  {
  }

  lemma WriteMoves(digest: Digest, parse: Parser, w: World, id: nat, k: DeviceKey)
    requires InWrite(w, id) && DeviceOfSession(w.conns[id].session) == k
    ensures WritesFor(w, Next(digest, parse, w, Write(id, true)), Write(id, true), k)
  {
    assert Next(digest, parse, w, Write(id, true)) == WriteConn(w, id, true);
  }

  /** Some run of these moves ends with a write for a device that is revoked before it. */
  ghost predicate EndsInLateWrite(digest: Digest, parse: Parser, moves: seq<Move>, k: DeviceKey) {
    exists worlds :: IsRun(digest, parse, worlds, moves) && LateWriteAtLast(worlds, moves, k)
  }

  predicate LateWriteAtLast(worlds: seq<World>, moves: seq<Move>, k: DeviceKey) {
    && moves != [] && |worlds| == |moves| + 1
    && Revoked(worlds[|moves| - 1].db, k) && WritesFor(worlds[|moves| - 1], worlds[|moves|], moves[|moves| - 1], k)
  }

  lemma LateWrite(digest: Digest, parse: Parser, moves: seq<Move>, w: World, id: nat, k: DeviceKey)
    requires RunTo(digest, parse, moves, w) && InWrite(w, id) && DeviceOfSession(w.conns[id].session) == k && DeviceLive(w.db, k)
    ensures EndsInLateWrite(digest, parse, moves + [Move.RevokeDevice(k)] + [Write(id, true)], k)
  {
    var n := Next(digest, parse, w, Move.RevokeDevice(k));
    RevokeMoves(digest, parse, w, k);
    RunToNext(digest, parse, moves, w, Move.RevokeDevice(k));
    WriteMoves(digest, parse, n, id, k);
    LastWrite(digest, parse, moves + [Move.RevokeDevice(k)], n, id, k);
  }

  lemma LastWrite(digest: Digest, parse: Parser, moves: seq<Move>, w: World, id: nat, k: DeviceKey)
    requires RunTo(digest, parse, moves, w) && Revoked(w.db, k)
    requires WritesFor(w, Next(digest, parse, w, Write(id, true)), Write(id, true), k)
    ensures EndsInLateWrite(digest, parse, moves + [Write(id, true)], k)
  {
    var worlds :| IsRun(digest, parse, worlds, moves) && worlds[|moves|] == w;
    Extend(digest, parse, worlds, moves, Write(id, true));
    var all, n := worlds + [Next(digest, parse, w, Write(id, true))], moves + [Write(id, true)];
    assert all[|moves|] == w && n[|moves|] == Write(id, true);
    assert LateWriteAtLast(all, n, k);
  }

  lemma LateWriteFrom(
    digest: Digest, parse: Parser, moves: seq<Move>, db: Tables, s: Session, t: Session, a: seq<byte>, b: seq<byte>, data: seq<byte>)
    requires RunTo(digest, parse, moves, START.(db := db)) && Welcome(db, s, t, KeyOf(s)) && a != b && Sends(parse, s, data)
    ensures var k := DeviceOfSession(s);
            EndsInLateWrite(digest, parse,
              moves + SessionMoves(s, t, a, b) + [Decide(1, data)] + [Move.RevokeDevice(k)] + [Write(1, true)], k)
  {
    DecisionRun(digest, parse, moves, db, s, t, a, b, KeyOf(s), data);
    LateWrite(digest, parse, moves + SessionMoves(s, t, a, b) + [Decide(1, data)],
              Decided(db, s, t, a, b, KeyOf(s), data), 1, DeviceOfSession(s));
  }

  /** The moves of the run: pair, connect, route, revoke, write. */
  function LateWriteMoves(env: Env, kit: Kit, a: seq<byte>, b: seq<byte>, data: seq<byte>): seq<Move> {
    PairMoves(KitCalls(env, kit)) + SessionMoves(HostSession(kit), DeviceSession(kit), a, b) + [Decide(1, data)]
    + [Move.RevokeDevice(DeviceName(kit))] + [Write(1, true)]
  }

  /** A frame is written to the peer after its device was revoked, no approval in between:
      the decision came before the revocation. */
  lemma WriteLandsAfterRevocation(env: Env, parse: Parser, kit: Kit, a: seq<byte>, b: seq<byte>, data: seq<byte>)
    requires Genuine(env, kit) && Sends(parse, HostSession(kit), data) && a != b
    ensures EndsInLateWrite(DigestOf(env), parse, LateWriteMoves(env, kit, a, b, data), DeviceName(kit))
  {
    var db := Run(DigestOf(env), EMPTY, KitCalls(env, kit));
    KitHarmless(env, kit);
    KitSettled(env, kit);
    PairingRun(DigestOf(env), parse, KitCalls(env, kit));
    SettledWelcome(env, db, kit, kit);
    LateWriteFrom(DigestOf(env), parse, PairMoves(KitCalls(env, kit)), db, HostSession(kit), DeviceSession(kit), a, b, data);
  }

  // ----- a frame for another device -----

  /** The requests of two kits of one tenant. */
  function BothCalls(env: Env, kit: Kit, other: Kit): seq<Call> {
    KitCalls(env, kit) + PairCalls(env, other)
  }

  predicate Apart(kit: Kit, other: Kit) {
    other.header.tenant == kit.header.tenant && other.header.host != kit.header.host && other.header.claim != kit.header.claim
  }

  lemma OtherReady(db: Tables, kit: Kit, other: Kit)
    requires PairedWith(OneTenant(kit.header.tenant), db, kit) && Apart(kit, other)
    ensures Ready(db, other)
  {
  }

  lemma BothSettled(db: Tables, s: Tables, kit: Kit, other: Kit)
    requires PairedWith(OneTenant(kit.header.tenant), db, kit) && PairedWith(db, s, other) && Apart(kit, other)
    ensures Settled(s, kit) && Settled(s, other)
  {
  }

  lemma BothRun(env: Env, kit: Kit, other: Kit)
    requires Genuine(env, kit) && Genuine(env, other) && Apart(kit, other)
    ensures var s := Run(DigestOf(env), EMPTY, BothCalls(env, kit, other)); Settled(s, kit) && Settled(s, other)
  {
    var digest := DigestOf(env);
    var db := Run(digest, EMPTY, KitCalls(env, kit));
    KitRun(env, kit);
    OtherReady(db, kit, other);
    PairPlans(env, other);
    PairRun(digest, db, other, env.sha(other.rawToken));
    RunConcat(digest, EMPTY, KitCalls(env, kit), PairCalls(env, other));
    BothSettled(db, Run(digest, db, PairCalls(env, other)), kit, other);
  }

  lemma BothHarmless(env: Env, kit: Kit, other: Kit)
    requires Genuine(env, kit) && Genuine(env, other)
    ensures Harmless(BothCalls(env, kit, other))
  {
    KitHarmless(env, kit);
    KitHarmless(env, other);
    HarmlessConcat(KitCalls(env, kit), PairCalls(env, other));
  }

  /** The moves of the run: pair twice, connect, route, write. */
  function MisrouteMoves(env: Env, kit: Kit, other: Kit, a: seq<byte>, b: seq<byte>, data: seq<byte>): seq<Move> {
    PairMoves(BothCalls(env, kit, other)) + SessionMoves(HostSession(kit), DeviceSession(other), a, b) + [Decide(1, data)]
    + [Write(1, true)]
  }

  /** Connection 1, a host's session of one device, decided to send and then sent this to
      connection 2, the session of another. */
  predicate Misrouted(w: World, s: Session, t: Session, data: seq<byte>) {
    && 1 in w.conns && 2 in w.conns && w.conns[1].session == s && w.conns[2].session == t && DeviceOfSession(s) != DeviceOfSession(t)
    && w.decisions == [Delivery(1, 2, data)] && w.writes == [0]
  }

  lemma FrameWritten(digest: Digest, parse: Parser, w: World)
    requires InWrite(w, 1) && w.conns[1].stage == Writing(0) && w.writes == []
    ensures var n := Next(digest, parse, w, Write(1, true));
            n.decisions == w.decisions && n.writes == [0] && n.conns == w.conns[1 := w.conns[1].(stage := Running)]
  {
    assert Next(digest, parse, w, Write(1, true)) == WriteConn(w, 1, true);
  }

  lemma MisrouteFrom(
    digest: Digest, parse: Parser, moves: seq<Move>, db: Tables, s: Session, t: Session, a: seq<byte>, b: seq<byte>, data: seq<byte>)
    requires RunTo(digest, parse, moves, START.(db := db)) && Welcome(db, s, t, KeyOf(s)) && a != b && Sends(parse, s, data)
    requires DeviceOfSession(s) != DeviceOfSession(t)
    ensures exists w ::
              RunTo(digest, parse, moves + SessionMoves(s, t, a, b) + [Decide(1, data)] + [Write(1, true)], w) && Misrouted(w, s, t, data)
  {
    var w := Decided(db, s, t, a, b, KeyOf(s), data);
    DecisionRun(digest, parse, moves, db, s, t, a, b, KeyOf(s), data);
    RunToNext(digest, parse, moves + SessionMoves(s, t, a, b) + [Decide(1, data)], w, Write(1, true));
    FrameWritten(digest, parse, w);
    assert Misrouted(Next(digest, parse, w, Write(1, true)), s, t, data);
  }

  /** Two devices of one tenant with one key, paired and connected by real requests: the
      frame of the one's host is routed and written to the other. */
  lemma SharedKeyMisroutes(env: Env, parse: Parser, kit: Kit, other: Kit, a: seq<byte>, b: seq<byte>, data: seq<byte>)
    requires Genuine(env, kit) && Genuine(env, other) && Apart(kit, other) && a != b && Sends(parse, HostSession(kit), data)
    requires Tail(other.header.host, other.header.device) == Tail(kit.header.host, kit.header.device)
    ensures exists w ::
              && RunTo(DigestOf(env), parse, MisrouteMoves(env, kit, other, a, b, data), w)
              && Misrouted(w, HostSession(kit), DeviceSession(other), data)
  {
    var db := Run(DigestOf(env), EMPTY, BothCalls(env, kit, other));
    BothHarmless(env, kit, other);
    BothRun(env, kit, other);
    PairingRun(DigestOf(env), parse, BothCalls(env, kit, other));
    SettledWelcome(env, db, kit, other);
    MisrouteFrom(DigestOf(env), parse, PairMoves(BothCalls(env, kit, other)), db, HostSession(kit), DeviceSession(other), a, b, data);
  }
}

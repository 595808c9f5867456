/** The hub over whole runs: connections are admitted, begin, send, leave and finish while
    devices are revoked and re-approved and the server shuts down. Each move is one critical
    section, one statement or transaction of the store, or one step of a handler outside the
    lock; in particular a frame is routed by one move and written by another. */
module HubRuns {
  import opened Text
  import opened Tables
  import opened Pairing
  import opened DeviceHistory
  import opened RouteKeys
  import opened Transcripts
  import opened Auth
  import opened Hub
  import Protocol
  import Frames

  type Parser = seq<byte> -> Option<Frames.Frame>

  /** A handler after it began: reading, about to write the frame of a decision, on its way
      out, past removeSession, counted out. */
  datatype Stage = Running | Writing(decision: nat) | Leaving | Left | Finished

  /** `ticket` is what admitted it; `removed`: it found itself still current when it removed
      itself. */
  datatype Conn = Conn(session: Session, ticket: seq<byte>, stage: Stage, removed: bool)

  /** A request whose ticket was taken and whose socket is open, but which has not begun. */
  datatype Admission = Admission(session: Session, ticket: seq<byte>)

  datatype Delivery = Delivery(from: nat, to: nat, data: seq<byte>)

  /** `evicted` counts how often a connection was put on a close list; `decisions` are the
      routing decisions to forward, in order, and `writes` the decisions whose frames were
      written, in order. */
  datatype World = World(
    db: Tables,
    auth: AuthTables,
    routes: Routes,
    waiting: map<nat, Admission>,
    conns: map<nat, Conn>,
    evicted: multiset<nat>,
    decisions: seq<Delivery>,
    writes: seq<nat>)

  const START := World(EMPTY, AuthTables(map[], map[]), NO_ROUTES, map[], map[], multiset{}, [], [])

  datatype Move =
    | Admit(id: nat, session: Session, ticket: seq<byte>, at: int)
    | Begin(id: nat)
    | Decide(id: nat, data: seq<byte>)
    | Write(id: nat, written: bool)
    | Depart(id: nat)
    | Finish(id: nat)
    | RevokeDevice(device: DeviceKey)
    | Pair(action: Action, at: int)
    | AuthStep(after: AuthTables)
    | StopServer

  /** What sessionFromRequest lets through. */
  predicate SessionOk(s: Session) {
    Name(s.tenant) && Name(s.host) && Name(s.device)
  }

  /** The scope authenticateSession asks a ticket for. */
  function SessionScope(s: Session): Scope {
    match s.role
    case HostRole => HostScope(s.tenant, s.host, s.device, WEBSOCKET_HOST)
    case DeviceRole => Scope(SUBJECT_DEVICE, s.device, s.tenant, s.host, s.device, WEBSOCKET_DEVICE)
  }

  /** A new connection is a new object, devices are revoked only under the hub's lock, and
      whatever else happens to challenges and tickets adds rows or consumes them. */
  ghost predicate MoveOk(w: World, m: Move) {
    match m
    case Admit(id, s, _, _) => id !in w.conns && id !in w.waiting && SessionOk(s)
    case Pair(a, at) => ActionOk(a, at) && !a.RevokeAction?
    case AuthStep(after) => Protocol.AuthMoves(w.auth, after)
    case _ => true
  }

  /** What the read loop makes of one text message. */
  function Judge(parse: Parser, r: Routes, id: nat, s: Session, data: seq<byte>): Routing {
    match parse(data)
    case None => Refuse(InvalidFrame)
    case Some(f) =>
      match SenderError(s, f)
      case Some(code) => Refuse(code)
      case None => Route(r, id, s.role, f)
  }

  predicate InLoop(w: World, id: nat) {
    id in w.conns && w.conns[id].stage == Running
  }

  predicate InWrite(w: World, id: nat) {
    id in w.conns && w.conns[id].stage.Writing?
  }

  /** A connection that may be in the hub's maps. */
  predicate Registrable(stage: Stage) {
    stage == Running || stage.Writing? || stage == Leaving
  }

  predicate MayDepart(w: World, id: nat) {
    id in w.conns && (w.conns[id].stage == Running || w.conns[id].stage == Leaving)
  }

  /** authenticateSession: the ticket is consumed, or the request is turned away. */
  function AdmitConn(w: World, id: nat, s: Session, ticket: seq<byte>, at: int): World {
    match SpendTicket(w.db, w.auth, ticket, SessionScope(s), at)
    case None => w
    case Some(t) => w.(auth := t, waiting := w.waiting[id := Admission(s, ticket)])
  }

  function BeginConn(w: World, id: nat): World
    requires id in w.waiting
  {
    var a := w.waiting[id];
    match Add(w.db, w.routes, id, a.session)
    case None => w.(waiting := w.waiting - {id})
    case Some(change) =>
      w.(routes := change.routes, waiting := w.waiting - {id},
         conns := w.conns[id := Conn(a.session, a.ticket, Running, false)], evicted := w.evicted + change.closed)
  }

  function Restaged(w: World, id: nat, stage: Stage): World
    requires id in w.conns
  {
    w.(conns := w.conns[id := w.conns[id].(stage := stage)])
  }

  /** The routing decision, under the read lock. */
  function DecideConn(parse: Parser, w: World, id: nat, data: seq<byte>): World
    requires InLoop(w, id)
  {
    match Judge(parse, w.routes, id, w.conns[id].session, data)
    case Forward(target) =>
      Restaged(w, id, Writing(|w.decisions|)).(decisions := w.decisions + [Delivery(id, target, data)])
    case Refuse(_) => Restaged(w, id, Leaving)
  }

  /** The write to the target's socket, after the lock was released. */
  function WriteConn(w: World, id: nat, written: bool): World
    requires InWrite(w, id)
  {
    if written then Restaged(w, id, Running).(writes := w.writes + [w.conns[id].stage.decision])
    else Restaged(w, id, Leaving)
  }

  function DepartConn(w: World, id: nat): World
    requires id in w.conns
  {
    var c := w.conns[id];
    var change := Remove(w.routes, id, c.session);
    w.(routes := change.routes,
       conns := w.conns[id := c.(stage := Left, removed := Current(w.routes, id, c.session))],
       evicted := w.evicted + change.closed)
  }

  function FinishConn(w: World, id: nat): World
    requires id in w.conns
  {
    Restaged(w, id, Finished).(routes := w.routes.(waitGroup := w.routes.waitGroup - 1))
  }

  /** revokeDevice: the row first, then both roles of the route. */
  function RevokeRoute(digest: Digest, w: World, k: DeviceKey): World {
    var step := Execute(digest, w.db, RevokeAction(k), 0);
    if step.reply != Done then w
    else
      var change := Evict(w.routes, RouteKey(k.tenant, k.host, k.device));
      w.(db := step.db, routes := change.routes, evicted := w.evicted + change.closed)
  }

  function StopRoutes(w: World): World {
    var change := Shutdown(w.routes);
    w.(routes := change.routes, evicted := w.evicted + change.closed)
  }

  function Next(digest: Digest, parse: Parser, w: World, m: Move): World {
    match m
    case Admit(id, s, ticket, at) => AdmitConn(w, id, s, ticket, at)
    case Begin(id) => if id in w.waiting then BeginConn(w, id) else w
    case Decide(id, data) => if InLoop(w, id) then DecideConn(parse, w, id, data) else w
    case Write(id, written) => if InWrite(w, id) then WriteConn(w, id, written) else w
    case Depart(id) => if MayDepart(w, id) then DepartConn(w, id) else w
    case Finish(id) => if id in w.conns && w.conns[id].stage == Left then FinishConn(w, id) else w
    case RevokeDevice(k) => RevokeRoute(digest, w, k)
    case Pair(a, at) => w.(db := Execute(digest, w.db, a, at).db)
    case AuthStep(after) => w.(auth := after)
    case StopServer => StopRoutes(w)
  }

  ghost predicate IsStep(digest: Digest, parse: Parser, worlds: seq<World>, moves: seq<Move>, i: nat)
    requires |worlds| == |moves| + 1 && i < |moves|
  {
    MoveOk(worlds[i], moves[i]) && worlds[i + 1] == Next(digest, parse, worlds[i], moves[i])
  }

  ghost predicate IsRun(digest: Digest, parse: Parser, worlds: seq<World>, moves: seq<Move>) {
    && |worlds| == |moves| + 1 && worlds[0] == START
    && forall i :: 0 <= i < |moves| ==> IsStep(digest, parse, worlds, moves, i)
  }

  // ----- the invariant -----

  predicate HolderOk(conns: map<nat, Conn>, id: nat, key: string, role: Role) {
    id in conns && conns[id].session.role == role && KeyOf(conns[id].session) == key && Registrable(conns[id].stage)
  }

  /** Every entry is a live connection of that role at its own key. */
  ghost predicate RoutesOk(r: Routes, conns: map<nat, Conn>) {
    && (forall key :: key in r.hosts ==> HolderOk(conns, r.hosts[key], key, HostRole))
    && (forall key :: key in r.devices ==> HolderOk(conns, r.devices[key], key, DeviceRole))
  }

  function Held(r: Routes, id: nat, key: string, role: Role): nat {
    if Holds(r, id, key, role) then 1 else 0
  }

  /** Registered, self-removed, or on one close list: exactly one of them, exactly once. */
  predicate OnePlace(r: Routes, evicted: multiset<nat>, id: nat, c: Conn) {
    Held(r, id, KeyOf(c.session), c.session.role) + (if c.removed then 1 else 0) + evicted[id] == 1
  }

  ghost predicate PlacesOk(w: World) {
    && (forall id :: id in w.conns ==> OnePlace(w.routes, w.evicted, id, w.conns[id]))
    && (forall id :: id in w.evicted ==> id in w.conns)
  }

  /** Every registered session's device row exists and is not revoked. */
  ghost predicate LiveOk(w: World) {
    forall id :: id in w.conns && Current(w.routes, id, w.conns[id].session) ==> DeviceLive(w.db, DeviceOfSession(w.conns[id].session))
  }

  function Unfinished(conns: map<nat, Conn>): set<nat> {
    set id | id in conns && conns[id].stage != Finished
  }

  predicate CountOk(w: World) {
    w.routes.waitGroup == |Unfinished(w.conns)|
  }

  predicate ShutOk(r: Routes) {
    r.shuttingDown ==> r.hosts == map[] && r.devices == map[]
  }

  // ----- what each critical section does to one connection -----

  /** If the connection is registered anywhere, it is there. */
  ghost predicate OnlyAt(r: Routes, id: nat, key: string, role: Role) {
    && (forall k :: k in r.hosts && r.hosts[k] == id ==> role == HostRole && k == key)
    && (forall k :: k in r.devices && r.devices[k] == id ==> role == DeviceRole && k == key)
  }

  lemma RegisteredAtOwnPlace(r: Routes, conns: map<nat, Conn>, id: nat)
    requires RoutesOk(r, conns) && id in conns
    ensures OnlyAt(r, id, KeyOf(conns[id].session), conns[id].session.role)
  {
  }

  lemma EvictReleases(r: Routes, key: string, id: nat, k: string, role: Role)
    requires OnlyAt(r, id, k, role)
    ensures Held(r, id, k, role) == Held(Evict(r, key).routes, id, k, role) + Evict(r, key).closed[id]
    ensures k == key ==> Held(Evict(r, key).routes, id, k, role) == 0
  {
  }

  lemma AddedReleases(r: Routes, other: nat, key: string, s: Role, id: nat, k: string, role: Role)
    requires OnlyAt(r, id, k, role) && other != id
    ensures var change := AddedAt(r, other, key, s);
            Held(r, id, k, role) == Held(change.routes, id, k, role) + change.closed[id]
  {
    EvictReleases(r, key, id, k, role);
  }

  lemma RemoveReleases(r: Routes, other: nat, key: string, s: Role, id: nat, k: string, role: Role)
    requires OnlyAt(r, id, k, role) && other != id
    ensures var change := RemovedAt(r, other, key, s);
            Held(r, id, k, role) == Held(change.routes, id, k, role) + change.closed[id]
  {
    EvictReleases(r, key, id, k, role);
  }

  lemma RemoveReleasesSelf(r: Routes, id: nat, k: string, role: Role)
    requires OnlyAt(r, id, k, role)
    ensures var change := RemovedAt(r, id, k, role);
            Held(change.routes, id, k, role) == 0 == change.closed[id]
  {
    EvictReleases(r, k, id, k, role);
  }

  lemma ShutdownReleases(r: Routes, id: nat, k: string, role: Role)
    requires OnlyAt(r, id, k, role)
    ensures Held(r, id, k, role) == Held(Shutdown(r).routes, id, k, role) + Shutdown(r).closed[id]
  {
    assert id in Holders(r) <==> Holds(r, id, k, role);
  }
}

/** The session hub's tables: which connection currently holds each role of each route. One
    function per critical section; a connection is known by a number that is never reused. */
module Hub {
  import opened Text
  import opened Tables
  import opened RouteKeys
  import Frames

  datatype Role = HostRole | DeviceRole

  datatype Session = Session(tenant: string, host: string, device: string, role: Role)

  datatype CloseCode = InvalidFrame | RouteMissing | Identity | Replaced | GoingAway

  // ----- the tables -----

  datatype Routes = Routes(hosts: map<string, nat>, devices: map<string, nat>, shuttingDown: bool, waitGroup: int)

  const NO_ROUTES := Routes(map[], map[], false, 0)

  /** The tables after a critical section and the connections it put on its close list. */
  datatype Change = Change(routes: Routes, closed: multiset<nat>)

  function KeyOf(s: Session): string {
    RouteKey(s.tenant, s.host, s.device)
  }

  function DeviceOfSession(s: Session): DeviceKey {
    DeviceKey(s.tenant, s.host, s.device)
  }

  function Opposite(role: Role): Role {
    if role == HostRole then DeviceRole else HostRole
  }

  function MapOf(r: Routes, role: Role): map<string, nat> {
    if role == DeviceRole then r.devices else r.hosts
  }

  predicate Holds(r: Routes, id: nat, key: string, role: Role) {
    key in MapOf(r, role) && MapOf(r, role)[key] == id
  }

  /** The connection is the current holder of its role. */
  predicate Current(r: Routes, id: nat, s: Session) {
    Holds(r, id, KeyOf(s), s.role)
  }

  /** GetDevice succeeds: the row exists and is not revoked. */
  predicate DeviceLive(db: Tables, k: DeviceKey) {
    k in db.devices && !db.devices[k].revoked
  }

  function Holder(m: map<string, nat>, key: string): multiset<nat> {
    if key in m then multiset{m[key]} else multiset{}
  }

  /** Clearing both roles of a route. */
  function Evict(r: Routes, key: string): Change {
    Change(r.(hosts := r.hosts - {key}, devices := r.devices - {key}), Holder(r.hosts, key) + Holder(r.devices, key))
  }

  /** A host replaces the whole route, a device only its own role. */
  function AddedAt(r: Routes, id: nat, key: string, role: Role): Change {
    match role
    case HostRole =>
      var e := Evict(r, key);
      Change(e.routes.(hosts := e.routes.hosts[key := id], waitGroup := r.waitGroup + 1), e.closed)
    case DeviceRole =>
      Change(r.(devices := r.devices[key := id], waitGroup := r.waitGroup + 1), Holder(r.devices, key))
  }

  /** addSessionWithLifecycle; None when the connection is turned away. */
  function Add(db: Tables, r: Routes, id: nat, s: Session): Option<Change> {
    if r.shuttingDown || !DeviceLive(db, DeviceOfSession(s)) then None else Some(AddedAt(r, id, KeyOf(s), s.role))
  }

  /** removeSession: the current holder takes its peer with it; anyone else changes nothing. */
  function RemovedAt(r: Routes, id: nat, key: string, role: Role): Change {
    if Holds(r, id, key, role) then Change(Evict(r, key).routes, Holder(MapOf(r, Opposite(role)), key))
    else Change(r, multiset{})
  }

  function Remove(r: Routes, id: nat, s: Session): Change {
    RemovedAt(r, id, KeyOf(s), s.role)
  }

  function Holders(r: Routes): set<nat> {
    r.hosts.Values + r.devices.Values
  }

  /** beginShutdown, guarded by its once. */
  function Shutdown(r: Routes): Change {
    if r.shuttingDown then Change(r, multiset{})
    else Change(r.(hosts := map[], devices := map[], shuttingDown := true), multiset(Holders(r)))
  }

  // ----- frames -----

  /** validateSenderFrame. */
  function SenderError(s: Session, f: Frames.Frame): Option<CloseCode> {
    if f.tenant != s.tenant || f.host != s.host || f.device != s.device then Some(Identity)
    else if s.role == HostRole && f.direction != Frames.WINDOWS_TO_MOBILE then Some(Identity)
    else if s.role == DeviceRole && f.direction != Frames.MOBILE_TO_WINDOWS then Some(Identity)
    else None
  }

  datatype Routing = Forward(target: nat) | Refuse(code: CloseCode)

  /** The decision of routeFrame: who holds the sender's role, and who is to receive. */
  function Route(r: Routes, id: nat, role: Role, f: Frames.Frame): Routing {
    var key := RouteKey(f.tenant, f.host, f.device);
    var targets := if f.direction == Frames.WINDOWS_TO_MOBILE then r.devices else r.hosts;
    if !Holds(r, id, key, role) then Refuse(Replaced)
    else if key !in targets then Refuse(RouteMissing)
    else Forward(targets[key])
  }

  /** A frame that passes the sender checks is forwarded exactly when its sender is the
      current holder and the opposite role of the sender's own route is held, and then to
      that holder. */
  lemma ForwardsToOpposite(r: Routes, id: nat, s: Session, f: Frames.Frame, target: nat)
    requires SenderError(s, f) == None
    ensures Route(r, id, s.role, f) == Forward(target) <==>
            Current(r, id, s) && Holds(r, target, KeyOf(s), Opposite(s.role))
    ensures Route(r, id, s.role, f) == Refuse(Replaced) <==> !Current(r, id, s)
  {
    assert Frames.WINDOWS_TO_MOBILE != Frames.MOBILE_TO_WINDOWS;
  }
}

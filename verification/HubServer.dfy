/** The server's session methods on its own fields, each proved to be the change of module
    Hub. Close lists are returned; what happens to the sockets is the caller's business. */
module HubServer {
  import opened Text
  import opened Tables
  import opened Pairing
  import opened PairingRequests
  import PairingService
  import opened RouteKeys
  import opened Hub
  import opened HubRuns
  import Frames

  datatype Incoming = TextMessage(data: seq<byte>) | BinaryMessage

  /** What the read loop makes of one message. */
  function DecideIncoming(parse: Parser, r: Routes, id: nat, s: Session, m: Incoming): Routing {
    match m
    case TextMessage(data) => Judge(parse, r, id, s, data)
    case BinaryMessage => Refuse(InvalidFrame)
  }

  class Server {
    const pairing: PairingService.Service
    var hosts: map<string, nat>
    var devices: map<string, nat>
    var shuttingDown: bool
    var waitGroup: int

    constructor (pairing: PairingService.Service)
      ensures this.pairing == pairing && State() == NO_ROUTES
    {
      this.pairing := pairing;
      hosts, devices, shuttingDown, waitGroup := map[], map[], false, 0;
    }

    function State(): Routes
      reads this
    {
      Routes(hosts, devices, shuttingDown, waitGroup)
    }

    /** Takes the route's host out of the map and onto the close list. */
    method TakeHost(key: string, closeList: seq<nat>) returns (longer: seq<nat>)
      modifies this`hosts
      ensures hosts == old(hosts) - {key} && multiset(longer) == multiset(closeList) + Holder(old(hosts), key)
    {
      longer := closeList;
      if key in hosts {
        longer := closeList + [hosts[key]];
        hosts := hosts - {key};
      }
    }

    method TakeDevice(key: string, closeList: seq<nat>) returns (longer: seq<nat>)
      modifies this`devices
      ensures devices == old(devices) - {key} && multiset(longer) == multiset(closeList) + Holder(old(devices), key)
    {
      longer := closeList;
      if key in devices {
        longer := closeList + [devices[key]];
        devices := devices - {key};
      }
    }

    /** addSessionWithLifecycle, as beginWebSocket calls it. */
    method BeginWebSocket(id: nat, s: Session) returns (ok: bool, closeList: seq<nat>)
      modifies this
      ensures match Add(pairing.db.Contents(), old(State()), id, s)
              case None => !ok && closeList == [] && State() == old(State())
              case Some(change) => ok && multiset(closeList) == change.closed && State() == change.routes
    {
      if shuttingDown || !DeviceLive(pairing.db.Contents(), DeviceOfSession(s)) {
        return false, [];
      }
      closeList := Register(id, RouteKey(s.tenant, s.host, s.device), s.role);
      ok := true;
    }

    method Register(id: nat, key: string, role: Role) returns (closeList: seq<nat>)
      modifies this
      ensures var change := AddedAt(old(State()), id, key, role);
              multiset(closeList) == change.closed && State() == change.routes
    {
      closeList := [];
      match role {
        case HostRole =>
          closeList := TakeHost(key, closeList);
          closeList := TakeDevice(key, closeList);
          hosts := hosts[key := id];
        case DeviceRole =>
          closeList := TakeDevice(key, closeList);
          devices := devices[key := id];
      }
      waitGroup := waitGroup + 1;
    }

    /** removeSession. */
    method RemoveSession(id: nat, s: Session) returns (closeList: seq<nat>)
      modifies this
      ensures var change := Remove(old(State()), id, s);
              multiset(closeList) == change.closed && State() == change.routes
    {
      closeList := Unregister(id, RouteKey(s.tenant, s.host, s.device), s.role);
    }

    method Unregister(id: nat, key: string, role: Role) returns (closeList: seq<nat>)
      modifies this
      ensures var change := RemovedAt(old(State()), id, key, role);
              multiset(closeList) == change.closed && State() == change.routes
    {
      closeList := [];
      match role {
        case HostRole =>
          if key in hosts && hosts[key] == id {
            hosts := hosts - {key};
            closeList := TakeDevice(key, closeList);
          }
        case DeviceRole =>
          if key in devices && devices[key] == id {
            devices := devices - {key};
            closeList := TakeHost(key, closeList);
          }
      }
    }

    /** isDeviceOnline. */
    method IsDeviceOnline(tenant: string, host: string, device: string) returns (online: bool)
      ensures online <==> exists id :: Holds(State(), id, RouteKey(tenant, host, device), DeviceRole)
    {
      var key := RouteKey(tenant, host, device);
      online := key in devices;
      if online {
        assert Holds(State(), devices[key], key, DeviceRole);
      }
    }

    /** revokeDevice: the row and the route go together, or neither does. */
    method RevokeDevice(tenant: string, host: string, device: string) returns (r: Reply, closeList: seq<nat>)
      modifies this, pairing.db
      ensures var step := Execute(DigestOf(pairing.env), old(pairing.db.Contents()), RevokeAction(DeviceKey(tenant, host, device)), 0);
              var change := Evict(old(State()), RouteKey(tenant, host, device));
              && r == step.reply && pairing.db.Contents() == step.db
              && (if r == Done then multiset(closeList) == change.closed && State() == change.routes
                  else closeList == [] && State() == old(State()))
    {
      closeList := [];
      var key := RouteKey(tenant, host, device);
      r := pairing.RevokeDevice(tenant, host, device);
      assert pairing.IsStep(old(pairing.db.Contents()), RevokeAction(DeviceKey(tenant, host, device)), 0, Step(pairing.db.Contents(), r));
      if r != Done {
        return;
      }
      closeList := TakeHost(key, closeList);
      closeList := TakeDevice(key, closeList);
    }

    /** routeFrame; `reachable` is the set of connections a write to which succeeds. */
    method RouteFrame(sender: nat, role: Role, frame: Frames.Frame, reachable: set<nat>) returns (r: Routing)
      ensures match Route(State(), sender, role, frame)
              case Forward(target) => r == if target in reachable then Forward(target) else Refuse(RouteMissing)
              case Refuse(code) => r == Refuse(code)
    {
      var key := RouteKey(frame.tenant, frame.host, frame.device);
      var current: Option<nat> := if key in hosts then Some(hosts[key]) else None;
      if role == DeviceRole {
        current := if key in devices then Some(devices[key]) else None;
      }
      if current != Some(sender) {
        return Refuse(Replaced);
      }
      var target: Option<nat> := if key in hosts then Some(hosts[key]) else None;
      if frame.direction == Frames.WINDOWS_TO_MOBILE {
        target := if key in devices then Some(devices[key]) else None;
      }
      if target.None? || target.value !in reachable {
        return Refuse(RouteMissing);
      }
      return Forward(target.value);
    }

    /** The read loop of handleWebSocket, until a message is refused or the input ends: every
        message before that point went out as it came in, none after it was looked at. */
    method ReadLoop(parse: Parser, id: nat, s: Session, incoming: seq<Incoming>, reachable: set<nat>)
      returns (sent: seq<Delivery>, refusal: Option<CloseCode>)
      ensures |sent| <= |incoming|
      ensures forall i :: 0 <= i < |sent| ==>
                && incoming[i].TextMessage? && sent[i].from == id && sent[i].data == incoming[i].data && sent[i].to in reachable
                && DecideIncoming(parse, State(), id, s, incoming[i]) == Forward(sent[i].to)
      ensures refusal.None? <==> |sent| == |incoming|
      ensures refusal.Some? ==>
                match DecideIncoming(parse, State(), id, s, incoming[|sent|])
                case Refuse(code) => refusal == Some(code)
                case Forward(target) => target !in reachable && refusal == Some(RouteMissing)
    {
      sent, refusal := [], None;
      while |sent| < |incoming|
        invariant |sent| <= |incoming|
        invariant forall i :: 0 <= i < |sent| ==>
                    && incoming[i].TextMessage? && sent[i].from == id && sent[i].data == incoming[i].data && sent[i].to in reachable
                    && DecideIncoming(parse, State(), id, s, incoming[i]) == Forward(sent[i].to)
        decreases |incoming| - |sent|
      {
        var message := incoming[|sent|];
        if message.BinaryMessage? {
          return sent, Some(InvalidFrame);
        }
        var frame := parse(message.data);
        if frame.None? {
          return sent, Some(InvalidFrame);
        }
        var code := SenderError(s, frame.value);
        if code.Some? {
          return sent, code;
        }
        var routing := RouteFrame(id, s.role, frame.value, reachable);
        if routing.Refuse? {
          return sent, Some(routing.code);
        }
        sent := sent + [Delivery(id, routing.target, message.data)];
      }
    }

    /** beginShutdown: every session that is current, each once. */
    method BeginShutdown() returns (active: seq<nat>)
      modifies this
      ensures var change := Shutdown(old(State()));
              multiset(active) == change.closed && State() == change.routes
    {
      active := [];
      if shuttingDown {
        return;
      }
      shuttingDown := true;
      var fromHosts := Collect(hosts);
      var fromDevices := Collect(devices);
      var unique := fromHosts + fromDevices;
      hosts, devices := map[], map[];
      active := ListOf(unique);
    }
  }

  /** The first two loops of beginShutdown: the sessions in a map. */
  method Collect(m: map<string, nat>) returns (unique: set<nat>)
    ensures unique == m.Values
  {
    unique := {};
    var rest := m.Keys;
    while rest != {}
      invariant rest <= m.Keys
      invariant forall k :: k in m.Keys - rest ==> m[k] in unique
      invariant unique <= m.Values
      decreases rest
    {
      var k :| k in rest;
      unique := unique + {m[k]};
      rest := rest - {k};
    }
  }

  /** The last loop of beginShutdown: a set as a list. */
  method ListOf(unique: set<nat>) returns (active: seq<nat>)
    ensures multiset(active) == multiset(unique)
  {
    active := [];
    var rest := unique;
    while rest != {}
      invariant rest <= unique && multiset(active) == multiset(unique - rest)
      decreases rest
    {
      var item :| item in rest;
      assert unique - (rest - {item}) == (unique - rest) + {item};
      active := active + [item];
      rest := rest - {item};
    }
    assert unique - rest == unique;
  }
}

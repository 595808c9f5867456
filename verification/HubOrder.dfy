/** Who comes first on a route, and who must leave: the hub's maps and close lists, seen from
    the connections. */
module HubOrder {
  import opened Text
  import opened Tables
  import opened Pairing
  import opened Hub
  import opened HubRuns
  import opened HubSafety
  import opened HubLogs
  import opened HubTheorems
  import RouteKeys

  /** The connection that holds a role of a route, if one does. */
  function HostAt(w: World, key: string): Option<nat> {
    if key in w.routes.hosts then Some(w.routes.hosts[key]) else None
  }

  function DeviceAt(w: World, key: string): Option<nat> {
    if key in w.routes.devices then Some(w.routes.devices[key]) else None
  }

  /** The holder, if there was one, was put on a close list between the two states. */
  predicate Closed(w: World, n: World, holder: Option<nat>) {
    holder.Some? ==> n.evicted[holder.value] == w.evicted[holder.value] + 1
  }

  /** A host that begins takes its route alone: no device is left on it, and whoever held
      either role is closed. */
  predicate HostTakes(w: World, n: World, id: nat, key: string) {
    && HostAt(n, key) == Some(id) && DeviceAt(n, key) == None
    && Closed(w, n, HostAt(w, key)) && Closed(w, n, DeviceAt(w, key))
  }

  /** A device that begins takes its own role only: the host stays, the former device is closed. */
  predicate DeviceTakes(w: World, n: World, id: nat, key: string) {
    && DeviceAt(n, key) == Some(id) && HostAt(n, key) == HostAt(w, key)
    && Closed(w, n, DeviceAt(w, key)) && (HostAt(w, key).Some? ==> n.evicted[HostAt(w, key).value] == w.evicted[HostAt(w, key).value])
  }

  /** Nothing happens on any other route. */
  ghost predicate OthersStay(w: World, n: World, key: string) {
    forall k :: k != key ==> HostAt(n, k) == HostAt(w, k) && DeviceAt(n, k) == DeviceAt(w, k)
  }

  lemma HolderOnce(w: World, key: string)
    requires RoutesOk(w.routes, w.conns)
    ensures HostAt(w, key).Some? && DeviceAt(w, key).Some? ==> HostAt(w, key) != DeviceAt(w, key)
    ensures HostAt(w, key).Some? ==> HostAt(w, key).value in w.conns
    ensures DeviceAt(w, key).Some? ==> DeviceAt(w, key).value in w.conns
  {
    assert key in w.routes.hosts ==> HolderOk(w.conns, w.routes.hosts[key], key, HostRole);
    assert key in w.routes.devices ==> HolderOk(w.conns, w.routes.devices[key], key, DeviceRole);
  }

  lemma HostBegins(w: World, id: nat, key: string)
    requires Placed(w) && id in w.waiting && w.waiting[id].session.role == HostRole && KeyOf(w.waiting[id].session) == key
    requires Add(w.db, w.routes, id, w.waiting[id].session).Some?
    ensures HostTakes(w, BeginConn(w, id), id, key) && OthersStay(w, BeginConn(w, id), key)
  {
    HolderOnce(w, key);
  }

  lemma DeviceBegins(w: World, id: nat, key: string)
    requires Placed(w) && id in w.waiting && w.waiting[id].session.role == DeviceRole && KeyOf(w.waiting[id].session) == key
    requires Add(w.db, w.routes, id, w.waiting[id].session).Some?
    ensures DeviceTakes(w, BeginConn(w, id), id, key) && OthersStay(w, BeginConn(w, id), key)
  {
    HolderOnce(w, key);
  }

  /** In every run: what the beginning of a connection does to its route and to the others. */
  lemma BeginTakes(digest: Digest, parse: Parser, worlds: seq<World>, moves: seq<Move>, i: nat, id: nat)
    requires IsRun(digest, parse, worlds, moves) && i < |moves| && id in worlds[i + 1].conns && id !in worlds[i].conns
    ensures var s := worlds[i + 1].conns[id].session;
            && moves[i] == Begin(id) && OthersStay(worlds[i], worlds[i + 1], KeyOf(s))
            && (s.role == HostRole ==> HostTakes(worlds[i], worlds[i + 1], id, KeyOf(s)))
            && (s.role == DeviceRole ==> DeviceTakes(worlds[i], worlds[i + 1], id, KeyOf(s)))
  {
    RunIsSafe(digest, parse, worlds, moves, i);
    assert IsStep(digest, parse, worlds, moves, i);
    BegunIsLive(digest, parse, worlds[i], moves[i], id);
    var w := worlds[i];
    assert worlds[i + 1] == BeginConn(w, id);
    if w.waiting[id].session.role == HostRole {
      HostBegins(w, id, KeyOf(w.waiting[id].session));
    } else {
      DeviceBegins(w, id, KeyOf(w.waiting[id].session));
    }
  }

  // ----- the device comes after the host -----

  /** A holder that had begun already held its place before. */
  lemma HeldBefore(digest: Digest, parse: Parser, worlds: seq<World>, moves: seq<Move>, i: nat, id: nat)
    requires IsRun(digest, parse, worlds, moves) && i < |moves| && id in worlds[i].conns && id in worlds[i + 1].conns
    requires Current(worlds[i + 1].routes, id, worlds[i + 1].conns[id].session)
    ensures worlds[i].conns[id].session == worlds[i + 1].conns[id].session
    ensures Current(worlds[i].routes, id, worlds[i].conns[id].session)
  {
    StepGrows(digest, parse, worlds, moves, i, id);
    if !Current(worlds[i].routes, id, worlds[i].conns[id].session) {
      NeverCurrentAgain(digest, parse, worlds, moves, i, i + 1, id);
    }
  }

  lemma HoldersAreCurrent(digest: Digest, parse: Parser, worlds: seq<World>, moves: seq<Move>, i: nat, key: string)
    requires IsRun(digest, parse, worlds, moves) && i < |worlds|
    ensures var w := worlds[i];
            && (HostAt(w, key).Some? ==>
                  var h := HostAt(w, key).value;
                  h in w.conns && w.conns[h].session.role == HostRole && KeyOf(w.conns[h].session) == key
                  && Current(w.routes, h, w.conns[h].session))
            && (DeviceAt(w, key).Some? ==>
                  var d := DeviceAt(w, key).value;
                  d in w.conns && w.conns[d].session.role == DeviceRole && KeyOf(w.conns[d].session) == key
                  && Current(w.routes, d, w.conns[d].session))
  {
    RunIsSafe(digest, parse, worlds, moves, i);
    var w := worlds[i];
    assert key in w.routes.hosts ==> HolderOk(w.conns, w.routes.hosts[key], key, HostRole);
    assert key in w.routes.devices ==> HolderOk(w.conns, w.routes.devices[key], key, DeviceRole);
  }

  /** Whenever both roles of a route are held, the device's connection began after the host's:
      at some earlier point the host had begun and the device had not. */
  lemma {:induction false} DeviceAfterHost(
    digest: Digest, parse: Parser, worlds: seq<World>, moves: seq<Move>, j: nat, key: string, h: nat, d: nat) returns (i: nat)
    requires IsRun(digest, parse, worlds, moves) && j < |worlds|
    requires HostAt(worlds[j], key) == Some(h) && DeviceAt(worlds[j], key) == Some(d)
    ensures i <= j && h in worlds[i].conns && d !in worlds[i].conns
  {
    assert j > 0;
    HoldersAreCurrent(digest, parse, worlds, moves, j, key);
    if h !in worlds[j - 1].conns {
      BeginTakes(digest, parse, worlds, moves, j - 1, h);
    }
    if d !in worlds[j - 1].conns {
      i := j - 1;
    } else {
      HeldBefore(digest, parse, worlds, moves, j - 1, h);
      HeldBefore(digest, parse, worlds, moves, j - 1, d);
      i := DeviceAfterHost(digest, parse, worlds, moves, j - 1, key, h, d);
    }
  }

  /** So every forwarding decision is between a host and a device that began after it: a
      device never talks to a host that came later than itself. */
  lemma DecidedForLaterDevice(digest: Digest, parse: Parser, worlds: seq<World>, moves: seq<Move>, j: nat, x: Delivery)
    returns (host: nat, device: nat, i: nat)
    requires IsRun(digest, parse, worlds, moves) && j < |moves| && worlds[j + 1].decisions == worlds[j].decisions + [x]
    ensures (host == x.from && device == x.to) || (host == x.to && device == x.from)
    ensures host in worlds[j].conns && device in worlds[j].conns
    ensures worlds[j].conns[host].session.role == HostRole && worlds[j].conns[device].session.role == DeviceRole
    ensures i <= j && host in worlds[i].conns && device !in worlds[i].conns
  {
    DecidedForPeer(digest, parse, worlds, moves, j);
    assert x == worlds[j + 1].decisions[|worlds[j].decisions|];
    var s := worlds[j].conns[x.from].session;
    if s.role == HostRole {
      host, device := x.from, x.to;
    } else {
      host, device := x.to, x.from;
    }
    i := DeviceAfterHost(digest, parse, worlds, moves, j, KeyOf(s), host, device);
  }

  // ----- leaving -----

  /** Both roles of the route are free and their holders, but for one, are closed. */
  predicate RouteFreed(w: World, n: World, key: string, but: Option<nat>) {
    && HostAt(n, key) == None && DeviceAt(n, key) == None
    && (HostAt(w, key) != but ==> Closed(w, n, HostAt(w, key))) && (DeviceAt(w, key) != but ==> Closed(w, n, DeviceAt(w, key)))
  }

  lemma CurrentDeparts(w: World, id: nat, key: string)
    requires Placed(w) && MayDepart(w, id) && KeyOf(w.conns[id].session) == key && Current(w.routes, id, w.conns[id].session)
    ensures RouteFreed(w, DepartConn(w, id), key, Some(id)) && OthersStay(w, DepartConn(w, id), key)
    ensures DepartConn(w, id).evicted[id] == w.evicted[id]
  {
    HolderOnce(w, key);
  }

  lemma StrangerDeparts(w: World, id: nat)
    requires MayDepart(w, id) && !Current(w.routes, id, w.conns[id].session)
    ensures DepartConn(w, id).routes == w.routes && DepartConn(w, id).evicted == w.evicted
  {
  }

  /** In every run: a handler that leaves while current frees its route and has its peer
      closed, and one that was displaced changes nothing. */
  lemma DepartFrees(digest: Digest, parse: Parser, worlds: seq<World>, moves: seq<Move>, i: nat, id: nat)
    requires IsRun(digest, parse, worlds, moves) && i < |moves| && moves[i] == Depart(id) && MayDepart(worlds[i], id)
    ensures var s := worlds[i].conns[id].session;
            if Current(worlds[i].routes, id, s) then
              RouteFreed(worlds[i], worlds[i + 1], KeyOf(s), Some(id)) && OthersStay(worlds[i], worlds[i + 1], KeyOf(s))
            else
              worlds[i + 1].routes == worlds[i].routes && worlds[i + 1].evicted == worlds[i].evicted
  {
    RunIsSafe(digest, parse, worlds, moves, i);
    assert IsStep(digest, parse, worlds, moves, i);
    var w := worlds[i];
    assert worlds[i + 1] == DepartConn(w, id);
    if Current(w.routes, id, w.conns[id].session) {
      CurrentDeparts(w, id, KeyOf(w.conns[id].session));
    } else {
      StrangerDeparts(w, id);
    }
  }

  lemma EvictClosed(r: Routes, key: string)
    requires key in r.hosts && key in r.devices ==> r.hosts[key] != r.devices[key]
    ensures key in r.hosts ==> Evict(r, key).closed[r.hosts[key]] == 1
    ensures key in r.devices ==> Evict(r, key).closed[r.devices[key]] == 1
  {
  }

  lemma EvictLeaves(w: World, n: World, key: string)
    requires n.routes == Evict(w.routes, key).routes
    ensures HostAt(n, key) == None && DeviceAt(n, key) == None && OthersStay(w, n, key)
  {
  }

  lemma EvictFrees(w: World, n: World, key: string)
    requires Placed(w) && n.routes == Evict(w.routes, key).routes && n.evicted == w.evicted + Evict(w.routes, key).closed
    ensures RouteFreed(w, n, key, None) && OthersStay(w, n, key)
  {
    HolderOnce(w, key);
    EvictClosed(w.routes, key);
    EvictLeaves(w, n, key);
  }

  lemma RevokeMarks(digest: Digest, db: Tables, k: DeviceKey)
    ensures Execute(digest, db, RevokeAction(k), 0) ==
            if k in db.devices && !db.devices[k].revoked
            then Step(db.(devices := db.devices[k := db.devices[k].(revoked := true)]), Done)
            else Step(db, Failed(DeviceNotFound))
  {
  }

  lemma RevokeFreesRoute(digest: Digest, w: World, k: DeviceKey, key: string)
    requires Placed(w) && key == RouteKeys.RouteKey(k.tenant, k.host, k.device)
    ensures var n := RevokeRoute(digest, w, k);
            if DeviceLive(w.db, k) then
              && n.db == w.db.(devices := w.db.devices[k := w.db.devices[k].(revoked := true)])
              && RouteFreed(w, n, key, None) && OthersStay(w, n, key)
            else n == w
  {
    RevokeMarks(digest, w.db, k);
    if DeviceLive(w.db, k) {
      EvictFrees(w, RevokeRoute(digest, w, k), key);
    }
  }

  /** In every run: revoking a live device marks its row and frees its route at once, its
      holders closed; revoking any other changes nothing. */
  lemma RevokeFrees(digest: Digest, parse: Parser, worlds: seq<World>, moves: seq<Move>, i: nat, k: DeviceKey)
    requires IsRun(digest, parse, worlds, moves) && i < |moves| && moves[i] == RevokeDevice(k)
    ensures var key := RouteKeys.RouteKey(k.tenant, k.host, k.device);
            if k in worlds[i].db.devices && !worlds[i].db.devices[k].revoked then
              && k in worlds[i + 1].db.devices && worlds[i + 1].db.devices[k].revoked
              && RouteFreed(worlds[i], worlds[i + 1], key, None) && OthersStay(worlds[i], worlds[i + 1], key)
            else worlds[i + 1] == worlds[i]
  {
    RunIsSafe(digest, parse, worlds, moves, i);
    assert IsStep(digest, parse, worlds, moves, i);
    RevokeFreesRoute(digest, worlds[i], k, RouteKeys.RouteKey(k.tenant, k.host, k.device));
  }

  lemma StopFreesAll(w: World, key: string)
    requires Placed(w) && !w.routes.shuttingDown
    ensures RouteFreed(w, StopRoutes(w), key, None)
  {
    HolderOnce(w, key);
    assert HostAt(w, key).Some? ==> HostAt(w, key).value in Holders(w.routes);
    assert DeviceAt(w, key).Some? ==> DeviceAt(w, key).value in Holders(w.routes);
  }

  /** In every run: the first stop frees every route and closes every holder. */
  lemma StopFrees(digest: Digest, parse: Parser, worlds: seq<World>, moves: seq<Move>, i: nat, key: string)
    requires IsRun(digest, parse, worlds, moves) && i < |moves| && moves[i] == StopServer && !worlds[i].routes.shuttingDown
    ensures worlds[i + 1].routes.shuttingDown && RouteFreed(worlds[i], worlds[i + 1], key, None)
  {
    RunIsSafe(digest, parse, worlds, moves, i);
    assert IsStep(digest, parse, worlds, moves, i);
    StopFreesAll(worlds[i], key);
  }
}

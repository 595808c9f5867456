/** What every run of the hub keeps, and the theorems that follow: where each connection
    is, who may be routed to, and how a shutdown drains. */
module HubSafety {
  import opened Text
  import opened Tables
  import opened Pairing
  import opened DeviceHistory
  import opened RouteKeys
  import opened Hub
  import opened HubRuns

  // ----- one place per connection -----

  /** The entries that remain are entries there were. */
  ghost predicate Shrinks(r: Routes, n: Routes) {
    && (forall k :: k in n.hosts ==> k in r.hosts && n.hosts[k] == r.hosts[k])
    && (forall k :: k in n.devices ==> k in r.devices && n.devices[k] == r.devices[k])
  }

  /** A connection moves from registered to a close list, or stays where it is. */
  predicate Accounted(w: World, n: World, id: nat)
    requires id in w.conns
  {
    && id in n.conns && n.conns[id].session == w.conns[id].session && n.conns[id].removed == w.conns[id].removed
    && var s := w.conns[id].session;
       Held(w.routes, id, KeyOf(s), s.role) + w.evicted[id] == Held(n.routes, id, KeyOf(s), s.role) + n.evicted[id]
  }

  lemma AccountedStays(w: World, n: World, id: nat)
    requires id in w.conns && OnePlace(w.routes, w.evicted, id, w.conns[id]) && Accounted(w, n, id)
    ensures OnePlace(n.routes, n.evicted, id, n.conns[id])
  {
  }

  /** Only the new entry is new, and only holders are closed. */
  lemma AddedEntries(r: Routes, id: nat, key: string, role: Role)
    ensures var change := AddedAt(r, id, key, role);
            && Holds(change.routes, id, key, role)
            && (forall k :: k in change.routes.hosts ==> (k == key && role == HostRole && change.routes.hosts[k] == id)
                                                         || (k in r.hosts && change.routes.hosts[k] == r.hosts[k]))
            && (forall k :: k in change.routes.devices ==> (k == key && role == DeviceRole && change.routes.devices[k] == id)
                                                           || (k in r.devices && change.routes.devices[k] == r.devices[k]))
            && (forall j :: j in change.closed ==> j in Holders(r))
  {
    assert key in r.hosts ==> r.hosts[key] in r.hosts.Values;
    assert key in r.devices ==> r.devices[key] in r.devices.Values;
  }

  lemma HoldersAreConns(r: Routes, conns: map<nat, Conn>)
    requires RoutesOk(r, conns)
    ensures forall j :: j in Holders(r) ==> j in conns
  {
  }

  lemma BeginRoutes(w: World, id: nat)
    requires RoutesOk(w.routes, w.conns) && id !in w.conns && id in w.waiting
    ensures RoutesOk(BeginConn(w, id).routes, BeginConn(w, id).conns)
  {
    var n, s := BeginConn(w, id), w.waiting[id].session;
    AddedEntries(w.routes, id, KeyOf(s), s.role);
    forall k | k in n.routes.hosts ensures HolderOk(n.conns, n.routes.hosts[k], k, HostRole) {
      assert k in w.routes.hosts ==> HolderOk(w.conns, w.routes.hosts[k], k, HostRole);
    }
    forall k | k in n.routes.devices ensures HolderOk(n.conns, n.routes.devices[k], k, DeviceRole) {
      assert k in w.routes.devices ==> HolderOk(w.conns, w.routes.devices[k], k, DeviceRole);
    }
  }

  lemma BeginPlaceOfNew(w: World, id: nat)
    requires RoutesOk(w.routes, w.conns) && PlacesOk(w) && id !in w.conns && id in w.waiting
    requires Add(w.db, w.routes, id, w.waiting[id].session).Some?
    ensures var n := BeginConn(w, id); OnePlace(n.routes, n.evicted, id, n.conns[id])
  {
    var s := w.waiting[id].session;
    AddedEntries(w.routes, id, KeyOf(s), s.role);
    HoldersAreConns(w.routes, w.conns);
  }

  lemma BeginPlaceOfOther(w: World, id: nat, j: nat)
    requires RoutesOk(w.routes, w.conns) && PlacesOk(w) && id !in w.conns && id in w.waiting && j in w.conns
    ensures j in BeginConn(w, id).conns && Accounted(w, BeginConn(w, id), j)
  {
    var s, t := w.waiting[id].session, w.conns[j].session;
    RegisteredAtOwnPlace(w.routes, w.conns, j);
    AddedReleases(w.routes, id, KeyOf(s), s.role, j, KeyOf(t), t.role);
  }

  lemma BeginPlaces(w: World, id: nat)
    requires RoutesOk(w.routes, w.conns) && PlacesOk(w) && id !in w.conns && id in w.waiting
    ensures PlacesOk(BeginConn(w, id))
  {
    var n, s := BeginConn(w, id), w.waiting[id].session;
    if Add(w.db, w.routes, id, s).Some? {
      forall j | j in n.conns ensures OnePlace(n.routes, n.evicted, j, n.conns[j]) {
        if j == id {
          BeginPlaceOfNew(w, id);
        } else {
          BeginPlaceOfOther(w, id, j);
          AccountedStays(w, n, j);
        }
      }
      AddedEntries(w.routes, id, KeyOf(s), s.role);
      HoldersAreConns(w.routes, w.conns);
    }
  }

  lemma DepartRoutes(w: World, id: nat)
    requires RoutesOk(w.routes, w.conns) && id in w.conns
    ensures RoutesOk(DepartConn(w, id).routes, DepartConn(w, id).conns)
  {
    RegisteredAtOwnPlace(w.routes, w.conns, id);
    var n := DepartConn(w, id);
    assert Shrinks(w.routes, n.routes);
    RemoveReleasesSelf(w.routes, id, KeyOf(w.conns[id].session), w.conns[id].session.role);
    assert forall k :: k in n.routes.hosts ==> n.routes.hosts[k] != id;
  }

  lemma DepartPlaces(w: World, id: nat)
    requires RoutesOk(w.routes, w.conns) && PlacesOk(w) && id in w.conns && !w.conns[id].removed
    ensures PlacesOk(DepartConn(w, id))
  {
    var n := DepartConn(w, id);
    var s := w.conns[id].session;
    forall j | j in n.conns ensures OnePlace(n.routes, n.evicted, j, n.conns[j]) {
      var t := w.conns[j].session;
      RegisteredAtOwnPlace(w.routes, w.conns, j);
      if j == id {
        RemoveReleasesSelf(w.routes, id, KeyOf(s), s.role);
      } else {
        RemoveReleases(w.routes, id, KeyOf(s), s.role, j, KeyOf(t), t.role);
        AccountedStays(w, n, j);
      }
    }
  }

  lemma EvictPlaces(w: World, n: World, key: string)
    requires RoutesOk(w.routes, w.conns) && PlacesOk(w) && n.conns == w.conns
    requires n.routes == Evict(w.routes, key).routes && n.evicted == w.evicted + Evict(w.routes, key).closed
    ensures RoutesOk(n.routes, n.conns) && PlacesOk(n)
  {
    forall j | j in n.conns ensures OnePlace(n.routes, n.evicted, j, n.conns[j]) {
      var t := w.conns[j].session;
      RegisteredAtOwnPlace(w.routes, w.conns, j);
      EvictReleases(w.routes, key, j, KeyOf(t), t.role);
      AccountedStays(w, n, j);
    }
  }

  lemma StopPlaces(w: World)
    requires RoutesOk(w.routes, w.conns) && PlacesOk(w)
    ensures RoutesOk(StopRoutes(w).routes, StopRoutes(w).conns) && PlacesOk(StopRoutes(w))
  {
    var n := StopRoutes(w);
    HoldersAreConns(w.routes, w.conns);
    forall j | j in n.conns ensures OnePlace(n.routes, n.evicted, j, n.conns[j]) {
      var t := w.conns[j].session;
      RegisteredAtOwnPlace(w.routes, w.conns, j);
      ShutdownReleases(w.routes, j, KeyOf(t), t.role);
      AccountedStays(w, n, j);
    }
  }

  lemma SameHolders(r: Routes, n: Routes, id: nat, key: string, role: Role)
    requires n.hosts == r.hosts && n.devices == r.devices
    ensures Held(n, id, key, role) == Held(r, id, key, role)
  {
  }

  /** A change of stage alone, away from registration. */
  lemma RestagePlaces(w: World, n: World, id: nat, stage: Stage)
    requires RoutesOk(w.routes, w.conns) && PlacesOk(w) && id in w.conns
    requires n.conns == w.conns[id := w.conns[id].(stage := stage)] && n.evicted == w.evicted
    requires n.routes.hosts == w.routes.hosts && n.routes.devices == w.routes.devices
    requires Registrable(w.conns[id].stage) ==> Registrable(stage)
    ensures RoutesOk(n.routes, n.conns) && PlacesOk(n)
  {
    forall k | k in n.routes.hosts ensures HolderOk(n.conns, n.routes.hosts[k], k, HostRole) {
      assert HolderOk(w.conns, w.routes.hosts[k], k, HostRole);
    }
    forall k | k in n.routes.devices ensures HolderOk(n.conns, n.routes.devices[k], k, DeviceRole) {
      assert HolderOk(w.conns, w.routes.devices[k], k, DeviceRole);
    }
    forall j | j in n.conns ensures OnePlace(n.routes, n.evicted, j, n.conns[j]) {
      assert OnePlace(w.routes, w.evicted, j, w.conns[j]);
      SameHolders(w.routes, n.routes, j, KeyOf(w.conns[j].session), w.conns[j].session.role);
    }
  }

  /** A connection that removed itself has left. */
  ghost predicate RemovedOk(w: World) {
    forall id :: id in w.conns && Registrable(w.conns[id].stage) ==> !w.conns[id].removed
  }

  /** A request that waits has not begun. */
  ghost predicate WaitingOk(w: World) {
    forall id :: id in w.waiting ==> id !in w.conns
  }

  ghost predicate Placed(w: World) {
    RoutesOk(w.routes, w.conns) && PlacesOk(w) && RemovedOk(w) && WaitingOk(w)
  }

  lemma BeginPlaced(w: World, id: nat)
    requires Placed(w) && id in w.waiting
    ensures Placed(BeginConn(w, id))
  {
    BeginRoutes(w, id);
    BeginPlaces(w, id);
  }

  lemma RestagedPlaced(w: World, n: World, id: nat, stage: Stage)
    requires Placed(w) && id in w.conns && (Registrable(w.conns[id].stage) <==> Registrable(stage))
    requires n.conns == Restaged(w, id, stage).conns && n.evicted == w.evicted && n.waiting == w.waiting
    requires n.routes.hosts == w.routes.hosts && n.routes.devices == w.routes.devices
    ensures Placed(n)
  {
    RestagePlaces(w, n, id, stage);
  }

  lemma DecidePlaced(parse: Parser, w: World, id: nat, data: seq<byte>)
    requires Placed(w) && InLoop(w, id)
    ensures Placed(DecideConn(parse, w, id, data))
  {
    var n := DecideConn(parse, w, id, data);
    RestagedPlaced(w, n, id, n.conns[id].stage);
  }

  lemma WritePlaced(w: World, id: nat, written: bool)
    requires Placed(w) && InWrite(w, id)
    ensures Placed(WriteConn(w, id, written))
  {
    var n := WriteConn(w, id, written);
    RestagedPlaced(w, n, id, n.conns[id].stage);
  }

  lemma DepartPlaced(w: World, id: nat)
    requires Placed(w) && MayDepart(w, id)
    ensures Placed(DepartConn(w, id))
  {
    DepartRoutes(w, id);
    DepartPlaces(w, id);
  }

  lemma FinishPlaced(w: World, id: nat)
    requires Placed(w) && id in w.conns && w.conns[id].stage == Left
    ensures Placed(FinishConn(w, id))
  {
    RestagedPlaced(w, FinishConn(w, id), id, Finished);
  }

  lemma RevokePlaced(digest: Digest, w: World, k: DeviceKey)
    requires Placed(w)
    ensures Placed(RevokeRoute(digest, w, k))
  {
    var n := RevokeRoute(digest, w, k);
    if n != w {
      EvictPlaces(w, n, RouteKey(k.tenant, k.host, k.device));
    }
  }

  lemma NextPlaced(digest: Digest, parse: Parser, w: World, m: Move)
    requires MoveOk(w, m) && Placed(w)
    ensures Placed(Next(digest, parse, w, m))
  {
    match m {
      case Admit(_, _, _, _) =>
      case Begin(id) =>
        if id in w.waiting {
          BeginPlaced(w, id);
        }
      case Decide(id, data) =>
        if InLoop(w, id) {
          DecidePlaced(parse, w, id, data);
        }
      case Write(id, written) =>
        if InWrite(w, id) {
          WritePlaced(w, id, written);
        }
      case Depart(id) =>
        if MayDepart(w, id) {
          DepartPlaced(w, id);
        }
      case Finish(id) =>
        if id in w.conns && w.conns[id].stage == Left {
          FinishPlaced(w, id);
        }
      case RevokeDevice(k) => RevokePlaced(digest, w, k);
      case Pair(_, _) =>
      case AuthStep(_) =>
      case StopServer => StopPlaces(w);
    }
  }

  // ----- what is never undone -----

  /** A connection keeps its session; self-removal and close lists are never taken back. */
  predicate Grows(w: World, n: World, id: nat)
    requires id in w.conns
  {
    && id in n.conns && n.conns[id].session == w.conns[id].session && n.conns[id].ticket == w.conns[id].ticket
    && (w.conns[id].removed ==> n.conns[id].removed) && w.evicted[id] <= n.evicted[id]
  }

  lemma NextGrows(digest: Digest, parse: Parser, w: World, m: Move, id: nat)
    requires MoveOk(w, m) && RemovedOk(w) && WaitingOk(w) && id in w.conns
    ensures Grows(w, Next(digest, parse, w, m), id)
  {
    match m {
      case Begin(_) =>
      case Decide(_, _) =>
      case Write(_, _) =>
      case Depart(_) =>
      case Finish(_) =>
      case RevokeDevice(_) =>
      case StopServer =>
      case _ => assert Next(digest, parse, w, m).conns == w.conns && Next(digest, parse, w, m).evicted == w.evicted;
    }
  }

  /** So a connection that is no longer current does not become current again. */
  lemma OutStaysOut(w: World, n: World, id: nat)
    requires id in w.conns && OnePlace(w.routes, w.evicted, id, w.conns[id]) && !Current(w.routes, id, w.conns[id].session)
    requires Grows(w, n, id) && OnePlace(n.routes, n.evicted, id, n.conns[id])
    ensures !Current(n.routes, id, n.conns[id].session)
  {
  }

  // ----- live devices -----

  /** Only a revocation ends a device's life. */
  lemma LifeAfter(digest: Digest, db: Tables, a: Action, now: int, k: DeviceKey)
    requires DeviceLive(db, k) && a != RevokeAction(k)
    ensures DeviceLive(Execute(digest, db, a, now).db, k)
  {
    ActionHappens(digest, db, a, now);
  }

  lemma RevokeEvicts(digest: Digest, w: World, id: nat)
    requires RoutesOk(w.routes, w.conns) && id in w.conns
    ensures var s := w.conns[id].session; var n := RevokeRoute(digest, w, DeviceOfSession(s));
            n == w || !Current(n.routes, id, s)
  {
    var s := w.conns[id].session;
    RegisteredAtOwnPlace(w.routes, w.conns, id);
    EvictReleases(w.routes, KeyOf(s), id, KeyOf(s), s.role);
  }

  lemma NextLive(digest: Digest, parse: Parser, w: World, m: Move, id: nat)
    requires MoveOk(w, m) && RoutesOk(w.routes, w.conns) && id in w.conns
    requires DeviceLive(w.db, DeviceOfSession(w.conns[id].session))
    ensures var n := Next(digest, parse, w, m); var s := w.conns[id].session;
            DeviceLive(n.db, DeviceOfSession(s)) || !Current(n.routes, id, s)
  {
    var k := DeviceOfSession(w.conns[id].session);
    match m {
      case Pair(a, at) => LifeAfter(digest, w.db, a, at, k);
      case RevokeDevice(device) =>
        if device == k {
          RevokeEvicts(digest, w, id);
        } else {
          LifeAfter(digest, w.db, RevokeAction(device), 0, k);
        }
      case _ => assert Next(digest, parse, w, m).db == w.db;
    }
  }

  lemma BegunIsLive(digest: Digest, parse: Parser, w: World, m: Move, id: nat)
    requires id !in w.conns && id in Next(digest, parse, w, m).conns
    ensures var n := Next(digest, parse, w, m);
            m.Begin? && m.id == id && DeviceLive(n.db, DeviceOfSession(n.conns[id].session)) && !w.routes.shuttingDown
  {
  }

  lemma NextLiveOk(digest: Digest, parse: Parser, w: World, m: Move)
    requires MoveOk(w, m) && Placed(w) && LiveOk(w)
    ensures LiveOk(Next(digest, parse, w, m))
  {
    var n := Next(digest, parse, w, m);
    NextPlaced(digest, parse, w, m);
    forall id | id in n.conns && Current(n.routes, id, n.conns[id].session)
      ensures DeviceLive(n.db, DeviceOfSession(n.conns[id].session))
    {
      if id in w.conns {
        NextGrows(digest, parse, w, m, id);
        if Current(w.routes, id, w.conns[id].session) {
          NextLive(digest, parse, w, m, id);
        } else {
          OutStaysOut(w, n, id);
        }
      } else {
        BegunIsLive(digest, parse, w, m, id);
      }
    }
  }

  // ----- counting handlers -----

  lemma BeginCounts(w: World, id: nat)
    requires CountOk(w) && id !in w.conns && id in w.waiting
    ensures CountOk(BeginConn(w, id))
  {
    if Add(w.db, w.routes, id, w.waiting[id].session).Some? {
      assert Unfinished(BeginConn(w, id).conns) == Unfinished(w.conns) + {id};
    }
  }

  lemma FinishCounts(w: World, id: nat)
    requires CountOk(w) && id in w.conns && w.conns[id].stage == Left
    ensures CountOk(FinishConn(w, id))
  {
    assert Unfinished(FinishConn(w, id).conns) == Unfinished(w.conns) - {id};
  }

  lemma RestageCounts(conns: map<nat, Conn>, id: nat, c: Conn)
    requires id in conns && conns[id].stage != Finished && c.stage != Finished
    ensures Unfinished(conns[id := c]) == Unfinished(conns)
  {
  }

  lemma NextCounts(digest: Digest, parse: Parser, w: World, m: Move)
    requires WaitingOk(w) && CountOk(w)
    ensures CountOk(Next(digest, parse, w, m))
  {
    match m {
      case Begin(id) =>
        if id in w.waiting {
          BeginCounts(w, id);
        }
      case Decide(id, data) =>
        if InLoop(w, id) {
          RestageCounts(w.conns, id, DecideConn(parse, w, id, data).conns[id]);
        }
      case Write(id, written) =>
        if InWrite(w, id) {
          RestageCounts(w.conns, id, WriteConn(w, id, written).conns[id]);
        }
      case Depart(id) =>
        if MayDepart(w, id) {
          RestageCounts(w.conns, id, DepartConn(w, id).conns[id]);
        }
      case Finish(id) =>
        if id in w.conns && w.conns[id].stage == Left {
          FinishCounts(w, id);
        }
      case _ => assert Next(digest, parse, w, m).conns == w.conns;
    }
  }

  /** Once the server stops, nothing registers and the count only falls. */
  lemma NextShut(digest: Digest, parse: Parser, w: World, m: Move)
    requires ShutOk(w.routes)
    ensures var n := Next(digest, parse, w, m);
            && ShutOk(n.routes)
            && (w.routes.shuttingDown ==> n.routes.shuttingDown && n.routes.waitGroup <= w.routes.waitGroup)
  {
  }

  // ----- over whole runs -----

  ghost predicate Safe(w: World) {
    Placed(w) && LiveOk(w) && CountOk(w) && ShutOk(w.routes)
  }

  lemma NextIsSafe(digest: Digest, parse: Parser, w: World, m: Move)
    requires MoveOk(w, m) && Safe(w)
    ensures Safe(Next(digest, parse, w, m))
  {
    NextPlaced(digest, parse, w, m);
    NextLiveOk(digest, parse, w, m);
    NextCounts(digest, parse, w, m);
    NextShut(digest, parse, w, m);
  }

  lemma {:induction false} RunIsSafe(digest: Digest, parse: Parser, worlds: seq<World>, moves: seq<Move>, i: nat)
    requires IsRun(digest, parse, worlds, moves) && i < |worlds|
    ensures Safe(worlds[i])
  {
    if i > 0 {
      RunIsSafe(digest, parse, worlds, moves, i - 1);
      assert IsStep(digest, parse, worlds, moves, i - 1);
      NextIsSafe(digest, parse, worlds[i - 1], moves[i - 1]);
    }
  }
}

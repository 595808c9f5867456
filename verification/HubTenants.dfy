/** Where a frame can go, by name: never across tenants, and to another device only where the
    joined key cannot tell the two apart. */
module HubTenants {
  import opened Tables
  import opened Pairing
  import opened PairingSteps
  import opened RouteKeys
  import opened Hub
  import opened HubRuns
  import opened HubSafety
  import opened HubTheorems
  import opened HubTickets

  /** Tenants are named as the relay names them. */
  predicate PlainTenant(m: Move) {
    m.Pair? && m.action.TenantAction? ==> SlashFree(m.action.tenant)
  }

  ghost predicate PlainTenants(moves: seq<Move>) {
    forall i :: 0 <= i < |moves| ==> PlainTenant(moves[i])
  }

  /** Hosts belong to tenants and devices to hosts. */
  ghost predicate Rooted(db: Tables) {
    && (forall t :: t in db.tenants ==> SlashFree(t))
    && (forall k :: k in db.hosts ==> k.tenant in db.tenants)
    && (forall k :: k in db.devices ==> HostKey(k.tenant, k.host) in db.hosts)
  }

  lemma TenantsAfter(digest: Digest, db: Tables, a: Action, now: int)
    ensures var s := Execute(digest, db, a, now).db;
            && (forall t :: t in db.tenants ==> t in s.tenants)
            && (forall t :: t in s.tenants ==> t in db.tenants || (a.TenantAction? && t == a.tenant))
            && (forall k :: k in s.hosts ==> k in db.hosts || k.tenant in db.tenants)
  {
  }

  lemma ExecuteRooted(digest: Digest, db: Tables, a: Action, now: int)
    requires ActionOk(a, now) && Rooted(db) && (a.TenantAction? ==> SlashFree(a.tenant))
    ensures Rooted(Execute(digest, db, a, now).db)
  {
    TenantsAfter(digest, db, a, now);
    ExecuteMoves(digest, db, a, now);
  }

  lemma NextRooted(digest: Digest, parse: Parser, w: World, m: Move)
    requires MoveOk(w, m) && Rooted(w.db) && PlainTenant(m)
    ensures Rooted(Next(digest, parse, w, m).db)
  {
    match m {
      case Pair(a, at) => ExecuteRooted(digest, w.db, a, at);
      case RevokeDevice(k) => ExecuteRooted(digest, w.db, RevokeAction(k), 0);
      case _ => assert Next(digest, parse, w, m).db == w.db;
    }
  }

  lemma StepRooted(digest: Digest, parse: Parser, worlds: seq<World>, moves: seq<Move>, i: nat)
    requires IsRun(digest, parse, worlds, moves) && PlainTenants(moves) && i < |moves| && Rooted(worlds[i].db)
    ensures Rooted(worlds[i + 1].db)
  {
    assert IsStep(digest, parse, worlds, moves, i);
    NextRooted(digest, parse, worlds[i], moves[i]);
  }

  lemma {:induction false} RunRooted(digest: Digest, parse: Parser, worlds: seq<World>, moves: seq<Move>, i: nat)
    requires IsRun(digest, parse, worlds, moves) && PlainTenants(moves) && i < |worlds|
    ensures Rooted(worlds[i].db)
  {
    if i > 0 {
      RunRooted(digest, parse, worlds, moves, i - 1);
      StepRooted(digest, parse, worlds, moves, i - 1);
    }
  }

  lemma LiveTenant(db: Tables, k: DeviceKey)
    requires Rooted(db) && DeviceLive(db, k)
    ensures SlashFree(k.tenant)
  {
    assert HostKey(k.tenant, k.host) in db.hosts;
  }

  /** In every run of a relay that makes its own tenant ids no frame is routed from one
      tenant to another; and where no other slash cuts the sender's host and device into
      names, it goes to the sender's own device. */
  lemma NoFrameCrossesTenants(digest: Digest, parse: Parser, worlds: seq<World>, moves: seq<Move>, i: nat, d: Delivery)
    requires IsRun(digest, parse, worlds, moves) && PlainTenants(moves) && i < |moves|
    requires worlds[i + 1].decisions == worlds[i].decisions + [d]
    ensures d.from in worlds[i].conns && d.to in worlds[i].conns
    ensures var s, t := worlds[i].conns[d.from].session, worlds[i].conns[d.to].session;
            && t.tenant == s.tenant && SlashFree(s.tenant) && Tail(t.host, t.device) == Tail(s.host, s.device)
            && (Clean(s.host, s.device) ==> DeviceOfSession(t) == DeviceOfSession(s))
  {
    DecidedForPeer(digest, parse, worlds, moves, i);
    assert d == worlds[i + 1].decisions[|worlds[i].decisions|];
    var s, t := worlds[i].conns[d.from].session, worlds[i].conns[d.to].session;
    RegisteredIsLive(digest, parse, worlds, moves, i, d.from);
    RegisteredIsLive(digest, parse, worlds, moves, i, d.to);
    RunRooted(digest, parse, worlds, moves, i);
    LiveTenant(worlds[i].db, DeviceOfSession(s));
    LiveTenant(worlds[i].db, DeviceOfSession(t));
    KeyTellsTenant(s.tenant, s.host, s.device, t.tenant, t.host, t.device);
    ConnectionsAreNamed(digest, parse, worlds, moves, i, d.to);
    if Clean(s.host, s.device) {
      CleanTailIsUnique(s.host, s.device, t.host, t.device);
    }
  }
}

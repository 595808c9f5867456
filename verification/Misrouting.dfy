/** When frames can reach another device: exactly when the joined key has another reading. */
module Misrouting {
  import opened Text
  import opened Tables
  import opened Pairing
  import opened PairingRequests
  import opened RouteKeys
  import opened Scenarios
  import opened Hub
  import opened HubRuns
  import opened HubTheorems
  import opened HubTenants
  import opened HubScenarios
  import HubLogs

  /** In this run some frame of a session of the device is routed to a session of another. */
  ghost predicate MisroutesIn(worlds: seq<World>, moves: seq<Move>, k: DeviceKey) {
    exists i, d :: MisroutesAt(worlds, moves, i, d, k)
  }

  predicate MisroutesAt(worlds: seq<World>, moves: seq<Move>, i: nat, d: Delivery, k: DeviceKey) {
    && |worlds| == |moves| + 1 && i < |moves| && worlds[i + 1].decisions == worlds[i].decisions + [d]
    && d.from in worlds[i].conns && d.to in worlds[i].conns
    && DeviceOfSession(worlds[i].conns[d.from].session) == k && DeviceOfSession(worlds[i].conns[d.to].session) != k
  }

  ghost predicate CanMisroute(digest: Digest, parse: Parser, k: DeviceKey) {
    exists worlds, moves :: IsRun(digest, parse, worlds, moves) && PlainTenants(moves) && MisroutesIn(worlds, moves, k)
  }

  /** A host and a device with these names can pair, whatever else that takes. */
  ghost predicate Pairable(env: Env, t: string, h: string, d: string, c: string) {
    exists kit :: Genuine(env, kit) && NamedSo(kit, t, h, d, c)
  }

  predicate NamedSo(kit: Kit, t: string, h: string, d: string, c: string) {
    kit.header.tenant == t && kit.header.host == h && kit.header.device == d && kit.header.claim == c
  }

  ghost predicate CanPair(env: Env) {
    forall t, h, d, c :: ValidIdentifier(t) && ValidIdentifier(h) && ValidIdentifier(d) && ValidIdentifier(c) ==> Pairable(env, t, h, d, c)
  }

  lemma ClaimNames()
    ensures ValidIdentifier("1") && ValidIdentifier("2") && "1" != "2"
  {
    TrimSpaceIsTrimmed("1");
    TrimSpaceIsTrimmed("2");
    assert "1"[1..] == "" && "2"[1..] == "";
    assert Utf8("1") == Utf8Char('1') + Utf8("") && Utf8("2") == Utf8Char('2') + Utf8("");
  }

  lemma CleanNeverMisroutes(digest: Digest, parse: Parser, worlds: seq<World>, moves: seq<Move>, k: DeviceKey)
    requires IsRun(digest, parse, worlds, moves) && PlainTenants(moves) && Clean(k.host, k.device)
    ensures !MisroutesIn(worlds, moves, k)
  {
    forall i, d ensures !MisroutesAt(worlds, moves, i, d, k) {
      if MisroutesAt(worlds, moves, i, d, k) {
        NoFrameCrossesTenants(digest, parse, worlds, moves, i, d);
      }
    }
  }

  ghost predicate PlainCalls(calls: seq<Call>) {
    forall i :: 0 <= i < |calls| ==> PlainCall(calls[i])
  }

  predicate PlainCall(c: Call) {
    c.action.TenantAction? ==> SlashFree(c.action.tenant)
  }

  lemma PlainPairMoves(calls: seq<Call>)
    requires PlainCalls(calls)
    ensures PlainTenants(PairMoves(calls))
  {
    var moves := PairMoves(calls);
    forall i | 0 <= i < |moves| ensures PlainTenant(moves[i]) {
      assert PlainCall(calls[i]);
    }
  }

  lemma PlainActions(kit: Kit, tokenHash: seq<byte>)
    ensures PlainCalls(PairActions(kit, tokenHash))
  {
  }

  lemma PlainCallsConcat(a: seq<Call>, b: seq<Call>)
    requires PlainCalls(a) && PlainCalls(b)
    ensures PlainCalls(a + b)
  {
  }

  lemma PlainFirst(tenant: string)
    requires SlashFree(tenant)
    ensures PlainCalls([Call(TenantAction(tenant, true), 0)])
  {
  }

  lemma BothPlain(env: Env, kit: Kit, other: Kit)
    requires Genuine(env, kit) && Genuine(env, other) && SlashFree(kit.header.tenant)
    ensures PlainTenants(PairMoves(BothCalls(env, kit, other)))
  {
    KitHarmless(env, kit);
    PairPlans(env, other);
    PlainFirst(kit.header.tenant);
    PlainActions(kit, env.sha(kit.rawToken));
    PlainActions(other, env.sha(other.rawToken));
    PlainCallsConcat([Call(TenantAction(kit.header.tenant, true), 0)], PairActions(kit, env.sha(kit.rawToken)));
    PlainCallsConcat(KitCalls(env, kit), PairCalls(env, other));
    PlainPairMoves(BothCalls(env, kit, other));
  }

  lemma PlainConcat(a: seq<Move>, b: seq<Move>)
    requires PlainTenants(a) && PlainTenants(b)
    ensures PlainTenants(a + b)
  {
  }

  lemma PlainSessions(s: Session, t: Session, a: seq<byte>, b: seq<byte>, data: seq<byte>)
    ensures PlainTenants(SessionMoves(s, t, a, b)) && PlainTenants([Decide(1, data)]) && PlainTenants([Write(1, true)])
  {
  }

  lemma MisroutePlain(p: seq<Move>, s: Session, t: Session, a: seq<byte>, b: seq<byte>, data: seq<byte>)
    requires PlainTenants(p)
    ensures PlainTenants(p + SessionMoves(s, t, a, b) + [Decide(1, data)] + [Write(1, true)])
  {
    PlainSessions(s, t, a, b, data);
    PlainConcat(p, SessionMoves(s, t, a, b));
    PlainConcat(p + SessionMoves(s, t, a, b), [Decide(1, data)]);
    PlainConcat(p + SessionMoves(s, t, a, b) + [Decide(1, data)], [Write(1, true)]);
  }

  lemma MisroutedSomewhere(digest: Digest, parse: Parser, worlds: seq<World>, moves: seq<Move>, s: Session, t: Session, data: seq<byte>)
    requires IsRun(digest, parse, worlds, moves) && Misrouted(worlds[|moves|], s, t, data)
    ensures MisroutesIn(worlds, moves, DeviceOfSession(s))
  {
    var n := |moves|;
    var i := HubLogs.DecidedAt(digest, parse, worlds, moves, n, 0);
    DecidedForPeer(digest, parse, worlds, moves, i);
    GrowsOverRun(digest, parse, worlds, moves, i, n, 1);
    GrowsOverRun(digest, parse, worlds, moves, i, n, 2);
    assert MisroutesAt(worlds, moves, i, Delivery(1, 2, data), DeviceOfSession(s));
  }

  lemma SharedKeyCanMisroute(env: Env, parse: Parser, kit: Kit, other: Kit, a: seq<byte>, b: seq<byte>, data: seq<byte>)
    requires Genuine(env, kit) && Genuine(env, other) && Apart(kit, other) && a != b && Sends(parse, HostSession(kit), data)
    requires Tail(other.header.host, other.header.device) == Tail(kit.header.host, kit.header.device) && SlashFree(kit.header.tenant)
    ensures CanMisroute(DigestOf(env), parse, DeviceName(kit))
  {
    var moves := MisrouteMoves(env, kit, other, a, b, data);
    SharedKeyMisroutes(env, parse, kit, other, a, b, data);
    var w :| RunTo(DigestOf(env), parse, moves, w) && Misrouted(w, HostSession(kit), DeviceSession(other), data);
    var worlds :| IsRun(DigestOf(env), parse, worlds, moves) && worlds[|moves|] == w;
    MisroutedSomewhere(DigestOf(env), parse, worlds, moves, HostSession(kit), DeviceSession(other), data);
    BothPlain(env, kit, other);
    MisroutePlain(PairMoves(BothCalls(env, kit, other)), HostSession(kit), DeviceSession(other), a, b, data);
  }

  /** In the runs of a relay that makes its own tenant ids, frames of a device can be routed
      to another one if and only if another slash cuts its host and device into names. */
  lemma MisroutesExactly(env: Env, parse: Parser, k: DeviceKey, data: seq<byte>)
    requires ValidIdentifier(k.tenant) && SlashFree(k.tenant) && ValidIdentifier(k.host) && ValidIdentifier(k.device)
    requires CanPair(env) && Sends(parse, Session(k.tenant, k.host, k.device, HostRole), data)
    ensures CanMisroute(DigestOf(env), parse, k) <==> !Clean(k.host, k.device)
  {
    if Clean(k.host, k.device) {
      forall worlds, moves | IsRun(DigestOf(env), parse, worlds, moves) && PlainTenants(moves) ensures !MisroutesIn(worlds, moves, k) {
        CleanNeverMisroutes(DigestOf(env), parse, worlds, moves, k);
      }
    } else {
      var h', d' := OtherCut(k.host, k.device);
      ClaimNames();
      assert Pairable(env, k.tenant, k.host, k.device, "1") && Pairable(env, k.tenant, h', d', "2");
      var kit :| Genuine(env, kit) && NamedSo(kit, k.tenant, k.host, k.device, "1");
      var other :| Genuine(env, other) && NamedSo(other, k.tenant, h', d', "2");
      SharedKeyCanMisroute(env, parse, kit, other, [0], [1], data);
    }
  }

  /** The shortest such pair of one tenant: host "h/x" with device "d", host "h" with device "x/d". */
  lemma SmallestDoubles()
    ensures Tail("h/x", "d") == Tail("h", "x/d") && !Clean("h/x", "d") && !Clean("h", "x/d")
  {
    var h, d := "h/x", "d";
    assert h[1] == '/' && h[2..] == "x";
    assert Tail("x", "d") == "x/d";
    FitsShort("x/d");
    assert "x/d"[1] == '/' && "x/d"[..1] == "x";
    assert Tail("h", "x") == "h/x";
    FitsShort("h/x");
    assert Tail("h/x", "d") == "h/x/d" == Tail("h", "x/d");
  }

  lemma FitsShort(s: string)
    requires |s| <= 3
    ensures Fits(s)
  {
  }
}

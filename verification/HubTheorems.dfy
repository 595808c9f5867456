/** What holds of the hub in every run. */
module HubTheorems {
  import opened Text
  import opened Tables
  import opened Pairing
  import opened DeviceHistory
  import opened Hub
  import opened HubRuns
  import opened HubSafety
  import opened HubLogs
  import Frames

  // ----- where a connection is -----

  /** Every begun connection is registered in the map of its role at its own key, or has
      removed itself, or is on exactly one close list: one of the three, and nowhere else. */
  lemma OnePlaceEach(digest: Digest, parse: Parser, worlds: seq<World>, moves: seq<Move>, i: nat, id: nat)
    requires IsRun(digest, parse, worlds, moves) && i < |worlds| && id in worlds[i].conns
    ensures var w := worlds[i]; var c := w.conns[id];
            && OnlyAt(w.routes, id, KeyOf(c.session), c.session.role)
            && (if Current(w.routes, id, c.session) then !c.removed && w.evicted[id] == 0
                else if c.removed then w.evicted[id] == 0
                else w.evicted[id] == 1)
  {
    RunIsSafe(digest, parse, worlds, moves, i);
    RegisteredAtOwnPlace(worlds[i].routes, worlds[i].conns, id);
    assert OnePlace(worlds[i].routes, worlds[i].evicted, id, worlds[i].conns[id]);
  }

  lemma StepGrows(digest: Digest, parse: Parser, worlds: seq<World>, moves: seq<Move>, i: nat, id: nat)
    requires IsRun(digest, parse, worlds, moves) && i < |moves| && id in worlds[i].conns
    ensures Grows(worlds[i], worlds[i + 1], id)
  {
    RunIsSafe(digest, parse, worlds, moves, i);
    assert IsStep(digest, parse, worlds, moves, i);
    NextGrows(digest, parse, worlds[i], moves[i], id);
  }

  lemma {:induction false} GrowsOverRun(digest: Digest, parse: Parser, worlds: seq<World>, moves: seq<Move>, i: nat, j: nat, id: nat)
    requires IsRun(digest, parse, worlds, moves) && i <= j < |worlds| && id in worlds[i].conns
    ensures Grows(worlds[i], worlds[j], id)
  {
    if i < j {
      GrowsOverRun(digest, parse, worlds, moves, i, j - 1, id);
      StepGrows(digest, parse, worlds, moves, j - 1, id);
    }
  }

  /** A connection that began and is no longer current never becomes current again. */
  lemma NeverCurrentAgain(digest: Digest, parse: Parser, worlds: seq<World>, moves: seq<Move>, i: nat, j: nat, id: nat)
    requires IsRun(digest, parse, worlds, moves) && i <= j < |worlds| && id in worlds[i].conns
    requires !Current(worlds[i].routes, id, worlds[i].conns[id].session)
    ensures id in worlds[j].conns && !Current(worlds[j].routes, id, worlds[j].conns[id].session)
  {
    GrowsOverRun(digest, parse, worlds, moves, i, j, id);
    RunIsSafe(digest, parse, worlds, moves, i);
    RunIsSafe(digest, parse, worlds, moves, j);
    OutStaysOut(worlds[i], worlds[j], id);
  }

  // ----- shutdown -----

  lemma NoNewConns(digest: Digest, parse: Parser, w: World, m: Move)
    requires w.routes.shuttingDown
    ensures Next(digest, parse, w, m).conns.Keys == w.conns.Keys
  {
  }

  lemma ShutStep(digest: Digest, parse: Parser, worlds: seq<World>, moves: seq<Move>, i: nat)
    requires IsRun(digest, parse, worlds, moves) && i < |moves| && worlds[i].routes.shuttingDown
    ensures worlds[i + 1].routes.shuttingDown && worlds[i + 1].routes.waitGroup <= worlds[i].routes.waitGroup
    ensures worlds[i + 1].conns.Keys == worlds[i].conns.Keys
  {
    RunIsSafe(digest, parse, worlds, moves, i);
    assert IsStep(digest, parse, worlds, moves, i);
    NextShut(digest, parse, worlds[i], moves[i]);
    NoNewConns(digest, parse, worlds[i], moves[i]);
  }

  lemma ShutMeansClosed(w: World)
    requires PlacesOk(w) && ShutOk(w.routes) && w.routes.shuttingDown
    ensures forall id :: id in w.conns ==> (w.evicted[id] == 1 || w.conns[id].removed)
  {
    forall id | id in w.conns ensures w.evicted[id] == 1 || w.conns[id].removed {
      assert OnePlace(w.routes, w.evicted, id, w.conns[id]);
    }
  }

  /** From the start of a shutdown on both maps stay empty, no handler begins and the wait
      group never rises; it counts the handlers begun and not finished, and each of those
      has been closed or has removed itself. */
  lemma {:induction false} ShutdownDrains(digest: Digest, parse: Parser, worlds: seq<World>, moves: seq<Move>, i: nat, j: nat)
    requires IsRun(digest, parse, worlds, moves) && i <= j < |worlds| && worlds[i].routes.shuttingDown
    ensures var w := worlds[j];
            && w.routes.shuttingDown && w.routes.hosts == map[] && w.routes.devices == map[]
            && w.conns.Keys == worlds[i].conns.Keys && w.routes.waitGroup <= worlds[i].routes.waitGroup
            && w.routes.waitGroup == |Unfinished(w.conns)|
            && forall id :: id in w.conns ==> (w.evicted[id] == 1 || w.conns[id].removed)
  {
    if i < j {
      ShutdownDrains(digest, parse, worlds, moves, i, j - 1);
      ShutStep(digest, parse, worlds, moves, j - 1);
    }
    RunIsSafe(digest, parse, worlds, moves, j);
    ShutMeansClosed(worlds[j]);
  }

  /** In every reachable state the wait group is the number of handlers begun and not finished. */
  lemma WaitGroupCounts(digest: Digest, parse: Parser, worlds: seq<World>, moves: seq<Move>, i: nat)
    requires IsRun(digest, parse, worlds, moves) && i < |worlds|
    ensures worlds[i].routes.waitGroup == |Unfinished(worlds[i].conns)|
  {
    RunIsSafe(digest, parse, worlds, moves, i);
  }

  // ----- routing -----

  /** A decision between the two current holders of one route, on a frame that names its
      sender truthfully and points away from the sender's role. */
  predicate Delivers(parse: Parser, w: World, d: Delivery) {
    && d.from in w.conns && d.to in w.conns
    && var s, t := w.conns[d.from].session, w.conns[d.to].session;
       && Current(w.routes, d.from, s) && Current(w.routes, d.to, t) && t.role == Opposite(s.role) && KeyOf(t) == KeyOf(s)
       && parse(d.data).Some? && SenderError(s, parse(d.data).value) == None
  }

  lemma ForwardReaches(w: World, id: nat, f: Frames.Frame, target: nat)
    requires RoutesOk(w.routes, w.conns) && id in w.conns
    requires SenderError(w.conns[id].session, f) == None && Route(w.routes, id, w.conns[id].session.role, f) == Forward(target)
    ensures target in w.conns
    ensures var s, t := w.conns[id].session, w.conns[target].session;
            Current(w.routes, id, s) && Current(w.routes, target, t) && t.role == Opposite(s.role) && KeyOf(t) == KeyOf(s)
  {
    var s := w.conns[id].session;
    ForwardsToOpposite(w.routes, id, s, f, target);
    assert HolderOk(w.conns, target, KeyOf(s), Opposite(s.role));
  }

  lemma DecidesForPeer(parse: Parser, w: World, n: World, m: Move)
    requires RoutesOk(w.routes, w.conns) && Decides(parse, w, n, m)
    ensures Delivers(parse, w, n.decisions[|w.decisions|])
  {
    ForwardReaches(w, m.id, parse(m.data).value, n.decisions[|w.decisions|].to);
  }

  /** Every decision to forward goes from the current holder of one role to the current
      holder of the other role of the same route, for the message as it came in. */
  lemma DecidedForPeer(digest: Digest, parse: Parser, worlds: seq<World>, moves: seq<Move>, i: nat)
    requires IsRun(digest, parse, worlds, moves) && i < |moves| && worlds[i + 1].decisions != worlds[i].decisions
    ensures moves[i].Decide? && |worlds[i + 1].decisions| == |worlds[i].decisions| + 1
    ensures var d := worlds[i + 1].decisions[|worlds[i].decisions|];
            && worlds[i + 1].decisions == worlds[i].decisions + [d]
            && d.from == moves[i].id && d.data == moves[i].data && Delivers(parse, worlds[i], d)
  {
    RunIsSafe(digest, parse, worlds, moves, i);
    StepExtends(digest, parse, worlds, moves, i);
    DecidesForPeer(parse, worlds[i], worlds[i + 1], moves[i]);
  }

  /** Every frame that is written was decided by an earlier move of its sender, between
      holders current at that move, and is what the sender sent; no decision is written
      twice. */
  lemma WrittenAsDecided(digest: Digest, parse: Parser, worlds: seq<World>, moves: seq<Move>, j: nat) returns (i: nat)
    requires IsRun(digest, parse, worlds, moves) && j < |moves| && worlds[j + 1].writes != worlds[j].writes
    ensures |worlds[j + 1].writes| == |worlds[j].writes| + 1 && worlds[j + 1].writes[..|worlds[j].writes|] == worlds[j].writes
    ensures var d := worlds[j + 1].writes[|worlds[j].writes|];
            && d !in worlds[j].writes && d < |worlds[j].decisions|
            && i < j && moves[i] == Decide(worlds[j].decisions[d].from, worlds[j].decisions[d].data)
            && |worlds[i].decisions| == d && moves[j].Write? && moves[j].id == moves[i].id
            && Delivers(parse, worlds[i], worlds[j].decisions[d])
  {
    StepExtends(digest, parse, worlds, moves, j);
    RunLogs(digest, parse, worlds, moves, j);
    assert WriteOk(worlds[j], moves[j].id);
    var d := worlds[j + 1].writes[|worlds[j].writes|];
    i := DecidedAt(digest, parse, worlds, moves, j, d);
    RunIsSafe(digest, parse, worlds, moves, i);
    DecidesForPeer(parse, worlds[i], worlds[i + 1], moves[i]);
  }

  // ----- revocation -----

  /** In every reachable state each registered session's device is paired and not revoked. */
  lemma RegisteredIsLive(digest: Digest, parse: Parser, worlds: seq<World>, moves: seq<Move>, i: nat, id: nat)
    requires IsRun(digest, parse, worlds, moves) && i < |worlds| && id in worlds[i].conns
    requires Current(worlds[i].routes, id, worlds[i].conns[id].session)
    ensures DeviceLive(worlds[i].db, DeviceOfSession(worlds[i].conns[id].session))
  {
    RunIsSafe(digest, parse, worlds, moves, i);
  }

  predicate Revoked(db: Tables, k: DeviceKey) {
    k in db.devices && db.devices[k].revoked
  }

  /** An approval binds the revoked device anew, with a newer binding version. */
  ghost predicate Reactivates(digest: Digest, w: World, m: Move, k: DeviceKey) {
    Revoked(w.db, k) && m.Pair? && Rebinds(digest, w.db, Call(m.action, m.at), k)
  }

  lemma RevokedStep(digest: Digest, parse: Parser, w: World, m: Move, k: DeviceKey)
    requires Revoked(w.db, k)
    ensures Revoked(Next(digest, parse, w, m).db, k) || Reactivates(digest, w, m, k)
  {
    match m {
      case Pair(a, at) =>
        StepProgress(digest, w.db, a, at, k);
        if !Revoked(Next(digest, parse, w, m).db, k) {
          ReactivatingStep(digest, w.db, Call(a, at), k);
        }
      case RevokeDevice(device) => ActionHappens(digest, w.db, RevokeAction(device), 0);
      case _ => assert Next(digest, parse, w, m).db == w.db;
    }
  }

  lemma RevokedRunStep(digest: Digest, parse: Parser, worlds: seq<World>, moves: seq<Move>, i: nat, k: DeviceKey)
    requires IsRun(digest, parse, worlds, moves) && i < |moves| && Revoked(worlds[i].db, k)
    ensures Revoked(worlds[i + 1].db, k) || Reactivates(digest, worlds[i], moves[i], k)
  {
    assert IsStep(digest, parse, worlds, moves, i);
    RevokedStep(digest, parse, worlds[i], moves[i], k);
  }

  lemma {:induction false} LiveNeedsReactivation(
    digest: Digest, parse: Parser, worlds: seq<World>, moves: seq<Move>, i: nat, j: nat, k: DeviceKey) returns (p: nat)
    requires IsRun(digest, parse, worlds, moves) && i <= j < |worlds|
    requires Revoked(worlds[i].db, k) && DeviceLive(worlds[j].db, k)
    ensures i <= p < j && Reactivates(digest, worlds[p], moves[p], k)
    decreases j - i
  {
    assert i < j;
    RevokedRunStep(digest, parse, worlds, moves, i, k);
    if Revoked(worlds[i + 1].db, k) {
      p := LiveNeedsReactivation(digest, parse, worlds, moves, i + 1, j, k);
    } else {
      p := i;
    }
  }

  /** A session registered for a device that was revoked at p began after p. */
  lemma BeganAfter(digest: Digest, parse: Parser, worlds: seq<World>, moves: seq<Move>, p: nat, j: nat, id: nat, k: DeviceKey)
    requires IsRun(digest, parse, worlds, moves) && p <= j < |worlds| && Revoked(worlds[p].db, k)
    requires id in worlds[j].conns && Current(worlds[j].routes, id, worlds[j].conns[id].session)
    requires DeviceOfSession(worlds[j].conns[id].session) == k
    ensures id !in worlds[p].conns
  {
    if id in worlds[p].conns {
      GrowsOverRun(digest, parse, worlds, moves, p, j, id);
      if Current(worlds[p].routes, id, worlds[p].conns[id].session) {
        RegisteredIsLive(digest, parse, worlds, moves, p, id);
      } else {
        NeverCurrentAgain(digest, parse, worlds, moves, p, j, id);
      }
    }
  }

  /** The device was bound anew at p, before this connection had begun. */
  ghost predicate RenewedBefore(digest: Digest, worlds: seq<World>, moves: seq<Move>, p: nat, k: DeviceKey, id: nat) {
    && p < |worlds| && p < |moves|
    && Reactivates(digest, worlds[p], moves[p], k) && id !in worlds[p].conns
  }

  /** After a device is revoked no frame is routed from or to its sessions, written or not,
      until an approval binds it anew with a newer binding version, and then only for a
      connection that began after that approval. */
  lemma NoDecisionAfterRevocation(
    digest: Digest, parse: Parser, worlds: seq<World>, moves: seq<Move>, i: nat, j: nat, d: Delivery, id: nat) returns (p: nat)
    requires IsRun(digest, parse, worlds, moves) && i <= j < |moves| && worlds[j + 1].decisions == worlds[j].decisions + [d]
    requires (id == d.from || id == d.to) && id in worlds[j].conns
    requires Revoked(worlds[i].db, DeviceOfSession(worlds[j].conns[id].session))
    ensures i <= p < j
    ensures RenewedBefore(digest, worlds, moves, p, DeviceOfSession(worlds[j].conns[id].session), id)
  {
    var k := DeviceOfSession(worlds[j].conns[id].session);
    DecidedForPeer(digest, parse, worlds, moves, j);
    assert d == worlds[j + 1].decisions[|worlds[j].decisions|];
    RegisteredIsLive(digest, parse, worlds, moves, j, id);
    p := LiveNeedsReactivation(digest, parse, worlds, moves, i, j, k);
    BeganAfter(digest, parse, worlds, moves, p, j, id, k);
  }

  /** The sender of the frame a move writes, and its device. */
  predicate WritesFor(w: World, n: World, m: Move, k: DeviceKey) {
    Writes(w, n, m) && DeviceOfSession(w.conns[m.id].session) == k
  }

  lemma EarlyDecision(
    digest: Digest, parse: Parser, worlds: seq<World>, moves: seq<Move>, i: nat, j: nat, d: nat)
    requires IsRun(digest, parse, worlds, moves) && i <= j < |worlds| && d < |worlds[i].decisions|
    ensures d < |worlds[j].decisions| && worlds[j].decisions[d].from in worlds[i].conns
  {
    RunLogs(digest, parse, worlds, moves, i);
    DecisionsGrow(digest, parse, worlds, moves, i, j);
    assert worlds[j].decisions[d] == worlds[i].decisions[d];
  }

  lemma LateDecision(
    digest: Digest, parse: Parser, worlds: seq<World>, moves: seq<Move>, i: nat, j: nat, d: nat, k: DeviceKey) returns (p: nat)
    requires IsRun(digest, parse, worlds, moves) && i <= j < |worlds| && Revoked(worlds[i].db, k)
    requires |worlds[i].decisions| <= d < |worlds[j].decisions| && worlds[j].decisions[d].from in worlds[j].conns
    requires DeviceOfSession(worlds[j].conns[worlds[j].decisions[d].from].session) == k
    ensures i <= p < j && RenewedBefore(digest, worlds, moves, p, k, worlds[j].decisions[d].from)
  {
    var q := DecidedAt(digest, parse, worlds, moves, j, d);
    var id := worlds[j].decisions[d].from;
    if q < i {
      DecisionsGrow(digest, parse, worlds, moves, q + 1, i);
    }
    GrowsOverRun(digest, parse, worlds, moves, q, j, id);
    p := NoDecisionAfterRevocation(digest, parse, worlds, moves, i, q, worlds[j].decisions[d], id);
  }

  /** A write can land after the revocation of its device, since it follows the decision
      outside the lock. It does exactly when its decision came before the revocation, which
      is exactly when its sender had begun by then; every other write follows an approval
      that bound the device anew before its sender began. */
  lemma WriteAfterRevocation(
    digest: Digest, parse: Parser, worlds: seq<World>, moves: seq<Move>, i: nat, j: nat, k: DeviceKey)
    requires IsRun(digest, parse, worlds, moves) && i <= j < |moves| && Revoked(worlds[i].db, k)
    requires WritesFor(worlds[j], worlds[j + 1], moves[j], k)
    ensures var d, id := worlds[j].conns[moves[j].id].stage.decision, moves[j].id;
            && (d < |worlds[i].decisions| <==> id in worlds[i].conns)
            && (d < |worlds[i].decisions| <==> !exists p :: i <= p < j && RenewedBefore(digest, worlds, moves, p, k, id))
  {
    var d, id := worlds[j].conns[moves[j].id].stage.decision, moves[j].id;
    RunLogs(digest, parse, worlds, moves, j);
    assert WriteOk(worlds[j], id);
    if d < |worlds[i].decisions| {
      EarlyDecision(digest, parse, worlds, moves, i, j, d);
      forall p | i <= p < j ensures !RenewedBefore(digest, worlds, moves, p, k, id) {
        GrowsOverRun(digest, parse, worlds, moves, i, p, id);
      }
    } else {
      var p := LateDecision(digest, parse, worlds, moves, i, j, d, k);
      if id in worlds[i].conns {
        GrowsOverRun(digest, parse, worlds, moves, i, p, id);
      }
    }
  }
}

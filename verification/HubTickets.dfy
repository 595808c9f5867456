/** What let a connection in: its own ticket, and names that passed the request's checks. */
module HubTickets {
  import opened Text
  import opened Tables
  import opened Pairing
  import opened Auth
  import opened Hub
  import opened HubRuns
  import opened HubSafety
  import Protocol
  import ProtocolSafety

  /** The ticket a connection came in on, from its admission on. */
  function HeldBy(w: World, id: nat): Option<Admission> {
    if id in w.conns then Some(Admission(w.conns[id].session, w.conns[id].ticket))
    else if id in w.waiting then Some(w.waiting[id])
    else None
  }

  predicate AdmissionOk(auth: AuthTables, a: Admission) {
    SessionOk(a.session) && Protocol.UsedTicket(auth, a.ticket, SessionScope(a.session))
  }

  ghost predicate AdmissionsOk(w: World) {
    && (forall id :: HeldBy(w, id).Some? ==> AdmissionOk(w.auth, HeldBy(w, id).value))
    && (forall i, j :: i != j && HeldBy(w, i).Some? && HeldBy(w, j).Some? ==> HeldBy(w, i).value.ticket != HeldBy(w, j).value.ticket)
  }

  /** A move leaves what a connection holds, drops it, or admits one on a ticket nobody used. */
  predicate HoldingMoves(w: World, n: World, m: Move, id: nat) {
    || HeldBy(n, id) == HeldBy(w, id) || HeldBy(n, id).None?
    || (m.Admit? && m.id == id && HeldBy(n, id) == Some(Admission(m.session, m.ticket)) && SessionOk(m.session)
        && Protocol.FreshTicket(w.auth, m.ticket) && Protocol.UsedTicket(n.auth, m.ticket, SessionScope(m.session)))
  }

  lemma NextHolding(digest: Digest, parse: Parser, w: World, m: Move, id: nat)
    requires MoveOk(w, m) && WaitingOk(w)
    ensures HoldingMoves(w, Next(digest, parse, w, m), m, id)
  {
  }

  lemma AdmitAuth(w: World, id: nat, s: Session, ticket: seq<byte>, at: int)
    ensures Protocol.AuthMoves(w.auth, AdmitConn(w, id, s, ticket, at).auth)
  {
  }

  lemma NextAuth(digest: Digest, parse: Parser, w: World, m: Move)
    requires MoveOk(w, m)
    ensures Protocol.AuthMoves(w.auth, Next(digest, parse, w, m).auth)
  {
    match m {
      case Admit(id, s, ticket, at) => AdmitAuth(w, id, s, ticket, at);
      case AuthStep(_) =>
      case _ => assert Next(digest, parse, w, m).auth == w.auth;
    }
  }

  lemma AdmissionStays(a: AuthTables, b: AuthTables, x: Admission)
    requires Protocol.AuthMoves(a, b) && AdmissionOk(a, x)
    ensures AdmissionOk(b, x)
  {
  }

  lemma AdmissionsFollow(w: World, n: World, m: Move)
    requires AdmissionsOk(w) && Protocol.AuthMoves(w.auth, n.auth) && forall id :: HoldingMoves(w, n, m, id)
    ensures AdmissionsOk(n)
  {
    forall id | HeldBy(n, id).Some? ensures AdmissionOk(n.auth, HeldBy(n, id).value) {
      assert HoldingMoves(w, n, m, id);
      if HeldBy(n, id) == HeldBy(w, id) {
        AdmissionStays(w.auth, n.auth, HeldBy(w, id).value);
      }
    }
    forall i, j | i != j && HeldBy(n, i).Some? && HeldBy(n, j).Some?
      ensures HeldBy(n, i).value.ticket != HeldBy(n, j).value.ticket
    {
      assert HoldingMoves(w, n, m, i) && HoldingMoves(w, n, m, j);
      assert HeldBy(w, i).Some? ==> AdmissionOk(w.auth, HeldBy(w, i).value);
      assert HeldBy(w, j).Some? ==> AdmissionOk(w.auth, HeldBy(w, j).value);
    }
  }

  lemma AdmissionsStayOk(digest: Digest, parse: Parser, w: World, m: Move)
    requires MoveOk(w, m) && WaitingOk(w) && AdmissionsOk(w)
    ensures AdmissionsOk(Next(digest, parse, w, m))
  {
    var n := Next(digest, parse, w, m);
    NextAuth(digest, parse, w, m);
    forall id ensures HoldingMoves(w, n, m, id) {
      NextHolding(digest, parse, w, m, id);
    }
    AdmissionsFollow(w, n, m);
  }

  lemma {:induction false} RunAdmissions(digest: Digest, parse: Parser, worlds: seq<World>, moves: seq<Move>, i: nat)
    requires IsRun(digest, parse, worlds, moves) && i < |worlds|
    ensures AdmissionsOk(worlds[i])
  {
    if i > 0 {
      RunAdmissions(digest, parse, worlds, moves, i - 1);
      StepAdmissions(digest, parse, worlds, moves, i - 1);
    }
  }

  lemma StepAdmissions(digest: Digest, parse: Parser, worlds: seq<World>, moves: seq<Move>, i: nat)
    requires IsRun(digest, parse, worlds, moves) && i < |moves| && AdmissionsOk(worlds[i])
    ensures AdmissionsOk(worlds[i + 1])
  {
    RunIsSafe(digest, parse, worlds, moves, i);
    assert IsStep(digest, parse, worlds, moves, i);
    AdmissionsStayOk(digest, parse, worlds[i], moves[i]);
  }

  ghost function TicketsOf(w: World): map<nat, seq<byte>> {
    map id | id in w.conns :: w.conns[id].ticket
  }

  /** In every run begun connections map one-to-one into consumed WebSocket tickets, each of
      the connection's own tenant, host, device and role. */
  lemma ConnectionsCostTickets(digest: Digest, parse: Parser, worlds: seq<World>, moves: seq<Move>, i: nat)
    requires IsRun(digest, parse, worlds, moves) && i < |worlds|
    ensures ProtocolSafety.Injective(TicketsOf(worlds[i]))
    ensures forall id :: id in worlds[i].conns ==>
              Protocol.UsedTicket(worlds[i].auth, worlds[i].conns[id].ticket, SessionScope(worlds[i].conns[id].session))
  {
    RunAdmissions(digest, parse, worlds, moves, i);
    var w := worlds[i];
    forall id | id in w.conns
      ensures Protocol.UsedTicket(w.auth, w.conns[id].ticket, SessionScope(w.conns[id].session))
    {
      assert HeldBy(w, id).Some?;
    }
    forall a, b | a in w.conns && b in w.conns && w.conns[a].ticket == w.conns[b].ticket ensures a == b {
      assert HeldBy(w, a).Some? && HeldBy(w, b).Some?;
    }
  }

  /** A connection's names passed the checks of its request. */
  lemma ConnectionsAreNamed(digest: Digest, parse: Parser, worlds: seq<World>, moves: seq<Move>, i: nat, id: nat)
    requires IsRun(digest, parse, worlds, moves) && i < |worlds| && id in worlds[i].conns
    ensures SessionOk(worlds[i].conns[id].session)
  {
    RunAdmissions(digest, parse, worlds, moves, i);
    assert HeldBy(worlds[i], id).Some?;
  }
}

/** The life of a handler: it reads and writes in turn, leaves for good at the first thing
    that goes wrong, removes itself once and is counted out once. */
module HubLife {
  import opened Text
  import opened Pairing
  import opened Hub
  import opened HubRuns
  import opened HubSafety
  import opened HubLogs

  /** How far along a handler is. */
  function Rank(stage: Stage): nat {
    match stage
    case Running => 0
    case Writing(_) => 0
    case Leaving => 1
    case Left => 2
    case Finished => 3
  }

  lemma BeginRank(w: World, j: nat, id: nat)
    requires Placed(w) && j in w.waiting && id in w.conns
    ensures id in BeginConn(w, j).conns && BeginConn(w, j).conns[id] == w.conns[id]
  {
  }

  lemma DepartRank(w: World, j: nat, id: nat)
    requires MayDepart(w, j) && id in w.conns
    ensures id in DepartConn(w, j).conns
    ensures DepartConn(w, j).conns[id].stage == if id == j then Left else w.conns[id].stage
  {
  }

  predicate Touches(m: Move, id: nat) {
    (m.Decide? || m.Write? || m.Depart? || m.Finish?) && m.id == id
  }

  lemma UntouchedStays(digest: Digest, parse: Parser, w: World, m: Move, id: nat)
    requires Placed(w) && id in w.conns && !Touches(m, id)
    ensures var n := Next(digest, parse, w, m); id in n.conns && n.conns[id] == w.conns[id]
  {
    if m.Begin? && m.id in w.waiting {
      BeginRank(w, m.id, id);
    } else if m.Depart? && MayDepart(w, m.id) {
      DepartRank(w, m.id, id);
    }
  }

  lemma TouchedAdvances(digest: Digest, parse: Parser, w: World, m: Move, id: nat)
    requires id in w.conns && Touches(m, id)
    ensures var n := Next(digest, parse, w, m);
            id in n.conns && Rank(w.conns[id].stage) <= Rank(n.conns[id].stage)
  {
    if m.Decide? && InLoop(w, id) {
      DecideOutcome(parse, w, id, m.data);
    } else if m.Write? && InWrite(w, id) {
      WriteDone(w, id, m.written);
    } else if m.Depart? && MayDepart(w, id) {
      DepartRank(w, id, id);
    }
  }

  lemma NextRank(digest: Digest, parse: Parser, w: World, m: Move, id: nat)
    requires Placed(w) && id in w.conns
    ensures var n := Next(digest, parse, w, m);
            id in n.conns && Rank(w.conns[id].stage) <= Rank(n.conns[id].stage)
  {
    if Touches(m, id) {
      TouchedAdvances(digest, parse, w, m, id);
    } else {
      UntouchedStays(digest, parse, w, m, id);
    }
  }

  lemma StepRank(digest: Digest, parse: Parser, worlds: seq<World>, moves: seq<Move>, i: nat, id: nat)
    requires IsRun(digest, parse, worlds, moves) && i < |moves| && id in worlds[i].conns
    ensures id in worlds[i + 1].conns && Rank(worlds[i].conns[id].stage) <= Rank(worlds[i + 1].conns[id].stage)
  {
    RunIsSafe(digest, parse, worlds, moves, i);
    assert IsStep(digest, parse, worlds, moves, i);
    NextRank(digest, parse, worlds[i], moves[i], id);
  }

  /** A handler never goes back. */
  lemma {:induction false} RankGrows(digest: Digest, parse: Parser, worlds: seq<World>, moves: seq<Move>, i: nat, j: nat, id: nat)
    requires IsRun(digest, parse, worlds, moves) && i <= j < |worlds| && id in worlds[i].conns
    ensures id in worlds[j].conns && Rank(worlds[i].conns[id].stage) <= Rank(worlds[j].conns[id].stage)
  {
    if i < j {
      RankGrows(digest, parse, worlds, moves, i, j - 1, id);
      StepRank(digest, parse, worlds, moves, j - 1, id);
    }
  }

  /** Once it is leaving, nothing more is decided or written in its name. */
  lemma LeavingIsSilent(digest: Digest, parse: Parser, worlds: seq<World>, moves: seq<Move>, i: nat, j: nat, id: nat)
    requires IsRun(digest, parse, worlds, moves) && i <= j < |moves| && id in worlds[i].conns && Rank(worlds[i].conns[id].stage) >= 1
    ensures |worlds[j].decisions| < |worlds[j + 1].decisions| ==> worlds[j + 1].decisions[|worlds[j].decisions|].from != id
    ensures worlds[j].writes != worlds[j + 1].writes ==> moves[j].Write? && moves[j].id != id
  {
    RankGrows(digest, parse, worlds, moves, i, j, id);
    StepExtends(digest, parse, worlds, moves, j);
  }

  lemma DecideOutcome(parse: Parser, w: World, id: nat, data: seq<byte>)
    requires InLoop(w, id)
    ensures var n, routing := DecideConn(parse, w, id, data), Judge(parse, w.routes, id, w.conns[id].session, data);
            && n.conns == w.conns[id := w.conns[id].(stage := if routing.Forward? then Writing(|w.decisions|) else Leaving)]
            && n.decisions == (if routing.Forward? then w.decisions + [Delivery(id, routing.target, data)] else w.decisions)
            && n.writes == w.writes && n.routes == w.routes && n.evicted == w.evicted && n.db == w.db
  {
  }

  /** In every run: a message that is refused sends its handler away and leaves no trace; one
      that is forwarded gives it a write to do. */
  lemma MessageOutcome(digest: Digest, parse: Parser, worlds: seq<World>, moves: seq<Move>, i: nat, id: nat, data: seq<byte>)
    requires IsRun(digest, parse, worlds, moves) && i < |moves| && moves[i] == Decide(id, data) && InLoop(worlds[i], id)
    ensures var w, n := worlds[i], worlds[i + 1];
            var routing := Judge(parse, w.routes, id, w.conns[id].session, data);
            && id in n.conns && n.routes == w.routes && n.writes == w.writes
            && (routing.Refuse? ==> n.conns[id].stage == Leaving && n.decisions == w.decisions)
            && (routing.Forward? ==>
                  n.conns[id].stage == Writing(|w.decisions|) && n.decisions == w.decisions + [Delivery(id, routing.target, data)])
  {
    assert IsStep(digest, parse, worlds, moves, i);
    DecideOutcome(parse, worlds[i], id, data);
  }

  lemma WriteDone(w: World, id: nat, written: bool)
    requires InWrite(w, id)
    ensures var n, d := WriteConn(w, id, written), w.conns[id].stage.decision;
            && n.conns == w.conns[id := w.conns[id].(stage := if written then Running else Leaving)]
            && n.writes == (if written then w.writes + [d] else w.writes) && n.decisions == w.decisions && n.routes == w.routes
  {
  }

  /** In every run: a write that succeeds is recorded and the handler reads on; one that fails
      sends it away. */
  lemma WriteOutcome(digest: Digest, parse: Parser, worlds: seq<World>, moves: seq<Move>, i: nat, id: nat, written: bool)
    requires IsRun(digest, parse, worlds, moves) && i < |moves| && moves[i] == Write(id, written) && InWrite(worlds[i], id)
    ensures var w, n := worlds[i], worlds[i + 1];
            && id in n.conns && n.routes == w.routes && n.decisions == w.decisions
            && (written ==> n.conns[id].stage == Running && n.writes == w.writes + [w.conns[id].stage.decision])
            && (!written ==> n.conns[id].stage == Leaving && n.writes == w.writes)
  {
    assert IsStep(digest, parse, worlds, moves, i);
    WriteDone(worlds[i], id, written);
  }

  /** In every run: only a handler that removed itself is counted out, once, and the wait group
      falls by one. */
  lemma FinishOutcome(digest: Digest, parse: Parser, worlds: seq<World>, moves: seq<Move>, i: nat, id: nat)
    requires IsRun(digest, parse, worlds, moves) && i < |moves| && moves[i] == Finish(id) && id in worlds[i].conns
    ensures id in worlds[i + 1].conns
    ensures var counted := worlds[i].conns[id].stage == Left;
            && worlds[i + 1].routes.waitGroup == worlds[i].routes.waitGroup - (if counted then 1 else 0)
            && worlds[i + 1].conns[id].stage == (if counted then Finished else worlds[i].conns[id].stage)
            && worlds[i + 1].routes.hosts == worlds[i].routes.hosts && worlds[i + 1].routes.devices == worlds[i].routes.devices
  {
    assert IsStep(digest, parse, worlds, moves, i);
  }
}

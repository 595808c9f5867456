/** What the hub decided and what it wrote: decisions are only added, each is written at most
    once, and a connection in the middle of a write is at its own latest decision. */
module HubLogs {
  import opened Text
  import opened Pairing
  import opened Hub
  import opened HubRuns
  import opened HubSafety

  predicate WriteOk(w: World, id: nat)
    requires id in w.conns
  {
    w.conns[id].stage.Writing? ==>
      var d := w.conns[id].stage.decision;
      d < |w.decisions| && w.decisions[d].from == id && d !in w.writes
  }

  ghost predicate LogOk(w: World) {
    && (forall id :: id in w.conns ==> WriteOk(w, id))
    && (forall d :: 0 <= d < |w.decisions| ==> w.decisions[d].from in w.conns)
    && (forall i :: 0 <= i < |w.writes| ==> w.writes[i] < |w.decisions|)
    && (forall i, j :: 0 <= i < j < |w.writes| ==> w.writes[i] != w.writes[j])
  }

  /** A decision is added only by a connection in its read loop, which then has it to write. */
  predicate Decides(parse: Parser, w: World, n: World, m: Move) {
    && m.Decide? && InLoop(w, m.id) && n.writes == w.writes && |n.decisions| == |w.decisions| + 1
    && n.decisions == w.decisions + [n.decisions[|w.decisions|]]
    && Judge(parse, w.routes, m.id, w.conns[m.id].session, m.data) == Forward(n.decisions[|w.decisions|].to)
    && n.decisions[|w.decisions|] == Delivery(m.id, n.decisions[|w.decisions|].to, m.data)
    && m.id in n.conns && n.conns[m.id].stage == Writing(|w.decisions|)
  }

  /** A write is added only by the connection whose decision it is. */
  predicate Writes(w: World, n: World, m: Move) {
    && m.Write? && InWrite(w, m.id) && n.decisions == w.decisions
    && n.writes == w.writes + [w.conns[m.id].stage.decision]
    && m.id in n.conns && n.conns[m.id].stage == Running
  }

  ghost predicate StagesFollow(w: World, n: World, m: Move) {
    forall id :: id in n.conns && n.conns[id].stage.Writing? ==>
      (id in w.conns && n.conns[id].stage == w.conns[id].stage) || (m.Decide? && m.id == id)
  }

  lemma DecideLogs(parse: Parser, w: World, id: nat, data: seq<byte>)
    requires InLoop(w, id)
    ensures var n := DecideConn(parse, w, id, data);
            && StagesFollow(w, n, Decide(id, data))
            && ((n.decisions == w.decisions && n.writes == w.writes && n.conns[id].stage == Leaving)
                || Decides(parse, w, n, Decide(id, data)))
  {
  }

  lemma WriteLogs(w: World, id: nat, written: bool)
    requires InWrite(w, id)
    ensures var n := WriteConn(w, id, written);
            && StagesFollow(w, n, Write(id, written)) && !n.conns[id].stage.Writing?
            && ((n.decisions == w.decisions && n.writes == w.writes) || Writes(w, n, Write(id, written)))
  {
  }

  /** What a move adds to the logs. */
  lemma NextLogs(digest: Digest, parse: Parser, w: World, m: Move)
    ensures var n := Next(digest, parse, w, m);
            && StagesFollow(w, n, m)
            && ((n.decisions == w.decisions && n.writes == w.writes) || Decides(parse, w, n, m) || Writes(w, n, m))
            && (m.Decide? && m.id in n.conns && n.conns[m.id].stage.Writing? && n.decisions == w.decisions ==> n.conns == w.conns)
  {
    match m {
      case Decide(id, data) =>
        if InLoop(w, id) {
          DecideLogs(parse, w, id, data);
        }
      case Write(id, written) =>
        if InWrite(w, id) {
          WriteLogs(w, id, written);
        }
      case _ =>
    }
  }

  lemma LogStaysOk(digest: Digest, parse: Parser, w: World, m: Move)
    requires MoveOk(w, m) && Placed(w) && LogOk(w)
    ensures LogOk(Next(digest, parse, w, m))
  {
    var n := Next(digest, parse, w, m);
    NextLogs(digest, parse, w, m);
    forall id | id in w.conns ensures id in n.conns {
      NextGrows(digest, parse, w, m, id);
    }
    LogFollows(parse, w, n, m);
  }

  lemma LogFollows(parse: Parser, w: World, n: World, m: Move)
    requires LogOk(w) && StagesFollow(w, n, m) && forall id :: id in w.conns ==> id in n.conns
    requires (n.decisions == w.decisions && n.writes == w.writes) || Decides(parse, w, n, m) || Writes(w, n, m)
    requires m.Decide? && m.id in n.conns && n.conns[m.id].stage.Writing? && n.decisions == w.decisions ==> n.conns == w.conns
    ensures LogOk(n)
  {
    forall id | id in n.conns ensures WriteOk(n, id) {
      assert id in w.conns ==> WriteOk(w, id);
    }
    forall d | 0 <= d < |n.decisions| ensures n.decisions[d].from in n.conns {
      assert d < |w.decisions| ==> n.decisions[d] == w.decisions[d];
    }
    assert m.Write? && m.id in w.conns ==> WriteOk(w, m.id);
  }

  lemma {:induction false} RunLogs(digest: Digest, parse: Parser, worlds: seq<World>, moves: seq<Move>, i: nat)
    requires IsRun(digest, parse, worlds, moves) && i < |worlds|
    ensures LogOk(worlds[i])
  {
    if i > 0 {
      RunLogs(digest, parse, worlds, moves, i - 1);
      StepLogs(digest, parse, worlds, moves, i - 1);
    }
  }

  lemma StepLogs(digest: Digest, parse: Parser, worlds: seq<World>, moves: seq<Move>, i: nat)
    requires IsRun(digest, parse, worlds, moves) && i < |moves| && LogOk(worlds[i])
    ensures LogOk(worlds[i + 1])
  {
    RunIsSafe(digest, parse, worlds, moves, i);
    assert IsStep(digest, parse, worlds, moves, i);
    LogStaysOk(digest, parse, worlds[i], moves[i]);
  }

  lemma StepExtends(digest: Digest, parse: Parser, worlds: seq<World>, moves: seq<Move>, i: nat)
    requires IsRun(digest, parse, worlds, moves) && i < |moves|
    ensures worlds[i].decisions <= worlds[i + 1].decisions && |worlds[i + 1].decisions| <= |worlds[i].decisions| + 1
    ensures |worlds[i].decisions| < |worlds[i + 1].decisions| ==> Decides(parse, worlds[i], worlds[i + 1], moves[i])
    ensures worlds[i].writes != worlds[i + 1].writes ==> Writes(worlds[i], worlds[i + 1], moves[i])
  {
    assert IsStep(digest, parse, worlds, moves, i);
    NextLogs(digest, parse, worlds[i], moves[i]);
  }

  /** The log of decisions only grows. */
  lemma {:induction false} DecisionsGrow(digest: Digest, parse: Parser, worlds: seq<World>, moves: seq<Move>, i: nat, j: nat)
    requires IsRun(digest, parse, worlds, moves) && i <= j < |worlds|
    ensures worlds[i].decisions <= worlds[j].decisions
  {
    if i < j {
      DecisionsGrow(digest, parse, worlds, moves, i, j - 1);
      StepExtends(digest, parse, worlds, moves, j - 1);
    }
  }

  /** Every decision in the log was made by one move. */
  lemma {:induction false} DecidedAt(digest: Digest, parse: Parser, worlds: seq<World>, moves: seq<Move>, j: nat, d: nat)
    returns (i: nat)
    requires IsRun(digest, parse, worlds, moves) && j < |worlds| && d < |worlds[j].decisions|
    ensures i < j && |worlds[i].decisions| == d && Decides(parse, worlds[i], worlds[i + 1], moves[i])
    ensures worlds[i + 1].decisions[d] == worlds[j].decisions[d]
  {
    assert j > 0;
    StepExtends(digest, parse, worlds, moves, j - 1);
    if d < |worlds[j - 1].decisions| {
      i := DecidedAt(digest, parse, worlds, moves, j - 1, d);
    } else {
      i := j - 1;
    }
  }
}

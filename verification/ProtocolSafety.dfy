/** What every interleaved run keeps, and the theorems about keys, tickets and approvals
    that follow from it. */
module ProtocolSafety {
  import opened Text
  import opened Tables
  import opened Pairing
  import opened PairingSteps
  import opened Transcripts
  import opened Auth
  import opened Protocol

  // ----- the invariant -----

  /** A proof was verified under the key its subject is registered with, and still is. */
  ghost predicate KeysHeld(rules: Rules, w: World) {
    forall id :: id in w.proofs && !w.proofs[id].Dropped? ==> KeyHeld(rules, w.db, w.proofs[id])
  }

  predicate KeyHeld(rules: Rules, db: Tables, p: Proof)
    requires !p.Dropped?
  {
    RegisteredKey(db, p.challenge.scope) == Some(p.key) && rules.check(p.challenge, p.key, p.signature)
  }

  predicate ProofOk(auth: AuthTables, p: Proof) {
    match p
    case Verified(c, _, _, _, now) => TimeOk(c, now)
    case Spent(c, hash, _, _, now) => TimeOk(c, now) && SpentFor(auth, c, hash, now)
    case Ticketed(c, hash, _, _, now, t) => TimeOk(c, now) && SpentFor(auth, c, hash, now) && MintedFor(auth, t, c, now)
    case Dropped => true
  }

  ghost predicate ProofsOk(w: World) {
    forall id :: id in w.proofs ==> ProofOk(w.auth, w.proofs[id])
  }

  predicate HoldsChallenge(p: Proof, c: string) {
    (p.Spent? || p.Ticketed?) && p.challenge.id == c
  }

  predicate HoldsTicket(w: World, id: nat, t: seq<byte>) {
    id in w.proofs && w.proofs[id].Ticketed? && w.proofs[id].ticket == t
  }

  /** No challenge row serves two proofs. */
  ghost predicate ChallengesApart(w: World) {
    forall i, j :: i in w.proofs && j in w.proofs && i != j && (w.proofs[j].Spent? || w.proofs[j].Ticketed?) ==>
      !HoldsChallenge(w.proofs[i], w.proofs[j].challenge.id)
  }

  ghost predicate TicketsHeld(w: World) {
    forall t :: t in w.auth.tickets ==> exists id :: HoldsTicket(w, id, t)
  }

  predicate AcceptanceOk(auth: AuthTables, a: Acceptance) {
    && a.ticket in auth.tickets && auth.tickets[a.ticket].scope == a.scope
    && auth.tickets[a.ticket].consumedAt == Some(a.now) && a.now < auth.tickets[a.ticket].expiresAt
  }

  ghost predicate AcceptedOk(w: World) {
    && (forall k :: 0 <= k < |w.accepted| ==> AcceptanceOk(w.auth, w.accepted[k]))
    && (forall j, k :: 0 <= j < k < |w.accepted| ==> w.accepted[j].ticket != w.accepted[k].ticket)
  }

  predicate HandlerOk(w: World, h: Handler) {
    match h
    case LookedUp(_, c, d) => c in w.db.claims && w.db.claims[c].device == d
    case Authorized(r, c, d, t) =>
      c in w.db.claims && w.db.claims[c].device == d && UsedTicket(w.auth, t, HostScope(r.tenant, r.host, d, CLAIM_APPROVE))
    case Settled(r, d, t, win) =>
      && UsedTicket(w.auth, t, HostScope(r.tenant, r.host, d, CLAIM_APPROVE))
      && (win.Some? ==> ClaimAt(w.db, r.tenant, r.host, win.value) && w.db.claims[win.value].device == d)
    case Turned => true
  }

  ghost predicate HandlersOk(w: World) {
    forall id :: id in w.handlers ==> HandlerOk(w, w.handlers[id])
  }

  predicate Carries(h: Handler, t: seq<byte>) {
    (h.Authorized? || h.Settled?) && h.ticket == t
  }

  /** No ticket serves two approve requests. */
  ghost predicate HandlersApart(w: World) {
    forall i, j :: i in w.handlers && j in w.handlers && i != j && (w.handlers[j].Authorized? || w.handlers[j].Settled?) ==>
      !Carries(w.handlers[i], w.handlers[j].ticket)
  }

  predicate SettledBy(w: World, id: nat, c: string) {
    id in w.handlers && w.handlers[id].Settled? && w.handlers[id].win == Some(c)
  }

  ghost predicate ApprovedOk(w: World) {
    forall c :: c in w.db.claims && w.db.claims[c].status == Approved ==> exists id :: SettledBy(w, id, c)
  }

  ghost predicate Safe(rules: Rules, w: World) {
    && LifetimesOk(w.auth) && KeysHeld(rules, w) && ProofsOk(w) && ChallengesApart(w) && TicketsHeld(w) && AcceptedOk(w)
    && HandlersOk(w) && HandlersApart(w) && ApprovedOk(w)
  }

  // ----- each move keeps it -----

  lemma PinnedKeyStays(db: Tables, s: Tables, scope: Scope)
    requires KeysPinned(db, s) && RegisteredKey(db, scope).Some?
    ensures RegisteredKey(s, scope) == RegisteredKey(db, scope)
  {
  }

  lemma KeysStayHeld(rules: Rules, w: World, n: World, m: Move)
    requires KeysHeld(rules, w) && ProofsAdvance(rules, w, n, m) && KeysPinned(w.db, n.db)
    ensures KeysHeld(rules, n)
  {
    forall id | id in n.proofs && !n.proofs[id].Dropped? ensures KeyHeld(rules, n.db, n.proofs[id]) {
      PinnedKeyStays(w.db, n.db, n.proofs[id].challenge.scope);
    }
  }

  lemma ProofStays(a: AuthTables, b: AuthTables, p: Proof)
    requires AuthMoves(a, b) && ProofOk(a, p)
    ensures ProofOk(b, p)
  {
  }

  lemma ProofsStayOk(rules: Rules, w: World, n: World, m: Move)
    requires ProofsOk(w) && ProofsAdvance(rules, w, n, m) && AuthMoves(w.auth, n.auth)
    ensures ProofsOk(n)
  {
    forall id | id in n.proofs ensures ProofOk(n.auth, n.proofs[id]) {
      if id in w.proofs {
        ProofStays(w.auth, n.auth, w.proofs[id]);
      }
    }
  }

  /** A row already consumed for one proof cannot be consumed for another. */
  lemma ChallengesStayApart(rules: Rules, w: World, n: World, m: Move)
    requires ProofsOk(w) && ChallengesApart(w) && ProofsAdvance(rules, w, n, m)
    ensures ChallengesApart(n)
  {
    forall i, j | i in n.proofs && j in n.proofs && i != j && (n.proofs[j].Spent? || n.proofs[j].Ticketed?)
      ensures !HoldsChallenge(n.proofs[i], n.proofs[j].challenge.id)
    {
      assert i in w.proofs ==> ProofOk(w.auth, w.proofs[i]) && ProofAdvances(w, n, w.proofs[i], n.proofs[i]);
      assert j in w.proofs ==> ProofOk(w.auth, w.proofs[j]) && ProofAdvances(w, n, w.proofs[j], n.proofs[j]);
    }
  }

  lemma TicketsStayHeld(rules: Rules, w: World, m: Move)
    requires MoveOk(rules, w, m) && TicketsHeld(w)
    ensures TicketsHeld(Next(rules, w, m))
  {
    var n := Next(rules, w, m);
    NextProofsAdvance(rules, w, m);
    forall t | t in n.auth.tickets ensures exists id :: HoldsTicket(n, id, t) {
      if t in w.auth.tickets {
        var id :| HoldsTicket(w, id, t);
        assert HoldsTicket(n, id, t);
      } else {
        NewTicket(rules, w, m, t);
        assert HoldsTicket(n, m.id, t);
      }
    }
  }

  lemma AcceptedStaysOk(rules: Rules, w: World, m: Move)
    requires AcceptedOk(w)
    ensures AcceptedOk(Next(rules, w, m))
  {
    NextAuthMoves(rules, w, m);
    NextAccepts(rules, w, m);
    AcceptedGrows(w, Next(rules, w, m));
  }

  lemma AcceptedGrows(w: World, n: World)
    requires AcceptedOk(w) && AuthMoves(w.auth, n.auth)
    requires || n.accepted == w.accepted
             || (|n.accepted| == |w.accepted| + 1 && n.accepted[..|w.accepted|] == w.accepted
                 && NewAcceptanceOk(w, n, n.accepted[|w.accepted|]))
    ensures AcceptedOk(n)
  {
    forall k | 0 <= k < |n.accepted| ensures AcceptanceOk(n.auth, n.accepted[k]) {
      assert k < |w.accepted| ==> n.accepted[k] == w.accepted[k] && AcceptanceOk(w.auth, w.accepted[k]);
    }
    forall j, k | 0 <= j < k < |n.accepted| ensures n.accepted[j].ticket != n.accepted[k].ticket {
      assert n.accepted[j] == w.accepted[j] && AcceptanceOk(w.auth, w.accepted[j]);
      assert k < |w.accepted| ==> n.accepted[k] == w.accepted[k];
    }
  }

  lemma HandlerStays(w: World, n: World, win: Option<string>, h: Handler)
    requires AuthMoves(w.auth, n.auth) && ClaimsMove(w.db, n.db, win) && HandlerOk(w, h)
    ensures HandlerOk(n, h)
  {
  }

  lemma HandlersStayOk(rules: Rules, w: World, n: World, m: Move)
    requires HandlersOk(w) && HandlersAdvance(rules, w, n, m) && AuthMoves(w.auth, n.auth)
    requires ClaimsMove(w.db, n.db, MoveWinner(rules, w, m))
    ensures HandlersOk(n)
  {
    forall id | id in n.handlers ensures HandlerOk(n, n.handlers[id]) {
      if id in w.handlers {
        HandlerStays(w, n, MoveWinner(rules, w, m), w.handlers[id]);
        assert HandlerAdvances(rules, w, n, m, w.handlers[id], n.handlers[id]);
      }
    }
  }

  lemma HandlersStayApart(rules: Rules, w: World, n: World, m: Move)
    requires HandlersOk(w) && HandlersApart(w) && HandlersAdvance(rules, w, n, m)
    ensures HandlersApart(n)
  {
    forall i, j | i in n.handlers && j in n.handlers && i != j && (n.handlers[j].Authorized? || n.handlers[j].Settled?)
      ensures !Carries(n.handlers[i], n.handlers[j].ticket)
    {
      assert i in w.handlers ==> HandlerOk(w, w.handlers[i]) && HandlerAdvances(rules, w, n, m, w.handlers[i], n.handlers[i]);
      assert j in w.handlers ==> HandlerOk(w, w.handlers[j]) && HandlerAdvances(rules, w, n, m, w.handlers[j], n.handlers[j]);
    }
  }

  lemma SettlementsStay(rules: Rules, w: World, n: World, m: Move)
    requires HandlersAdvance(rules, w, n, m)
    ensures forall id, c :: SettledBy(w, id, c) ==> SettledBy(n, id, c)
  {
    forall id, c | SettledBy(w, id, c) ensures SettledBy(n, id, c) {
      assert HandlerAdvances(rules, w, n, m, w.handlers[id], n.handlers[id]);
    }
  }

  lemma NewlyApproved(w: World, n: World, win: Option<string>)
    requires ApprovedOk(w) && ClaimsMove(w.db, n.db, win)
    requires forall id, c :: SettledBy(w, id, c) ==> SettledBy(n, id, c)
    requires win.Some? ==> exists id :: SettledBy(n, id, win.value)
    ensures ApprovedOk(n)
  {
    forall c | c in n.db.claims && n.db.claims[c].status == Approved ensures exists id :: SettledBy(n, id, c) {
      if c in w.db.claims && w.db.claims[c].status == Approved {
        var id :| SettledBy(w, id, c);
        assert SettledBy(n, id, c);
      } else {
        assert win == Some(c);
      }
    }
  }

  lemma ApprovedStaysOk(rules: Rules, w: World, m: Move)
    requires MoveOk(rules, w, m) && ApprovedOk(w)
    ensures ApprovedOk(Next(rules, w, m))
  {
    var n := Next(rules, w, m);
    NextMoves(rules, w, m);
    NextHandlersAdvance(rules, w, m);
    var win := MoveWinner(rules, w, m);
    if win.Some? {
      WinnerSettles(rules, w, m);
      assert SettledBy(n, m.id, win.value);
    }
    SettlementsStay(rules, w, n, m);
    NewlyApproved(w, n, win);
  }

  lemma NextIsSafe(rules: Rules, w: World, m: Move)
    requires MoveOk(rules, w, m) && Safe(rules, w)
    ensures Safe(rules, Next(rules, w, m))
  {
    var n := Next(rules, w, m);
    NextMoves(rules, w, m);
    NextAuthMoves(rules, w, m);
    NextProofsAdvance(rules, w, m);
    NextHandlersAdvance(rules, w, m);
    LifetimesStayOk(rules, w, m);
    KeysStayHeld(rules, w, n, m);
    ProofsStayOk(rules, w, n, m);
    ChallengesStayApart(rules, w, n, m);
    TicketsStayHeld(rules, w, m);
    AcceptedStaysOk(rules, w, m);
    HandlersStayOk(rules, w, n, m);
    HandlersStayApart(rules, w, n, m);
    ApprovedStaysOk(rules, w, m);
  }

  lemma {:induction false} RunIsSafe(rules: Rules, worlds: seq<World>, moves: seq<Move>, i: nat)
    requires IsRun(rules, worlds, moves) && i < |worlds|
    ensures Safe(rules, worlds[i])
  {
    if i > 0 {
      RunIsSafe(rules, worlds, moves, i - 1);
      assert IsStep(rules, worlds, moves, i - 1);
      NextIsSafe(rules, worlds[i - 1], moves[i - 1]);
    }
  }

  // ----- the theorems -----

  lemma StepAuthMoves(rules: Rules, worlds: seq<World>, moves: seq<Move>, i: nat)
    requires IsRun(rules, worlds, moves) && i < |moves|
    ensures AuthMoves(worlds[i].auth, worlds[i + 1].auth)
  {
    assert IsStep(rules, worlds, moves, i);
    NextAuthMoves(rules, worlds[i], moves[i]);
  }

  lemma AuthMovesCompose(a: AuthTables, b: AuthTables, c: AuthTables)
    requires AuthMoves(a, b) && AuthMoves(b, c)
    ensures AuthMoves(a, c)
  {
  }

  /** Over any stretch of a run rows are only added, and what is consumed stays consumed. */
  lemma {:induction false} RunAuthMoves(rules: Rules, worlds: seq<World>, moves: seq<Move>, i: nat, j: nat)
    requires IsRun(rules, worlds, moves) && i <= j < |worlds|
    ensures AuthMoves(worlds[i].auth, worlds[j].auth)
  {
    if i < j {
      RunAuthMoves(rules, worlds, moves, i, j - 1);
      StepAuthMoves(rules, worlds, moves, j - 1);
      AuthMovesCompose(worlds[i].auth, worlds[j - 1].auth, worlds[j].auth);
    }
  }

  lemma StepPinsKeys(rules: Rules, worlds: seq<World>, moves: seq<Move>, i: nat)
    requires IsRun(rules, worlds, moves) && i < |moves|
    ensures KeysPinned(worlds[i].db, worlds[i + 1].db)
  {
    assert IsStep(rules, worlds, moves, i);
    NextMoves(rules, worlds[i], moves[i]);
  }

  /** Once registered, a subject's key is the same for the rest of the run. */
  lemma {:induction false} KeysNeverChange(rules: Rules, worlds: seq<World>, moves: seq<Move>, i: nat, j: nat, scope: Scope)
    requires IsRun(rules, worlds, moves) && i <= j < |worlds| && RegisteredKey(worlds[i].db, scope).Some?
    ensures RegisteredKey(worlds[j].db, scope) == RegisteredKey(worlds[i].db, scope)
  {
    if i < j {
      KeysNeverChange(rules, worlds, moves, i, j - 1, scope);
      StepPinsKeys(rules, worlds, moves, j - 1);
      PinnedKeyStays(worlds[j - 1].db, worlds[j].db, scope);
    }
  }

  /** When a challenge row is consumed, the key its proof was verified under is at that
      instant still the registered key of an active subject. */
  lemma SpentUnderActiveKey(rules: Rules, worlds: seq<World>, moves: seq<Move>, i: nat, id: nat)
    requires IsRun(rules, worlds, moves) && i < |moves|
    requires id in worlds[i + 1].proofs && worlds[i + 1].proofs[id].Spent?
    requires id in worlds[i].proofs ==> !worlds[i].proofs[id].Spent?
    ensures var p := worlds[i + 1].proofs[id];
            && ActiveKey(worlds[i].db, p.challenge.scope) == Some(p.key) && p.key != ""
            && rules.check(p.challenge, p.key, p.signature)
            && Unspent(worlds[i].auth, p.challenge) && SpentFor(worlds[i + 1].auth, p.challenge, p.hash, p.now)
  {
    RunIsSafe(rules, worlds, moves, i);
    assert IsStep(rules, worlds, moves, i);
    NextProofsAdvance(rules, worlds[i], moves[i]);
    assert ProofAdvances(worlds[i], worlds[i + 1], worlds[i].proofs[id], worlds[i + 1].proofs[id]);
  }

  /** The proof behind a ticket row. */
  ghost function ProofOf(w: World, t: seq<byte>): (id: nat)
    requires TicketsHeld(w) && t in w.auth.tickets
    ensures HoldsTicket(w, id, t)
  {
    var id :| HoldsTicket(w, id, t);
    id
  }

  ghost predicate Injective<A(!new), B>(f: map<A, B>) {
    forall a, b :: a in f && b in f && f[a] == f[b] ==> a == b
  }

  /** A ticket row and the consumed challenge row it was minted for. */
  predicate Backs(auth: AuthTables, c: string, t: seq<byte>) {
    && c in auth.challenges && t in auth.tickets
    && auth.challenges[c].scope == auth.tickets[t].scope
    && auth.challenges[c].consumedAt == Some(auth.tickets[t].issuedAt)
    && auth.challenges[c].issuedAt <= auth.tickets[t].issuedAt < auth.challenges[c].issuedAt + MAX_LIFETIME
    && auth.tickets[t].expiresAt == auth.tickets[t].issuedAt + MAX_LIFETIME
  }

  /** From tickets to the challenges they were minted for. */
  ghost function Origins(w: World): map<seq<byte>, string>
    requires TicketsHeld(w)
  {
    map t | t in w.auth.tickets :: w.proofs[ProofOf(w, t)].challenge.id
  }

  /** Ticket rows map one-to-one into consumed challenge rows of the same scope. */
  ghost predicate BackingMap(auth: AuthTables, f: map<seq<byte>, string>) {
    f.Keys == auth.tickets.Keys && Injective(f) && forall t :: t in f ==> Backs(auth, f[t], t)
  }

  ghost predicate TicketsBacked(auth: AuthTables) {
    exists f :: BackingMap(auth, f)
  }

  lemma OriginsBack(w: World)
    requires LifetimesOk(w.auth) && ProofsOk(w) && TicketsHeld(w)
    ensures forall t :: t in Origins(w) ==> Backs(w.auth, Origins(w)[t], t)
  {
    forall t | t in Origins(w) ensures Backs(w.auth, Origins(w)[t], t) {
      assert ProofOk(w.auth, w.proofs[ProofOf(w, t)]);
    }
  }

  lemma OriginsApart(w: World)
    requires ChallengesApart(w) && TicketsHeld(w)
    ensures Injective(Origins(w))
  {
    var f := Origins(w);
    forall a, b | a in f && b in f && f[a] == f[b] ensures a == b {
      var p, q := ProofOf(w, a), ProofOf(w, b);
      assert HoldsChallenge(w.proofs[p], w.proofs[q].challenge.id);
    }
  }

  lemma SafeTickets(rules: Rules, w: World)
    requires Safe(rules, w)
    ensures TicketsBacked(w.auth)
  {
    OriginsBack(w);
    OriginsApart(w);
    assert BackingMap(w.auth, Origins(w));
  }

  /** In every reachable state each ticket stands on its own consumed challenge. */
  lemma TicketsComeFromChallenges(rules: Rules, worlds: seq<World>, moves: seq<Move>, i: nat)
    requires IsRun(rules, worlds, moves) && i < |worlds|
    ensures TicketsBacked(worlds[i].auth)
  {
    RunIsSafe(rules, worlds, moves, i);
    SafeTickets(rules, worlds[i]);
  }

  /** Each ticket is accepted at most once, for the scope it was minted for, and less than
      two minutes after the challenge behind it was issued. */
  lemma AcceptedOnceInTime(rules: Rules, worlds: seq<World>, moves: seq<Move>, i: nat, k: nat)
    requires IsRun(rules, worlds, moves) && i < |worlds| && k < |worlds[i].accepted|
    ensures var w := worlds[i]; var a := w.accepted[k];
            && (forall j :: 0 <= j < |w.accepted| && w.accepted[j].ticket == a.ticket ==> j == k)
            && exists c :: Backs(w.auth, c, a.ticket) && a.scope == w.auth.challenges[c].scope
                           && a.now < w.auth.challenges[c].issuedAt as int + 120_000
  {
    RunIsSafe(rules, worlds, moves, i);
    var w := worlds[i];
    var a := w.accepted[k];
    assert AcceptanceOk(w.auth, a);
    var p := w.proofs[ProofOf(w, a.ticket)];
    assert ProofOk(w.auth, p);
    assert Backs(w.auth, p.challenge.id, a.ticket);
  }

  /** A ticket is accepted only while its subject is active: tenant enabled, host up, and for
      a device subject the device approved and not revoked. */
  lemma AcceptedWhileActive(rules: Rules, worlds: seq<World>, moves: seq<Move>, i: nat)
    requires IsRun(rules, worlds, moves) && i < |moves| && worlds[i + 1].accepted != worlds[i].accepted
    ensures |worlds[i + 1].accepted| == |worlds[i].accepted| + 1
    ensures SubjectActive(worlds[i].db, worlds[i + 1].accepted[|worlds[i].accepted|].scope)
  {
    assert IsStep(rules, worlds, moves, i);
    NextAccepts(rules, worlds[i], moves[i]);
  }

  ghost function HandlerOf(w: World, c: string): (id: nat)
    requires ApprovedOk(w) && c in w.db.claims && w.db.claims[c].status == Approved
    ensures SettledBy(w, id, c)
  {
    var id :| SettledBy(w, id, c);
    id
  }

  /** The scope of the ticket that the approval of a claim costs. */
  function ApprovalScope(c: ClaimRow): Scope {
    HostScope(c.tenant, c.host, c.device, CLAIM_APPROVE)
  }

  ghost function ApprovedClaims(db: Tables): set<string> {
    set c | c in db.claims && db.claims[c].status == Approved
  }

  ghost function ApprovalTickets(w: World): map<string, seq<byte>>
    requires ApprovedOk(w)
  {
    map c | c in ApprovedClaims(w.db) :: w.handlers[HandlerOf(w, c)].ticket
  }

  /** Every approved claim has its own consumed approve ticket, for the claim's own tenant,
      host and device. */
  ghost predicate TicketMap(w: World, f: map<string, seq<byte>>) {
    && f.Keys == ApprovedClaims(w.db) && Injective(f)
    && forall c :: c in f ==> UsedTicket(w.auth, f[c], ApprovalScope(w.db.claims[c]))
  }

  ghost predicate ApprovalsTicketed(w: World) {
    exists f :: TicketMap(w, f)
  }

  lemma ApprovalTicketsUsed(w: World)
    requires HandlersOk(w) && ApprovedOk(w)
    ensures forall c :: c in ApprovalTickets(w) ==> UsedTicket(w.auth, ApprovalTickets(w)[c], ApprovalScope(w.db.claims[c]))
  {
    var f := ApprovalTickets(w);
    forall c | c in f ensures UsedTicket(w.auth, f[c], ApprovalScope(w.db.claims[c])) {
      assert HandlerOk(w, w.handlers[HandlerOf(w, c)]);
    }
  }

  lemma ApprovalTicketsApart(w: World)
    requires HandlersApart(w) && ApprovedOk(w)
    ensures Injective(ApprovalTickets(w))
  {
    var f := ApprovalTickets(w);
    forall a, b | a in f && b in f && f[a] == f[b] ensures a == b {
      var p, q := HandlerOf(w, a), HandlerOf(w, b);
      assert Carries(w.handlers[p], w.handlers[q].ticket);
    }
  }

  lemma ApprovalsCostTickets(rules: Rules, worlds: seq<World>, moves: seq<Move>, i: nat)
    requires IsRun(rules, worlds, moves) && i < |worlds|
    ensures ApprovalsTicketed(worlds[i])
  {
    RunIsSafe(rules, worlds, moves, i);
    SafeApprovals(rules, worlds[i]);
  }

  /** A finished proof of this scope: its challenge consumed, its signature good under the
      key the subject is registered with. */
  predicate AnswersFor(rules: Rules, w: World, p: Proof, scope: Scope) {
    && p.Ticketed? && p.challenge.scope == scope
    && KeyHeld(rules, w.db, p) && SpentFor(w.auth, p.challenge, p.hash, p.now)
  }

  /** Every approved claim has its own such proof, by its own host, of its own challenge. */
  ghost predicate AnswerMap(rules: Rules, w: World, f: map<string, Proof>) {
    && f.Keys == ApprovedClaims(w.db)
    && (forall c :: c in f ==> AnswersFor(rules, w, f[c], ApprovalScope(w.db.claims[c])))
    && (forall a, b :: a in f && b in f && a != b ==> f[a].challenge.id != f[b].challenge.id)
  }

  ghost function ApprovalProofs(w: World): map<string, Proof>
    requires ApprovedOk(w) && TicketsHeld(w) && TicketMap(w, ApprovalTickets(w))
  {
    map c | c in ApprovalTickets(w) :: TicketProof(w, ApprovalTickets(w)[c])
  }

  ghost function TicketProof(w: World, t: seq<byte>): Proof
    requires TicketsHeld(w)
  {
    if t in w.auth.tickets then w.proofs[ProofOf(w, t)] else Dropped
  }

  lemma ProofAnswers(rules: Rules, w: World, t: seq<byte>, scope: Scope)
    requires Safe(rules, w) && UsedTicket(w.auth, t, scope)
    ensures AnswersFor(rules, w, TicketProof(w, t), scope) && TicketProof(w, t).ticket == t
  {
    assert ProofOk(w.auth, w.proofs[ProofOf(w, t)]);
  }

  lemma ProofsApart(w: World, t: seq<byte>, u: seq<byte>)
    requires ChallengesApart(w) && TicketsHeld(w) && t in w.auth.tickets && u in w.auth.tickets && t != u
    ensures TicketProof(w, t).Ticketed? && TicketProof(w, u).Ticketed?
    ensures TicketProof(w, t).challenge.id != TicketProof(w, u).challenge.id
  {
    var p, q := ProofOf(w, t), ProofOf(w, u);
    assert !HoldsChallenge(w.proofs[p], w.proofs[q].challenge.id);
  }

  lemma ApprovalProofsAnswer(rules: Rules, w: World)
    requires Safe(rules, w) && TicketMap(w, ApprovalTickets(w))
    ensures AnswerMap(rules, w, ApprovalProofs(w))
  {
    var t, f := ApprovalTickets(w), ApprovalProofs(w);
    forall c | c in f ensures AnswersFor(rules, w, f[c], ApprovalScope(w.db.claims[c])) {
      ProofAnswers(rules, w, t[c], ApprovalScope(w.db.claims[c]));
    }
    forall a, b | a in f && b in f && a != b ensures f[a].challenge.id != f[b].challenge.id {
      assert UsedTicket(w.auth, t[a], ApprovalScope(w.db.claims[a])) && UsedTicket(w.auth, t[b], ApprovalScope(w.db.claims[b]));
      ProofsApart(w, t[a], t[b]);
    }
  }

  lemma SafeApprovals(rules: Rules, w: World)
    requires Safe(rules, w)
    ensures TicketMap(w, ApprovalTickets(w)) && AnswerMap(rules, w, ApprovalProofs(w))
  {
    ApprovalTicketsUsed(w);
    ApprovalTicketsApart(w);
    assert TicketMap(w, ApprovalTickets(w));
    ApprovalProofsAnswer(rules, w);
  }

  /** In every reachable state every approved claim stands on its own consumed challenge and
      on a signature over it that is good under the registered key of the claim's own host. */
  lemma ApprovalsCostChallenges(rules: Rules, worlds: seq<World>, moves: seq<Move>, i: nat)
    requires IsRun(rules, worlds, moves) && i < |worlds|
    ensures exists f :: AnswerMap(rules, worlds[i], f)
  {
    RunIsSafe(rules, worlds, moves, i);
    SafeApprovals(rules, worlds[i]);
  }
}

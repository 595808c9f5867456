/** Everything at once: challenge creation, the three statements of Prove, ticket use, the
    three steps of the approve handler and all other pairing operations, interleaved one
    statement at a time. Each move is one database statement or one transaction; a request
    in flight is its program counter and what it has read so far. */
module Protocol {
  import opened Text
  import opened Tables
  import opened Pairing
  import opened PairingSteps
  import opened Transcripts
  import opened Auth
  import PairingRequests

  /** Whether a signature proves a challenge under a key: the check between the first two
      statements of Prove. */
  type Check = (Challenge, string, string) -> bool

  /** The hash and the signature check the relay computes with. */
  datatype Rules = Rules(digest: Digest, check: Check)

  /** A Prove request: its key read and signature verified, its challenge consumed, its ticket
      stored, or given up. `now` is read once, at the start. */
  datatype Proof =
    | Verified(challenge: Challenge, hash: seq<byte>, key: string, signature: string, now: int)
    | Spent(challenge: Challenge, hash: seq<byte>, key: string, signature: string, now: int)
    | Ticketed(challenge: Challenge, hash: seq<byte>, key: string, signature: string, now: int, ticket: seq<byte>)
    | Dropped

  /** An approve request: its claim's device looked up, its ticket consumed, its transaction
      over; `win` is the claim that transaction turned from pending to approved. */
  datatype Handler =
    | LookedUp(request: ApproveRequest, claim: string, device: string)
    | Authorized(request: ApproveRequest, claim: string, device: string, ticket: seq<byte>)
    | Settled(request: ApproveRequest, device: string, ticket: seq<byte>, win: Option<string>)
    | Turned

  /** A ticket that ConsumeTicket let through. */
  datatype Acceptance = Acceptance(ticket: seq<byte>, scope: Scope, now: int)

  datatype World = World(
    db: Tables,
    auth: AuthTables,
    proofs: map<nat, Proof>,
    handlers: map<nat, Handler>,
    accepted: seq<Acceptance>)

  const START := World(EMPTY, AuthTables(map[], map[]), map[], map[], [])

  datatype Move =
    | Pair(action: Action, at: int)
    | Issue(challenge: Challenge, hash: seq<byte>)
    | Verify(id: nat, challenge: Challenge, hash: seq<byte>, key: string, signature: string, at: int)
    | Spend(id: nat)
    | Mint(id: nat, ticket: seq<byte>)
    | Use(ticket: seq<byte>, scope: Scope, at: int)
    | Lookup(id: nat, request: ApproveRequest, tenant: string, host: string, claim: string)
    | Authorize(id: nat, ticket: seq<byte>, at: int)
    | Settle(id: nat, plan: Action, at: int)

  /** What the code between the statements guarantees of the next one: requests validated,
      a challenge issued for sixty seconds, a proof checked against the key just read, a
      transaction for the looked-up claim. Approvals come only from the handler. */
  predicate MoveOk(rules: Rules, w: World, m: Move) {
    match m
    case Pair(a, at) => ActionOk(a, at) && !a.ApproveAction?
    case Issue(c, _) => c.expiresAt as int == c.issuedAt as int + MAX_LIFETIME
    case Verify(id, c, _, key, signature, at) =>
      id !in w.proofs && TimeOk(c, at) && ActiveKey(w.db, c.scope) == Some(key) && rules.check(c, key, signature)
    case Lookup(id, _, _, _, _) => id !in w.handlers
    case Settle(id, plan, _) =>
      && (plan.ApproveAction? || plan.RefuseAction?)
      && (plan.ApproveAction? && ReadyToSettle(w, id) ==>
            plan.request == w.handlers[id].request && plan.request.claim == w.handlers[id].claim)
    case _ => true
  }

  predicate ReadyToSettle(w: World, id: nat) {
    id in w.handlers && w.handlers[id].Authorized?
  }

  function SpendProof(w: World, id: nat): World
    requires id in w.proofs && w.proofs[id].Verified?
  {
    var p := w.proofs[id];
    match SpendChallenge(w.db, w.auth, p.challenge, p.hash, p.now)
    case Some(t) => w.(auth := t, proofs := w.proofs[id := Spent(p.challenge, p.hash, p.key, p.signature, p.now)])
    case None => w.(proofs := w.proofs[id := Dropped])
  }

  function MintTicket(w: World, id: nat, ticket: seq<byte>): World
    requires id in w.proofs && w.proofs[id].Spent?
  {
    var p := w.proofs[id];
    match InsertTicket(w.auth, ticket, p.challenge.scope, p.now)
    case Some(t) => w.(auth := t, proofs := w.proofs[id := Ticketed(p.challenge, p.hash, p.key, p.signature, p.now, ticket)])
    case None => w.(proofs := w.proofs[id := Dropped])
  }

  function UseTicket(w: World, ticket: seq<byte>, scope: Scope, at: int): World {
    match SpendTicket(w.db, w.auth, ticket, scope, at)
    case Some(t) => w.(auth := t, accepted := w.accepted + [Acceptance(ticket, scope, at)])
    case None => w
  }

  function AuthorizeHandler(w: World, id: nat, ticket: seq<byte>, at: int): World
    requires id in w.handlers && w.handlers[id].LookedUp?
  {
    var h := w.handlers[id];
    var scope := HostScope(h.request.tenant, h.request.host, h.device, CLAIM_APPROVE);
    if SpendTicket(w.db, w.auth, ticket, scope, at).Some? then
      UseTicket(w, ticket, scope, at).(handlers := w.handlers[id := Authorized(h.request, h.claim, h.device, ticket)])
    else w.(handlers := w.handlers[id := Turned])
  }

  function SettleHandler(rules: Rules, w: World, id: nat, plan: Action, at: int): World
    requires ReadyToSettle(w, id)
  {
    var h := w.handlers[id];
    w.(db := Execute(rules.digest, w.db, plan, at).db,
       handlers := w.handlers[id := Settled(h.request, h.device, h.ticket, ExecuteWinner(rules.digest, w.db, plan, at))])
  }

  function Next(rules: Rules, w: World, m: Move): World {
    match m
    case Pair(a, at) => w.(db := Execute(rules.digest, w.db, a, at).db)
    case Issue(c, hash) =>
      (match InsertChallenge(w.auth, c, hash)
       case Some(t) => w.(auth := t)
       case None => w)
    case Verify(id, c, hash, key, signature, at) => w.(proofs := w.proofs[id := Verified(c, hash, key, signature, at)])
    case Spend(id) => if id in w.proofs && w.proofs[id].Verified? then SpendProof(w, id) else w
    case Mint(id, ticket) => if id in w.proofs && w.proofs[id].Spent? then MintTicket(w, id, ticket) else w
    case Use(ticket, scope, at) => UseTicket(w, ticket, scope, at)
    case Lookup(id, r, t, h, c) =>
      if ClaimAt(w.db, t, h, c) then w.(handlers := w.handlers[id := LookedUp(r, c, w.db.claims[c].device)]) else w
    case Authorize(id, ticket, at) =>
      if id in w.handlers && w.handlers[id].LookedUp? then AuthorizeHandler(w, id, ticket, at) else w
    case Settle(id, plan, at) => if ReadyToSettle(w, id) then SettleHandler(rules, w, id, plan, at) else w
  }

  ghost predicate IsStep(rules: Rules, worlds: seq<World>, moves: seq<Move>, i: nat)
    requires |worlds| == |moves| + 1 && i < |moves|
  {
    MoveOk(rules, worlds[i], moves[i]) && worlds[i + 1] == Next(rules, worlds[i], moves[i])
  }

  /** A run from the empty store in which every move was admissible when it was made. */
  ghost predicate IsRun(rules: Rules, worlds: seq<World>, moves: seq<Move>) {
    && |worlds| == |moves| + 1 && worlds[0] == START
    && forall i :: 0 <= i < |moves| ==> IsStep(rules, worlds, moves, i)
  }

  /** What a move does to the pairing tables: nothing, or one of their steps. */
  lemma DbAfter(rules: Rules, w: World, m: Move)
    requires MoveOk(rules, w, m)
    ensures m.Pair? ==> Moves(w.db, Next(rules, w, m).db, ExecuteWinner(rules.digest, w.db, m.action, m.at))
    ensures m.Settle? && ReadyToSettle(w, m.id) ==> Moves(w.db, Next(rules, w, m).db, ExecuteWinner(rules.digest, w.db, m.plan, m.at))
    ensures !m.Pair? && !(m.Settle? && ReadyToSettle(w, m.id)) ==> Next(rules, w, m).db == w.db
  {
    if m.Pair? {
      ExecuteMoves(rules.digest, w.db, m.action, m.at);
    } else if m.Settle? && ReadyToSettle(w, m.id) {
      ExecuteMoves(rules.digest, w.db, m.plan, m.at);
    }
  }

  function MoveWinner(rules: Rules, w: World, m: Move): Option<string> {
    if m.Settle? && ReadyToSettle(w, m.id) then ExecuteWinner(rules.digest, w.db, m.plan, m.at) else None
  }

  /** Every move is a pairing step that only the approve handler can win. */
  lemma NextMoves(rules: Rules, w: World, m: Move)
    requires MoveOk(rules, w, m)
    ensures Moves(w.db, Next(rules, w, m).db, MoveWinner(rules, w, m))
  {
    DbAfter(rules, w, m);
    if !m.Pair? && !(m.Settle? && ReadyToSettle(w, m.id)) {
      StandsStill(w.db);
    }
  }

  /** The two moves the approve handler makes around its ticket are admissible ones. */
  lemma HandlerMovesAreOk(rules: Rules, env: PairingRequests.Env, w: World, id: nat, r: ApproveRequest, at: int)
    requires ReadyToSettle(w, id) && w.handlers[id].request == r && w.handlers[id].claim == TrimSpace(r.claim)
    ensures MoveOk(rules, w, Settle(id, PairingRequests.PlanApproval(env, r), at))
  {
    if PairingRequests.ApprovalError(env, r).None? {
      PairingRequests.ApprovalNamesAreTrimmed(env, r);
    }
  }

  // ----- how a move changes what is in flight -----

  predicate SameButConsumed(a: ChallengeRow, b: ChallengeRow) {
    b == a || (a.consumedAt.None? && b == a.(consumedAt := b.consumedAt))
  }

  predicate SameTicket(a: TicketRow, b: TicketRow) {
    b == a || (a.consumedAt.None? && b == a.(consumedAt := b.consumedAt))
  }

  /** Rows are only added, and consumed once. */
  ghost predicate AuthMoves(a: AuthTables, b: AuthTables) {
    && (forall c :: c in a.challenges ==> c in b.challenges && SameButConsumed(a.challenges[c], b.challenges[c]))
    && (forall t :: t in a.tickets ==> t in b.tickets && SameTicket(a.tickets[t], b.tickets[t]))
  }

  lemma NextAuthMoves(rules: Rules, w: World, m: Move)
    ensures AuthMoves(w.auth, Next(rules, w, m).auth)
  {
    match m {
      case Issue(_, _) =>
      case Spend(_) =>
      case Mint(_, _) =>
      case Use(_, _, _) =>
      case Authorize(_, _, _) =>
      case _ => assert Next(rules, w, m).auth == w.auth;
    }
  }

  /** The relay issues challenges for sixty seconds only. */
  ghost predicate LifetimesOk(auth: AuthTables) {
    forall c :: c in auth.challenges ==> auth.challenges[c].expiresAt == auth.challenges[c].issuedAt + MAX_LIFETIME
  }

  lemma LifetimesStayOk(rules: Rules, w: World, m: Move)
    requires MoveOk(rules, w, m) && LifetimesOk(w.auth)
    ensures LifetimesOk(Next(rules, w, m).auth)
  {
    match m {
      case Issue(_, _) =>
      case Spend(_) =>
      case _ => assert Next(rules, w, m).auth.challenges == w.auth.challenges;
    }
  }

  /** A proof's challenge row is there and not yet consumed. */
  predicate Unspent(auth: AuthTables, c: Challenge) {
    c.id in auth.challenges && auth.challenges[c.id].consumedAt.None?
  }

  /** The row issued for exactly this challenge is consumed. */
  predicate SpentFor(auth: AuthTables, c: Challenge, hash: seq<byte>, now: int) {
    c.id in auth.challenges && RowMatches(auth.challenges[c.id], c, hash) && auth.challenges[c.id].consumedAt == Some(now)
  }

  predicate MintedFor(auth: AuthTables, t: seq<byte>, c: Challenge, now: int) {
    && t in auth.tickets && auth.tickets[t].scope == c.scope
    && auth.tickets[t].issuedAt == now && auth.tickets[t].expiresAt == now + MAX_LIFETIME
  }

  /** Verified, then Spent on an unconsumed row, then Ticketed with an unused hash. */
  predicate ProofAdvances(w: World, n: World, p: Proof, q: Proof) {
    || q == p || (!p.Ticketed? && q.Dropped?)
    || (p.Verified? && q == Spent(p.challenge, p.hash, p.key, p.signature, p.now) && Unspent(w.auth, p.challenge)
        && SpentFor(n.auth, p.challenge, p.hash, p.now) && SubjectActive(w.db, p.challenge.scope))
    || (p.Spent? && q.Ticketed? && q == Ticketed(p.challenge, p.hash, p.key, p.signature, p.now, q.ticket) && q.ticket !in w.auth.tickets
        && MintedFor(n.auth, q.ticket, p.challenge, p.now))
  }

  ghost predicate ProofsAdvance(rules: Rules, w: World, n: World, m: Move) {
    && (forall id :: id in w.proofs ==> id in n.proofs && ProofAdvances(w, n, w.proofs[id], n.proofs[id]))
    && (forall id :: id in w.proofs && !((m.Spend? || m.Mint?) && m.id == id) ==> n.proofs[id] == w.proofs[id])
    && (forall id :: id in n.proofs && id !in w.proofs ==>
          m.Verify? && n.proofs[id] == Verified(m.challenge, m.hash, m.key, m.signature, m.at) && MoveOk(rules, w, m))
  }

  lemma SpendAdvances(w: World, id: nat)
    requires id in w.proofs && w.proofs[id].Verified?
    ensures ProofAdvances(w, SpendProof(w, id), w.proofs[id], SpendProof(w, id).proofs[id])
  {
  }

  lemma MintAdvances(w: World, id: nat, ticket: seq<byte>)
    requires id in w.proofs && w.proofs[id].Spent?
    ensures ProofAdvances(w, MintTicket(w, id, ticket), w.proofs[id], MintTicket(w, id, ticket).proofs[id])
  {
  }

  lemma NextProofsAdvance(rules: Rules, w: World, m: Move)
    requires MoveOk(rules, w, m)
    ensures ProofsAdvance(rules, w, Next(rules, w, m), m)
  {
    match m {
      case Verify(_, _, _, _, _, _) =>
      case Spend(id) =>
        if id in w.proofs && w.proofs[id].Verified? {
          SpendAdvances(w, id);
        }
      case Mint(id, ticket) =>
        if id in w.proofs && w.proofs[id].Spent? {
          MintAdvances(w, id, ticket);
        }
      case _ => assert Next(rules, w, m).proofs == w.proofs;
    }
  }

  /** A ticket row appears only for the proof that mints it. */
  lemma NewTicket(rules: Rules, w: World, m: Move, t: seq<byte>)
    requires t in Next(rules, w, m).auth.tickets && t !in w.auth.tickets
    ensures m.Mint? && m.id in Next(rules, w, m).proofs && Next(rules, w, m).proofs[m.id].Ticketed?
    ensures Next(rules, w, m).proofs[m.id].ticket == t
  {
  }

  predicate UsedTicket(auth: AuthTables, t: seq<byte>, scope: Scope) {
    t in auth.tickets && auth.tickets[t].scope == scope && auth.tickets[t].consumedAt.Some?
  }

  predicate FreshTicket(auth: AuthTables, t: seq<byte>) {
    t in auth.tickets && auth.tickets[t].consumedAt.None?
  }

  /** The only new acceptance is of a ticket consumed by this move for an active subject. */
  predicate NewAcceptanceOk(w: World, n: World, a: Acceptance) {
    && FreshTicket(w.auth, a.ticket) && SubjectActive(w.db, a.scope)
    && a.ticket in n.auth.tickets && n.auth.tickets[a.ticket].scope == a.scope
    && n.auth.tickets[a.ticket].consumedAt == Some(a.now) && a.now < n.auth.tickets[a.ticket].expiresAt
  }

  lemma NextAccepts(rules: Rules, w: World, m: Move)
    ensures var n := Next(rules, w, m);
            || n.accepted == w.accepted
            || (|n.accepted| == |w.accepted| + 1 && n.accepted[..|w.accepted|] == w.accepted
                && NewAcceptanceOk(w, n, n.accepted[|w.accepted|]))
  {
  }

  /** LookedUp, then Authorized by a ticket nobody used before, then Settled. */
  predicate HandlerAdvances(rules: Rules, w: World, n: World, m: Move, h: Handler, g: Handler) {
    || g == h || (h.LookedUp? && g.Turned?)
    || (h.LookedUp? && g.Authorized? && g == Authorized(h.request, h.claim, h.device, g.ticket)
        && FreshTicket(w.auth, g.ticket) && UsedTicket(n.auth, g.ticket, HostScope(h.request.tenant, h.request.host, h.device, CLAIM_APPROVE)))
    || (h.Authorized? && g == Settled(h.request, h.device, h.ticket, MoveWinner(rules, w, m))
        && (g.win.Some? ==> g.win.value == h.claim && ClaimAt(w.db, h.request.tenant, h.request.host, h.claim)))
  }

  ghost predicate HandlersAdvance(rules: Rules, w: World, n: World, m: Move) {
    && (forall id :: id in w.handlers ==> id in n.handlers && HandlerAdvances(rules, w, n, m, w.handlers[id], n.handlers[id]))
    && (forall id :: id in w.handlers && !((m.Authorize? || m.Settle?) && m.id == id) ==> n.handlers[id] == w.handlers[id])
    && (forall id :: id in n.handlers && id !in w.handlers ==>
          && m.Lookup? && n.handlers[id].LookedUp? && n.handlers[id].claim in w.db.claims
          && n.handlers[id].device == w.db.claims[n.handlers[id].claim].device)
  }

  lemma WinnerIsAt(digest: Digest, db: Tables, a: Action, at: int)
    requires a.ApproveAction? && ExecuteWinner(digest, db, a, at).Some?
    ensures ExecuteWinner(digest, db, a, at) == Some(a.request.claim)
    ensures ClaimAt(db, a.request.tenant, a.request.host, a.request.claim)
  {
    var s := Sweep(db, at);
    assert s.claims[a.request.claim] == ExpireClaim(db.claims[a.request.claim], at);
    assert Approve(digest, s, a.request, at).Committed?;
  }

  lemma NextHandlersAdvance(rules: Rules, w: World, m: Move)
    requires MoveOk(rules, w, m)
    ensures HandlersAdvance(rules, w, Next(rules, w, m), m)
  {
    match m {
      case Lookup(_, _, _, _, _) =>
      case Authorize(_, _, _) =>
      case Settle(id, plan, at) =>
        if ReadyToSettle(w, id) && MoveWinner(rules, w, m).Some? {
          WinnerIsAt(rules.digest, w.db, plan, at);
        }
      case _ => assert Next(rules, w, m).handlers == w.handlers;
    }
  }

  lemma WinnerSettles(rules: Rules, w: World, m: Move)
    requires MoveWinner(rules, w, m).Some?
    ensures m.id in Next(rules, w, m).handlers && Next(rules, w, m).handlers[m.id].Settled?
    ensures Next(rules, w, m).handlers[m.id].win == MoveWinner(rules, w, m)
  {
  }
}

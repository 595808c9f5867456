/** Expiry is lazy: overdue rows are marked only when an operation that looks at them
    commits. This module runs the relay beside one where every row expires exactly at its
    expires_at, and shows that no caller can tell, short of one timestamp. */
module EagerExpiry {
  import opened Text
  import opened Tables
  import opened Pairing
  import opened PairingSteps
  import opened PairingInvariants
  import DeviceHistory
  import Hosts

  // ----- the eager relay -----

  function TickClaim(c: ClaimRow, now: int): ClaimRow {
    if c.status == Pending && c.expiresAt <= now then c.(status := Expired, updatedAt := c.expiresAt) else c
  }

  function TickInvite(i: InviteRow, now: int): InviteRow {
    if i.status == Pending && i.expiresAt <= now then i.(status := Expired, consumedAt := Some(i.expiresAt)) else i
  }

  /** The clock reaches `now`: every row due by then has expired at its own instant. */
  function Tick(db: Tables, now: int): Tables {
    db.(claims := map c | c in db.claims :: TickClaim(db.claims[c], now),
        invites := map k | k in db.invites :: TickInvite(db.invites[k], now))
  }

  /** The clock moves whether or not the operation succeeds. */
  function ExecuteEager(digest: Digest, db: Tables, a: Action, now: int): Step {
    match Core(digest, Tick(db, now), a, now)
    case Committed(after, reply) => Step(after, reply)
    case RolledBack(e) => Step(Tick(db, now), Failed(e))
  }

  function RunEager(digest: Digest, db: Tables, calls: seq<Call>): Tables {
    if calls == [] then db
    else ExecuteEager(digest, RunEager(digest, db, calls[..|calls| - 1]), calls[|calls| - 1].action, calls[|calls| - 1].now).db
  }

  ghost predicate Nondecreasing(calls: seq<Call>) {
    forall i, j :: 0 <= i < j < |calls| ==> calls[i].now <= calls[j].now
  }

  // ----- equal up to the time of the sweep -----

  predicate ClaimAlike(x: ClaimRow, y: ClaimRow) {
    x == y || (x.status == Expired && x.(updatedAt := y.updatedAt) == y)
  }

  predicate InviteAlike(x: InviteRow, y: InviteRow) {
    x == y || (x.status == Expired && x.(consumedAt := y.consumedAt) == y)
  }

  ghost predicate Alike(x: Tables, y: Tables) {
    && x.tenants == y.tenants && x.hosts == y.hosts && x.devices == y.devices
    && x.claims.Keys == y.claims.Keys && x.invites.Keys == y.invites.Keys
    && (forall c :: c in x.claims ==> ClaimAlike(x.claims[c], y.claims[c]))
    && (forall k :: k in x.invites ==> InviteAlike(x.invites[k], y.invites[k]))
  }

  predicate ReplyAlike(r: Reply, q: Reply) {
    r == q || (r.Viewed? && q.Viewed? && r.view.status == Expired && r.view.(updatedAt := q.view.updatedAt) == q.view)
  }

  ghost predicate OutcomeAlike(o: Outcome, p: Outcome) {
    match (o, p)
    case (Committed(x, r), Committed(y, q)) => Alike(x, y) && ReplyAlike(r, q)
    case (RolledBack(e), RolledBack(f)) => e == f
    case _ => false
  }

  // ----- actions cannot tell alike tables apart -----

  lemma ApproveAlike(x: Tables, y: Tables, id: string, a: Approval, device: DeviceRow, now: int)
    requires Alike(x, y) && id in x.claims && x.claims[id].status == Pending && InviteOf(x.claims[id]) in x.invites
    requires x.invites[InviteOf(x.claims[id])].status == Pending
    ensures Alike(AfterApproval(x, id, a, device, now), AfterApproval(y, id, a, device, now))
  {
    var s, t := AfterApproval(x, id, a, device, now), AfterApproval(y, id, a, device, now);
    forall c | c in s.claims ensures ClaimAlike(s.claims[c], t.claims[c]) {
      assert ClaimAlike(x.claims[c], y.claims[c]);
    }
  }

  lemma WithdrawAlike(x: Tables, y: Tables, k: InviteKey, given: InviteKey, now: int)
    requires Alike(x, y)
    ensures OutcomeAlike(WithdrawInvite(x, k, given, now), WithdrawInvite(y, k, given, now))
  {
    if WithdrawInvite(x, k, given, now).Committed? {
      var s, t := WithdrawInvite(x, k, given, now).db, WithdrawInvite(y, k, given, now).db;
      forall c | c in s.claims ensures ClaimAlike(s.claims[c], t.claims[c]) {
        assert ClaimAlike(x.claims[c], y.claims[c]);
      }
    }
  }

  lemma PendingAlike(x: Tables, y: Tables, tenant: string, host: string)
    requires Alike(x, y)
    ensures PendingOf(x, tenant, host) == PendingOf(y, tenant, host)
  {
    assert forall c :: c in x.claims ==> ClaimAlike(x.claims[c], y.claims[c]);
  }

  lemma ApproveOutcomeAlike(digest: Digest, x: Tables, y: Tables, r: ApproveRequest, now: int)
    requires Alike(x, y)
    ensures OutcomeAlike(Approve(digest, x, r, now), Approve(digest, y, r, now))
  {
    if ClaimAt(x, r.tenant, r.host, r.claim) {
      var c := x.claims[r.claim];
      assert ClaimAlike(c, y.claims[r.claim]);
      if c.status == Pending && InviteOf(c) in x.invites {
        assert InviteAlike(x.invites[InviteOf(c)], y.invites[InviteOf(c)]);
        var device := UpsertDevice(x.devices, DeviceOf(c), r.approval, now);
        if x.invites[InviteOf(c)].status == Pending && device.Some? {
          ApproveAlike(x, y, r.claim, r.approval, device.value, now);
        }
      }
    } else {
      assert r.claim in y.claims ==> ClaimAlike(x.claims[r.claim], y.claims[r.claim]);
    }
  }

  lemma SubmitAlike(x: Tables, y: Tables, h: ClaimHeader, nonce: string, ciphertext: string, tokenHash: seq<byte>, now: int)
    requires Alike(x, y)
    ensures OutcomeAlike(Submit(x, h, nonce, ciphertext, tokenHash, now), Submit(y, h, nonce, ciphertext, tokenHash, now))
  {
    var k := InviteKey(h.tenant, h.host, h.invite);
    assert k in x.invites ==> InviteAlike(x.invites[k], y.invites[k]);
  }

  /** The same new row for the same claim. */
  lemma ClaimWriteAlike(x: Tables, y: Tables, c: string, row: ClaimRow)
    requires Alike(x, y)
    ensures Alike(x.(claims := x.claims[c := row]), y.(claims := y.claims[c := row]))
  {
  }

  lemma ViewAlike(x: Tables, y: Tables, c: string, tokenHash: seq<byte>)
    requires Alike(x, y)
    ensures OutcomeAlike(View(x, c, tokenHash), View(y, c, tokenHash))
  {
    assert c in x.claims ==> ClaimAlike(x.claims[c], y.claims[c]);
  }

  lemma ClaimAtAlike(x: Tables, y: Tables, t: string, h: string, c: string)
    requires Alike(x, y)
    ensures ClaimAt(x, t, h, c) <==> ClaimAt(y, t, h, c)
    ensures c in x.claims && x.claims[c].status == Pending ==> y.claims[c] == x.claims[c]
    ensures c in x.claims <==> c in y.claims
    ensures c in x.claims ==> ClaimAlike(x.claims[c], y.claims[c])
  {
    assert c in x.claims ==> ClaimAlike(x.claims[c], y.claims[c]);
  }

  lemma RejectAlike(x: Tables, y: Tables, t: string, h: string, c: string, now: int)
    requires Alike(x, y)
    ensures OutcomeAlike(Reject(x, t, h, c, now), Reject(y, t, h, c, now))
  {
    ClaimAtAlike(x, y, t, h, c);
    if c in x.claims {
      ClaimWriteAlike(x, y, c, x.claims[c].(status := Rejected, updatedAt := now));
    }
  }

  lemma CancelAlike(x: Tables, y: Tables, c: string, tokenHash: seq<byte>, now: int)
    requires Alike(x, y)
    ensures OutcomeAlike(Cancel(x, c, tokenHash, now), Cancel(y, c, tokenHash, now))
  {
    ClaimAtAlike(x, y, "", "", c);
    if c in x.claims {
      ClaimWriteAlike(x, y, c, x.claims[c].(status := Cancelled, updatedAt := now));
    }
  }

  lemma InsertAlike(x: Tables, y: Tables, k: InviteKey, now: int, expiresAt: int, active: bool)
    requires Alike(x, y)
    ensures OutcomeAlike(InsertInvite(x, k, now, expiresAt, active), InsertInvite(y, k, now, expiresAt, active))
  {
    assert k in x.invites <==> k in y.invites;
  }

  lemma RevokeAlike(x: Tables, y: Tables, k: DeviceKey)
    requires Alike(x, y)
    ensures OutcomeAlike(Revoke(x, k), Revoke(y, k))
  {
  }

  /** A change outside the pairing tables. */
  lemma HostsAlike(x: Tables, y: Tables, hosts: map<HostKey, HostRow>, tenants: map<string, bool>)
    requires Alike(x, y)
    ensures Alike(x.(hosts := hosts), y.(hosts := hosts)) && Alike(x.(tenants := tenants), y.(tenants := tenants))
  {
  }

  lemma PinAlike(x: Tables, y: Tables, k: HostKey, displayName: string, e: Hosts.Enrollment, tenantEnabled: bool)
    requires Alike(x, y)
    ensures match (Hosts.Pin(x, k, displayName, e, tenantEnabled), Hosts.Pin(y, k, displayName, e, tenantEnabled))
            case (Enrolled(s), Enrolled(t)) => Alike(s, t)
            case (Refused(r), Refused(q)) => r == q
            case _ => false
  {
    if Hosts.Pin(x, k, displayName, e, tenantEnabled).Enrolled? {
      HostsAlike(x, y, Hosts.Pin(x, k, displayName, e, tenantEnabled).db.hosts, x.tenants);
    }
  }

  lemma SweepingCoreAlike(digest: Digest, x: Tables, y: Tables, a: Action, now: int)
    requires Alike(x, y) && Sweeps(a)
    ensures OutcomeAlike(Core(digest, x, a, now), Core(digest, y, a, now))
  {
    match a {
      case ApproveAction(r) => ApproveOutcomeAlike(digest, x, y, r, now);
      case SubmitAction(h, nonce, ciphertext, tokenHash) => SubmitAlike(x, y, h, nonce, ciphertext, tokenHash, now);
      case WithdrawAction(k, given) => WithdrawAlike(x, y, k, given, now);
      case ListAction(t, h) => PendingAlike(x, y, t, h);
      case ViewAction(c, tokenHash) => ViewAlike(x, y, c, tokenHash);
      case RejectAction(t, h, c) => RejectAlike(x, y, t, h, c, now);
      case CancelAction(c, tokenHash) => CancelAlike(x, y, c, tokenHash, now);
    }
  }

  lemma OtherCoreAlike(digest: Digest, x: Tables, y: Tables, a: Action, now: int)
    requires Alike(x, y) && !Sweeps(a)
    ensures OutcomeAlike(Core(digest, x, a, now), Core(digest, y, a, now))
  {
    match a {
      case FindAction(t, h, c) => ClaimAtAlike(x, y, t, h, c);
      case InviteAction(k, expiresAt, active) => InsertAlike(x, y, k, now, expiresAt, active);
      case RevokeAction(k) => RevokeAlike(x, y, k);
      case PinAction(k, displayName, e, tenantEnabled) => PinAlike(x, y, k, displayName, e, tenantEnabled);
      case TenantAction(t, enabled) => HostsAlike(x, y, x.hosts, x.tenants[t := enabled]);
      case RefuseAction(_) =>
    }
  }

  lemma CoreAlike(digest: Digest, x: Tables, y: Tables, a: Action, now: int)
    requires Alike(x, y)
    ensures OutcomeAlike(Core(digest, x, a, now), Core(digest, y, a, now))
  {
    if Sweeps(a) {
      SweepingCoreAlike(digest, x, y, a, now);
    } else {
      OtherCoreAlike(digest, x, y, a, now);
    }
  }

  // ----- moving both clocks -----

  lemma AlikeMovesOn(x: Tables, y: Tables, now: int)
    requires Alike(x, y)
    ensures Alike(Sweep(x, now), Tick(y, now))
  {
    var s, t := Sweep(x, now), Tick(y, now);
    forall c | c in s.claims ensures ClaimAlike(s.claims[c], t.claims[c]) {
      assert ClaimAlike(x.claims[c], y.claims[c]);
    }
    forall k | k in s.invites ensures InviteAlike(s.invites[k], t.invites[k]) {
      assert InviteAlike(x.invites[k], y.invites[k]);
    }
  }

  lemma TickTwice(db: Tables, now: int)
    ensures Tick(Tick(db, now), now) == Tick(db, now)
  {
  }

  /** The two relays agree once the lazy one is swept. */
  ghost predicate Agree(lazy: Tables, eager: Tables, now: int) {
    Alike(Sweep(lazy, now), Tick(eager, now))
  }

  lemma ClaimAgreesLater(x: ClaimRow, y: ClaimRow, before: int, now: int)
    requires before <= now && ClaimAlike(ExpireClaim(x, before), TickClaim(y, before))
    ensures ClaimAlike(ExpireClaim(x, now), TickClaim(y, now))
  {
  }

  lemma InviteAgreesLater(i: InviteRow, j: InviteRow, before: int, now: int)
    requires before <= now && InviteAlike(ExpireInvite(i, before), TickInvite(j, before))
    ensures InviteAlike(ExpireInvite(i, now), TickInvite(j, now))
  {
  }

  /** What it means for swept and ticked tables to be alike, row by row. */
  ghost predicate RowsAgree(lazy: Tables, eager: Tables, now: int) {
    && lazy.tenants == eager.tenants && lazy.hosts == eager.hosts && lazy.devices == eager.devices
    && lazy.claims.Keys == eager.claims.Keys && lazy.invites.Keys == eager.invites.Keys
    && (forall c :: c in lazy.claims ==> ClaimAlike(ExpireClaim(lazy.claims[c], now), TickClaim(eager.claims[c], now)))
    && (forall k :: k in lazy.invites ==> InviteAlike(ExpireInvite(lazy.invites[k], now), TickInvite(eager.invites[k], now)))
  }

  lemma AgreeMeansRows(lazy: Tables, eager: Tables, now: int)
    requires Agree(lazy, eager, now)
    ensures RowsAgree(lazy, eager, now)
  {
    var p, q := Sweep(lazy, now), Tick(eager, now);
    assert p.claims.Keys == lazy.claims.Keys && q.claims.Keys == eager.claims.Keys;
    assert p.invites.Keys == lazy.invites.Keys && q.invites.Keys == eager.invites.Keys;
    forall c | c in lazy.claims ensures ClaimAlike(ExpireClaim(lazy.claims[c], now), TickClaim(eager.claims[c], now)) {
      assert ClaimAlike(p.claims[c], q.claims[c]);
    }
    forall k | k in lazy.invites ensures InviteAlike(ExpireInvite(lazy.invites[k], now), TickInvite(eager.invites[k], now)) {
      assert InviteAlike(p.invites[k], q.invites[k]);
    }
  }

  lemma RowsMeanAgree(lazy: Tables, eager: Tables, now: int)
    requires RowsAgree(lazy, eager, now)
    ensures Agree(lazy, eager, now)
  {
    var p, q := Sweep(lazy, now), Tick(eager, now);
    assert p.claims.Keys == lazy.claims.Keys && q.claims.Keys == eager.claims.Keys;
    assert p.invites.Keys == lazy.invites.Keys && q.invites.Keys == eager.invites.Keys;
  }

  lemma AgreeLater(lazy: Tables, eager: Tables, before: int, now: int)
    requires Agree(lazy, eager, before) && before <= now
    ensures Agree(lazy, eager, now)
  {
    AgreeMeansRows(lazy, eager, before);
    forall c | c in lazy.claims ensures ClaimAlike(ExpireClaim(lazy.claims[c], now), TickClaim(eager.claims[c], now)) {
      ClaimAgreesLater(lazy.claims[c], eager.claims[c], before, now);
    }
    forall k | k in lazy.invites ensures InviteAlike(ExpireInvite(lazy.invites[k], now), TickInvite(eager.invites[k], now)) {
      InviteAgreesLater(lazy.invites[k], eager.invites[k], before, now);
    }
    RowsMeanAgree(lazy, eager, now);
  }

  lemma UnsweptInvite(db: Tables, k: InviteKey, now: int, expiresAt: int, active: bool)
    requires now < expiresAt
    ensures match InsertInvite(db, k, now, expiresAt, active)
            case RolledBack(e) => InsertInvite(Sweep(db, now), k, now, expiresAt, active) == RolledBack(e)
            case Committed(after, reply) => InsertInvite(Sweep(db, now), k, now, expiresAt, active) == Committed(Sweep(after, now), reply)
  {
    var row := InviteRow(Pending, now, expiresAt, None);
    assert Sweep(db.(invites := db.invites[k := row]), now).invites == Sweep(db, now).invites[k := row];
  }

  /** An operation that does not sweep does not look at what a sweep changes. */
  lemma UnsweptCore(digest: Digest, db: Tables, a: Action, now: int)
    requires !Sweeps(a) && ActionOk(a, now)
    ensures match Core(digest, db, a, now)
            case RolledBack(e) => Core(digest, Sweep(db, now), a, now) == RolledBack(e)
            case Committed(after, reply) => Core(digest, Sweep(db, now), a, now) == Committed(Sweep(after, now), reply)
  {
    match a {
      case InviteAction(k, expiresAt, active) => UnsweptInvite(db, k, now, expiresAt, active);
      case FindAction(t, h, c) =>
        assert c in db.claims ==> Sweep(db, now).claims[c] == ExpireClaim(db.claims[c], now);
      case _ =>
    }
  }

  /** One call on both: replies alike, and agreement restored, even when the call fails and
      the lazy relay throws its sweep away. */
  lemma StepAgrees(digest: Digest, lazy: Tables, eager: Tables, a: Action, now: int)
    requires Agree(lazy, eager, now) && ActionOk(a, now)
    ensures ReplyAlike(Execute(digest, lazy, a, now).reply, ExecuteEager(digest, eager, a, now).reply)
    ensures Agree(Execute(digest, lazy, a, now).db, ExecuteEager(digest, eager, a, now).db, now)
  {
    var x, y := Sweep(lazy, now), Tick(eager, now);
    CoreAlike(digest, x, y, a, now);
    TickTwice(eager, now);
    if !Sweeps(a) {
      UnsweptCore(digest, lazy, a, now);
    }
    var after := ExecuteEager(digest, eager, a, now).db;
    if Core(digest, x, a, now).Committed? {
      AlikeMovesOn(Core(digest, x, a, now).db, after, now);
      SweepTwice(Execute(digest, lazy, a, now).db, now);
      if !Sweeps(a) {
        AlikeTwice(Execute(digest, lazy, a, now).db, after, now);
      }
    }
  }

  lemma SweepTwice(db: Tables, now: int)
    ensures Sweep(Sweep(db, now), now) == Sweep(db, now)
  {
  }

  lemma AlikeTwice(x: Tables, y: Tables, now: int)
    requires Alike(Sweep(x, now), y)
    ensures Alike(Sweep(x, now), Tick(y, now))
  {
    SweepTwice(x, now);
    AlikeMovesOn(Sweep(x, now), y, now);
  }

  // ----- whole runs -----

  lemma {:induction false} RunsAgree(digest: Digest, calls: seq<Call>, now: int)
    requires CallsOk(calls) && Nondecreasing(calls)
    requires forall i :: 0 <= i < |calls| ==> calls[i].now <= now
    ensures Agree(Run(digest, EMPTY, calls), RunEager(digest, EMPTY, calls), now)
  {
    if calls != [] {
      var n := |calls| - 1;
      RunsAgree(digest, calls[..n], calls[n].now);
      var lazy, eager := Run(digest, EMPTY, calls[..n]), RunEager(digest, EMPTY, calls[..n]);
      StepAgrees(digest, lazy, eager, calls[n].action, calls[n].now);
      AgreeLater(Run(digest, EMPTY, calls), RunEager(digest, EMPTY, calls), calls[n].now, now);
    }
  }

  /** Lazy expiry refines eager expiry: under a nondecreasing clock, whatever has happened
      before, the next operation gets the reply it would get if rows expired on time, and
      afterwards the tables are the same up to the time stamps of sweeps. */
  lemma LazyRefinesEager(digest: Digest, calls: seq<Call>, a: Action, now: int)
    requires CallsOk(calls) && Nondecreasing(calls) && ActionOk(a, now)
    requires forall i :: 0 <= i < |calls| ==> calls[i].now <= now
    ensures var lazy := Execute(digest, Run(digest, EMPTY, calls), a, now);
            var eager := ExecuteEager(digest, RunEager(digest, EMPTY, calls), a, now);
            ReplyAlike(lazy.reply, eager.reply) && Alike(Sweep(lazy.db, now), Tick(eager.db, now))
  {
    RunsAgree(digest, calls, now);
    StepAgrees(digest, Run(digest, EMPTY, calls), RunEager(digest, EMPTY, calls), a, now);
  }

  // ----- the one visible time stamp -----

  /** In the eager relay an expired claim was last updated when it expired. */
  ghost predicate StampedOnTime(db: Tables) {
    forall c :: c in db.claims && db.claims[c].status == Expired ==> db.claims[c].updatedAt == db.claims[c].expiresAt
  }

  /** A step that leaves expired claims as they are and makes none. */
  ghost predicate ExpiresNothing(db: Tables, s: Tables) {
    forall c :: c in s.claims && s.claims[c].status == Expired ==> c in db.claims && s.claims[c] == db.claims[c]
  }

  lemma ApproveExpiresNothing(digest: Digest, db: Tables, r: ApproveRequest, now: int)
    requires Approve(digest, db, r, now).Committed?
    ensures ExpiresNothing(db, Approve(digest, db, r, now).db)
  {
  }

  lemma WithdrawExpiresNothing(db: Tables, k: InviteKey, given: InviteKey, now: int)
    requires WithdrawInvite(db, k, given, now).Committed?
    ensures ExpiresNothing(db, WithdrawInvite(db, k, given, now).db)
  {
  }

  lemma CoreExpiresNothing(digest: Digest, db: Tables, a: Action, now: int)
    requires Core(digest, db, a, now).Committed?
    ensures ExpiresNothing(db, Core(digest, db, a, now).db)
  {
    match a {
      case ApproveAction(r) => ApproveExpiresNothing(digest, db, r, now);
      case WithdrawAction(k, given) => WithdrawExpiresNothing(db, k, given, now);
      case SubmitAction(_, _, _, _) =>
      case RejectAction(_, _, _) =>
      case CancelAction(_, _) =>
      case RefuseAction(_) =>
      case _ => assert Core(digest, db, a, now).db.claims == db.claims;
    }
  }

  lemma {:induction false} EagerStamps(digest: Digest, calls: seq<Call>)
    requires CallsOk(calls)
    ensures StampedOnTime(RunEager(digest, EMPTY, calls))
  {
    if calls != [] {
      var n := |calls| - 1;
      var db := RunEager(digest, EMPTY, calls[..n]);
      EagerStamps(digest, calls[..n]);
      assert StampedOnTime(Tick(db, calls[n].now));
      if Core(digest, Tick(db, calls[n].now), calls[n].action, calls[n].now).Committed? {
        CoreExpiresNothing(digest, Tick(db, calls[n].now), calls[n].action, calls[n].now);
      }
    }
  }

  /** A claim that has expired but was, or will now be, stamped later than that. */
  predicate StampedLate(c: ClaimRow, now: int) {
    (c.status == Pending && c.expiresAt < now) || (c.status == Expired && c.updatedAt != c.expiresAt)
  }

  /** The reading of such a claim. */
  predicate LateStamp(db: Tables, a: Action, now: int) {
    a.ViewAction? && a.claim in db.claims && db.claims[a.claim].tokenHash == a.tokenHash && StampedLate(db.claims[a.claim], now)
  }

  lemma RowViews(id: string, x: ClaimRow, y: ClaimRow, now: int)
    requires ClaimAlike(ExpireClaim(x, now), TickClaim(y, now))
    requires y.status == Expired ==> y.updatedAt == y.expiresAt
    ensures x.tokenHash == y.tokenHash
    ensures ViewOf(id, ExpireClaim(x, now)) == ViewOf(id, TickClaim(y, now)) <==> !StampedLate(x, now)
  {
  }

  lemma ViewReplies(digest: Digest, lazy: Tables, eager: Tables, c: string, tokenHash: seq<byte>, now: int)
    requires Agree(lazy, eager, now) && StampedOnTime(eager)
    ensures var l := Execute(digest, lazy, ViewAction(c, tokenHash), now);
            var e := ExecuteEager(digest, eager, ViewAction(c, tokenHash), now);
            l.reply == e.reply <==> !LateStamp(lazy, ViewAction(c, tokenHash), now)
  {
    var x, y := Sweep(lazy, now), Tick(eager, now);
    if c in lazy.claims {
      assert c in x.claims && c in y.claims && c in eager.claims;
      assert ClaimAlike(x.claims[c], y.claims[c]);
      RowViews(c, lazy.claims[c], eager.claims[c], now);
    } else {
      assert c !in x.claims && c !in y.claims;
    }
  }

  /** The replies are equal outright except for one field in one case: reading an expired
      claim shows when the expiry was noticed, not when it happened. */
  lemma RepliesEqualUnlessLate(digest: Digest, calls: seq<Call>, a: Action, now: int)
    requires CallsOk(calls) && Nondecreasing(calls) && ActionOk(a, now)
    requires forall i :: 0 <= i < |calls| ==> calls[i].now <= now
    ensures var lazy := Execute(digest, Run(digest, EMPTY, calls), a, now);
            var eager := ExecuteEager(digest, RunEager(digest, EMPTY, calls), a, now);
            lazy.reply == eager.reply <==> !LateStamp(Run(digest, EMPTY, calls), a, now)
  {
    var lazy, eager := Run(digest, EMPTY, calls), RunEager(digest, EMPTY, calls);
    RunsAgree(digest, calls, now);
    EagerStamps(digest, calls);
    StepAgrees(digest, lazy, eager, a, now);
    if a.ViewAction? {
      ViewReplies(digest, lazy, eager, a.claim, a.tokenHash, now);
    } else {
      OnlyViewsView(digest, lazy, a, now);
    }
  }

  lemma OnlyViewsView(digest: Digest, db: Tables, a: Action, now: int)
    requires !a.ViewAction?
    ensures !Execute(digest, db, a, now).reply.Viewed?
  {
  }

  // ----- approvals in time -----

  /** Invites are created, and claims approved, no later than the clock has come. */
  ghost predicate ClockOk(db: Tables, now: int) {
    && (forall k :: k in db.invites ==> db.invites[k].createdAt <= now)
    && (forall c :: c in db.claims && db.claims[c].status == Approved && InviteOf(db.claims[c]) in db.invites ==>
          db.invites[InviteOf(db.claims[c])].createdAt <= db.claims[c].updatedAt)
  }

  lemma NewInvitesAreNow(digest: Digest, db: Tables, a: Action, now: int)
    ensures var s := Execute(digest, db, a, now).db;
            forall k :: k in s.invites && k !in db.invites ==> s.invites[k].createdAt == now
  {
    assert Sweep(db, now).invites.Keys == db.invites.Keys;
  }

  lemma MovesKeepClock(db: Tables, s: Tables, win: Option<string>, before: int, now: int)
    requires ClockOk(db, before) && before <= now && RowsOk(db)
    requires ClaimsMove(db, s, win) && InvitesMove(db, s, WonInvite(db, win))
    requires forall k :: k in s.invites && k !in db.invites ==> s.invites[k].createdAt == now
    requires win.Some? && win.value in s.claims ==> s.claims[win.value].updatedAt == now
    ensures ClockOk(s, now)
  {
    forall c | c in s.claims && s.claims[c].status == Approved && InviteOf(s.claims[c]) in s.invites
      ensures s.invites[InviteOf(s.claims[c])].createdAt <= s.claims[c].updatedAt
    {
      assert c in db.claims && InviteOf(db.claims[c]) in db.invites;
    }
  }

  lemma StepKeepsClock(digest: Digest, db: Tables, a: Action, before: int, now: int)
    requires ClockOk(db, before) && before <= now && ActionOk(a, now) && RowsOk(db)
    ensures ClockOk(Execute(digest, db, a, now).db, now)
  {
    ExecuteMoves(digest, db, a, now);
    NewInvitesAreNow(digest, db, a, now);
    DeviceHistory.ActionHappens(digest, db, a, now);
    MovesKeepClock(db, Execute(digest, db, a, now).db, ExecuteWinner(digest, db, a, now), before, now);
  }

  lemma {:induction false} RunKeepsClock(digest: Digest, calls: seq<Call>, now: int)
    requires CallsOk(calls) && Nondecreasing(calls)
    requires forall i :: 0 <= i < |calls| ==> calls[i].now <= now
    ensures ClockOk(Run(digest, EMPTY, calls), now)
  {
    if calls != [] {
      var n := |calls| - 1;
      RunKeepsClock(digest, calls[..n], calls[n].now);
      ReachableInv(digest, calls[..n]);
      StepKeepsClock(digest, Run(digest, EMPTY, calls[..n]), calls[n].action, calls[n].now, calls[n].now);
    }
  }

  /** Every approval falls within the ten minutes that follow its invite's creation. */
  lemma ApprovalsAreTimely(digest: Digest, calls: seq<Call>, c: string)
    requires CallsOk(calls) && Nondecreasing(calls)
    requires var db := Run(digest, EMPTY, calls); c in db.claims && db.claims[c].status == Approved
    ensures var db := Run(digest, EMPTY, calls);
            && InviteOf(db.claims[c]) in db.invites
            && 0 <= db.claims[c].updatedAt - db.invites[InviteOf(db.claims[c])].createdAt < MAX_INVITE_MILLIS
  {
    ApprovedInTime(digest, calls, c);
    if calls != [] {
      RunKeepsClock(digest, calls, calls[|calls| - 1].now);
    }
  }
}

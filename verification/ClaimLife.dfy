/** How a claim or an invite leaves the pending state: one cause for each end, and no
    other way out. */
module ClaimLife {
  import opened Tables
  import opened Pairing
  import opened PairingSteps

  /** The end this action brings to a pending claim, given that the action commits. */
  function ClaimEnd(db: Tables, a: Action, now: int, c: string): Status
    requires c in db.claims
  {
    var row := db.claims[c];
    if Sweeps(a) && row.expiresAt <= now then Expired
    else
      match a
      case ApproveAction(r) =>
        if c == r.claim then Approved
        else if r.claim in db.claims && db.claims[r.claim].status == Pending && InviteOf(db.claims[r.claim]) == InviteOf(row)
        then Consumed
        else Pending
      case RejectAction(_, _, claim) => if c == claim then Rejected else Pending
      case CancelAction(claim, _) => if c == claim then Cancelled else Pending
      case WithdrawAction(_, given) => if InviteOf(row) == given then Cancelled else Pending
      case _ => Pending
  }

  /** The end this action brings to a pending invite, given that it commits. */
  function InviteEnd(db: Tables, a: Action, now: int, k: InviteKey): Status
    requires k in db.invites
  {
    if Sweeps(a) && db.invites[k].expiresAt <= now then Expired
    else
      match a
      case ApproveAction(r) =>
        if r.claim in db.claims && db.claims[r.claim].status == Pending && InviteOf(db.claims[r.claim]) == k then Consumed else Pending
      case WithdrawAction(invite, _) => if k == invite then Cancelled else Pending
      case _ => Pending
  }

  predicate Commits(digest: Digest, db: Tables, a: Action, now: int) {
    Core(digest, if Sweeps(a) then Sweep(db, now) else db, a, now).Committed?
  }

  /** An action with no business with claims and invites leaves their statuses alone. */
  predicate LeavesClaims(a: Action) {
    !(a.ApproveAction? || a.RejectAction? || a.CancelAction? || a.WithdrawAction?)
  }

  lemma ApproveEnds(digest: Digest, db: Tables, r: ApproveRequest, now: int, c: string)
    requires Commits(digest, db, ApproveAction(r), now) && c in db.claims && db.claims[c].status == Pending
    ensures var s := Execute(digest, db, ApproveAction(r), now).db;
            c in s.claims && s.claims[c].status == ClaimEnd(db, ApproveAction(r), now, c)
  {
    var b := Sweep(db, now);
    assert b.claims[c] == ExpireClaim(db.claims[c], now);
    assert b.claims[r.claim] == ExpireClaim(db.claims[r.claim], now);
  }

  lemma ApproveEndsInvite(digest: Digest, db: Tables, r: ApproveRequest, now: int, k: InviteKey)
    requires Commits(digest, db, ApproveAction(r), now) && k in db.invites && db.invites[k].status == Pending
    ensures var s := Execute(digest, db, ApproveAction(r), now).db;
            k in s.invites && s.invites[k].status == InviteEnd(db, ApproveAction(r), now, k)
  {
    var b := Sweep(db, now);
    assert b.invites[k] == ExpireInvite(db.invites[k], now);
    assert b.claims[r.claim] == ExpireClaim(db.claims[r.claim], now);
  }

  lemma RefusalEnds(digest: Digest, db: Tables, a: Action, now: int, c: string)
    requires a.RejectAction? || a.CancelAction? || a.WithdrawAction?
    requires Commits(digest, db, a, now) && c in db.claims && db.claims[c].status == Pending
    ensures var s := Execute(digest, db, a, now).db;
            c in s.claims && s.claims[c].status == ClaimEnd(db, a, now, c)
  {
    assert Sweep(db, now).claims[c] == ExpireClaim(db.claims[c], now);
  }

  lemma OtherEnds(digest: Digest, db: Tables, a: Action, now: int, c: string)
    requires LeavesClaims(a) && Commits(digest, db, a, now) && c in db.claims && db.claims[c].status == Pending
    ensures var s := Execute(digest, db, a, now).db;
            c in s.claims && s.claims[c].status == ClaimEnd(db, a, now, c)
  {
    assert Sweep(db, now).claims[c] == ExpireClaim(db.claims[c], now);
  }

  lemma OtherEndsInvite(digest: Digest, db: Tables, a: Action, now: int, k: InviteKey)
    requires !a.ApproveAction? && Commits(digest, db, a, now) && k in db.invites && db.invites[k].status == Pending
    ensures var s := Execute(digest, db, a, now).db;
            k in s.invites && s.invites[k].status == InviteEnd(db, a, now, k)
  {
    assert Sweep(db, now).invites[k] == ExpireInvite(db.invites[k], now);
  }

  /** A pending claim ends the way its action says: approved if it is the one named,
      consumed if a sibling wins, rejected or cancelled by name, cancelled with its invite
      under the given name, expired if overdue. A failed action ends nothing, and a claim
      that ended stays as it is. */
  lemma ClaimEnds(digest: Digest, db: Tables, a: Action, now: int, c: string)
    requires ActionOk(a, now) && c in db.claims
    ensures var s := Execute(digest, db, a, now).db;
            && c in s.claims
            && (db.claims[c].status != Pending || !Commits(digest, db, a, now) ==> s.claims[c] == db.claims[c])
            && (db.claims[c].status == Pending && Commits(digest, db, a, now) ==> s.claims[c].status == ClaimEnd(db, a, now, c))
  {
    ExecuteMoves(digest, db, a, now);
    if db.claims[c].status == Pending && Commits(digest, db, a, now) {
      if a.ApproveAction? {
        ApproveEnds(digest, db, a.request, now, c);
      } else if LeavesClaims(a) {
        OtherEnds(digest, db, a, now, c);
      } else {
        RefusalEnds(digest, db, a, now, c);
      }
    }
  }

  /** The same for invites: consumed by the claim that wins it, cancelled by its trimmed
      name, expired if overdue. */
  lemma InviteEnds(digest: Digest, db: Tables, a: Action, now: int, k: InviteKey)
    requires ActionOk(a, now) && k in db.invites
    ensures var s := Execute(digest, db, a, now).db;
            && k in s.invites
            && (db.invites[k].status != Pending || !Commits(digest, db, a, now) ==> s.invites[k] == db.invites[k])
            && (db.invites[k].status == Pending && Commits(digest, db, a, now) ==> s.invites[k].status == InviteEnd(db, a, now, k))
  {
    ExecuteMoves(digest, db, a, now);
    if db.invites[k].status == Pending && Commits(digest, db, a, now) {
      if a.ApproveAction? {
        ApproveEndsInvite(digest, db, a.request, now, k);
      } else {
        OtherEndsInvite(digest, db, a, now, k);
      }
    }
  }
}

/** What each pairing operation answers and stores, in the columns of the tables as they were
    before it: the sweep it opens with is already taken into account. */
module PairingAnswers {
  import opened Text
  import opened Tables
  import opened Pairing
  import opened PairingSteps
  import PairingService

  /** Pending and not yet due. */
  predicate Live(c: ClaimRow, now: int) {
    c.status == Pending && now < c.expiresAt
  }

  predicate LiveInvite(i: InviteRow, now: int) {
    i.status == Pending && now < i.expiresAt
  }

  /** The status a claim is shown with at this time. */
  function StatusAt(c: ClaimRow, now: int): Status {
    if c.status == Pending && c.expiresAt <= now then Expired else c.status
  }

  lemma SweptClaim(db: Tables, now: int, c: string)
    requires c in db.claims
    ensures c in Sweep(db, now).claims && Sweep(db, now).claims[c].status == StatusAt(db.claims[c], now)
    ensures Live(db.claims[c], now) ==> Sweep(db, now).claims[c] == db.claims[c]
    ensures SameClaim(db.claims[c], Sweep(db, now).claims[c]) && Sweep(db, now).claims[c].approval == db.claims[c].approval
  {
  }

  /** An overdue claim or invite is marked with the moment it is noticed; nothing else is touched. */
  lemma SweepMarks(db: Tables, now: int, c: string, k: InviteKey)
    ensures c in Sweep(db, now).claims <==> c in db.claims
    ensures k in Sweep(db, now).invites <==> k in db.invites
    ensures c in db.claims ==>
              Sweep(db, now).claims[c] ==
                if db.claims[c].status == Pending && db.claims[c].expiresAt <= now then db.claims[c].(status := Expired, updatedAt := now)
                else db.claims[c]
    ensures k in db.invites ==>
              Sweep(db, now).invites[k] ==
                if db.invites[k].status == Pending && db.invites[k].expiresAt <= now
                then db.invites[k].(status := Expired, consumedAt := Some(now)) else db.invites[k]
    ensures Sweep(db, now).devices == db.devices && Sweep(db, now).hosts == db.hosts && Sweep(db, now).tenants == db.tenants
  {
  }

  // ----- invites -----

  /** CreateInvite succeeds exactly for an active host and a new name, and stores a pending
      invite with these times. */
  lemma InviteAnswers(digest: Digest, db: Tables, k: InviteKey, expiresAt: int, active: bool, now: int)
    requires HostKey(k.tenant, k.host) in db.hosts
    ensures var e := Execute(digest, db, InviteAction(k, expiresAt, active), now);
            if !active then e == Step(db, Failed(HostNotFound))
            else if k in db.invites then e == Step(db, Failed(InviteExists))
            else e == Step(db.(invites := db.invites[k := InviteRow(Pending, now, expiresAt, None)]), Done)
  {
  }

  /** CancelInvite succeeds exactly while its invite, under the trimmed name, is live. */
  lemma WithdrawAnswers(digest: Digest, db: Tables, k: InviteKey, given: InviteKey, now: int)
    ensures var e := Execute(digest, db, WithdrawAction(k, given), now);
            if k in db.invites && LiveInvite(db.invites[k], now)
            then e.reply == Done && k in e.db.invites && e.db.invites[k] == db.invites[k].(status := Cancelled, consumedAt := Some(now))
            else e == Step(db, Failed(InviteNotPending))
  {
    assert k in db.invites ==> Sweep(db, now).invites[k] == ExpireInvite(db.invites[k], now);
  }

  /** The live claims that carry the invite's names as given are cancelled with it, and only they. */
  lemma WithdrawnClaims(digest: Digest, db: Tables, k: InviteKey, given: InviteKey, now: int, c: string)
    requires k in db.invites && LiveInvite(db.invites[k], now) && c in db.claims && Live(db.claims[c], now)
    ensures var e := Execute(digest, db, WithdrawAction(k, given), now);
            && c in e.db.claims
            && e.db.claims[c] ==
                 if db.claims[c].tenant == given.tenant && db.claims[c].host == given.host && db.claims[c].invite == given.invite
                 then db.claims[c].(status := Cancelled, updatedAt := now) else db.claims[c]
  {
    SweepMarks(db, now, c, k);
  }

  // ----- claims -----

  predicate HostReady(db: Tables, tenant: string, host: string) {
    && tenant in db.tenants && db.tenants[tenant] == true && HostKey(tenant, host) in db.hosts
    && db.hosts[HostKey(tenant, host)].enabled && !db.hosts[HostKey(tenant, host)].revoked
  }

  /** What is stored for a submitted claim. */
  predicate StoredClaim(c: ClaimRow, h: ClaimHeader, nonce: string, ciphertext: string, tokenHash: seq<byte>, now: int, expiresAt: int) {
    && c.invite == h.invite && c.tenant == h.tenant && c.host == h.host && c.device == h.device && c.header == h
    && c.nonce == nonce && c.ciphertext == ciphertext && c.tokenHash == tokenHash
    && c.status == Pending && c.approval == None && c.createdAt == now && c.updatedAt == now && c.expiresAt == expiresAt && c.consumedAt == None
  }

  lemma RefusedSubmission(digest: Digest, db: Tables, h: ClaimHeader, nonce: string, ciphertext: string, tokenHash: seq<byte>, now: int)
    ensures var e, k := Execute(digest, db, SubmitAction(h, nonce, ciphertext, tokenHash), now), InviteKey(h.tenant, h.host, h.invite);
            if k !in db.invites || !HostReady(db, h.tenant, h.host) then e == Step(db, Failed(InviteNotFound))
            else if !LiveInvite(db.invites[k], now) then e == Step(db, Failed(InviteNotPending))
            else if h.claim in db.claims then e == Step(db, Failed(ClaimExists))
            else e.reply == Submitted(h.claim, db.invites[k].expiresAt)
  {
    var k := InviteKey(h.tenant, h.host, h.invite);
    assert k in db.invites ==> Sweep(db, now).invites[k] == ExpireInvite(db.invites[k], now);
  }

  /** An accepted claim is stored as it was sent, pending, until its invite runs out. */
  lemma AcceptedSubmission(digest: Digest, db: Tables, h: ClaimHeader, nonce: string, ciphertext: string, tokenHash: seq<byte>, now: int)
    requires Execute(digest, db, SubmitAction(h, nonce, ciphertext, tokenHash), now).reply.Submitted?
    ensures var e, k := Execute(digest, db, SubmitAction(h, nonce, ciphertext, tokenHash), now), InviteKey(h.tenant, h.host, h.invite);
            && k in db.invites && h.claim in e.db.claims
            && StoredClaim(e.db.claims[h.claim], h, nonce, ciphertext, tokenHash, now, db.invites[k].expiresAt)
            && e.db.devices == db.devices && e.db.hosts == db.hosts && e.db.tenants == db.tenants
            && e.db.claims.Keys == db.claims.Keys + {h.claim}
  {
    var k := InviteKey(h.tenant, h.host, h.invite);
    assert k in db.invites ==> Sweep(db, now).invites[k] == ExpireInvite(db.invites[k], now);
  }

  /** A claim is shown only for its own token, with the status it has at this time and the
      approval's three texts, each in its place. */
  lemma ViewAnswers(digest: Digest, db: Tables, claim: string, tokenHash: seq<byte>, now: int)
    ensures var e := Execute(digest, db, ViewAction(claim, tokenHash), now);
            if !(claim in db.claims && db.claims[claim].tokenHash == tokenHash) then e == Step(db, Failed(Unauthorized))
            else
              var c := db.claims[claim];
              && e.reply.Viewed? && e.reply.view.claim == claim && e.reply.view.status == StatusAt(c, now)
              && e.reply.view.updatedAt == (if StatusAt(c, now) == c.status then c.updatedAt else now)
              && (c.approval.None? ==> e.reply.view.approvalHeader == "" && e.reply.view.approvalNonce == "" && e.reply.view.approvalCiphertext == "")
              && (c.approval.Some? ==>
                    && e.reply.view.approvalHeader == c.approval.value.header && e.reply.view.approvalNonce == c.approval.value.nonce
                    && e.reply.view.approvalCiphertext == c.approval.value.ciphertext)
  {
    if claim in db.claims {
      SweptClaim(db, now, claim);
    }
  }

  /** The listing is of the host's live claims and of no others, each as it was stored. */
  lemma ListAnswers(digest: Digest, db: Tables, tenant: string, host: string, now: int, c: string)
    ensures var e := Execute(digest, db, ListAction(tenant, host), now);
            && e.reply.Listed? && e.db == Sweep(db, now)
            && (c in e.reply.pending <==> c in db.claims && db.claims[c].tenant == tenant && db.claims[c].host == host && Live(db.claims[c], now))
            && (c in e.reply.pending ==> e.reply.pending[c] == db.claims[c])
  {
    if c in db.claims {
      SweptClaim(db, now, c);
    }
  }

  /** What a listed claim shows. */
  lemma ListedClaim(c: ClaimRow)
    ensures var o := PairingService.OpaqueOf(c);
            && o.header == c.header && o.nonce == c.nonce && o.ciphertext == c.ciphertext && o.status == c.status
            && o.createdAt == c.createdAt && o.expiresAt == c.expiresAt
  {
  }

  lemma FindAnswers(digest: Digest, db: Tables, tenant: string, host: string, claim: string, now: int)
    ensures Execute(digest, db, FindAction(tenant, host, claim), now) ==
            if claim in db.claims && db.claims[claim].tenant == tenant && db.claims[claim].host == host
            then Step(db, Found(db.claims[claim].device)) else Step(db, Failed(ClaimNotFound))
  {
  }

  /** A claim is rejected exactly by its own tenant and host, while live. */
  lemma RejectAnswers(digest: Digest, db: Tables, tenant: string, host: string, claim: string, now: int)
    ensures var e := Execute(digest, db, RejectAction(tenant, host, claim), now);
            if claim in db.claims && db.claims[claim].tenant == tenant && db.claims[claim].host == host && Live(db.claims[claim], now)
            then e.reply == Done && claim in e.db.claims && e.db.claims[claim] == db.claims[claim].(status := Rejected, updatedAt := now)
            else e == Step(db, Failed(ClaimNotPending))
  {
    if claim in db.claims {
      SweptClaim(db, now, claim);
    }
  }

  /** A claim is cancelled exactly with its own token, while live. */
  lemma CancelAnswers(digest: Digest, db: Tables, claim: string, tokenHash: seq<byte>, now: int)
    ensures var e := Execute(digest, db, CancelAction(claim, tokenHash), now);
            if !(claim in db.claims && db.claims[claim].tokenHash == tokenHash) then e == Step(db, Failed(Unauthorized))
            else if !Live(db.claims[claim], now) then e == Step(db, Failed(ClaimNotPending))
            else e.reply == Done && claim in e.db.claims && e.db.claims[claim] == db.claims[claim].(status := Cancelled, updatedAt := now)
  {
    if claim in db.claims {
      SweptClaim(db, now, claim);
    }
  }

  /** A device is revoked exactly while registered and not revoked. */
  lemma RevokeAnswers(digest: Digest, db: Tables, k: DeviceKey, now: int)
    ensures Execute(digest, db, RevokeAction(k), now) ==
            if k in db.devices && !db.devices[k].revoked
            then Step(db.(devices := db.devices[k := db.devices[k].(revoked := true)]), Done)
            else Step(db, Failed(DeviceNotFound))
  {
  }

  // ----- one after the other -----

  /** A claim that was just submitted is there for its host, and for nobody else; it is shown
      to its token, and to no other; and its host finds its device. */
  lemma SubmittedIsThere(
    digest: Digest, db: Tables, h: ClaimHeader, nonce: string, ciphertext: string, tokenHash: seq<byte>, now: int,
    tenant: string, host: string, other: seq<byte>, later: int)
    requires Execute(digest, db, SubmitAction(h, nonce, ciphertext, tokenHash), now).reply.Submitted?
    requires later < Execute(digest, db, SubmitAction(h, nonce, ciphertext, tokenHash), now).reply.expiresAt
    ensures var s := Execute(digest, db, SubmitAction(h, nonce, ciphertext, tokenHash), now).db;
            && (h.claim in Execute(digest, s, ListAction(tenant, host), later).reply.pending <==> tenant == h.tenant && host == h.host)
            && (Execute(digest, s, ViewAction(h.claim, other), later).reply ==
                if other == tokenHash then Viewed(ClaimView(h.claim, Pending, now, "", "", "")) else Failed(Unauthorized))
            && Execute(digest, s, FindAction(h.tenant, h.host, h.claim), later).reply == Found(h.device)
  {
    var s := Execute(digest, db, SubmitAction(h, nonce, ciphertext, tokenHash), now).db;
    RefusedSubmission(digest, db, h, nonce, ciphertext, tokenHash, now);
    AcceptedSubmission(digest, db, h, nonce, ciphertext, tokenHash, now);
    ListAnswers(digest, s, tenant, host, later, h.claim);
    ViewAnswers(digest, s, h.claim, other, later);
    FindAnswers(digest, s, h.tenant, h.host, h.claim, later);
  }
}

/** What an approval answers, case by case, and what an approved claim and a device row say
    for ever after. */
module ApprovalRules {
  import opened Text
  import opened Tables
  import opened Pairing
  import opened PairingSteps
  import opened PairingInvariants
  import opened DeviceHistory

  // ----- answers -----

  /** The request names a stored claim. */
  predicate Named(db: Tables, r: ApproveRequest) {
    r.claim in db.claims && db.claims[r.claim].tenant == r.tenant && db.claims[r.claim].host == r.host
  }

  predicate SameHeader(c: ClaimRow, a: Approval) {
    c.header.agreementKey == a.agreementKey && c.header.keyVersion == a.keyVersion
  }

  /** The device is registered under another identity, or with this binding or a newer one. */
  predicate Conflicts(db: Tables, k: DeviceKey, a: Approval) {
    k in db.devices &&
    (|| db.devices[k].signingKey != a.signingKey || db.devices[k].agreementKey != a.agreementKey
     || db.devices[k].keyVersion != a.keyVersion || a.bindingVersion <= db.devices[k].bindingVersion)
  }

  predicate Open(db: Tables, k: InviteKey, now: int) {
    k in db.invites && db.invites[k].status == Pending && now < db.invites[k].expiresAt
  }

  lemma UnnamedApproval(digest: Digest, db: Tables, r: ApproveRequest, now: int)
    requires !Named(db, r)
    ensures Execute(digest, db, ApproveAction(r), now) == Step(db, Failed(ClaimNotFound))
  {
    assert r.claim in db.claims ==> Sweep(db, now).claims[r.claim] == ExpireClaim(db.claims[r.claim], now);
  }

  lemma EndedApproval(digest: Digest, db: Tables, r: ApproveRequest, now: int)
    requires Named(db, r) && db.claims[r.claim].status != Approved
    requires db.claims[r.claim].status != Pending || db.claims[r.claim].expiresAt <= now
    ensures Execute(digest, db, ApproveAction(r), now) == Step(db, Failed(ClaimNotPending))
  {
    assert Sweep(db, now).claims[r.claim] == ExpireClaim(db.claims[r.claim], now);
  }

  /** A live claim is never approved under a key or version it did not announce. */
  lemma ForeignApproval(digest: Digest, db: Tables, r: ApproveRequest, now: int)
    requires Named(db, r) && db.claims[r.claim].status == Pending && now < db.claims[r.claim].expiresAt
    requires !SameHeader(db.claims[r.claim], r.approval)
    ensures Execute(digest, db, ApproveAction(r), now) == Step(db, Failed(InvalidDeviceIdentity))
  {
    assert Sweep(db, now).claims[r.claim] == db.claims[r.claim];
  }

  /** Approving again what was approved: success for the same approval, else a conflict. */
  lemma RepeatedApproval(digest: Digest, db: Tables, r: ApproveRequest, now: int)
    requires Named(db, r) && db.claims[r.claim].status == Approved && db.claims[r.claim].approval.Some?
    requires forall x, y :: digest(x) == digest(y) ==> x == y
    ensures var same := db.claims[r.claim].approval == Some(r.approval);
            Execute(digest, db, ApproveAction(r), now) == (if same then Step(Sweep(db, now), Done) else Step(db, Failed(ApprovalConflict)))
  {
    assert Sweep(db, now).claims[r.claim] == db.claims[r.claim];
  }

  lemma LateInvite(digest: Digest, db: Tables, r: ApproveRequest, now: int)
    requires RowsOk(db) && Named(db, r) && db.claims[r.claim].status == Pending && now < db.claims[r.claim].expiresAt
    requires SameHeader(db.claims[r.claim], r.approval) && !Open(db, InviteOf(db.claims[r.claim]), now)
    ensures Execute(digest, db, ApproveAction(r), now) == Step(db, Failed(InviteNotPending))
  {
    var s, k := Sweep(db, now), InviteOf(db.claims[r.claim]);
    assert s.claims[r.claim] == db.claims[r.claim] && s.invites[k] == ExpireInvite(db.invites[k], now);
  }

  lemma ConflictingApproval(digest: Digest, db: Tables, r: ApproveRequest, now: int)
    requires RowsOk(db) && Named(db, r) && db.claims[r.claim].status == Pending && now < db.claims[r.claim].expiresAt
    requires SameHeader(db.claims[r.claim], r.approval) && Open(db, InviteOf(db.claims[r.claim]), now)
    requires Conflicts(db, DeviceOf(db.claims[r.claim]), r.approval)
    ensures Execute(digest, db, ApproveAction(r), now) == Step(db, Failed(DeviceBindingConflict))
  {
    var s, k := Sweep(db, now), InviteOf(db.claims[r.claim]);
    assert s.claims[r.claim] == db.claims[r.claim] && s.invites[k] == db.invites[k];
  }

  lemma CommittedApproval(digest: Digest, s: Tables, r: ApproveRequest, now: int)
    requires Named(s, r) && s.claims[r.claim].status == Pending && SameHeader(s.claims[r.claim], r.approval)
    requires InviteOf(s.claims[r.claim]) in s.invites && s.invites[InviteOf(s.claims[r.claim])].status == Pending
    requires HostKey(r.tenant, r.host) in s.hosts && !Conflicts(s, DeviceOf(s.claims[r.claim]), r.approval)
    ensures Approve(digest, s, r, now) == Committed(AfterApproval(s, r.claim, r.approval, BoundRow(r.approval, now), now), Done)
  {
  }

  /** Otherwise it succeeds, and stores the approval in the claim and the device. */
  lemma GrantedApproval(digest: Digest, db: Tables, r: ApproveRequest, now: int)
    requires RowsOk(db) && Named(db, r) && db.claims[r.claim].status == Pending && now < db.claims[r.claim].expiresAt
    requires SameHeader(db.claims[r.claim], r.approval) && Open(db, InviteOf(db.claims[r.claim]), now)
    requires !Conflicts(db, DeviceOf(db.claims[r.claim]), r.approval)
    ensures var e, a, c := Execute(digest, db, ApproveAction(r), now), r.approval, db.claims[r.claim];
            var k := InviteKey(c.tenant, c.host, c.invite);
            && e.reply == Done
            && e.db.devices == db.devices[DeviceKey(c.tenant, c.host, c.device) :=
                 DeviceRow(a.signingKey, a.agreementKey, a.keyVersion, a.bindingVersion, false, now)]
            && r.claim in e.db.claims && e.db.claims[r.claim] == c.(status := Approved, approval := Some(a), updatedAt := now)
            && k in e.db.invites && e.db.invites[k] == db.invites[k].(status := Consumed, consumedAt := Some(now))
  {
    var s, k := Sweep(db, now), InviteOf(db.claims[r.claim]);
    assert s.claims[r.claim] == db.claims[r.claim] && s.invites[k] == db.invites[k];
    CommittedApproval(digest, s, r, now);
  }

  /** And the other live claims of the invite are consumed at that moment. */
  lemma SiblingsConsumed(digest: Digest, db: Tables, r: ApproveRequest, now: int, c: string)
    requires RowsOk(db) && Named(db, r) && db.claims[r.claim].status == Pending && now < db.claims[r.claim].expiresAt
    requires SameHeader(db.claims[r.claim], r.approval) && Open(db, InviteOf(db.claims[r.claim]), now)
    requires !Conflicts(db, DeviceOf(db.claims[r.claim]), r.approval)
    requires c in db.claims && c != r.claim && db.claims[c].status == Pending && now < db.claims[c].expiresAt
    requires InviteOf(db.claims[c]) == InviteOf(db.claims[r.claim])
    ensures var e := Execute(digest, db, ApproveAction(r), now);
            c in e.db.claims && e.db.claims[c] == db.claims[c].(status := Consumed, updatedAt := now, consumedAt := Some(now))
  {
    var s, k := Sweep(db, now), InviteOf(db.claims[r.claim]);
    assert s.claims[r.claim] == db.claims[r.claim] && s.invites[k] == db.invites[k] && s.claims[c] == db.claims[c];
    CommittedApproval(digest, s, r, now);
  }

  /** In a state with trimmed cancellations a live pending claim has its open invite, so of
      the refusals only the foreign identity and the device conflict remain. */
  lemma MatchingApproval(digest: Digest, db: Tables, r: ApproveRequest, now: int)
    requires RowsOk(db) && PendingBacked(db)
    requires Named(db, r) && db.claims[r.claim].status == Pending && now < db.claims[r.claim].expiresAt
    ensures var e := Execute(digest, db, ApproveAction(r), now);
            if !SameHeader(db.claims[r.claim], r.approval) then e == Step(db, Failed(InvalidDeviceIdentity))
            else if Conflicts(db, DeviceOf(db.claims[r.claim]), r.approval) then e == Step(db, Failed(DeviceBindingConflict))
            else e.reply == Done
  {
    assert Backed(db, db.claims[r.claim]);
    if !SameHeader(db.claims[r.claim], r.approval) {
      ForeignApproval(digest, db, r, now);
    } else if Conflicts(db, DeviceOf(db.claims[r.claim]), r.approval) {
      ConflictingApproval(digest, db, r, now);
    } else {
      GrantedApproval(digest, db, r, now);
    }
  }

  // ----- for ever after -----

  /** In every run an approved claim was approved under the agreement key and key version of
      its own header. */
  lemma ApprovedUnderHeader(digest: Digest, calls: seq<Call>, c: string)
    requires CallsOk(calls)
    requires var db := Run(digest, EMPTY, calls); c in db.claims && db.claims[c].status == Approved
    ensures var row := Run(digest, EMPTY, calls).claims[c];
            && row.approval.Some? && row.approval.value.agreementKey == row.header.agreementKey
            && row.approval.value.keyVersion == row.header.keyVersion
  {
    ReachableInv(digest, calls);
    assert ColumnOk(Run(digest, EMPTY, calls).claims[c]);
  }

  /** This claim of the device announced the agreement key and key version its row has. */
  predicate Announced(db: Tables, k: DeviceKey, c: string) {
    && k in db.devices && c in db.claims && db.claims[c].status == Approved
    && db.claims[c].header.tenant == k.tenant && db.claims[c].header.host == k.host && db.claims[c].header.device == k.device
    && db.claims[c].header.agreementKey == db.devices[k].agreementKey && db.claims[c].header.keyVersion == db.devices[k].keyVersion
  }

  /** In every run a device is registered under an agreement key and key version that a claim
      of that very device announced. */
  lemma DevicesAreAnnounced(digest: Digest, calls: seq<Call>, k: DeviceKey)
    requires CallsOk(calls) && k in Run(digest, EMPTY, calls).devices
    ensures exists c :: Announced(Run(digest, EMPTY, calls), k, c)
  {
    var db, h := Run(digest, EMPTY, calls), History(digest, EMPTY, calls);
    ReachableHistory(digest, calls);
    ReachableInv(digest, calls);
    FoldReads(h, k);
    BoundIsAnnounced(db, h, k);
  }

  lemma BoundIsAnnounced(db: Tables, h: seq<Event>, k: DeviceKey)
    requires Matched(db, h) && ColumnsOk(db) && k in db.devices && 0 <= LastBound(h, k)
    requires var a := h[LastBound(h, k)].approval;
             db.devices[k].agreementKey == a.agreementKey && db.devices[k].keyVersion == a.keyVersion
    ensures exists c :: Announced(db, k, c)
  {
    var e := h[LastBound(h, k)];
    assert RecordedBy(db, e) && Binds(e, k);
    assert ColumnOk(db.claims[e.claim]);
    assert Announced(db, k, e.claim);
  }
}

/** The shape of a pairing step: which rows an operation may change, and how. */
module PairingSteps {
  import opened Text
  import opened Tables
  import opened Pairing
  import Hosts

  /** The columns of a claim that no statement ever writes again. */
  predicate SameClaim(a: ClaimRow, b: ClaimRow) {
    && a.invite == b.invite && a.tenant == b.tenant && a.host == b.host && a.device == b.device
    && a.header == b.header && a.nonce == b.nonce && a.ciphertext == b.ciphertext && a.tokenHash == b.tokenHash
    && a.createdAt == b.createdAt && a.expiresAt == b.expiresAt
  }

  /** The approval is of the agreement key and key version the claim itself announced. */
  predicate ApprovesHeader(c: ClaimRow) {
    && c.approval.Some? && c.approval.value.agreementKey == c.header.agreementKey
    && c.approval.value.keyVersion == c.header.keyVersion
  }

  /** A claim leaves Pending once; only the winner of the step becomes Approved, and only in
      time and under its own header. */
  predicate ClaimMoves(a: ClaimRow, b: ClaimRow, wins: bool) {
    && SameClaim(a, b)
    && (a.status != Pending ==> b == a && !wins)
    && (wins ==> b.status == Approved && ApprovesHeader(b) && b.updatedAt < b.expiresAt)
    && (!wins && a.status == Pending ==> b.status != Approved && b.approval == a.approval)
  }

  /** An invite leaves Pending once; only the winner's invite becomes Consumed. */
  predicate InviteMoves(a: InviteRow, b: InviteRow, won: bool) {
    && a.createdAt == b.createdAt && a.expiresAt == b.expiresAt
    && (a.status != Pending ==> b == a && !won)
    && (a.status == Pending ==> (b.status == Consumed <==> won))
  }

  /** The columns that repeat the header say what it says. */
  predicate NamedByHeader(c: ClaimRow) {
    c.invite == c.header.invite && c.tenant == c.header.tenant && c.host == c.header.host && c.device == c.header.device
  }

  predicate NewClaimOk(db: Tables, c: ClaimRow) {
    && InviteOf(c) in db.invites && db.invites[InviteOf(c)].status == Pending
    && c.expiresAt == db.invites[InviteOf(c)].expiresAt && c.status == Pending && c.approval == None
    && NamedByHeader(c)
  }

  predicate NewInviteOk(hosts: map<HostKey, HostRow>, k: InviteKey, i: InviteRow) {
    && HostKey(k.tenant, k.host) in hosts
    && i.status == Pending && i.createdAt < i.expiresAt <= i.createdAt + MAX_INVITE_MILLIS
  }

  function WonInvite(db: Tables, win: Option<string>): Option<InviteKey> {
    if win.Some? && win.value in db.claims then Some(InviteOf(db.claims[win.value])) else None
  }

  ghost predicate ClaimsMove(db: Tables, s: Tables, win: Option<string>) {
    && (forall c :: c in db.claims ==> c in s.claims && ClaimMoves(db.claims[c], s.claims[c], win == Some(c)))
    && (forall c :: c in s.claims && c !in db.claims ==> NewClaimOk(db, s.claims[c]))
    && (win.Some? ==> win.value in db.claims)
  }

  ghost predicate InvitesMove(db: Tables, s: Tables, won: Option<InviteKey>) {
    && (forall k :: k in db.invites ==> k in s.invites && InviteMoves(db.invites[k], s.invites[k], won == Some(k)))
    && (forall k :: k in s.invites && k !in db.invites ==> NewInviteOk(db.hosts, k, s.invites[k]))
  }

  predicate SameHost(a: HostRow, b: HostRow) {
    a.signingKey == b.signingKey && a.agreementKey == b.agreementKey && a.keyVersion == b.keyVersion
    && a.enabled == b.enabled && a.revoked == b.revoked
  }

  predicate SameDevice(a: DeviceRow, b: DeviceRow) {
    a.signingKey == b.signingKey && a.agreementKey == b.agreementKey && a.keyVersion == b.keyVersion
  }

  /** A registered identity is never replaced. */
  ghost predicate KeysPinned(db: Tables, s: Tables) {
    && (forall k :: k in db.hosts ==> k in s.hosts && SameHost(db.hosts[k], s.hosts[k]))
    && (forall k :: k in db.devices ==> k in s.devices && SameDevice(db.devices[k], s.devices[k]))
    && (forall k :: k in s.devices && k !in db.devices ==> HostKey(k.tenant, k.host) in db.hosts)
  }

  /** One step of the pairing tables; `win` names the claim it approves, if any. */
  ghost predicate Moves(db: Tables, s: Tables, win: Option<string>) {
    ClaimsMove(db, s, win) && InvitesMove(db, s, WonInvite(db, win)) && KeysPinned(db, s)
  }

  lemma SweepMoves(db: Tables, now: int)
    ensures Moves(db, Sweep(db, now), None)
  {
  }

  lemma StandsStill(db: Tables)
    ensures Moves(db, db, None)
  {
  }

  lemma InsertInviteMoves(db: Tables, k: InviteKey, now: int, expiresAt: int, active: bool)
    requires now < expiresAt <= now + MAX_INVITE_MILLIS
    requires InsertInvite(db, k, now, expiresAt, active).Committed?
    ensures Moves(db, InsertInvite(db, k, now, expiresAt, active).db, None)
  {
  }

  lemma SubmitMoves(db: Tables, h: ClaimHeader, nonce: string, ciphertext: string, tokenHash: seq<byte>, now: int)
    requires Submit(db, h, nonce, ciphertext, tokenHash, now).Committed?
    ensures Moves(db, Submit(db, h, nonce, ciphertext, tokenHash, now).db, None)
  {
  }

  lemma RejectMoves(db: Tables, tenant: string, host: string, claim: string, now: int)
    requires Reject(db, tenant, host, claim, now).Committed?
    ensures Moves(db, Reject(db, tenant, host, claim, now).db, None)
  {
  }

  lemma CancelMoves(db: Tables, claim: string, tokenHash: seq<byte>, now: int)
    requires Cancel(db, claim, tokenHash, now).Committed?
    ensures Moves(db, Cancel(db, claim, tokenHash, now).db, None)
  {
  }

  lemma WithdrawMoves(db: Tables, k: InviteKey, given: InviteKey, now: int)
    requires WithdrawInvite(db, k, given, now).Committed?
    ensures Moves(db, WithdrawInvite(db, k, given, now).db, None)
  {
  }

  lemma RevokeMoves(db: Tables, k: DeviceKey)
    requires Revoke(db, k).Committed?
    ensures Moves(db, Revoke(db, k).db, None)
  {
  }

  lemma PinMoves(db: Tables, k: HostKey, displayName: string, e: Hosts.Enrollment, tenantEnabled: bool)
    requires Hosts.Pin(db, k, displayName, e, tenantEnabled).Enrolled?
    ensures Moves(db, Hosts.Pin(db, k, displayName, e, tenantEnabled).db, None)
  {
  }

  /** The claim a committed approval turns from pending to approved. */
  function Winner(db: Tables, r: ApproveRequest): Option<string> {
    if r.claim in db.claims && db.claims[r.claim].status == Pending then Some(r.claim) else None
  }

  /** No pending claim is overdue: so it is after a sweep at this instant. */
  ghost predicate Swept(db: Tables, now: int) {
    forall c :: c in db.claims && db.claims[c].status == Pending ==> now < db.claims[c].expiresAt
  }

  lemma WinningClaimsMove(db: Tables, id: string, a: Approval, device: DeviceRow, now: int)
    requires id in db.claims && db.claims[id].status == Pending && now < db.claims[id].expiresAt
    requires a.agreementKey == db.claims[id].header.agreementKey && a.keyVersion == db.claims[id].header.keyVersion
    requires InviteOf(db.claims[id]) in db.invites
    ensures ClaimsMove(db, AfterApproval(db, id, a, device, now), Some(id))
  {
    var s := AfterApproval(db, id, a, device, now);
    assert s.claims == ClaimsAfterApproval(db.claims, id, a, now);
  }

  lemma WinningInvitesMove(db: Tables, id: string, a: Approval, device: DeviceRow, now: int)
    requires id in db.claims && InviteOf(db.claims[id]) in db.invites
    requires db.invites[InviteOf(db.claims[id])].status == Pending
    ensures InvitesMove(db, AfterApproval(db, id, a, device, now), Some(InviteOf(db.claims[id])))
  {
    var s := AfterApproval(db, id, a, device, now);
    assert s.invites.Keys == db.invites.Keys;
  }

  lemma AfterApprovalMoves(db: Tables, id: string, a: Approval, now: int)
    requires id in db.claims && db.claims[id].status == Pending && now < db.claims[id].expiresAt
    requires a.agreementKey == db.claims[id].header.agreementKey && a.keyVersion == db.claims[id].header.keyVersion
    requires InviteOf(db.claims[id]) in db.invites && db.invites[InviteOf(db.claims[id])].status == Pending
    requires UpsertDevice(db.devices, DeviceOf(db.claims[id]), a, now).Some?
    requires DeviceOf(db.claims[id]) in db.devices || HostKey(db.claims[id].tenant, db.claims[id].host) in db.hosts
    ensures Moves(db, AfterApproval(db, id, a, UpsertDevice(db.devices, DeviceOf(db.claims[id]), a, now).value, now), Some(id))
  {
    var device := UpsertDevice(db.devices, DeviceOf(db.claims[id]), a, now).value;
    WinningClaimsMove(db, id, a, device, now);
    WinningInvitesMove(db, id, a, device, now);
    assert KeysPinned(db, AfterApproval(db, id, a, device, now));
  }

  /** Its claim, its pending siblings, its invite and its device: an approval changes no
      other row. */
  ghost predicate TouchesOnly(db: Tables, s: Tables, id: string)
    requires id in db.claims
  {
    var k := InviteOf(db.claims[id]);
    && s.tenants == db.tenants && s.hosts == db.hosts && s.claims.Keys == db.claims.Keys && s.invites.Keys == db.invites.Keys
    && s.devices.Keys == db.devices.Keys + {DeviceOf(db.claims[id])}
    && (forall c :: c in db.claims && c != id && !(InviteOf(db.claims[c]) == k && db.claims[c].status == Pending) ==>
          s.claims[c] == db.claims[c])
    && (forall c :: c in db.claims && c != id && InviteOf(db.claims[c]) == k && db.claims[c].status == Pending ==>
          s.claims[c].status == Consumed)
    && (forall i :: i in db.invites && i != k ==> s.invites[i] == db.invites[i])
    && (forall d :: d in db.devices && d != DeviceOf(db.claims[id]) ==> s.devices[d] == db.devices[d])
  }

  lemma ApprovalTouchesOnly(db: Tables, id: string, a: Approval, device: DeviceRow, now: int)
    requires id in db.claims && InviteOf(db.claims[id]) in db.invites
    ensures TouchesOnly(db, AfterApproval(db, id, a, device, now), id)
  {
    var s := AfterApproval(db, id, a, device, now);
    assert s.claims == ClaimsAfterApproval(db.claims, id, a, now);
  }

  lemma ApproveMoves(digest: Digest, db: Tables, r: ApproveRequest, now: int)
    requires Swept(db, now) && Approve(digest, db, r, now).Committed?
    ensures Moves(db, Approve(digest, db, r, now).db, Winner(db, r))
  {
    if db.claims[r.claim].status == Pending {
      AfterApprovalMoves(db, r.claim, r.approval, now);
    } else {
      StandsStill(db);
    }
  }

  function CoreWinner(db: Tables, a: Action): Option<string> {
    if a.ApproveAction? then Winner(db, a.request) else None
  }

  lemma CoreMoves(digest: Digest, db: Tables, a: Action, now: int)
    requires ActionOk(a, now) && (Sweeps(a) ==> Swept(db, now))
    requires Core(digest, db, a, now).Committed?
    ensures Moves(db, Core(digest, db, a, now).db, CoreWinner(db, a))
  {
    match a {
      case InviteAction(k, expiresAt, active) => InsertInviteMoves(db, k, now, expiresAt, active);
      case SubmitAction(header, nonce, ciphertext, tokenHash) => SubmitMoves(db, header, nonce, ciphertext, tokenHash, now);
      case ViewAction(_, _) => StandsStill(db);
      case ListAction(_, _) => StandsStill(db);
      case FindAction(_, _, _) => StandsStill(db);
      case ApproveAction(request) => ApproveMoves(digest, db, request, now);
      case RejectAction(t, h, c) => RejectMoves(db, t, h, c, now);
      case CancelAction(claim, tokenHash) => CancelMoves(db, claim, tokenHash, now);
      case WithdrawAction(k, given) => WithdrawMoves(db, k, given, now);
      case RevokeAction(k) => RevokeMoves(db, k);
      case PinAction(k, displayName, e, tenantEnabled) => PinMoves(db, k, displayName, e, tenantEnabled);
      case TenantAction(_, _) =>
    }
  }

  /** The claim an action approves when run on these tables at this instant. */
  function ExecuteWinner(digest: Digest, db: Tables, a: Action, now: int): Option<string> {
    if a.ApproveAction? && Execute(digest, db, a, now).reply == Done then Winner(Sweep(db, now), a.request) else None
  }

  lemma SweptAfterSweep(db: Tables, now: int)
    ensures Swept(Sweep(db, now), now)
  {
  }

  lemma SweepThenClaimsMove(db: Tables, now: int, s: Tables, win: Option<string>)
    requires ClaimsMove(Sweep(db, now), s, win)
    ensures ClaimsMove(db, s, win)
  {
    var w := Sweep(db, now);
    forall c | c in db.claims ensures c in s.claims && ClaimMoves(db.claims[c], s.claims[c], win == Some(c)) {
      assert c in w.claims && w.claims[c] == ExpireClaim(db.claims[c], now);
    }
    forall c | c in s.claims && c !in db.claims ensures NewClaimOk(db, s.claims[c]) {
      assert c !in w.claims;
      var k := InviteOf(s.claims[c]);
      assert k in w.invites && w.invites[k] == ExpireInvite(db.invites[k], now);
    }
  }

  lemma SweepThenInvitesMove(db: Tables, now: int, s: Tables, won: Option<InviteKey>)
    requires InvitesMove(Sweep(db, now), s, won)
    ensures InvitesMove(db, s, won)
  {
    var w := Sweep(db, now);
    forall k | k in db.invites ensures k in s.invites && InviteMoves(db.invites[k], s.invites[k], won == Some(k)) {
      assert k in w.invites && w.invites[k] == ExpireInvite(db.invites[k], now);
    }
  }

  lemma SweepThenMoves(db: Tables, now: int, s: Tables, win: Option<string>)
    requires Moves(Sweep(db, now), s, win)
    ensures Moves(db, s, win)
  {
    assert WonInvite(db, win) == WonInvite(Sweep(db, now), win);
    SweepThenClaimsMove(db, now, s, win);
    SweepThenInvitesMove(db, now, s, WonInvite(db, win));
  }

  lemma ApproveRepliesDone(digest: Digest, db: Tables, r: ApproveRequest, now: int)
    requires Approve(digest, db, r, now).Committed?
    ensures Approve(digest, db, r, now).reply == Done
  {
  }

  /** Every operation of the relay, swept or not, failed or not, is such a step. */
  lemma ExecuteMoves(digest: Digest, db: Tables, a: Action, now: int)
    requires ActionOk(a, now)
    ensures Moves(db, Execute(digest, db, a, now).db, ExecuteWinner(digest, db, a, now))
  {
    var base := if Sweeps(a) then Sweep(db, now) else db;
    SweptAfterSweep(db, now);
    if Core(digest, base, a, now).Committed? {
      CoreMoves(digest, base, a, now);
      if a.ApproveAction? {
        ApproveRepliesDone(digest, base, a.request, now);
      }
      if Sweeps(a) {
        SweepThenMoves(db, now, Execute(digest, db, a, now).db, CoreWinner(base, a));
      }
    } else {
      StandsStill(db);
    }
  }
}

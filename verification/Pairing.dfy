/** The operations on the pairing tables, each as one atomic step: what it commits, or
    the error with which it leaves the tables alone. Requests reach this module as
    actions, validated and trimmed by PairingRequests. */
module Pairing {
  import opened Text
  import opened Tables
  import Hosts

  const MAX_INVITE_MILLIS := 600_000

  /** SHA-256 of a text's bytes, as secureEqual compares it. */
  type Digest = string -> seq<byte>

  datatype Error =
    | InvalidInvite | HostNotFound | InviteExists | InviteNotFound | InviteNotPending
    | InvalidClaim | ClaimExists | ClaimNotFound | ClaimNotPending
    | InvalidDeviceIdentity | InvalidApproval | ApprovalConflict | DeviceBindingConflict
    | DeviceNotFound | Unauthorized | InternalError
    | EnrollRefused(reason: Hosts.Refusal)

  datatype ClaimView = ClaimView(
    claim: string,
    status: Status,
    updatedAt: int,
    approvalHeader: string,
    approvalNonce: string,
    approvalCiphertext: string)

  datatype Reply =
    | Done
    | Submitted(claim: string, expiresAt: int)
    | Viewed(view: ClaimView)
    | Listed(pending: map<string, ClaimRow>)
    | Found(device: string)
    | Failed(error: Error)

  datatype Outcome = Committed(db: Tables, reply: Reply) | RolledBack(error: Error)

  datatype ApproveRequest = ApproveRequest(tenant: string, host: string, claim: string, approval: Approval)

  /** Comparison through the hash, as secureEqual does it. */
  predicate SecureEqual(digest: Digest, a: string, b: string) {
    digest(a) == digest(b)
  }

  predicate ApprovalMatches(digest: Digest, stored: Option<Approval>, a: Approval) {
    && stored.Some?
    && SecureEqual(digest, stored.value.signingKey, a.signingKey)
    && SecureEqual(digest, stored.value.agreementKey, a.agreementKey)
    && stored.value.keyVersion == a.keyVersion && stored.value.bindingVersion == a.bindingVersion
    && SecureEqual(digest, stored.value.header, a.header)
    && SecureEqual(digest, stored.value.nonce, a.nonce)
    && SecureEqual(digest, stored.value.ciphertext, a.ciphertext)
  }

  // ----- the transactions, after validation -----

  /** The insert half of CreateInvite; `active` is what its earlier read of the host returned. */
  function InsertInvite(db: Tables, k: InviteKey, now: int, expiresAt: int, active: bool): Outcome {
    if !active then RolledBack(HostNotFound)
    else if k in db.invites then RolledBack(InviteExists)
    else if HostKey(k.tenant, k.host) !in db.hosts then RolledBack(InternalError)
    else Committed(db.(invites := db.invites[k := InviteRow(Pending, now, expiresAt, None)]), Done)
  }

  function NewClaim(h: ClaimHeader, nonce: string, ciphertext: string, tokenHash: seq<byte>, now: int, expiresAt: int): ClaimRow {
    ClaimRow(h.invite, h.tenant, h.host, h.device, h, nonce, ciphertext, tokenHash, Pending, None, now, now, expiresAt, None)
  }

  function Submit(db: Tables, h: ClaimHeader, nonce: string, ciphertext: string, tokenHash: seq<byte>, now: int): Outcome {
    var k := InviteKey(h.tenant, h.host, h.invite);
    if k !in db.invites || !HostActive(db, h.tenant, h.host) then RolledBack(InviteNotFound)
    else if db.invites[k].status != Pending then RolledBack(InviteNotPending)
    else if h.claim in db.claims then RolledBack(ClaimExists)
    else
      var row := NewClaim(h, nonce, ciphertext, tokenHash, now, db.invites[k].expiresAt);
      Committed(db.(claims := db.claims[h.claim := row]), Submitted(h.claim, row.expiresAt))
  }

  function ViewOf(claim: string, c: ClaimRow): ClaimView {
    match c.approval
    case Some(a) => ClaimView(claim, c.status, c.updatedAt, a.header, a.nonce, a.ciphertext)
    case None => ClaimView(claim, c.status, c.updatedAt, "", "", "")
  }

  function View(db: Tables, claim: string, tokenHash: seq<byte>): Outcome {
    if claim in db.claims && db.claims[claim].tokenHash == tokenHash then
      Committed(db, Viewed(ViewOf(claim, db.claims[claim])))
    else RolledBack(Unauthorized)
  }

  function PendingOf(db: Tables, tenant: string, host: string): map<string, ClaimRow> {
    map c | c in db.claims && db.claims[c].tenant == tenant && db.claims[c].host == host && db.claims[c].status == Pending
      :: db.claims[c]
  }

  predicate ClaimAt(db: Tables, tenant: string, host: string, claim: string) {
    claim in db.claims && db.claims[claim].tenant == tenant && db.claims[claim].host == host
  }

  /** The conditional insert of the device row; None when it changes no row. */
  function UpsertDevice(devices: map<DeviceKey, DeviceRow>, k: DeviceKey, a: Approval, now: int): Option<DeviceRow> {
    if k !in devices then
      Some(DeviceRow(a.signingKey, a.agreementKey, a.keyVersion, a.bindingVersion, false, now))
    else if devices[k].signingKey == a.signingKey && devices[k].agreementKey == a.agreementKey
            && devices[k].keyVersion == a.keyVersion && devices[k].bindingVersion < a.bindingVersion then
      Some(devices[k].(bindingVersion := a.bindingVersion, revoked := false, approvedAt := now))
    else None
  }

  function ApprovedClaim(c: ClaimRow, a: Approval, now: int): ClaimRow {
    c.(status := Approved, approval := Some(a), updatedAt := now)
  }

  function ConsumedClaim(c: ClaimRow, now: int): ClaimRow {
    c.(status := Consumed, updatedAt := now, consumedAt := Some(now))
  }

  /** The claims after one of them wins its invite. */
  function ClaimsAfterApproval(claims: map<string, ClaimRow>, id: string, a: Approval, now: int): map<string, ClaimRow>
    requires id in claims
  {
    map c | c in claims ::
      if c == id then ApprovedClaim(claims[c], a, now)
      else if InviteOf(claims[c]) == InviteOf(claims[id]) && claims[c].status == Pending then ConsumedClaim(claims[c], now)
      else claims[c]
  }

  function AfterApproval(db: Tables, id: string, a: Approval, device: DeviceRow, now: int): Tables
    requires id in db.claims && InviteOf(db.claims[id]) in db.invites
  {
    var c := db.claims[id];
    db.(devices := db.devices[DeviceOf(c) := device],
        claims := ClaimsAfterApproval(db.claims, id, a, now),
        invites := db.invites[InviteOf(c) := db.invites[InviteOf(c)].(status := Consumed, consumedAt := Some(now))])
  }

  function Approve(digest: Digest, db: Tables, r: ApproveRequest, now: int): Outcome {
    if !ClaimAt(db, r.tenant, r.host, r.claim) then RolledBack(ClaimNotFound)
    else
      var c := db.claims[r.claim];
      if c.status == Approved then
        if ApprovalMatches(digest, c.approval, r.approval) then Committed(db, Done) else RolledBack(ApprovalConflict)
      else if c.status != Pending then RolledBack(ClaimNotPending)
      else if c.header.agreementKey != r.approval.agreementKey || c.header.keyVersion != r.approval.keyVersion then
        RolledBack(InvalidDeviceIdentity)
      else if InviteOf(c) !in db.invites then RolledBack(InternalError)
      else if db.invites[InviteOf(c)].status != Pending then RolledBack(InviteNotPending)
      else if DeviceOf(c) !in db.devices && HostKey(c.tenant, c.host) !in db.hosts then RolledBack(InternalError)
      else
        match UpsertDevice(db.devices, DeviceOf(c), r.approval, now)
        case None => RolledBack(DeviceBindingConflict)
        case Some(device) => Committed(AfterApproval(db, r.claim, r.approval, device, now), Done)
  }

  function Reject(db: Tables, tenant: string, host: string, claim: string, now: int): Outcome {
    if ClaimAt(db, tenant, host, claim) && db.claims[claim].status == Pending then
      Committed(db.(claims := db.claims[claim := db.claims[claim].(status := Rejected, updatedAt := now)]), Done)
    else RolledBack(ClaimNotPending)
  }

  function Cancel(db: Tables, claim: string, tokenHash: seq<byte>, now: int): Outcome {
    if !(claim in db.claims && db.claims[claim].tokenHash == tokenHash) then RolledBack(Unauthorized)
    else if db.claims[claim].status != Pending then RolledBack(ClaimNotPending)
    else Committed(db.(claims := db.claims[claim := db.claims[claim].(status := Cancelled, updatedAt := now)]), Done)
  }

  function CancelledClaim(c: ClaimRow, k: InviteKey, now: int): ClaimRow {
    if InviteOf(c) == k && c.status == Pending then c.(status := Cancelled, updatedAt := now) else c
  }

  /** CancelInvite: the invite is looked up under trimmed names, its claims under the names as given. */
  function WithdrawInvite(db: Tables, k: InviteKey, given: InviteKey, now: int): Outcome {
    if k in db.invites && db.invites[k].status == Pending then
      Committed(db.(invites := db.invites[k := db.invites[k].(status := Cancelled, consumedAt := Some(now))],
                    claims := map c | c in db.claims :: CancelledClaim(db.claims[c], given, now)), Done)
    else RolledBack(InviteNotPending)
  }

  function Revoke(db: Tables, k: DeviceKey): Outcome {
    if k in db.devices && !db.devices[k].revoked then
      Committed(db.(devices := db.devices[k := db.devices[k].(revoked := true)]), Done)
    else RolledBack(DeviceNotFound)
  }

  // ----- actions -----

  datatype Action =
    | InviteAction(invite: InviteKey, expiresAt: int, active: bool)
    | SubmitAction(header: ClaimHeader, nonce: string, ciphertext: string, tokenHash: seq<byte>)
    | ViewAction(claim: string, tokenHash: seq<byte>)
    | ListAction(tenant: string, host: string)
    | FindAction(tenant: string, host: string, claim: string)
    | ApproveAction(request: ApproveRequest)
    | RejectAction(tenant: string, host: string, claim: string)
    | CancelAction(claim: string, tokenHash: seq<byte>)
    | WithdrawAction(invite: InviteKey, given: InviteKey)
    | RevokeAction(device: DeviceKey)
    | PinAction(key: HostKey, displayName: string, enrollment: Hosts.Enrollment, tenantEnabled: bool)
    | TenantAction(tenant: string, enabled: bool)
    | RefuseAction(error: Error)

  predicate NameOk(k: InviteKey) {
    Trimmed(k.tenant) && Trimmed(k.host) && Trimmed(k.invite)
  }

  /** What validation has established of an action taken at `now`. */
  predicate ActionOk(a: Action, now: int) {
    match a
    case InviteAction(k, expiresAt, _) => NameOk(k) && now < expiresAt <= now + MAX_INVITE_MILLIS
    case WithdrawAction(k, given) => NameOk(k) && (NameOk(given) ==> given == k)
    case _ => true
  }

  /** The actions that open with expirePending inside their transaction. */
  predicate Sweeps(a: Action) {
    a.SubmitAction? || a.ViewAction? || a.ListAction? || a.ApproveAction? || a.RejectAction? || a.CancelAction? || a.WithdrawAction?
  }

  /** An action on tables whose overdue rows, if it cares, are already marked. */
  function Core(digest: Digest, db: Tables, a: Action, now: int): Outcome {
    match a
    case InviteAction(k, expiresAt, active) => InsertInvite(db, k, now, expiresAt, active)
    case SubmitAction(header, nonce, ciphertext, tokenHash) => Submit(db, header, nonce, ciphertext, tokenHash, now)
    case ViewAction(claim, tokenHash) => View(db, claim, tokenHash)
    case ListAction(t, h) => Committed(db, Listed(PendingOf(db, t, h)))
    case FindAction(t, h, c) =>
      if ClaimAt(db, t, h, c) then Committed(db, Found(db.claims[c].device)) else RolledBack(ClaimNotFound)
    case ApproveAction(request) => Approve(digest, db, request, now)
    case RejectAction(t, h, c) => Reject(db, t, h, c, now)
    case CancelAction(claim, tokenHash) => Cancel(db, claim, tokenHash, now)
    case WithdrawAction(k, given) => WithdrawInvite(db, k, given, now)
    case RevokeAction(k) => Revoke(db, k)
    case PinAction(k, displayName, e, tenantEnabled) =>
      (match Hosts.Pin(db, k, displayName, e, tenantEnabled)
       case Enrolled(after) => Committed(after, Done)
       case Refused(reason) => RolledBack(EnrollRefused(reason)))
    case TenantAction(t, enabled) => Committed(db.(tenants := db.tenants[t := enabled]), Done)
    case RefuseAction(e) => RolledBack(e)
  }

  datatype Step = Step(db: Tables, reply: Reply)

  /** One operation of the relay: sweep if it sweeps, act, and on error put everything back. */
  function Execute(digest: Digest, db: Tables, a: Action, now: int): Step {
    match Core(digest, if Sweeps(a) then Sweep(db, now) else db, a, now)
    case Committed(after, reply) => Step(after, reply)
    case RolledBack(e) => Step(db, Failed(e))
  }

  datatype Call = Call(action: Action, now: int)

  ghost predicate CallsOk(calls: seq<Call>) {
    forall i :: 0 <= i < |calls| ==> ActionOk(calls[i].action, calls[i].now)
  }

  function Run(digest: Digest, db: Tables, calls: seq<Call>): Tables {
    if calls == [] then db
    else Execute(digest, Run(digest, db, calls[..|calls| - 1]), calls[|calls| - 1].action, calls[|calls| - 1].now).db
  }
}

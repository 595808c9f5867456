/** Runs of real requests, for the properties that fail: a tenant is enabled, a host enrols,
    creates an invite, a device claims it and is approved. What the requests carry is any
    set of values the relay's validation lets through. */
module Scenarios {
  import opened Text
  import opened Tables
  import opened Pairing
  import opened PairingRequests
  import opened PairingInvariants
  import EagerExpiry
  import DeviceHistory
  import PairingSteps
  import Hosts

  /** What one host and one device need to pair. */
  datatype Kit = Kit(
    enrollment: Hosts.Enrollment,
    header: ClaimHeader,
    nonce: string,
    ciphertext: string,
    rawToken: seq<byte>,
    approval: Approval)

  function RequestOf(kit: Kit): ApproveRequest {
    ApproveRequest(kit.header.tenant, kit.header.host, kit.header.claim, kit.approval)
  }

  /** Validation lets every request made from the kit through. */
  predicate Genuine(env: Env, kit: Kit) {
    && Hosts.EnrollmentError(kit.enrollment, env.onCurve).None?
    && kit.enrollment.tenant == kit.header.tenant && kit.enrollment.host == kit.header.host
    && ClaimError(env, kit.header, kit.nonce, kit.ciphertext).None?
    && ApprovalError(env, RequestOf(kit)).None?
    && kit.approval.agreementKey == kit.header.agreementKey && kit.approval.keyVersion == kit.header.keyVersion
  }

  function InviteName(kit: Kit): InviteKey {
    InviteKey(kit.header.tenant, kit.header.host, kit.header.invite)
  }

  function DeviceName(kit: Kit): DeviceKey {
    DeviceKey(kit.header.tenant, kit.header.host, kit.header.device)
  }

  function TenantOp(kit: Kit): Op {
    Op.SetTenant(kit.header.tenant, true)
  }

  /** The four requests, all at time zero; the invite lives its full ten minutes. */
  function EnrollOp(kit: Kit): Op {
    Op.EnrollHost(kit.enrollment, true)
  }

  function InviteOp(kit: Kit): Op {
    Op.CreateInvite(kit.header.tenant, kit.header.host, kit.header.invite, 0, MAX_INVITE_NANOS, true)
  }

  function SubmitOp(kit: Kit): Op {
    Op.SubmitClaim(kit.header, kit.nonce, kit.ciphertext, kit.rawToken)
  }

  function ApproveOp(kit: Kit): Op {
    Op.ApproveClaim(RequestOf(kit))
  }

  /** The actions the four requests come down to. */
  function EnrollAction(kit: Kit): Action {
    PinAction(HostKey(kit.header.tenant, kit.header.host), TrimSpace(kit.enrollment.displayName), kit.enrollment, true)
  }

  function InviteActionOf(kit: Kit): Action {
    InviteAction(InviteName(kit), MAX_INVITE_MILLIS, true)
  }

  function SubmitActionOf(env: Env, kit: Kit): Action {
    SubmitAction(kit.header, kit.nonce, kit.ciphertext, env.sha(kit.rawToken))
  }

  lemma GenuineNames(env: Env, kit: Kit)
    requires Genuine(env, kit)
    ensures TrimSpace(kit.header.tenant) == kit.header.tenant && TrimSpace(kit.header.host) == kit.header.host
    ensures TrimSpace(kit.header.invite) == kit.header.invite && TrimSpace(kit.header.claim) == kit.header.claim
    ensures ValidIdentifier(kit.header.tenant) && ValidIdentifier(kit.header.host) && ValidIdentifier(kit.header.device)
    ensures ValidIdentifier(kit.header.invite) && ValidIdentifier(kit.header.claim)
  {
  }

  lemma EnrollDispatch(env: Env, e: Hosts.Enrollment, op: Op, now: int)
    requires op == Op.EnrollHost(e, true) && Hosts.EnrollmentError(e, env.onCurve).None?
    ensures Plan(env, op, now) == PinAction(HostKey(TrimSpace(e.tenant), TrimSpace(e.host)), TrimSpace(e.displayName), e, true)
  {
  }

  lemma EnrollPlan(env: Env, kit: Kit)
    requires Hosts.EnrollmentError(kit.enrollment, env.onCurve).None?
    requires kit.enrollment.tenant == TrimSpace(kit.enrollment.tenant) == kit.header.tenant
    requires kit.enrollment.host == TrimSpace(kit.enrollment.host) == kit.header.host
    ensures Plan(env, EnrollOp(kit), 0) == EnrollAction(kit)
  {
    EnrollDispatch(env, kit.enrollment, EnrollOp(kit), 0);
  }

  lemma InvitePlan(env: Env, kit: Kit)
    requires Genuine(env, kit)
    ensures Plan(env, InviteOp(kit), 0) == InviteActionOf(kit)
  {
    GenuineNames(env, kit);
  }

  lemma SubmitPlan(env: Env, kit: Kit)
    requires ClaimError(env, kit.header, kit.nonce, kit.ciphertext).None?
    ensures Plan(env, SubmitOp(kit), 0) == SubmitActionOf(env, kit)
  {
  }

  lemma ApprovalPlanned(env: Env, r: ApproveRequest)
    requires ApprovalError(env, r).None?
    ensures PlanApproval(env, r) == ApproveAction(r)
  {
  }

  lemma ApprovalDispatch(env: Env, r: ApproveRequest, op: Op, now: int)
    requires op == Op.ApproveClaim(r)
    ensures Plan(env, op, now) == PlanApproval(env, r)
  {
  }

  lemma ApprovePlan(env: Env, kit: Kit)
    requires ApprovalError(env, RequestOf(kit)).None?
    ensures Plan(env, ApproveOp(kit), 0) == ApproveAction(RequestOf(kit))
  {
    ApprovalPlanned(env, RequestOf(kit));
    ApprovalDispatch(env, RequestOf(kit), ApproveOp(kit), 0);
  }

  /** The plans of a kit's requests, all at once. */
  lemma KitPlans(env: Env, kit: Kit)
    requires Genuine(env, kit)
    ensures Plan(env, TenantOp(kit), 0) == TenantAction(kit.header.tenant, true)
    ensures Plan(env, EnrollOp(kit), 0) == EnrollAction(kit)
    ensures Plan(env, InviteOp(kit), 0) == InviteActionOf(kit)
    ensures Plan(env, SubmitOp(kit), 0) == SubmitActionOf(env, kit)
    ensures Plan(env, ApproveOp(kit), 0) == ApproveAction(RequestOf(kit))
  {
    GenuineNames(env, kit);
    TenantDispatch(env, kit.header.tenant, TenantOp(kit), 0);
    EnrollPlan(env, kit);
    InvitePlan(env, kit);
    SubmitPlan(env, kit);
    ApprovePlan(env, kit);
  }

  lemma TenantDispatch(env: Env, tenant: string, op: Op, now: int)
    requires op == Op.SetTenant(tenant, true)
    ensures Plan(env, op, now) == TenantAction(tenant, true)
  {
  }

  // ----- what they do to the tables -----

  /** Nothing of the kit is there yet, and nothing is overdue at time zero. */
  ghost predicate Ready(db: Tables, kit: Kit) {
    && TenantEnabled(db, kit.header.tenant) && HostKey(kit.header.tenant, kit.header.host) !in db.hosts
    && InviteName(kit) !in db.invites && kit.header.claim !in db.claims && DeviceName(kit) !in db.devices
    && Timely(db)
  }

  ghost predicate Timely(db: Tables) {
    && (forall c :: c in db.claims ==> db.claims[c].expiresAt > 0)
    && (forall k :: k in db.invites ==> db.invites[k].expiresAt > 0)
  }

  lemma TimelySweep(db: Tables)
    requires Timely(db)
    ensures Sweep(db, 0) == db
  {
    assert Sweep(db, 0).claims == db.claims && Sweep(db, 0).invites == db.invites;
  }

  function HostRowOf(kit: Kit): HostRow {
    HostRow(TrimSpace(kit.enrollment.displayName), kit.enrollment.signingKey, kit.enrollment.agreementKey,
            kit.enrollment.keyVersion, true, false)
  }

  function Enrolled(db: Tables, kit: Kit): Tables {
    db.(hosts := db.hosts[HostKey(kit.header.tenant, kit.header.host) := HostRowOf(kit)])
  }

  function Invited(db: Tables, kit: Kit): Tables {
    var s := Enrolled(db, kit);
    s.(invites := s.invites[InviteName(kit) := InviteRow(Pending, 0, MAX_INVITE_MILLIS, None)])
  }

  function ClaimOf(kit: Kit, tokenHash: seq<byte>): ClaimRow {
    NewClaim(kit.header, kit.nonce, kit.ciphertext, tokenHash, 0, MAX_INVITE_MILLIS)
  }

  function Claimed(db: Tables, kit: Kit, tokenHash: seq<byte>): Tables {
    var s := Invited(db, kit);
    s.(claims := s.claims[kit.header.claim := ClaimOf(kit, tokenHash)])
  }

  lemma EnrollStep(digest: Digest, db: Tables, kit: Kit)
    requires Ready(db, kit)
    ensures Execute(digest, db, EnrollAction(kit), 0).db == Enrolled(db, kit)
  {
  }

  lemma InviteStep(digest: Digest, db: Tables, kit: Kit)
    requires Ready(db, kit)
    ensures Execute(digest, Enrolled(db, kit), InviteActionOf(kit), 0).db == Invited(db, kit)
  {
  }

  lemma SubmitStep(digest: Digest, db: Tables, kit: Kit, tokenHash: seq<byte>)
    requires Ready(db, kit)
    ensures var a := SubmitAction(kit.header, kit.nonce, kit.ciphertext, tokenHash);
            Execute(digest, Invited(db, kit), a, 0).db == Claimed(db, kit, tokenHash)
  {
    var s := Invited(db, kit);
    assert Timely(s);
    TimelySweep(s);
    assert HostActive(s, kit.header.tenant, kit.header.host);
  }

  /** The tables after an approved kit: as before, with its host, invite, claim and device. */
  ghost predicate PairedWith(db: Tables, s: Tables, kit: Kit) {
    && s.tenants == db.tenants && s.hosts == Enrolled(db, kit).hosts
    && s.invites.Keys == db.invites.Keys + {InviteName(kit)} && s.claims.Keys == db.claims.Keys + {kit.header.claim}
    && s.devices.Keys == db.devices.Keys + {DeviceName(kit)}
    && s.devices[DeviceName(kit)] == DeviceHistory.BoundRow(kit.approval, 0)
    && (forall k :: k in db.devices ==> s.devices[k] == db.devices[k])
    && Timely(s)
  }

  lemma ApprovalCommits(digest: Digest, s: Tables, kit: Kit, tokenHash: seq<byte>)
    requires Timely(s) && kit.header.claim in s.claims && s.claims[kit.header.claim] == ClaimOf(kit, tokenHash)
    requires InviteName(kit) in s.invites && s.invites[InviteName(kit)].status == Pending
    requires DeviceName(kit) !in s.devices && HostKey(kit.header.tenant, kit.header.host) in s.hosts
    requires kit.approval.agreementKey == kit.header.agreementKey && kit.approval.keyVersion == kit.header.keyVersion
    ensures Execute(digest, s, ApproveAction(RequestOf(kit)), 0) ==
            Step(AfterApproval(s, kit.header.claim, kit.approval, DeviceHistory.BoundRow(kit.approval, 0), 0), Done)
  {
    TimelySweep(s);
  }

  lemma ApprovedTimely(db: Tables, id: string, a: Approval, device: DeviceRow)
    requires Timely(db) && id in db.claims && InviteOf(db.claims[id]) in db.invites
    ensures Timely(AfterApproval(db, id, a, device, 0))
  {
  }

  lemma PairedAfter(db: Tables, s: Tables, n: Tables, kit: Kit, tokenHash: seq<byte>)
    requires Ready(db, kit) && s == Claimed(db, kit, tokenHash)
    requires PairingSteps.TouchesOnly(s, n, kit.header.claim) && Timely(n)
    requires DeviceName(kit) in n.devices && n.devices[DeviceName(kit)] == DeviceHistory.BoundRow(kit.approval, 0)
    ensures PairedWith(db, n, kit)
  {
    assert DeviceOf(s.claims[kit.header.claim]) == DeviceName(kit);
    assert s.devices == db.devices;
  }

  lemma ApproveStep(digest: Digest, db: Tables, kit: Kit, tokenHash: seq<byte>)
    requires Ready(db, kit)
    requires kit.approval.agreementKey == kit.header.agreementKey && kit.approval.keyVersion == kit.header.keyVersion
    ensures PairedWith(db, Execute(digest, Claimed(db, kit, tokenHash), ApproveAction(RequestOf(kit)), 0).db, kit)
  {
    var s, id, row := Claimed(db, kit, tokenHash), kit.header.claim, DeviceHistory.BoundRow(kit.approval, 0);
    ClaimedState(db, kit, tokenHash);
    ApprovalCommits(digest, s, kit, tokenHash);
    PairingSteps.ApprovalTouchesOnly(s, id, kit.approval, row, 0);
    ApprovedTimely(s, id, kit.approval, row);
    PairedAfter(db, s, AfterApproval(s, id, kit.approval, row, 0), kit, tokenHash);
  }

  lemma ClaimedState(db: Tables, kit: Kit, tokenHash: seq<byte>)
    requires Ready(db, kit)
    ensures var s := Claimed(db, kit, tokenHash);
            && Timely(s) && kit.header.claim in s.claims && s.claims[kit.header.claim] == ClaimOf(kit, tokenHash)
            && InviteName(kit) in s.invites && s.invites[InviteName(kit)].status == Pending
            && DeviceName(kit) !in s.devices && HostKey(kit.header.tenant, kit.header.host) in s.hosts
            && InviteOf(s.claims[kit.header.claim]) == InviteName(kit)
  {
  }

  // ----- whole runs -----

  predicate StepTo(digest: Digest, db: Tables, c: Call, s: Tables) {
    Execute(digest, db, c.action, c.now).db == s
  }

  lemma RunAppend(digest: Digest, db: Tables, calls: seq<Call>, c: Call)
    ensures Run(digest, db, calls + [c]) == Execute(digest, Run(digest, db, calls), c.action, c.now).db
  {
    assert (calls + [c])[..|calls|] == calls;
  }

  lemma FourSteps(
    digest: Digest, a: Call, b: Call, c: Call, d: Call, s0: Tables, s1: Tables, s2: Tables, s3: Tables, s4: Tables)
    requires StepTo(digest, s0, a, s1) && StepTo(digest, s1, b, s2) && StepTo(digest, s2, c, s3) && StepTo(digest, s3, d, s4)
    ensures Run(digest, s0, [a, b, c, d]) == s4
  {
    RunAppend(digest, s0, [], a);
    RunAppend(digest, s0, [a], b);
    RunAppend(digest, s0, [a, b], c);
    RunAppend(digest, s0, [a, b, c], d);
    assert [] + [a] == [a] && [a] + [b] == [a, b] && [a, b] + [c] == [a, b, c] && [a, b, c] + [d] == [a, b, c, d];
  }

  lemma {:induction false} RunConcat(digest: Digest, db: Tables, a: seq<Call>, b: seq<Call>)
    ensures Run(digest, db, a + b) == Run(digest, Run(digest, db, a), b)
  {
    if b == [] {
      assert a + b == a;
    } else {
      var n := |b| - 1;
      RunConcat(digest, db, a, b[..n]);
      assert a + b == (a + b[..n]) + [b[n]] && b == b[..n] + [b[n]];
      RunAppend(digest, db, a + b[..n], b[n]);
      RunAppend(digest, Run(digest, db, a), b[..n], b[n]);
    }
  }

  /** All the requests of a kit, and the actions they come down to. */
  function PairCalls(env: Env, kit: Kit): seq<Call> {
    [Call(Plan(env, EnrollOp(kit), 0), 0), Call(Plan(env, InviteOp(kit), 0), 0), Call(Plan(env, SubmitOp(kit), 0), 0),
     Call(Plan(env, ApproveOp(kit), 0), 0)]
  }

  function PairActions(kit: Kit, tokenHash: seq<byte>): seq<Call> {
    [Call(EnrollAction(kit), 0), Call(InviteActionOf(kit), 0),
     Call(SubmitAction(kit.header, kit.nonce, kit.ciphertext, tokenHash), 0), Call(ApproveAction(RequestOf(kit)), 0)]
  }

  lemma PairPlans(env: Env, kit: Kit)
    requires Genuine(env, kit)
    ensures PairCalls(env, kit) == PairActions(kit, env.sha(kit.rawToken))
  {
    KitPlans(env, kit);
  }

  lemma PairRun(digest: Digest, db: Tables, kit: Kit, tokenHash: seq<byte>)
    requires Ready(db, kit)
    requires kit.approval.agreementKey == kit.header.agreementKey && kit.approval.keyVersion == kit.header.keyVersion
    ensures PairedWith(db, Run(digest, db, PairActions(kit, tokenHash)), kit)
  {
    var calls := PairActions(kit, tokenHash);
    var s := Execute(digest, Claimed(db, kit, tokenHash), ApproveAction(RequestOf(kit)), 0).db;
    EnrollStep(digest, db, kit);
    InviteStep(digest, db, kit);
    SubmitStep(digest, db, kit, tokenHash);
    ApproveStep(digest, db, kit, tokenHash);
    FourSteps(digest, calls[0], calls[1], calls[2], calls[3], db, Enrolled(db, kit), Invited(db, kit), Claimed(db, kit, tokenHash), s);
  }

  /** The tenant, then the requests of the kit up to its claim. */
  function FirstCalls(env: Env, kit: Kit): seq<Call> {
    [Call(Plan(env, TenantOp(kit), 0), 0), Call(Plan(env, EnrollOp(kit), 0), 0), Call(Plan(env, InviteOp(kit), 0), 0),
     Call(Plan(env, SubmitOp(kit), 0), 0)]
  }

  function FirstActions(kit: Kit, tokenHash: seq<byte>): seq<Call> {
    [Call(TenantAction(kit.header.tenant, true), 0), Call(EnrollAction(kit), 0), Call(InviteActionOf(kit), 0),
     Call(SubmitAction(kit.header, kit.nonce, kit.ciphertext, tokenHash), 0)]
  }

  lemma FirstPlans(env: Env, kit: Kit)
    requires Genuine(env, kit)
    ensures FirstCalls(env, kit) == FirstActions(kit, env.sha(kit.rawToken))
  {
    KitPlans(env, kit);
  }

  function OneTenant(tenant: string): Tables {
    EMPTY.(tenants := map[tenant := true])
  }

  lemma FirstClaim(digest: Digest, kit: Kit, tokenHash: seq<byte>)
    ensures Run(digest, EMPTY, FirstActions(kit, tokenHash)) == Claimed(OneTenant(kit.header.tenant), kit, tokenHash)
  {
    var db := OneTenant(kit.header.tenant);
    assert Ready(db, kit);
    var calls := FirstActions(kit, tokenHash);
    assert StepTo(digest, EMPTY, calls[0], db);
    EnrollStep(digest, db, kit);
    InviteStep(digest, db, kit);
    SubmitStep(digest, db, kit, tokenHash);
    FourSteps(digest, calls[0], calls[1], calls[2], calls[3], EMPTY, db, Enrolled(db, kit), Invited(db, kit), Claimed(db, kit, tokenHash));
  }

  lemma FirstActionsOk(kit: Kit, tokenHash: seq<byte>)
    requires NameOk(InviteName(kit))
    ensures CallsOk(FirstActions(kit, tokenHash))
    ensures forall i :: 0 <= i < |FirstActions(kit, tokenHash)| ==>
              FirstActions(kit, tokenHash)[i].now == 0 && CancelTrimmed(FirstActions(kit, tokenHash)[i].action)
  {
  }

  // ----- the failing cases -----

  lemma TrailingSpace(s: string)
    requires ValidIdentifier(s)
    ensures TrimSpace(s + " ") == s && !Trimmed(s + " ")
  {
    var t := s + " ";
    TrimSpaceIsTrimmed(s);
    TrimLeftStarts(t);
    assert t[0] == s[0] && t[|t| - 1] == ' ' && t[..|t| - 1] == s;
    TrimRightEnds(s);
    assert TrimRight(t) == TrimRight(s) == s;
  }

  /** CancelInvite of the kit's invite, named with a space at the end. */
  function SloppyCancel(kit: Kit): Op {
    Op.CancelInvite(kit.header.tenant, kit.header.host, kit.header.invite + " ")
  }

  lemma CancelDispatch(env: Env, k: InviteKey, given: InviteKey, op: Op, now: int)
    requires op == Op.CancelInvite(given.tenant, given.host, given.invite)
    requires k == InviteKey(TrimSpace(given.tenant), TrimSpace(given.host), TrimSpace(given.invite))
    ensures Plan(env, op, now) == WithdrawAction(k, given)
  {
  }

  lemma SloppyPlan(env: Env, kit: Kit)
    requires Genuine(env, kit)
    ensures Plan(env, SloppyCancel(kit), 1) == WithdrawAction(InviteName(kit), InviteName(kit).(invite := kit.header.invite + " "))
    ensures kit.header.invite + " " != kit.header.invite && NameOk(InviteName(kit))
  {
    GenuineNames(env, kit);
    TrailingSpace(kit.header.invite);
    CancelDispatch(env, InviteName(kit), InviteName(kit).(invite := kit.header.invite + " "), SloppyCancel(kit), 1);
  }

  /** An invite cancelled by a name with a space at its end leaves the pending claim without a
      pending invite, five requests away from the empty store. */
  lemma UntrimmedCancelLeavesClaimPending(env: Env, kit: Kit)
    requires Genuine(env, kit)
    ensures var db := Run(DigestOf(env), EMPTY, FirstCalls(env, kit));
            && PendingBacked(db)
            && !PendingBacked(Execute(DigestOf(env), db, Plan(env, SloppyCancel(kit), 1), 1).db)
  {
    SloppyPlan(env, kit);
    FirstPlans(env, kit);
    WithdrawnSloppily(DigestOf(env), kit, env.sha(kit.rawToken), InviteName(kit).(invite := kit.header.invite + " "));
    PlanIsOk(env, SloppyCancel(kit), 1);
  }

  lemma WithdrawnSloppily(digest: Digest, kit: Kit, tokenHash: seq<byte>, given: InviteKey)
    requires NameOk(InviteName(kit)) && given != InviteName(kit)
    ensures var db := Run(digest, EMPTY, FirstActions(kit, tokenHash));
            && PendingBacked(db)
            && (ActionOk(WithdrawAction(InviteName(kit), given), 1) ==>
                  !PendingBacked(Execute(digest, db, WithdrawAction(InviteName(kit), given), 1).db))
  {
    var calls := FirstActions(kit, tokenHash);
    FirstActionsOk(kit, tokenHash);
    FirstClaim(digest, kit, tokenHash);
    ReachableInv(digest, calls);
    ReachableNames(digest, calls);
    ReachableBacking(digest, calls);
    var db := Run(digest, EMPTY, calls);
    assert LiveClaim(db, kit.header.claim, InviteName(kit), 1);
    if ActionOk(WithdrawAction(InviteName(kit), given), 1) {
      CancelInviteBacking(digest, db, InviteName(kit), given, 1);
    }
  }

  /** Reading the kit's claim with its token, one millisecond after it ran out. */
  function LateReading(kit: Kit, token: string): Op {
    Op.GetClaim(kit.header.claim, token)
  }

  const LATE := MAX_INVITE_MILLIS + 1

  lemma ReadingDispatch(env: Env, claim: string, token: string, op: Op, now: int)
    requires op == Op.GetClaim(claim, token) && TrimSpace(claim) == claim && TokenHash(env, token).Some?
    ensures Plan(env, op, now) == ViewAction(claim, TokenHash(env, token).value)
  {
  }

  lemma LateViewDiffers(digest: Digest, kit: Kit, tokenHash: seq<byte>)
    requires NameOk(InviteName(kit))
    ensures var calls := FirstActions(kit, tokenHash);
            var a := ViewAction(kit.header.claim, tokenHash);
            Execute(digest, Run(digest, EMPTY, calls), a, LATE).reply !=
            EagerExpiry.ExecuteEager(digest, EagerExpiry.RunEager(digest, EMPTY, calls), a, LATE).reply
  {
    var calls := FirstActions(kit, tokenHash);
    FirstActionsOk(kit, tokenHash);
    FirstClaim(digest, kit, tokenHash);
    EagerExpiry.RepliesEqualUnlessLate(digest, calls, ViewAction(kit.header.claim, tokenHash), LATE);
  }

  /** Lazy expiry shows: a claim read one millisecond late answers otherwise than it would
      with eager expiry. */
  lemma LateReadingDiffers(env: Env, kit: Kit, token: string)
    requires Genuine(env, kit) && TokenHash(env, token) == Some(env.sha(kit.rawToken))
    ensures var a := Plan(env, LateReading(kit, token), LATE);
            var digest, calls := DigestOf(env), FirstCalls(env, kit);
            Execute(digest, Run(digest, EMPTY, calls), a, LATE).reply !=
            EagerExpiry.ExecuteEager(digest, EagerExpiry.RunEager(digest, EMPTY, calls), a, LATE).reply
  {
    GenuineNames(env, kit);
    SloppyPlan(env, kit);
    FirstPlans(env, kit);
    ReadingDispatch(env, kit.header.claim, token, LateReading(kit, token), LATE);
    LateViewDiffers(DigestOf(env), kit, env.sha(kit.rawToken));
  }
}

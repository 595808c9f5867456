/** Pairing requests as they arrive: their validation and trimming, and the action each
    one comes down to. */
module PairingRequests {
  import opened Text
  import opened Tables
  import opened Pairing
  import opened Keys
  import Base64Url
  import Hosts

  const MAX_INVITE_NANOS := 600_000_000_000
  const NANOS_PER_MILLI := 1_000_000
  const MAX_HEADER_BYTES := 8 * 1024
  const MAX_CIPHERTEXT_BYTES := 256 * 1024

  /** What the relay computes with but does not define: the hash, the curve's point check,
      and the length of a header written as JSON. */
  datatype Env = Env(
    sha: seq<byte> -> seq<byte>,
    onCurve: seq<byte> -> bool,
    headerBytes: ClaimHeader -> nat)

  function DigestOf(env: Env): Digest {
    (s: string) => env.sha(Utf8(s))
  }

  /** The part of an instant below its millisecond. */
  type submilli = n: int | 0 <= n < 1_000_000

  function ClaimError(env: Env, h: ClaimHeader, nonce: string, ciphertext: string): Option<Error> {
    if !(ValidIdentifier(h.invite) && ValidIdentifier(h.tenant) && ValidIdentifier(h.host)
         && ValidIdentifier(h.claim) && ValidIdentifier(h.device)) then Some(InvalidClaim)
    else if h.keyVersion <= 0 || !ValidKey(h.agreementKey, env.onCurve) then Some(InvalidDeviceIdentity)
    else if Base64Url.DecodeExact(h.clientNonce, 32).None? || Base64Url.DecodeExact(nonce, 12).None? then Some(InvalidClaim)
    else
      match Base64Url.DecodeStrict(ciphertext)
      case None => Some(InvalidClaim)
      case Some(b) =>
        if |b| < 16 || |b| > MAX_CIPHERTEXT_BYTES || |b| != h.ciphertextLength then Some(InvalidClaim)
        else if env.headerBytes(h) > MAX_HEADER_BYTES then Some(InvalidClaim)
        else None
  }

  function ApprovalError(env: Env, r: ApproveRequest): Option<Error> {
    var a := r.approval;
    if !(ValidIdentifier(r.tenant) && ValidIdentifier(r.host) && ValidIdentifier(r.claim))
       || a.keyVersion <= 0 || a.bindingVersion <= 0 || a.signingKey == a.agreementKey
       || !ValidKey(a.signingKey, env.onCurve) || !ValidKey(a.agreementKey, env.onCurve) then Some(InvalidDeviceIdentity)
    else
      match (Base64Url.DecodeStrict(a.header), Base64Url.DecodeExact(a.nonce, 12), Base64Url.DecodeStrict(a.ciphertext))
      case (Some(h), Some(_), Some(c)) =>
        if |h| == 0 || |h| > MAX_HEADER_BYTES || |c| < 16 || |c| > MAX_CIPHERTEXT_BYTES then Some(InvalidApproval)
        else None
      case _ => Some(InvalidApproval)
  }

  /** hashAccessToken. */
  function TokenHash(env: Env, token: string): Option<seq<byte>> {
    match Base64Url.DecodeExact(token, 32)
    case Some(raw) => Some(env.sha(raw))
    case None => None
  }

  predicate InviteArgumentsOk(k: InviteKey, now: int, nanos: submilli, expires: int) {
    && ValidIdentifier(k.tenant) && ValidIdentifier(k.host) && ValidIdentifier(k.invite)
    && expires / NANOS_PER_MILLI > now
    && expires - (now * NANOS_PER_MILLI + nanos) <= MAX_INVITE_NANOS
  }

  datatype Op =
    | CreateInvite(tenant: string, host: string, invite: string, nanos: submilli, expires: int, active: bool)
    | SubmitClaim(header: ClaimHeader, nonce: string, ciphertext: string, rawToken: seq<byte>)
    | GetClaim(claim: string, accessToken: string)
    | ListClaims(tenant: string, host: string)
    | FindDevice(tenant: string, host: string, claim: string)
    | ApproveClaim(request: ApproveRequest)
    | RejectClaim(tenant: string, host: string, claim: string)
    | CancelClaim(claim: string, accessToken: string)
    | CancelInvite(tenant: string, host: string, invite: string)
    | RevokeDevice(tenant: string, host: string, device: string)
    | EnrollHost(enrollment: Hosts.Enrollment, tenantEnabled: bool)
    | SetTenant(tenant: string, enabled: bool)

  function PlanInvite(k: InviteKey, now: int, nanos: submilli, expires: int, active: bool): Action {
    if InviteArgumentsOk(k, now, nanos, expires) then InviteAction(k, expires / NANOS_PER_MILLI, active)
    else RefuseAction(InvalidInvite)
  }

  function PlanSubmission(env: Env, header: ClaimHeader, nonce: string, ciphertext: string, rawToken: seq<byte>): Action {
    match ClaimError(env, header, nonce, ciphertext)
    case Some(e) => RefuseAction(e)
    case None => SubmitAction(header, nonce, ciphertext, env.sha(rawToken))
  }

  function PlanView(env: Env, claim: string, token: string): Action {
    match TokenHash(env, token)
    case Some(h) => ViewAction(claim, h)
    case None => RefuseAction(Unauthorized)
  }

  function PlanCancel(env: Env, claim: string, token: string): Action {
    match TokenHash(env, token)
    case Some(h) => CancelAction(claim, h)
    case None => RefuseAction(Unauthorized)
  }

  function PlanApproval(env: Env, request: ApproveRequest): Action {
    match ApprovalError(env, request)
    case Some(e) => RefuseAction(e)
    case None => ApproveAction(request)
  }

  /** The action a request comes down to. */
  function Plan(env: Env, op: Op, now: int): Action {
    match op
    case CreateInvite(t, h, i, nanos, expires, active) =>
      PlanInvite(InviteKey(TrimSpace(t), TrimSpace(h), TrimSpace(i)), now, nanos, expires, active)
    case SubmitClaim(header, nonce, ciphertext, rawToken) => PlanSubmission(env, header, nonce, ciphertext, rawToken)
    case GetClaim(claim, token) => PlanView(env, TrimSpace(claim), token)
    case ListClaims(t, h) => ListAction(TrimSpace(t), TrimSpace(h))
    case FindDevice(t, h, c) => FindAction(TrimSpace(t), TrimSpace(h), TrimSpace(c))
    case ApproveClaim(request) => PlanApproval(env, request)
    case RejectClaim(t, h, c) => RejectAction(TrimSpace(t), TrimSpace(h), TrimSpace(c))
    case CancelClaim(claim, token) => PlanCancel(env, TrimSpace(claim), token)
    case CancelInvite(t, h, i) => WithdrawAction(InviteKey(TrimSpace(t), TrimSpace(h), TrimSpace(i)), InviteKey(t, h, i))
    case RevokeDevice(t, h, d) => RevokeAction(DeviceKey(t, h, d))
    case EnrollHost(e, tenantEnabled) =>
      (match Hosts.EnrollmentError(e, env.onCurve)
       case Some(reason) => RefuseAction(EnrollRefused(reason))
       case None => PinAction(HostKey(TrimSpace(e.tenant), TrimSpace(e.host)), TrimSpace(e.displayName), e, tenantEnabled))
    case SetTenant(t, enabled) => TenantAction(t, enabled)
  }

  /** A lifetime of at most ten minutes in nanoseconds is one in milliseconds. */
  lemma MillisBound(now: int, nanos: submilli, expires: int)
    requires expires - (now * NANOS_PER_MILLI + nanos) <= MAX_INVITE_NANOS
    ensures expires / NANOS_PER_MILLI <= now + MAX_INVITE_MILLIS
  {
  }

  /** Whatever the request, its action is one the tables may be given. */
  lemma PlanIsOk(env: Env, op: Op, now: int)
    ensures ActionOk(Plan(env, op, now), now)
  {
    if op.CreateInvite? && Plan(env, op, now).InviteAction? {
      MillisBound(now, op.nanos, op.expires);
    } else if op.CancelInvite? {
      TrimSpaceIsTrimmed(op.tenant);
      TrimSpaceIsTrimmed(op.host);
      TrimSpaceIsTrimmed(op.invite);
    }
  }

  /** An approval that passes validation names its claim as it is stored. */
  lemma ApprovalNamesAreTrimmed(env: Env, r: ApproveRequest)
    requires ApprovalError(env, r).None?
    ensures TrimSpace(r.tenant) == r.tenant && TrimSpace(r.host) == r.host && TrimSpace(r.claim) == r.claim
  {
  }
}

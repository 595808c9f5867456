/** The pairing service: each operation statement by statement on the open database, with
    rollback, proved to be the atomic step of module Pairing. `fault` numbers the statement
    at which the store reports an error; 0 means that none does. */
module PairingService {
  import opened Text
  import opened Tables
  import opened Pairing
  import opened PairingRequests

  class Service {
    const db: Database
    const env: Env

    constructor (db: Database, env: Env)
      ensures this.db == db && this.env == env
    {
      this.db := db;
      this.env := env;
    }

    /** expirePending: two updates. */
    method ExpirePending(now: int)
      modifies db
      ensures db.Contents() == Sweep(old(db.Contents()), now)
    {
      db.claims := map c | c in db.claims :: ExpireClaim(db.claims[c], now);
      db.invites := map k | k in db.invites :: ExpireInvite(db.invites[k], now);
    }

    method Fail(saved: Tables, e: Error) returns (r: Reply)
      modifies db
      ensures db.Contents() == saved && r == Failed(e)
    {
      db.Restore(saved);
      r := Failed(e);
    }

    /** What a transaction with store faults may do: its atomic step, or nothing at all. */
    ghost predicate AtomicOrNothing(before: Tables, a: Action, now: int, fault: nat, after: Step) {
      var step := Execute(DigestOf(env), before, a, now);
      after == step || (fault != 0 && after == Step(before, Failed(InternalError)))
    }

    method ApproveClaim(request: ApproveRequest, now: int, fault: nat) returns (r: Reply)
      modifies db
      ensures AtomicOrNothing(old(db.Contents()), PlanApproval(env, request), now, fault, Step(db.Contents(), r))
    {
      var invalid := ApprovalError(env, request);
      if invalid.Some? {
        return Failed(invalid.value);
      }
      ApprovalNamesAreTrimmed(env, request);
      r := ApproveValidated(request, TrimSpace(request.tenant), TrimSpace(request.host), TrimSpace(request.claim), now, fault);
    }

    /** The transaction of ApproveClaim. The lookup uses trimmed names, the updates the names
        as given; validation has made them the same. */
    method ApproveValidated(request: ApproveRequest, tenant: string, host: string, id: string, now: int, fault: nat)
      returns (r: Reply)
      requires tenant == request.tenant && host == request.host && id == request.claim
      modifies db
      ensures AtomicOrNothing(old(db.Contents()), ApproveAction(request), now, fault, Step(db.Contents(), r))
    {
      var saved := db.Contents();
      if fault == 1 {
        return Failed(InternalError);
      }
      ExpirePending(now);
      if fault == 2 {
        r := Fail(saved, InternalError);
        return;
      }
      if id !in db.claims || db.claims[id].tenant != tenant || db.claims[id].host != host {
        r := Fail(saved, ClaimNotFound);
        return;
      }
      var c := db.claims[id];
      if c.status == Approved {
        if !ApprovalMatches(DigestOf(env), c.approval, request.approval) {
          r := Fail(saved, ApprovalConflict);
          return;
        }
        if fault == 8 {
          r := Fail(saved, InternalError);
          return;
        }
        return Done;
      }
      if c.status != Pending {
        r := Fail(saved, ClaimNotPending);
        return;
      }
      if c.header.agreementKey != request.approval.agreementKey || c.header.keyVersion != request.approval.keyVersion {
        r := Fail(saved, InvalidDeviceIdentity);
        return;
      }
      var k := InviteKey(request.tenant, request.host, c.invite);
      if fault == 3 || k !in db.invites {
        r := Fail(saved, InternalError);
        return;
      }
      if db.invites[k].status != Pending {
        r := Fail(saved, InviteNotPending);
        return;
      }
      var device := DeviceKey(request.tenant, request.host, c.device);
      if fault == 4 || (device !in db.devices && HostKey(request.tenant, request.host) !in db.hosts) {
        r := Fail(saved, InternalError);
        return;
      }
      var row := UpsertDevice(db.devices, device, request.approval, now);
      if row.None? {
        r := Fail(saved, DeviceBindingConflict);
        return;
      }
      db.devices := db.devices[device := row.value];
      r := Conclude(request, saved, k, now, fault);
      // The guards inside Conclude are dead here: both updates find their one row.
      assert r != Failed(ClaimNotPending) && r != Failed(InviteNotPending);
    }

    /** The three updates that follow the device row: the claim, its siblings, the invite.
        On its own this part still has to guard the first and the last. */
    method Conclude(request: ApproveRequest, saved: Tables, k: InviteKey, now: int, fault: nat) returns (r: Reply)
      modifies db
      ensures var live := ClaimAt(old(db.Contents()), request.tenant, request.host, request.claim)
                          && old(db.claims)[request.claim].status == Pending;
              var open := k in old(db.invites) && old(db.invites)[k].status == Pending;
              && (r == Failed(ClaimNotPending) ==> !live)
              && (r == Failed(InviteNotPending) ==> !open)
              && (r == Failed(InternalError) ==> fault != 0)
              && (r == Done ==> live && open)
      ensures r in {Done, Failed(ClaimNotPending), Failed(InviteNotPending), Failed(InternalError)}
      ensures r != Done ==> db.Contents() == saved
      ensures r == Done ==>
                && db.tenants == old(db.tenants) && db.hosts == old(db.hosts) && db.devices == old(db.devices)
                && (InviteOf(old(db.claims)[request.claim]) == k ==>
                      db.claims == ClaimsAfterApproval(old(db.claims), request.claim, request.approval, now))
                && db.invites == old(db.invites)[k := old(db.invites)[k].(status := Consumed, consumedAt := Some(now))]
    {
      var id := request.claim;
      if fault == 5 {
        r := Fail(saved, InternalError);
        return;
      }
      var claimsAffected := 0;
      if id in db.claims && db.claims[id].tenant == request.tenant && db.claims[id].host == request.host
         && db.claims[id].status == Pending {
        db.claims := db.claims[id := ApprovedClaim(db.claims[id], request.approval, now)];
        claimsAffected := 1;
      }
      if claimsAffected != 1 {
        r := Fail(saved, ClaimNotPending);
        return;
      }
      if fault == 6 {
        r := Fail(saved, InternalError);
        return;
      }
      db.claims := map c | c in db.claims ::
        if InviteOf(db.claims[c]) == k && c != id && db.claims[c].status == Pending then ConsumedClaim(db.claims[c], now)
        else db.claims[c];
      if fault == 7 {
        r := Fail(saved, InternalError);
        return;
      }
      var invitesAffected := 0;
      if k in db.invites && db.invites[k].status == Pending {
        db.invites := db.invites[k := db.invites[k].(status := Consumed, consumedAt := Some(now))];
        invitesAffected := 1;
      }
      if invitesAffected != 1 {
        r := Fail(saved, InviteNotPending);
        return;
      }
      if fault == 8 {
        r := Fail(saved, InternalError);
        return;
      }
      return Done;
    }

    ghost predicate IsStep(before: Tables, a: Action, now: int, after: Step) {
      after == Execute(DigestOf(env), before, a, now)
    }

    /** CreateInvite: two statements outside any transaction, here without interference. */
    method CreateInvite(tenant: string, host: string, invite: string, now: int, nanos: submilli, expires: int)
      returns (r: Reply)
      modifies db
      ensures var k := InviteKey(TrimSpace(tenant), TrimSpace(host), TrimSpace(invite));
              IsStep(old(db.Contents()), PlanInvite(k, now, nanos, expires, HostActive(old(db.Contents()), k.tenant, k.host)), now,
                     Step(db.Contents(), r))
    {
      var k := InviteKey(TrimSpace(tenant), TrimSpace(host), TrimSpace(invite));
      if !InviteArgumentsOk(k, now, nanos, expires) {
        return Failed(InvalidInvite);
      }
      if !HostActive(db.Contents(), k.tenant, k.host) {
        return Failed(HostNotFound);
      }
      if k in db.invites {
        return Failed(InviteExists);
      }
      db.invites := db.invites[k := InviteRow(Pending, now, expires / NANOS_PER_MILLI, None)];
      return Done;
    }

    method SubmitClaim(header: ClaimHeader, nonce: string, ciphertext: string, rawToken: seq<byte>, now: int)
      returns (r: Reply)
      modifies db
      ensures IsStep(old(db.Contents()), PlanSubmission(env, header, nonce, ciphertext, rawToken), now, Step(db.Contents(), r))
    {
      var invalid := ClaimError(env, header, nonce, ciphertext);
      r := SubmitUnless(invalid, header, nonce, ciphertext, env.sha(rawToken), now);
    }

    method SubmitUnless(
      invalid: Option<Error>, header: ClaimHeader, nonce: string, ciphertext: string, tokenHash: seq<byte>, now: int)
      returns (r: Reply)
      modifies db
      ensures var plan := if invalid.Some? then RefuseAction(invalid.value) else SubmitAction(header, nonce, ciphertext, tokenHash);
              IsStep(old(db.Contents()), plan, now, Step(db.Contents(), r))
    {
      if invalid.Some? {
        return Failed(invalid.value);
      }
      r := SubmitValidated(header, nonce, ciphertext, tokenHash, now);
    }

    method SubmitValidated(header: ClaimHeader, nonce: string, ciphertext: string, tokenHash: seq<byte>, now: int)
      returns (r: Reply)
      modifies db
      ensures IsStep(old(db.Contents()), SubmitAction(header, nonce, ciphertext, tokenHash), now, Step(db.Contents(), r))
    {
      var saved := db.Contents();
      ExpirePending(now);
      var k := InviteKey(header.tenant, header.host, header.invite);
      if k !in db.invites || !HostActive(db.Contents(), header.tenant, header.host) {
        r := Fail(saved, InviteNotFound);
        return;
      }
      if db.invites[k].status != Pending {
        r := Fail(saved, InviteNotPending);
        return;
      }
      if header.claim in db.claims {
        r := Fail(saved, ClaimExists);
        return;
      }
      var expiresAt := db.invites[k].expiresAt;
      db.claims := db.claims[header.claim := NewClaim(header, nonce, ciphertext, tokenHash, now, expiresAt)];
      return Submitted(header.claim, expiresAt);
    }

    method GetClaimWithToken(claim: string, accessToken: string, now: int) returns (r: Reply)
      modifies db
      ensures IsStep(old(db.Contents()), PlanView(env, TrimSpace(claim), accessToken), now, Step(db.Contents(), r))
    {
      var hash := TokenHash(env, accessToken);
      if hash.None? {
        return Failed(Unauthorized);
      }
      var saved := db.Contents();
      ExpirePending(now);
      var id := TrimSpace(claim);
      if id !in db.claims || db.claims[id].tokenHash != hash.value {
        r := Fail(saved, Unauthorized);
        return;
      }
      return Viewed(ViewOf(id, db.claims[id]));
    }

    method ClaimDeviceID(tenant: string, host: string, claim: string) returns (r: Reply)
      ensures var id := TrimSpace(claim);
              r == if ClaimAt(db.Contents(), TrimSpace(tenant), TrimSpace(host), id) then Found(db.claims[id].device) else Failed(ClaimNotFound)
    {
      var id := TrimSpace(claim);
      if id !in db.claims || db.claims[id].tenant != TrimSpace(tenant) || db.claims[id].host != TrimSpace(host) {
        return Failed(ClaimNotFound);
      }
      return Found(db.claims[id].device);
    }

    method RejectClaim(tenant: string, host: string, claim: string, now: int) returns (r: Reply)
      modifies db
      ensures IsStep(old(db.Contents()), RejectAction(TrimSpace(tenant), TrimSpace(host), TrimSpace(claim)), now, Step(db.Contents(), r))
    {
      var saved := db.Contents();
      ExpirePending(now);
      var id := TrimSpace(claim);
      if id !in db.claims || db.claims[id].tenant != TrimSpace(tenant) || db.claims[id].host != TrimSpace(host)
         || db.claims[id].status != Pending {
        r := Fail(saved, ClaimNotPending);
        return;
      }
      db.claims := db.claims[id := db.claims[id].(status := Rejected, updatedAt := now)];
      return Done;
    }

    method CancelClaim(claim: string, accessToken: string, now: int) returns (r: Reply)
      modifies db
      ensures IsStep(old(db.Contents()), PlanCancel(env, TrimSpace(claim), accessToken), now, Step(db.Contents(), r))
    {
      var hash := TokenHash(env, accessToken);
      if hash.None? {
        return Failed(Unauthorized);
      }
      r := CancelHashed(TrimSpace(claim), hash.value, now);
    }

    method CancelHashed(id: string, tokenHash: seq<byte>, now: int) returns (r: Reply)
      modifies db
      ensures IsStep(old(db.Contents()), CancelAction(id, tokenHash), now, Step(db.Contents(), r))
    {
      var saved := db.Contents();
      ExpirePending(now);
      if id !in db.claims || db.claims[id].tokenHash != tokenHash {
        r := Fail(saved, Unauthorized);
        return;
      }
      if db.claims[id].status != Pending {
        r := Fail(saved, ClaimNotPending);
        return;
      }
      db.claims := db.claims[id := db.claims[id].(status := Cancelled, updatedAt := now)];
      return Done;
    }

    /** CancelInvite: the invite under trimmed names, its claims under the names as given. */
    method CancelInvite(tenant: string, host: string, invite: string, now: int) returns (r: Reply)
      modifies db
      ensures IsStep(old(db.Contents()),
                     WithdrawAction(InviteKey(TrimSpace(tenant), TrimSpace(host), TrimSpace(invite)), InviteKey(tenant, host, invite)),
                     now, Step(db.Contents(), r))
    {
      var saved := db.Contents();
      ExpirePending(now);
      var k := InviteKey(TrimSpace(tenant), TrimSpace(host), TrimSpace(invite));
      if k !in db.invites || db.invites[k].status != Pending {
        r := Fail(saved, InviteNotPending);
        return;
      }
      db.invites := db.invites[k := db.invites[k].(status := Cancelled, consumedAt := Some(now))];
      var given := InviteKey(tenant, host, invite);
      db.claims := map c | c in db.claims :: CancelledClaim(db.claims[c], given, now);
      return Done;
    }

    method RevokeDevice(tenant: string, host: string, device: string) returns (r: Reply)
      modifies db
      ensures forall now :: IsStep(old(db.Contents()), RevokeAction(DeviceKey(tenant, host, device)), now, Step(db.Contents(), r))
    {
      var k := DeviceKey(tenant, host, device);
      if k !in db.devices || db.devices[k].revoked {
        return Failed(DeviceNotFound);
      }
      db.devices := db.devices[k := db.devices[k].(revoked := true)];
      return Done;
    }

    /** ListPendingClaims: the pending claims of the host, oldest first, ties by claim id. */
    method ListPendingClaims(tenant: string, host: string, now: int) returns (result: seq<OpaqueClaim>, ghost ids: seq<string>)
      modifies db
      ensures db.Contents() == Sweep(old(db.Contents()), now)
      ensures var pending := PendingOf(db.Contents(), TrimSpace(tenant), TrimSpace(host));
              && |result| == |ids| && (forall i :: 0 <= i < |ids| ==> ids[i] in pending && result[i] == OpaqueOf(pending[ids[i]]))
              && (forall c :: c in pending ==> c in ids)
              && InOrder(pending, ids)
    {
      ExpirePending(now);
      var rows := PendingOf(db.Contents(), TrimSpace(tenant), TrimSpace(host));
      var order := OrderedIds(rows);
      result := [];
      var i := 0;
      while i < |order|
        invariant 0 <= i <= |order| == |result| + (|order| - i)
        invariant forall j :: 0 <= j < i ==> order[j] in rows && result[j] == OpaqueOf(rows[order[j]])
      {
        result := result + [OpaqueOf(rows[order[i]])];
        i := i + 1;
      }
      ids := order;
    }
  }

  datatype OpaqueClaim = OpaqueClaim(
    header: ClaimHeader, nonce: string, ciphertext: string, status: Status, createdAt: int, expiresAt: int)

  function OpaqueOf(c: ClaimRow): OpaqueClaim {
    OpaqueClaim(c.header, c.nonce, c.ciphertext, c.status, c.createdAt, c.expiresAt)
  }

  /** SQLite's binary order of texts. */
  predicate TextBefore(a: string, b: string) {
    if a == "" || b == "" then a == "" && b != ""
    else a[0] < b[0] || (a[0] == b[0] && TextBefore(a[1..], b[1..]))
  }

  lemma TextOrder(a: string, b: string, c: string)
    ensures !TextBefore(a, a)
    ensures TextBefore(a, b) && TextBefore(b, c) ==> TextBefore(a, c)
    ensures a != b ==> TextBefore(a, b) || TextBefore(b, a)
  {
    if a != "" {
      TextOrder(a[1..], if b == "" then "" else b[1..], if c == "" then "" else c[1..]);
      if b != "" && a[0] == b[0] && a[1..] == b[1..] {
        assert a == [a[0]] + a[1..] == [b[0]] + b[1..] == b;
      }
    }
  }

  predicate Before(rows: map<string, ClaimRow>, a: string, b: string)
    requires a in rows && b in rows
  {
    rows[a].createdAt < rows[b].createdAt || (rows[a].createdAt == rows[b].createdAt && TextBefore(a, b))
  }

  lemma BeforeOrder(rows: map<string, ClaimRow>, a: string, b: string, c: string)
    requires a in rows && b in rows && c in rows
    ensures Before(rows, a, b) && Before(rows, b, c) ==> Before(rows, a, c)
    ensures a != b ==> Before(rows, a, b) || Before(rows, b, a)
  {
    TextOrder(a, b, c);
  }

  /** Strictly ascending, so without repetition. */
  ghost predicate InOrder(rows: map<string, ClaimRow>, ids: seq<string>) {
    && (forall i :: 0 <= i < |ids| ==> ids[i] in rows)
    && forall i, j :: 0 <= i < j < |ids| ==> Before(rows, ids[i], ids[j])
  }

  method InsertId(rows: map<string, ClaimRow>, ids: seq<string>, id: string) returns (r: seq<string>)
    requires id in rows && id !in ids && InOrder(rows, ids)
    ensures InOrder(rows, r) && forall c :: c in r <==> c in ids || c == id
  {
    var i := 0;
    while i < |ids| && Before(rows, ids[i], id)
      invariant 0 <= i <= |ids|
      invariant forall j :: 0 <= j < i ==> Before(rows, ids[j], id)
    {
      i := i + 1;
    }
    forall j | i <= j < |ids| ensures Before(rows, id, ids[j]) {
      BeforeOrder(rows, id, ids[i], ids[j]);
    }
    r := ids[..i] + [id] + ids[i..];
  }

  /** order by created_at, claim_id. */
  method OrderedIds(rows: map<string, ClaimRow>) returns (ids: seq<string>)
    ensures InOrder(rows, ids) && forall c :: c in rows <==> c in ids
  {
    ids := [];
    var remaining := rows.Keys;
    while remaining != {}
      invariant remaining <= rows.Keys && InOrder(rows, ids)
      invariant forall c :: c in rows <==> c in ids || c in remaining
      invariant forall c :: c in remaining ==> c !in ids
      decreases |remaining|
    {
      var id :| id in remaining;
      ids := InsertId(rows, ids, id);
      remaining := remaining - {id};
    }
  }
}

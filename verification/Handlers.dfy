/** The HTTP handlers that need a ticket before they touch the pairing tables: lookup,
    ticket, change, in that order. */
module Handlers {
  import opened Text
  import opened Tables
  import opened Pairing
  import opened PairingRequests
  import opened Auth
  import opened Transcripts
  import opened Protocol
  import AuthService
  import PairingService
  import Hub
  import RouteKeys
  import HubServer

  /** The answer of a handler: turned away, or the reply of the operation behind it. */
  datatype Answer = Unauthorized401 | Answered(reply: Reply)

  /** What a ticketed handler leaves behind: nothing without the ticket; with it, the ticket
      spent and the operation's own step, whether that succeeds or not. */
  ghost predicate PaidFor(refusal: Option<Auth.Error>, db: Tables, step: Step, db': Tables, answer: Answer) {
    if refusal.Some? then db' == db && answer == Unauthorized401
    else db' == step.db && answer == Answered(step.reply)
  }

  /** Lookup and ticket: the claim must exist, and the ticket must be its host's, for its
      device and this purpose. */
  function Admission(
    crypto: Crypto, db: Tables, t: AuthTables, tenant: string, host: string, claim: string, purpose: string, token: string, now: int)
    : (AuthTables, Option<Auth.Error>)
  {
    if !ClaimAt(db, TrimSpace(tenant), TrimSpace(host), TrimSpace(claim)) then (t, Some(SubjectNotFound))
    else AuthService.Using(crypto, db, t, token, HostScope(tenant, host, db.claims[TrimSpace(claim)].device, purpose), now)
  }

  class Gate {
    const auth: AuthService.Service
    const pairing: PairingService.Service
    const server: HubServer.Server

    constructor (auth: AuthService.Service, pairing: PairingService.Service, server: HubServer.Server)
      ensures this.auth == auth && this.pairing == pairing && this.server == server
    {
      this.auth, this.pairing, this.server := auth, pairing, server;
    }

    method Admit(tenant: string, host: string, claim: string, purpose: string, token: string, now: int) returns (ok: bool)
      requires auth.store == pairing.db
      modifies auth
      ensures var (t, refusal) := Admission(auth.crypto, pairing.db.Contents(), old(auth.Rows()), tenant, host, claim, purpose, token, now);
              auth.Rows() == t && ok == refusal.None?
    {
      var found := pairing.ClaimDeviceID(tenant, host, claim);
      if !found.Found? {
        return false;
      }
      var refusal := auth.ConsumeTicket(token, HostScope(tenant, host, found.device, purpose), now);
      return refusal.None?;
    }

    /** handleApprovePairingClaim. */
    method ApprovePairingClaim(request: ApproveRequest, token: string, now: int) returns (answer: Answer)
      requires auth.store == pairing.db
      modifies auth, pairing.db
      ensures var db := old(pairing.db.Contents());
              var (t, refusal) := Admission(auth.crypto, db, old(auth.Rows()), request.tenant, request.host, request.claim, CLAIM_APPROVE, token, now);
              && auth.Rows() == t
              && PaidFor(refusal, db, Execute(DigestOf(pairing.env), db, PlanApproval(pairing.env, request), now), pairing.db.Contents(), answer)
    {
      var ok := Admit(request.tenant, request.host, request.claim, CLAIM_APPROVE, token, now);
      if !ok {
        return Unauthorized401;
      }
      var reply := pairing.ApproveClaim(request, now, 0);
      return Answered(reply);
    }

    /** handleRejectPairingClaim. */
    method RejectPairingClaim(tenant: string, host: string, claim: string, token: string, now: int) returns (answer: Answer)
      requires auth.store == pairing.db
      modifies auth, pairing.db
      ensures var db := old(pairing.db.Contents());
              var (t, refusal) := Admission(auth.crypto, db, old(auth.Rows()), tenant, host, claim, CLAIM_REJECT, token, now);
              var plan := RejectAction(TrimSpace(tenant), TrimSpace(host), TrimSpace(claim));
              && auth.Rows() == t
              && PaidFor(refusal, db, Execute(DigestOf(pairing.env), db, plan, now), pairing.db.Contents(), answer)
    {
      var ok := Admit(tenant, host, claim, CLAIM_REJECT, token, now);
      if !ok {
        return Unauthorized401;
      }
      var reply := pairing.RejectClaim(tenant, host, claim, now);
      return Answered(reply);
    }

    /** handleRevokeDevice: no lookup; the hub revokes and evicts. */
    method RevokeDevice(tenant: string, host: string, device: string, token: string, now: int)
      returns (answer: Answer, closeList: seq<nat>)
      requires auth.store == pairing.db && server.pairing == pairing
      modifies auth, pairing.db, server
      ensures var db := old(pairing.db.Contents());
              var scope := HostScope(tenant, host, device, DEVICE_REVOKE);
              var (t, refusal) := AuthService.Using(auth.crypto, db, old(auth.Rows()), token, scope, now);
              && auth.Rows() == t
              && PaidFor(refusal, db, Execute(DigestOf(pairing.env), db, RevokeAction(DeviceKey(tenant, host, device)), 0),
                         pairing.db.Contents(), answer)
      ensures var change := Hub.Evict(old(server.State()), RouteKeys.RouteKey(tenant, host, device));
              if answer == Answered(Done) then multiset(closeList) == change.closed && server.State() == change.routes
              else closeList == [] && server.State() == old(server.State())
    {
      closeList := [];
      var refusal := auth.ConsumeTicket(token, HostScope(tenant, host, device, DEVICE_REVOKE), now);
      if refusal.Some? {
        return Unauthorized401, [];
      }
      var reply;
      reply, closeList := server.RevokeDevice(tenant, host, device);
      return Answered(reply), closeList;
    }
  }

  /** The tickets the handlers ask for. */
  lemma GateScopes(tenant: string, host: string, device: string)
    ensures HostScope(tenant, host, device, CLAIM_APPROVE) == Scope("host", host, tenant, host, device, "pairing_claim_approve")
    ensures HostScope(tenant, host, device, CLAIM_REJECT) == Scope("host", host, tenant, host, device, "pairing_claim_reject")
    ensures HostScope(tenant, host, device, DEVICE_REVOKE) == Scope("host", host, tenant, host, device, "device_revoke")
  {
  }

  /** Lookup and ticket, one after the other. */
  function AfterTicket(
    rules: Rules, w: World, id: nat, r: ApproveRequest, tenant: string, host: string, claim: string, ticket: seq<byte>, at: int): World
  {
    Next(rules, Next(rules, w, Lookup(id, r, tenant, host, claim)), Authorize(id, ticket, at))
  }

  lemma TicketMoves(
    rules: Rules, w: World, id: nat, r: ApproveRequest, tenant: string, host: string, claim: string, ticket: seq<byte>, at: int)
    requires id !in w.handlers && ClaimAt(w.db, tenant, host, claim)
    ensures var n := AfterTicket(rules, w, id, r, tenant, host, claim, ticket, at);
            var spent := SpendTicket(w.db, w.auth, ticket, HostScope(r.tenant, r.host, w.db.claims[claim].device, CLAIM_APPROVE), at);
            && n.db == w.db && ReadyToSettle(n, id) == spent.Some?
            && n.auth == (if spent.Some? then spent.value else w.auth)
  {
    var a := Next(rules, w, Lookup(id, r, tenant, host, claim));
    assert a == w.(handlers := w.handlers[id := LookedUp(r, claim, w.db.claims[claim].device)]);
    assert Next(rules, a, Authorize(id, ticket, at)) == AuthorizeHandler(a, id, ticket, at);
  }

  lemma SettleMove(rules: Rules, w: World, id: nat, plan: Action, at: int)
    ensures var n := Next(rules, w, Settle(id, plan, at));
            && n.auth == w.auth
            && n.db == if ReadyToSettle(w, id) then Execute(rules.digest, w.db, plan, at).db else w.db
  {
  }

  /** The approve handler without interruption is the three moves of the interleaved model. */
  lemma ApprovalIsThreeMoves(
    rules: Rules, w: World, id: nat, r: ApproveRequest, tenant: string, host: string, claim: string,
    ticket: seq<byte>, plan: Action, at: int)
    requires id !in w.handlers && ClaimAt(w.db, tenant, host, claim)
    ensures var n := Next(rules, AfterTicket(rules, w, id, r, tenant, host, claim, ticket, at), Settle(id, plan, at));
            match SpendTicket(w.db, w.auth, ticket, HostScope(r.tenant, r.host, w.db.claims[claim].device, CLAIM_APPROVE), at)
            case None => n.db == w.db && n.auth == w.auth
            case Some(t) => n.db == Execute(rules.digest, w.db, plan, at).db && n.auth == t
  {
    TicketMoves(rules, w, id, r, tenant, host, claim, ticket, at);
    SettleMove(rules, AfterTicket(rules, w, id, r, tenant, host, claim, ticket, at), id, plan, at);
  }
}

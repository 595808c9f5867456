/** The device table as the outcome of the approvals and revocations that made it. */
module DeviceHistory {
  import opened Text
  import opened Tables
  import opened Pairing
  import opened PairingSteps
  import opened PairingInvariants

  /** A claim's approval bound its device; a revocation unbound one. */
  datatype Event =
    | Bound(device: DeviceKey, claim: string, approval: Approval, at: int)
    | Unbound(device: DeviceKey)

  function EventOf(digest: Digest, db: Tables, a: Action, now: int): Option<Event> {
    if a.ApproveAction? && ExecuteWinner(digest, db, a, now).Some? && a.request.claim in db.claims then
      Some(Bound(DeviceOf(db.claims[a.request.claim]), a.request.claim, a.request.approval, now))
    else if a.RevokeAction? && Execute(digest, db, a, now).reply == Done then Some(Unbound(a.device))
    else None
  }

  function Logged(h: seq<Event>, e: Option<Event>): seq<Event> {
    if e.Some? then h + [e.value] else h
  }

  function History(digest: Digest, db: Tables, calls: seq<Call>): seq<Event> {
    if calls == [] then []
    else
      var front, last := calls[..|calls| - 1], calls[|calls| - 1];
      Logged(History(digest, db, front), EventOf(digest, Run(digest, db, front), last.action, last.now))
  }

  function BoundRow(a: Approval, at: int): DeviceRow {
    DeviceRow(a.signingKey, a.agreementKey, a.keyVersion, a.bindingVersion, false, at)
  }

  function Apply(devices: map<DeviceKey, DeviceRow>, e: Event): map<DeviceKey, DeviceRow> {
    match e
    case Bound(k, _, a, at) => devices[k := BoundRow(a, at)]
    case Unbound(k) => if k in devices then devices[k := devices[k].(revoked := true)] else devices
  }

  function Fold(h: seq<Event>): map<DeviceKey, DeviceRow> {
    if h == [] then map[] else Apply(Fold(h[..|h| - 1]), h[|h| - 1])
  }

  // ----- reading the fold -----

  predicate Binds(e: Event, k: DeviceKey) {
    e.Bound? && e.device == k
  }

  /** The index of the last event that bound the device, or -1. */
  function LastBound(h: seq<Event>, k: DeviceKey): (i: int)
    ensures -1 <= i < |h|
    ensures 0 <= i ==> Binds(h[i], k)
    ensures forall j :: i < j < |h| ==> !Binds(h[j], k)
  {
    if h == [] then -1 else if Binds(h[|h| - 1], k) then |h| - 1 else LastBound(h[..|h| - 1], k)
  }

  ghost predicate UnboundAfter(h: seq<Event>, i: int, k: DeviceKey) {
    exists j :: 0 <= j && i < j < |h| && h[j] == Unbound(k)
  }

  /** A device has a row exactly when an event bound it; the row is that of the last one,
      revoked exactly when an unbinding came after. */
  lemma {:induction false} FoldReads(h: seq<Event>, k: DeviceKey)
    ensures var i := LastBound(h, k);
            && (k in Fold(h) <==> 0 <= i)
            && (0 <= i ==> Fold(h)[k] == BoundRow(h[i].approval, h[i].at).(revoked := UnboundAfter(h, i, k)))
  {
    if h != [] {
      var n := |h| - 1;
      var front := h[..n];
      FoldReads(front, k);
      var i := LastBound(h, k);
      if 0 <= i < n {
        if UnboundAfter(front, i, k) {
          var j :| 0 <= j && i < j < n && front[j] == Unbound(k);
          assert h[j] == Unbound(k);
        }
        if UnboundAfter(h, i, k) && h[n] != Unbound(k) {
          var j :| 0 <= j && i < j < |h| && h[j] == Unbound(k);
          assert front[j] == Unbound(k);
        }
      }
    }
  }

  // ----- the invariant -----

  predicate SameIdentity(a: Approval, b: Approval) {
    a.signingKey == b.signingKey && a.agreementKey == b.agreementKey && a.keyVersion == b.keyVersion
  }

  /** Approvals of one device agree on its keys, and their binding versions only advance. */
  ghost predicate Advancing(h: seq<Event>) {
    forall i, j :: 0 <= i < j < |h| && h[i].Bound? && h[j].Bound? && h[i].device == h[j].device ==>
      SameIdentity(h[i].approval, h[j].approval) && h[i].approval.bindingVersion < h[j].approval.bindingVersion
  }

  predicate RecordedBy(db: Tables, e: Event) {
    e.Bound? ==> && e.claim in db.claims && db.claims[e.claim].status == Approved && DeviceOf(db.claims[e.claim]) == e.device
                 && db.claims[e.claim].approval == Some(e.approval) && db.claims[e.claim].updatedAt == e.at
  }

  ghost predicate Recorded(h: seq<Event>, c: string) {
    exists i :: 0 <= i < |h| && h[i].Bound? && h[i].claim == c
  }

  /** Binding events and approved claims are the same thing, one to one. */
  ghost predicate Matched(db: Tables, h: seq<Event>) {
    && (forall i :: 0 <= i < |h| ==> RecordedBy(db, h[i]))
    && (forall c :: c in db.claims && db.claims[c].status == Approved ==> Recorded(h, c))
    && (forall i, j :: 0 <= i < j < |h| && h[i].Bound? && h[j].Bound? ==> h[i].claim != h[j].claim)
  }

  /** Each row carries the keys of every approval of its device and the highest binding. */
  ghost predicate RowsLead(devices: map<DeviceKey, DeviceRow>, h: seq<Event>) {
    forall i :: 0 <= i < |h| && h[i].Bound? ==>
      && h[i].device in devices
      && devices[h[i].device].signingKey == h[i].approval.signingKey
      && devices[h[i].device].agreementKey == h[i].approval.agreementKey
      && devices[h[i].device].keyVersion == h[i].approval.keyVersion
      && h[i].approval.bindingVersion <= devices[h[i].device].bindingVersion
  }

  ghost predicate HistoryOk(db: Tables, h: seq<Event>) {
    db.devices == Fold(h) && Advancing(h) && Matched(db, h) && RowsLead(db.devices, h)
  }

  /** What an event does to the device table and the winning claim. */
  ghost predicate EventHappens(db: Tables, s: Tables, e: Option<Event>, now: int) {
    match e
    case None => s.devices == db.devices
    case Some(Unbound(k)) =>
      k in db.devices && !db.devices[k].revoked && s.devices == db.devices[k := db.devices[k].(revoked := true)]
    case Some(Bound(k, c, a, at)) =>
      && UpsertDevice(db.devices, k, a, now).Some? && s.devices == db.devices[k := UpsertDevice(db.devices, k, a, now).value]
      && at == now && c in db.claims && db.claims[c].status == Pending && c in s.claims
      && s.claims[c] == ApprovedClaim(db.claims[c], a, now) && DeviceOf(db.claims[c]) == k
  }

  function EventWinner(e: Option<Event>): Option<string> {
    if e.Some? && e.value.Bound? then Some(e.value.claim) else None
  }

  lemma ApproveHappens(digest: Digest, db: Tables, r: ApproveRequest, now: int)
    ensures var e := EventOf(digest, db, ApproveAction(r), now);
            EventHappens(db, Execute(digest, db, ApproveAction(r), now).db, e, now)
            && EventWinner(e) == ExecuteWinner(digest, db, ApproveAction(r), now)
  {
    var base := Sweep(db, now);
    if r.claim in base.claims && base.claims[r.claim].status == Pending {
      assert base.claims[r.claim] == db.claims[r.claim];
    }
  }

  lemma ActionHappens(digest: Digest, db: Tables, a: Action, now: int)
    ensures var e := EventOf(digest, db, a, now);
            EventHappens(db, Execute(digest, db, a, now).db, e, now)
            && EventWinner(e) == ExecuteWinner(digest, db, a, now)
  {
    if a.ApproveAction? {
      ApproveHappens(digest, db, a.request, now);
    }
  }

  /** The upsert, when it goes through, writes the row of its approval. */
  lemma UpsertWritesBound(devices: map<DeviceKey, DeviceRow>, k: DeviceKey, a: Approval, now: int)
    requires UpsertDevice(devices, k, a, now).Some?
    ensures UpsertDevice(devices, k, a, now).value == BoundRow(a, now)
  {
  }

  lemma StepKeepsFold(db: Tables, s: Tables, h: seq<Event>, e: Option<Event>, now: int)
    requires db.devices == Fold(h) && EventHappens(db, s, e, now)
    ensures s.devices == Fold(Logged(h, e))
  {
    if e.Some? {
      assert (h + [e.value])[..|h|] == h;
      if e.value.Bound? {
        UpsertWritesBound(db.devices, e.value.device, e.value.approval, now);
      }
    }
  }

  lemma StepKeepsRowsLead(db: Tables, s: Tables, h: seq<Event>, e: Option<Event>, now: int)
    requires RowsLead(db.devices, h) && EventHappens(db, s, e, now)
    ensures RowsLead(s.devices, Logged(h, e))
  {
  }

  lemma StepKeepsAdvancing(db: Tables, s: Tables, h: seq<Event>, e: Option<Event>, now: int)
    requires RowsLead(db.devices, h) && Advancing(h) && EventHappens(db, s, e, now)
    ensures Advancing(Logged(h, e))
  {
  }

  lemma StepKeepsMatched(db: Tables, s: Tables, h: seq<Event>, e: Option<Event>, now: int)
    requires Matched(db, h) && EventHappens(db, s, e, now) && ClaimsMove(db, s, EventWinner(e))
    ensures Matched(s, Logged(h, e))
  {
    var g := Logged(h, e);
    forall i | 0 <= i < |g| ensures RecordedBy(s, g[i]) {
      if i < |h| {
        assert RecordedBy(db, h[i]);
      }
    }
    forall c | c in s.claims && s.claims[c].status == Approved ensures Recorded(g, c) {
      if EventWinner(e) == Some(c) {
        assert g[|h|].claim == c;
      } else {
        assert c in db.claims && db.claims[c].status == Approved;
        var i :| 0 <= i < |h| && h[i].Bound? && h[i].claim == c;
        assert g[i] == h[i];
      }
    }
    forall i, j | 0 <= i < j < |g| && g[i].Bound? && g[j].Bound? ensures g[i].claim != g[j].claim {
      assert RecordedBy(db, h[i]);
    }
  }

  /** The device table is the fold of the history: approvals of one device agree on its keys
      and key version, their binding versions strictly increase, the row is that of the last
      one, and the approvals are exactly the approved claims. */
  lemma {:induction false} ReachableHistory(digest: Digest, calls: seq<Call>)
    requires CallsOk(calls)
    ensures HistoryOk(Run(digest, EMPTY, calls), History(digest, EMPTY, calls))
  {
    if calls != [] {
      var n := |calls| - 1;
      var db, h, a, now := Run(digest, EMPTY, calls[..n]), History(digest, EMPTY, calls[..n]), calls[n].action, calls[n].now;
      var s, e := Execute(digest, db, a, now).db, EventOf(digest, db, a, now);
      ReachableHistory(digest, calls[..n]);
      ActionHappens(digest, db, a, now);
      ExecuteMoves(digest, db, a, now);
      StepKeepsFold(db, s, h, e, now);
      StepKeepsRowsLead(db, s, h, e, now);
      StepKeepsAdvancing(db, s, h, e, now);
      StepKeepsMatched(db, s, h, e, now);
    }
  }

  // ----- revocation and replay -----

  /** Along any run a device keeps its keys, its binding never goes back, and leaving the
      revoked state costs a strictly greater one. */
  predicate Progress(a: DeviceRow, b: DeviceRow) {
    && a.signingKey == b.signingKey && a.agreementKey == b.agreementKey && a.keyVersion == b.keyVersion
    && a.bindingVersion <= b.bindingVersion
    && (a.revoked && !b.revoked ==> a.bindingVersion < b.bindingVersion)
  }

  lemma StepProgress(digest: Digest, db: Tables, a: Action, now: int, k: DeviceKey)
    requires k in db.devices
    ensures var s := Execute(digest, db, a, now).db; k in s.devices && Progress(db.devices[k], s.devices[k])
  {
    ActionHappens(digest, db, a, now);
  }

  lemma {:induction false} RunProgress(digest: Digest, db: Tables, calls: seq<Call>, k: DeviceKey)
    requires k in db.devices
    ensures k in Run(digest, db, calls).devices && Progress(db.devices[k], Run(digest, db, calls).devices[k])
  {
    if calls != [] {
      var n := |calls| - 1;
      RunProgress(digest, db, calls[..n], k);
      StepProgress(digest, Run(digest, db, calls[..n]), calls[n].action, calls[n].now, k);
    }
  }

  /** This call approves a pending claim of the device with a newer binding than its row has. */
  ghost predicate Rebinds(digest: Digest, db: Tables, c: Call, k: DeviceKey) {
    && k in db.devices && c.action.ApproveAction?
    && EventOf(digest, db, c.action, c.now) == Some(Bound(k, c.action.request.claim, c.action.request.approval, c.now))
    && db.devices[k].bindingVersion < c.action.request.approval.bindingVersion
  }

  lemma ReactivatingStep(digest: Digest, db: Tables, c: Call, k: DeviceKey)
    requires k in db.devices && db.devices[k].revoked
    requires var s := Execute(digest, db, c.action, c.now).db; k in s.devices && !s.devices[k].revoked
    ensures Rebinds(digest, db, c, k)
  {
    ActionHappens(digest, db, c.action, c.now);
  }

  /** A revoked device is active again only through such an approval. */
  lemma {:induction false} ReactivationNeedsRebinding(digest: Digest, db: Tables, calls: seq<Call>, k: DeviceKey)
    requires k in db.devices && db.devices[k].revoked
    requires k in Run(digest, db, calls).devices && !Run(digest, db, calls).devices[k].revoked
    ensures exists i :: 0 <= i < |calls| && Rebinds(digest, Run(digest, db, calls[..i]), calls[i], k)
  {
    var n := |calls| - 1;
    var front := calls[..n];
    var t := Run(digest, db, front);
    RunProgress(digest, db, front, k);
    if t.devices[k].revoked {
      ReactivatingStep(digest, t, calls[n], k);
    } else {
      ReactivationNeedsRebinding(digest, db, front, k);
      var i :| 0 <= i < |front| && Rebinds(digest, Run(digest, db, front[..i]), front[i], k);
      assert front[..i] == calls[..i];
      assert Rebinds(digest, Run(digest, db, calls[..i]), calls[i], k);
    }
  }

  lemma {:induction false} ApprovedStays(digest: Digest, db: Tables, calls: seq<Call>, c: string)
    requires CallsOk(calls) && c in db.claims && db.claims[c].status == Approved
    ensures c in Run(digest, db, calls).claims && Run(digest, db, calls).claims[c] == db.claims[c]
  {
    if calls != [] {
      var n := |calls| - 1;
      ApprovedStays(digest, db, calls[..n], c);
      ExecuteMoves(digest, Run(digest, db, calls[..n]), calls[n].action, calls[n].now);
    }
  }

  lemma SuccessStoresApproval(digest: Digest, db: Tables, r: ApproveRequest, now: int)
    requires Execute(digest, db, ApproveAction(r), now).reply == Done
    ensures var s := Execute(digest, db, ApproveAction(r), now).db;
            ClaimAt(s, r.tenant, r.host, r.claim) && s.claims[r.claim].status == Approved
            && ApprovalMatches(digest, s.claims[r.claim].approval, r.approval)
  {
  }

  lemma ReplayOfApproved(digest: Digest, db: Tables, r: ApproveRequest, now: int)
    requires ClaimAt(db, r.tenant, r.host, r.claim) && db.claims[r.claim].status == Approved
    requires ApprovalMatches(digest, db.claims[r.claim].approval, r.approval)
    ensures Execute(digest, db, ApproveAction(r), now) == Step(Sweep(db, now), Done)
  {
    assert Sweep(db, now).claims[r.claim] == db.claims[r.claim];
  }

  /** Replaying a successful approval after any operations reports success again and changes
      no device row: a device revoked in the meantime stays revoked. */
  lemma ReplayChangesNoDevice(digest: Digest, db: Tables, r: ApproveRequest, now: int, calls: seq<Call>, later: int)
    requires CallsOk(calls) && Execute(digest, db, ApproveAction(r), now).reply == Done
    ensures var t := Run(digest, Execute(digest, db, ApproveAction(r), now).db, calls);
            var replay := Execute(digest, t, ApproveAction(r), later);
            replay.reply == Done && replay.db.devices == t.devices
  {
    var s := Execute(digest, db, ApproveAction(r), now).db;
    SuccessStoresApproval(digest, db, r, now);
    ApprovedStays(digest, s, calls, r.claim);
    ReplayOfApproved(digest, Run(digest, s, calls), r, later);
  }
}

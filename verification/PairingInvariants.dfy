/** What every pairing operation keeps, over every run from an empty store and with no
    assumption on the clock. */
module PairingInvariants {
  import opened Text
  import opened Tables
  import opened Pairing
  import opened PairingSteps

  /** Every row's parent exists, and claims expire with their invite. */
  ghost predicate RowsOk(db: Tables) {
    && (forall c :: c in db.claims ==>
          InviteOf(db.claims[c]) in db.invites && db.claims[c].expiresAt == db.invites[InviteOf(db.claims[c])].expiresAt)
    && (forall k :: k in db.invites ==> HostKey(k.tenant, k.host) in db.hosts)
    && (forall k :: k in db.devices ==> HostKey(k.tenant, k.host) in db.hosts)
  }

  ghost predicate Wins(db: Tables, c: string, k: InviteKey) {
    c in db.claims && db.claims[c].status == Approved && InviteOf(db.claims[c]) == k
  }

  /** An invite is consumed exactly when some claim of it is approved, and no two are. */
  ghost predicate OneWinner(db: Tables) {
    && (forall k :: k in db.invites ==> (db.invites[k].status == Consumed <==> exists c :: Wins(db, c, k)))
    && (forall c, d, k :: Wins(db, c, k) && Wins(db, d, k) ==> c == d)
  }

  /** The approval columns are filled exactly on approved claims, and with what the claim's
      own header announced; the claim's names are its header's. */
  predicate ColumnOk(c: ClaimRow) {
    (c.approval.Some? <==> c.status == Approved) && (c.status == Approved ==> ApprovesHeader(c)) && NamedByHeader(c)
  }

  ghost predicate ColumnsOk(db: Tables) {
    forall c :: c in db.claims ==> ColumnOk(db.claims[c])
  }

  /** An invite lives at most ten minutes, and its winner was approved before it ran out. */
  ghost predicate LifetimesOk(db: Tables) {
    && (forall k :: k in db.invites ==> db.invites[k].createdAt < db.invites[k].expiresAt <= db.invites[k].createdAt + MAX_INVITE_MILLIS)
    && (forall c :: c in db.claims && db.claims[c].status == Approved ==> db.claims[c].updatedAt < db.claims[c].expiresAt)
  }

  ghost predicate Inv(db: Tables) {
    RowsOk(db) && OneWinner(db) && ColumnsOk(db) && LifetimesOk(db)
  }

  lemma WinnersAfter(db: Tables, s: Tables, win: Option<string>)
    requires ClaimsMove(db, s, win)
    ensures forall c, k :: Wins(s, c, k) <==> Wins(db, c, k) || (win == Some(c) && WonInvite(db, win) == Some(k))
  {
  }

  lemma MovesKeepOneWinner(db: Tables, s: Tables, win: Option<string>)
    requires RowsOk(db) && OneWinner(db) && ClaimsMove(db, s, win) && InvitesMove(db, s, WonInvite(db, win))
    ensures OneWinner(s)
  {
    WinnersAfter(db, s, win);
    forall k | k in s.invites ensures s.invites[k].status == Consumed <==> exists c :: Wins(s, c, k) {
      ConsumedMeansWon(db, s, win, k);
    }
    forall c, d, k | Wins(s, c, k) && Wins(s, d, k) ensures c == d {
      if WonInvite(db, win) == Some(k) {
        assert k in db.invites && db.invites[k].status == Pending;
        assert !Wins(db, c, k) && !Wins(db, d, k);
      }
    }
  }

  lemma ConsumedMeansWon(db: Tables, s: Tables, win: Option<string>, k: InviteKey)
    requires RowsOk(db) && OneWinner(db) && InvitesMove(db, s, WonInvite(db, win)) && k in s.invites
    requires win.Some? ==> win.value in db.claims
    requires forall c :: Wins(s, c, k) <==> Wins(db, c, k) || (win == Some(c) && WonInvite(db, win) == Some(k))
    ensures s.invites[k].status == Consumed <==> exists c :: Wins(s, c, k)
  {
    if k !in db.invites {
      assert forall c :: !Wins(db, c, k);
    } else if WonInvite(db, win) == Some(k) {
      assert Wins(s, win.value, k);
    } else if db.invites[k].status == Consumed {
      var c :| Wins(db, c, k);
      assert Wins(s, c, k);
    }
  }

  lemma MovesKeepRows(db: Tables, s: Tables, win: Option<string>)
    requires RowsOk(db) && Moves(db, s, win)
    ensures RowsOk(s)
  {
    forall c | c in s.claims
      ensures InviteOf(s.claims[c]) in s.invites && s.claims[c].expiresAt == s.invites[InviteOf(s.claims[c])].expiresAt
    {
      if c in db.claims {
        assert InviteOf(db.claims[c]) in db.invites;
      }
    }
  }

  lemma MovesKeepColumns(db: Tables, s: Tables, win: Option<string>)
    requires ColumnsOk(db) && ClaimsMove(db, s, win)
    ensures ColumnsOk(s)
  {
    forall c | c in s.claims ensures ColumnOk(s.claims[c]) {
      assert c in db.claims ==> ColumnOk(db.claims[c]) && ClaimMoves(db.claims[c], s.claims[c], win == Some(c));
    }
  }

  lemma MovesKeepLifetimes(db: Tables, s: Tables, win: Option<string>)
    requires LifetimesOk(db) && ClaimsMove(db, s, win) && InvitesMove(db, s, WonInvite(db, win))
    ensures LifetimesOk(s)
  {
  }

  lemma ExecuteKeeps(digest: Digest, db: Tables, a: Action, now: int)
    requires Inv(db) && ActionOk(a, now)
    ensures Inv(Execute(digest, db, a, now).db)
  {
    ExecuteMoves(digest, db, a, now);
    var s, win := Execute(digest, db, a, now).db, ExecuteWinner(digest, db, a, now);
    MovesKeepOneWinner(db, s, win);
    MovesKeepRows(db, s, win);
    MovesKeepColumns(db, s, win);
    MovesKeepLifetimes(db, s, win);
  }

  /** In every reachable state an invite is consumed exactly when it has one approved claim
      and never has two, claims hang on existing invites with the same expiry, and every
      winner was approved less than ten minutes after its invite was created. */
  lemma {:induction false} ReachableInv(digest: Digest, calls: seq<Call>)
    requires CallsOk(calls)
    ensures Inv(Run(digest, EMPTY, calls))
  {
    if calls != [] {
      var n := |calls| - 1;
      ReachableInv(digest, calls[..n]);
      ExecuteKeeps(digest, Run(digest, EMPTY, calls[..n]), calls[n].action, calls[n].now);
    }
  }

  lemma ApprovedInTime(digest: Digest, calls: seq<Call>, c: string)
    requires CallsOk(calls)
    requires var db := Run(digest, EMPTY, calls); c in db.claims && db.claims[c].status == Approved
    ensures var db := Run(digest, EMPTY, calls);
            && InviteOf(db.claims[c]) in db.invites
            && db.claims[c].updatedAt - db.invites[InviteOf(db.claims[c])].createdAt < MAX_INVITE_MILLIS
  {
    ReachableInv(digest, calls);
    var db := Run(digest, EMPTY, calls);
    assert InviteOf(db.claims[c]) in db.invites;
  }

  // ----- pending claims and their invites -----

  predicate Backed(db: Tables, c: ClaimRow) {
    InviteOf(c) in db.invites && db.invites[InviteOf(c)].status == Pending
  }

  /** Each pending claim has a pending invite. */
  ghost predicate PendingBacked(db: Tables) {
    forall c :: c in db.claims && db.claims[c].status == Pending ==> Backed(db, db.claims[c])
  }

  ghost predicate NamesOk(db: Tables) {
    forall k :: k in db.invites ==> NameOk(k)
  }

  lemma SweepKeepsBacking(db: Tables, now: int)
    requires RowsOk(db) && PendingBacked(db)
    ensures RowsOk(Sweep(db, now)) && PendingBacked(Sweep(db, now))
  {
    var s := Sweep(db, now);
    forall c | c in s.claims && s.claims[c].status == Pending ensures Backed(s, s.claims[c]) {
      assert Backed(db, db.claims[c]);
      var k := InviteOf(db.claims[c]);
      assert s.invites[k] == ExpireInvite(db.invites[k], now);
    }
    SweepMoves(db, now);
    MovesKeepRows(db, s, None);
  }

  lemma ApproveKeepsBacking(db: Tables, id: string, a: Approval, device: DeviceRow, now: int)
    requires PendingBacked(db) && id in db.claims && InviteOf(db.claims[id]) in db.invites
    ensures PendingBacked(AfterApproval(db, id, a, device, now))
  {
    var s := AfterApproval(db, id, a, device, now);
    forall c | c in s.claims && s.claims[c].status == Pending ensures Backed(s, s.claims[c]) {
      assert Backed(db, db.claims[c]);
    }
  }

  /** Cancelling an invite keeps the backing exactly when the names came trimmed or no claim
      of the invite was still pending. */
  lemma WithdrawKeepsBacking(db: Tables, k: InviteKey, given: InviteKey, now: int)
    requires RowsOk(db) && PendingBacked(db) && WithdrawInvite(db, k, given, now).Committed?
    requires given != k ==> given !in db.invites
    ensures PendingBacked(WithdrawInvite(db, k, given, now).db) <==>
              given == k || forall c :: c in db.claims && InviteOf(db.claims[c]) == k ==> db.claims[c].status != Pending
  {
    var s := WithdrawInvite(db, k, given, now).db;
    if given == k || forall c :: c in db.claims && InviteOf(db.claims[c]) == k ==> db.claims[c].status != Pending {
      forall c | c in s.claims && s.claims[c].status == Pending ensures Backed(s, s.claims[c]) {
        assert Backed(db, db.claims[c]);
      }
    } else {
      var c :| c in db.claims && InviteOf(db.claims[c]) == k && db.claims[c].status == Pending;
      assert s.claims[c] == db.claims[c] && !Backed(s, s.claims[c]);
    }
  }

  /** CancelInvite was given trimmed names. */
  predicate CancelTrimmed(a: Action) {
    a.WithdrawAction? ==> a.given == a.invite
  }

  lemma OthersKeepBacking(digest: Digest, db: Tables, a: Action, now: int)
    requires PendingBacked(db) && !a.ApproveAction? && !a.WithdrawAction?
    requires Core(digest, db, a, now).Committed?
    ensures PendingBacked(Core(digest, db, a, now).db)
  {
    var s := Core(digest, db, a, now).db;
    assert forall k :: k in db.invites ==> k in s.invites && s.invites[k] == db.invites[k];
    forall c | c in s.claims && s.claims[c].status == Pending ensures Backed(s, s.claims[c]) {
      if c in db.claims {
        assert s.claims[c] == db.claims[c] && Backed(db, db.claims[c]);
      }
    }
  }

  lemma CoreKeepsBacking(digest: Digest, db: Tables, a: Action, now: int)
    requires RowsOk(db) && PendingBacked(db) && CancelTrimmed(a)
    requires Core(digest, db, a, now).Committed?
    ensures PendingBacked(Core(digest, db, a, now).db)
  {
    if a.WithdrawAction? {
      WithdrawKeepsBacking(db, a.invite, a.given, now);
    } else if !a.ApproveAction? {
      OthersKeepBacking(digest, db, a, now);
    } else if db.claims[a.request.claim].status == Pending {
      var device := UpsertDevice(db.devices, DeviceOf(db.claims[a.request.claim]), a.request.approval, now).value;
      ApproveKeepsBacking(db, a.request.claim, a.request.approval, device, now);
    }
  }

  lemma ExecuteKeepsBacking(digest: Digest, db: Tables, a: Action, now: int)
    requires Inv(db) && PendingBacked(db) && CancelTrimmed(a)
    ensures PendingBacked(Execute(digest, db, a, now).db)
  {
    var base := if Sweeps(a) then Sweep(db, now) else db;
    SweepKeepsBacking(db, now);
    if Core(digest, base, a, now).Committed? {
      CoreKeepsBacking(digest, base, a, now);
    }
  }

  /** While every CancelInvite is given trimmed names, each pending claim has a pending
      invite, with the same expiry, in every reachable state. */
  lemma {:induction false} ReachableBacking(digest: Digest, calls: seq<Call>)
    requires CallsOk(calls) && forall i :: 0 <= i < |calls| ==> CancelTrimmed(calls[i].action)
    ensures PendingBacked(Run(digest, EMPTY, calls))
  {
    if calls != [] {
      var n := |calls| - 1;
      ReachableBacking(digest, calls[..n]);
      ReachableInv(digest, calls[..n]);
      ExecuteKeepsBacking(digest, Run(digest, EMPTY, calls[..n]), calls[n].action, calls[n].now);
    }
  }

  lemma InviteKeysAfter(digest: Digest, db: Tables, a: Action, now: int)
    ensures var s := Execute(digest, db, a, now).db;
            forall k :: k in s.invites ==> k in db.invites || (a.InviteAction? && k == a.invite)
  {
    assert Sweep(db, now).invites.Keys == db.invites.Keys;
  }

  lemma ExecuteKeepsNames(digest: Digest, db: Tables, a: Action, now: int)
    requires NamesOk(db) && (a.InviteAction? ==> NameOk(a.invite))
    ensures NamesOk(Execute(digest, db, a, now).db)
  {
    InviteKeysAfter(digest, db, a, now);
  }

  lemma {:induction false} ReachableNames(digest: Digest, calls: seq<Call>)
    requires CallsOk(calls)
    ensures NamesOk(Run(digest, EMPTY, calls))
  {
    if calls != [] {
      var n := |calls| - 1;
      ReachableNames(digest, calls[..n]);
      ExecuteKeepsNames(digest, Run(digest, EMPTY, calls[..n]), calls[n].action, calls[n].now);
    }
  }

  /** A claim of this invite that is pending and not yet overdue. */
  ghost predicate LiveClaim(db: Tables, c: string, k: InviteKey, now: int) {
    c in db.claims && InviteOf(db.claims[c]) == k && db.claims[c].status == Pending && db.claims[c].expiresAt > now
  }

  lemma LiveAfterSweep(db: Tables, k: InviteKey, now: int)
    ensures (exists c :: LiveClaim(db, c, k, now)) <==>
              exists c :: c in Sweep(db, now).claims && InviteOf(Sweep(db, now).claims[c]) == k && Sweep(db, now).claims[c].status == Pending
  {
    var s := Sweep(db, now);
    if c :| LiveClaim(db, c, k, now) {
      assert c in s.claims && s.claims[c] == db.claims[c];
    }
    if c :| c in s.claims && InviteOf(s.claims[c]) == k && s.claims[c].status == Pending {
      assert LiveClaim(db, c, k, now);
    }
  }

  /** The whole operation, in any state with trimmed names: CancelInvite breaks the backing
      exactly when it is given untrimmed names of an invite with a live pending claim. */
  lemma CancelInviteBacking(digest: Digest, db: Tables, k: InviteKey, given: InviteKey, now: int)
    requires Inv(db) && NamesOk(db) && PendingBacked(db) && ActionOk(WithdrawAction(k, given), now)
    ensures PendingBacked(Execute(digest, db, WithdrawAction(k, given), now).db) <==>
              given == k || !exists c :: LiveClaim(db, c, k, now)
  {
    var s := Sweep(db, now);
    SweepKeepsBacking(db, now);
    LiveAfterSweep(db, k, now);
    assert given != k ==> given !in s.invites;
    forall c | LiveClaim(db, c, k, now) ensures k in s.invites && s.invites[k].status == Pending {
      assert c in s.claims && s.claims[c] == db.claims[c] && Backed(s, s.claims[c]);
    }
    if WithdrawInvite(s, k, given, now).Committed? {
      WithdrawKeepsBacking(s, k, given, now);
    }
  }
}

/** The per-source limiter in front of challenge creation: fixed one-minute windows
    in a table of bounded size. */
module Limiter {

  const MAX_SOURCES := 1024
  const MINUTE := 60_000_000_000 // nanoseconds

  datatype Attempt = Attempt(windowStart: int, count: nat)

  type Table = map<string, Attempt>

  function Purged(t: Table, now: int): Table {
    map s | s in t && now - t[s].windowStart < MINUTE :: t[s]
  }

  datatype Verdict = Verdict(table: Table, admitted: bool)

  /** What one request does to the table. */
  function Judge(t: Table, source: string, now: int, limit: int): Verdict {
    var p := Purged(t, now);
    if limit <= 0 then Verdict(t, false)
    else if source in p then
      if p[source].count >= limit then Verdict(p, false)
      else Verdict(p[source := p[source].(count := p[source].count + 1)], true)
    else if |p| >= MAX_SOURCES then Verdict(p, false)
    else Verdict(p[source := Attempt(now, 1)], true)
  }

  class ChallengeLimiter {
    var attempts: Table

    constructor ()
      ensures attempts == map[]
    {
      attempts := map[];
    }

    /** allowChallenge, run under challengeMu. */
    method AllowChallenge(source: string, now: int, limit: int) returns (admitted: bool)
      modifies this
      ensures Verdict(attempts, admitted) == Judge(old(attempts), source, now, limit)
    {
      if limit <= 0 {
        return false;
      }
      var remaining := attempts.Keys;
      while remaining != {}
        invariant remaining <= attempts.Keys
        invariant forall s :: s in attempts ==> s in old(attempts) && attempts[s] == old(attempts)[s]
        invariant forall s :: s in old(attempts) && s !in remaining ==>
                                (s in attempts <==> now - old(attempts)[s].windowStart < MINUTE)
        decreases |remaining|
      {
        var s :| s in remaining;
        if now - attempts[s].windowStart >= MINUTE {
          attempts := attempts - {s};
        }
        remaining := remaining - {s};
      }
      assert attempts == Purged(old(attempts), now);
      var attempt := if source in attempts then attempts[source] else Attempt(0, 0);
      if source !in attempts || now - attempt.windowStart >= MINUTE {
        if source !in attempts && |attempts| >= MAX_SOURCES {
          return false;
        }
        attempt := Attempt(now, 0);
      }
      if attempt.count >= limit {
        attempts := attempts[source := attempt];
        return false;
      }
      attempts := attempts[source := attempt.(count := attempt.count + 1)];
      return true;
    }
  }

  // ----- whole runs -----

  datatype Request = Request(source: string, now: int)

  /** An admitted request and the start of the window it was counted in. */
  datatype Admission = Admission(source: string, time: int, window: int)

  datatype History = History(table: Table, log: seq<Admission>)

  function Next(h: History, r: Request, limit: int): History {
    var v := Judge(h.table, r.source, r.now, limit);
    History(v.table,
            if v.admitted && r.source in v.table
            then h.log + [Admission(r.source, r.now, v.table[r.source].windowStart)] else h.log)
  }

  function Run(requests: seq<Request>, limit: int): History {
    if requests == [] then History(map[], [])
    else Next(Run(requests[..|requests| - 1], limit), requests[|requests| - 1], limit)
  }

  predicate Nondecreasing(requests: seq<Request>) {
    forall i, j :: 0 <= i < j < |requests| ==> requests[i].now <= requests[j].now
  }

  function Count(log: seq<Admission>, p: Admission -> bool): (n: nat)
    ensures n <= |log|
  {
    if log == [] then 0
    else Count(log[..|log| - 1], p) + if p(log[|log| - 1]) then 1 else 0
  }

  function InInterval(source: string, from: int): Admission -> bool {
    (a: Admission) => a.source == source && from <= a.time < from + 60_000_000_000
  }

  function InWindow(source: string, window: int): Admission -> bool {
    (a: Admission) => a.source == source && a.window == window
  }

  function Never(): Admission -> bool {
    (a: Admission) => false
  }

  lemma CountSplit(log: seq<Admission>, p: Admission -> bool, q: Admission -> bool, r: Admission -> bool)
    requires forall a :: a in log && p(a) ==> q(a) || r(a)
    ensures Count(log, p) <= Count(log, q) + Count(log, r)
  {
    if log != [] {
      CountSplit(log[..|log| - 1], p, q, r);
    }
  }

  lemma CountSmaller(log: seq<Admission>, p: Admission -> bool, q: Admission -> bool, opener: Admission)
    requires forall a :: a in log && p(a) ==> q(a)
    requires opener in log && q(opener) && !p(opener)
    ensures Count(log, p) < Count(log, q)
  {
    var front := log[..|log| - 1];
    if opener in front {
      CountSmaller(front, p, q, opener);
    } else {
      CountSplit(front, p, q, Never());
      CountNone(front, Never());
    }
  }

  lemma CountNone(log: seq<Admission>, p: Admission -> bool)
    requires forall a :: a in log ==> !p(a)
    ensures Count(log, p) == 0
  {
  }

  /** The windows of one source: each is opened by a request, spans a minute, and is
      at least a minute away from the others. */
  ghost predicate Spaced(log: seq<Admission>, source: string) {
    && (forall a :: a in log && a.source == source ==>
          a.window <= a.time < a.window + MINUTE && Admission(source, a.window, a.window) in log)
    && (forall a, b :: a in log && b in log && a.source == source && b.source == source && a.window < b.window ==>
          a.window + MINUTE <= b.window)
  }

  ghost predicate LatestWindow(log: seq<Admission>, source: string, window: int) {
    && Admission(source, window, window) in log
    && forall a :: a in log && a.source == source ==> a.window <= window
  }

  ghost predicate AllClosed(log: seq<Admission>, source: string, now: int) {
    forall a :: a in log && a.source == source ==> a.window + MINUTE <= now
  }

  /** What holds of one source after a run whose last request came at `now`. */
  ghost predicate SourceOk(h: History, source: string, now: int, limit: int) {
    && Spaced(h.log, source)
    && (forall w :: Count(h.log, InWindow(source, w)) <= limit)
    && (source in h.table ==>
          && Count(h.log, InWindow(source, h.table[source].windowStart)) == h.table[source].count
          && h.table[source].windowStart <= now
          && LatestWindow(h.log, source, h.table[source].windowStart))
    && (source !in h.table ==> AllClosed(h.log, source, now))
  }

  lemma SpacedAppend(log: seq<Admission>, last: Admission)
    requires Spaced(log, last.source) && last.window <= last.time < last.window + MINUTE
    requires LatestWindow(log, last.source, last.window)
          || (last.time == last.window && AllClosed(log, last.source, last.window))
    ensures Spaced(log + [last], last.source) && LatestWindow(log + [last], last.source, last.window)
  {
    assert forall a :: a in log + [last] <==> a in log || a == last;
  }

  lemma CountAppend(log: seq<Admission>, last: Admission, p: Admission -> bool)
    ensures Count(log + [last], p) == Count(log, p) + if p(last) then 1 else 0
  {
    assert (log + [last])[..|log|] == log;
  }

  lemma JudgeOthers(t: Table, r: Request, source: string, limit: int)
    requires source != r.source || !Judge(t, r.source, r.now, limit).admitted
    ensures var u := Judge(t, r.source, r.now, limit).table;
            && (source in u ==> source in t && u[source] == t[source])
            && (source in t && source !in u ==> t[source].windowStart + MINUTE <= r.now)
  {
  }

  lemma JudgeTracksAdmitted(t: Table, r: Request, limit: int)
    ensures Judge(t, r.source, r.now, limit).admitted ==> r.source in Judge(t, r.source, r.now, limit).table
  {
  }

  lemma NextKeepsOtherSource(h: History, r: Request, source: string, before: int, limit: int)
    requires SourceOk(h, source, before, limit) && before <= r.now && 0 < limit
    requires r.source != source || Next(h, r, limit).log == h.log
    ensures SourceOk(Next(h, r, limit), source, r.now, limit)
  {
    var n := Next(h, r, limit);
    JudgeTracksAdmitted(h.table, r, limit);
    JudgeOthers(h.table, r, source, limit);
    if n.log != h.log {
      ForeignAppend(h.log, n.log[|h.log|], source);
    }
  }

  lemma ForeignAppend(log: seq<Admission>, last: Admission, source: string)
    requires last.source != source
    ensures Spaced(log, source) ==> Spaced(log + [last], source)
    ensures forall w :: Count(log + [last], InWindow(source, w)) == Count(log, InWindow(source, w))
    ensures forall w :: LatestWindow(log, source, w) ==> LatestWindow(log + [last], source, w)
    ensures forall now :: AllClosed(log, source, now) ==> AllClosed(log + [last], source, now)
  {
    forall w ensures Count(log + [last], InWindow(source, w)) == Count(log, InWindow(source, w)) {
      CountAppend(log, last, InWindow(source, w));
    }
    assert forall a :: a in log + [last] <==> a in log || a == last;
  }

  lemma NextKeepsAdmittedSource(h: History, r: Request, before: int, limit: int)
    requires SourceOk(h, r.source, before, limit) && before <= r.now && 0 < limit
    requires Next(h, r, limit).log != h.log
    ensures SourceOk(Next(h, r, limit), r.source, r.now, limit)
  {
    var n, s := Next(h, r, limit), r.source;
    var last := Admission(s, r.now, n.table[s].windowStart);
    assert n.log == h.log + [last];
    forall w ensures Count(n.log, InWindow(s, w)) == Count(h.log, InWindow(s, w)) + if w == last.window then 1 else 0 {
      CountAppend(h.log, last, InWindow(s, w));
    }
    if s !in Purged(h.table, r.now) {
      assert AllClosed(h.log, s, r.now);
      CountNone(h.log, InWindow(s, r.now));
    }
    SpacedAppend(h.log, last);
  }

  lemma NextKeepsSource(h: History, r: Request, source: string, before: int, limit: int)
    requires SourceOk(h, source, before, limit) && before <= r.now && 0 < limit
    ensures SourceOk(Next(h, r, limit), source, r.now, limit)
  {
    if r.source == source && Next(h, r, limit).log != h.log {
      NextKeepsAdmittedSource(h, r, before, limit);
    } else {
      NextKeepsOtherSource(h, r, source, before, limit);
    }
  }

  lemma {:induction false} RunKeepsSource(requests: seq<Request>, source: string, limit: int)
    requires Nondecreasing(requests) && requests != [] && 0 < limit
    ensures SourceOk(Run(requests, limit), source, requests[|requests| - 1].now, limit)
  {
    var n := |requests| - 1;
    if n == 0 {
      assert Run(requests[..0], limit) == History(map[], []);
      NextKeepsSource(History(map[], []), requests[0], source, requests[0].now, limit);
    } else {
      RunKeepsSource(requests[..n], source, limit);
      NextKeepsSource(Run(requests[..n], limit), requests[n], source, requests[n - 1].now, limit);
    }
  }

  lemma {:induction false} NothingAdmitted(requests: seq<Request>, limit: int)
    requires limit <= 0
    ensures Run(requests, limit).log == []
  {
    if requests != [] {
      NothingAdmitted(requests[..|requests| - 1], limit);
    }
  }

  /** In every run each window of a source admits at most `limit` requests, and any
      half-open minute, wherever it starts, at most 2 * limit - 1. */
  lemma AdmissionsAreBounded(requests: seq<Request>, source: string, limit: int)
    requires Nondecreasing(requests)
    ensures forall w :: Count(Run(requests, limit).log, InWindow(source, w)) <= if limit <= 0 then 0 else limit
    ensures forall from :: Count(Run(requests, limit).log, InInterval(source, from)) <= if limit <= 0 then 0 else 2 * limit - 1
  {
    var h := Run(requests, limit);
    if limit <= 0 {
      NothingAdmitted(requests, limit);
    } else if requests != [] {
      RunKeepsSource(requests, source, limit);
      forall from ensures Count(h.log, InInterval(source, from)) <= 2 * limit - 1 {
        IntervalBound(h, source, requests[|requests| - 1].now, limit, from);
      }
    }
  }

  lemma IntervalBound(h: History, source: string, now: int, limit: int, from: int)
    requires SourceOk(h, source, now, limit) && 0 < limit
    ensures Count(h.log, InInterval(source, from)) <= 2 * limit - 1
  {
    var p := InInterval(source, from);
    if a :| a in h.log && p(a) {
      if b :| b in h.log && p(b) && b.window != a.window {
        var low := if a.window < b.window then a.window else b.window;
        var high := if a.window < b.window then b.window else a.window;
        var inLow := (x: Admission) => x.source == source && x.window == low && from <= x.time < from + MINUTE;
        CountSplit(h.log, p, inLow, InWindow(source, high));
        CountSmaller(h.log, inLow, InWindow(source, low), Admission(source, low, low));
      } else {
        CountSplit(h.log, p, InWindow(source, a.window), Never());
        CountNone(h.log, Never());
      }
    } else {
      CountNone(h.log, p);
    }
  }

  /** The table never tracks more than 1024 sources. */
  lemma {:induction false} TableIsBounded(requests: seq<Request>, limit: int)
    ensures |Run(requests, limit).table| <= 1024
  {
    if requests != [] {
      var h := Run(requests[..|requests| - 1], limit);
      var r := requests[|requests| - 1];
      TableIsBounded(requests[..|requests| - 1], limit);
      var p := Purged(h.table, r.now);
      PurgedIsSmaller(h.table, r.now);
    }
  }

  /** The source was let in at this instant, less than a minute ago, and a window opened. */
  predicate OpenedAt(log: seq<Admission>, source: string, window: int, now: int) {
    Admission(source, window, window) in log && window <= now < window + 60_000_000_000
  }

  ghost predicate Opened(log: seq<Admission>, source: string, now: int) {
    exists w :: OpenedAt(log, source, w, now)
  }

  /** Its window is full: `limit` requests were let in since it opened. */
  ghost predicate Full(log: seq<Admission>, source: string, now: int, limit: int) {
    exists w :: OpenedAt(log, source, w, now) && Count(log, InWindow(source, w)) == limit
  }

  /** At least 1024 other sources have an open window. */
  ghost predicate Crowded(log: seq<Admission>, source: string, now: int) {
    exists others: set<string> :: |others| >= 1024 && source !in others && forall s :: s in others ==> Opened(log, s, now)
  }

  lemma TrackedIsOpened(requests: seq<Request>, s: string, now: int, limit: int)
    requires Nondecreasing(requests) && 0 < limit && s in Purged(Run(requests, limit).table, now)
    requires forall i :: 0 <= i < |requests| ==> requests[i].now <= now
    ensures OpenedAt(Run(requests, limit).log, s, Run(requests, limit).table[s].windowStart, now)
    ensures Count(Run(requests, limit).log, InWindow(s, Run(requests, limit).table[s].windowStart)) == Run(requests, limit).table[s].count
    ensures Run(requests, limit).table[s].count <= limit
  {
    RunKeepsSource(requests, s, limit);
  }

  /** Nobody is refused without need: with a positive limit a request is turned away only when
      its source's window is full, or 1024 other sources have an open window. */
  lemma RefusedWhenFull(requests: seq<Request>, r: Request, limit: int)
    requires Nondecreasing(requests) && (forall i :: 0 <= i < |requests| ==> requests[i].now <= r.now) && 0 < limit
    requires Next(Run(requests, limit), r, limit).log == Run(requests, limit).log
    ensures Full(Run(requests, limit).log, r.source, r.now, limit) || Crowded(Run(requests, limit).log, r.source, r.now)
  {
    var h := Run(requests, limit);
    var p := Purged(h.table, r.now);
    JudgeTracksAdmitted(h.table, r, limit);
    if r.source in p {
      TrackedIsOpened(requests, r.source, r.now, limit);
    } else {
      forall s | s in p.Keys ensures Opened(h.log, s, r.now) {
        TrackedIsOpened(requests, s, r.now, limit);
      }
      assert |p.Keys| >= 1024;
    }
  }

  lemma PurgedIsSmaller(t: Table, now: int)
    ensures |Purged(t, now)| <= |t|
  {
    SubsetIsSmaller(Purged(t, now).Keys, t.Keys);
  }

  lemma SubsetIsSmaller<T>(a: set<T>, b: set<T>)
    requires a <= b
    ensures |a| <= |b|
  {
    assert b == a + (b - a);
  }

  function Repeat(r: Request, k: nat): (s: seq<Request>)
    ensures |s| == k && forall i :: 0 <= i < k ==> s[i] == r
  {
    if k == 0 then [] else Repeat(r, k - 1) + [r]
  }

  /** The source's window stands at `window` with `count` requests in it, or is about to open. */
  ghost predicate HasRoom(h: History, r: Request, limit: int, window: int, count: nat) {
    && count < limit && r.now - window < MINUTE
    && (|| (r.source in h.table && h.table[r.source] == Attempt(window, count))
        || (r.source !in Purged(h.table, r.now) && count == 0 && window == r.now && |Purged(h.table, r.now)| < MAX_SOURCES))
  }

  lemma Admit(h: History, r: Request, limit: int, window: int, count: nat, p: Admission -> bool)
    requires HasRoom(h, r, limit, window, count)
    ensures r.source in Next(h, r, limit).table && Next(h, r, limit).table[r.source] == Attempt(window, count + 1)
    ensures Count(Next(h, r, limit).log, p) == Count(h.log, p) + if p(Admission(r.source, r.now, window)) then 1 else 0
  {
    CountAppend(h.log, Admission(r.source, r.now, window), p);
  }

  function Fed(h: History, r: Request, k: nat, limit: int): History {
    if k == 0 then h else Next(Fed(h, r, k - 1, limit), r, limit)
  }

  lemma RunAppend(front: seq<Request>, r: Request, limit: int)
    ensures Run(front + [r], limit) == Next(Run(front, limit), r, limit)
  {
    assert (front + [r])[..|front|] == front;
  }

  lemma {:induction false} RunFed(before: seq<Request>, r: Request, k: nat, limit: int)
    ensures Run(before + Repeat(r, k), limit) == Fed(Run(before, limit), r, k, limit)
  {
    var all := before + Repeat(r, k);
    if k == 0 {
      assert all == before;
    } else {
      RunFed(before, r, k - 1, limit);
      assert all == before + Repeat(r, k - 1) + [r];
      RunAppend(before + Repeat(r, k - 1), r, limit);
    }
  }

  /** k more requests of one source at one instant, inside a window with room for them. */
  lemma {:induction false} Burst(
    h: History, r: Request, k: nat, limit: int, window: int, count: nat, p: Admission -> bool)
    requires 0 < k && count + k <= limit && HasRoom(h, r, limit, window, count)
    ensures r.source in Fed(h, r, k, limit).table && Fed(h, r, k, limit).table[r.source] == Attempt(window, count + k)
    ensures Count(Fed(h, r, k, limit).log, p)
         == Count(h.log, p) + if p(Admission(r.source, r.now, window)) then k else 0
  {
    if k == 1 {
      assert Fed(h, r, 0, limit) == h;
      Admit(h, r, limit, window, count, p);
    } else {
      Burst(h, r, k - 1, limit, window, count, p);
      Admit(Fed(h, r, k - 1, limit), r, limit, window, count + k - 1, p);
    }
  }

  /** The bound cannot be lowered: one request opens a window, limit - 1 follow a moment
      later, and limit more arrive when the next window opens. */
  lemma BoundIsReached(source: string, limit: int) returns (requests: seq<Request>)
    requires 0 < limit
    ensures Nondecreasing(requests)
    ensures Count(Run(requests, limit).log, InInterval(source, 1)) == 2 * limit - 1
  {
    var p := InInterval(source, 1);
    requests := Extend([], Request(source, 0), 1, limit, 0, 0, p);
    if limit > 1 {
      requests := Extend(requests, Request(source, 1), limit - 1, limit, 0, 1, p);
    }
    requests := Extend(requests, Request(source, MINUTE), limit, limit, MINUTE, 0, p);
  }

  /** The source is the only one tracked and its window stands at `window` with `count`
      requests, or is closed by `now` when the next one opens. */
  ghost predicate Alone(t: Table, source: string, now: int, window: int, count: nat) {
    && t.Keys <= {source}
    && (count > 0 ==> source in t && t[source] == Attempt(window, count))
    && (count == 0 ==> window == now && (source in t ==> t[source].windowStart + MINUTE <= now))
  }

  lemma Extend(before: seq<Request>, r: Request, k: nat, limit: int, window: int, count: nat, p: Admission -> bool)
    returns (requests: seq<Request>)
    requires Nondecreasing(before) && forall i :: 0 <= i < |before| ==> before[i].now <= r.now
    requires Alone(Run(before, limit).table, r.source, r.now, window, count)
    requires 0 < k && count + k <= limit && r.now - window < MINUTE
    ensures Nondecreasing(requests) && forall i :: 0 <= i < |requests| ==> requests[i].now <= r.now
    ensures Alone(Run(requests, limit).table, r.source, r.now, window, count + k)
    ensures Count(Run(requests, limit).log, p)
         == Count(Run(before, limit).log, p) + if p(Admission(r.source, r.now, window)) then k else 0
  {
    var h := Run(before, limit);
    requests := before + Repeat(r, k);
    RunFed(before, r, k, limit);
    PurgedIsSmaller(h.table, r.now);
    SubsetIsSmaller(h.table.Keys, {r.source});
    Burst(h, r, k, limit, window, count, p);
    OneSourceTable(h, r, k, limit);
  }

  lemma {:induction false} OneSourceTable(h: History, r: Request, k: nat, limit: int)
    requires h.table.Keys <= {r.source}
    ensures Fed(h, r, k, limit).table.Keys <= {r.source}
  {
    if k > 0 {
      OneSourceTable(h, r, k - 1, limit);
    }
  }
}

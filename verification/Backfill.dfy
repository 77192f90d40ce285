/** The resumable backfill job and its gap repair (backend/data/timescale.py). A worker claims the oldest job
    that is due, loads its next chunk, and advances it or counts a failed attempt; the last chunk is
    followed by a repair of every gap in the job's range. */
module Backfill {
  import opened Common
  import opened GapRanges

  datatype Series = Series(market: Market, provider: nat, instrument: nat, timeframe: Timeframe)

  datatype Candle = Candle(series: Series, openTime: int, complete: bool, ohlcv: nat)

  datatype Key = Key(series: Series, time: int)

  /** The market_candles table, by its primary key. */
  type Store = map<Key, Candle>

  function KeyOf(c: Candle): Key { Key(c.series, c.openTime) }

  /** INSERT ... ON CONFLICT DO UPDATE, row by row. */
  function Upsert(store: Store, candles: seq<Candle>): Store {
    if candles == [] then store
    else
      var n := |candles| - 1;
      Upsert(store, candles[..n])[KeyOf(candles[n]) := candles[n]]
  }

  function CandleTimes(store: Store, s: Series, start: int, end: int): set<int> {
    set k | k in store && k.series == s && start <= k.time < end && store[k].complete :: k.time
  }

  function Canonical(store: Store, s: Series, start: int, end: int): set<(int, nat)> {
    set k | k in store && k.series == s && start <= k.time < end && store[k].complete :: (k.time, store[k].ohlcv)
  }

  /** `reconcile`: as many candles as the table holds in the window, with the same contents. The digest
      is taken to be free of collisions. */
  function Matched(store: Store, candles: seq<Candle>, s: Series, start: int, end: int): bool {
    && |candles| == |CandleTimes(store, s, start, end)|
    && (set c | c in candles :: (c.openTime, c.ohlcv)) == Canonical(store, s, start, end)
  }

  // ---- jobs ----------------------------------------------------------------------------------------

  datatype Status = PENDING | RETRY | RUNNING | COMPLETE | FAILED

  datatype Job = Job(
    series: Series, rangeStart: int, rangeEnd: int, nextStart: int, chunkDays: nat,
    status: Status, attempts: nat, maxAttempts: nat, leaseExpires: Option<int>, nextAttempt: Option<int>)

  function Step(j: Job): int { Seconds(j.series.timeframe) }

  predicate Claimable(j: Job, now: int) {
    && (|| j.status == PENDING || j.status == RETRY
        || (j.status == RUNNING && (j.leaseExpires.None? || j.leaseExpires.value < now)))
    && (j.nextAttempt.None? || j.nextAttempt.value <= now)
  }

  function Claimed(j: Job, now: int): Job { j.(status := RUNNING, leaseExpires := Some(now + 300)) }

  function Advance(j: Job, next: int): Job {
    j.(nextStart := next, status := if next >= j.rangeEnd then COMPLETE else PENDING,
       leaseExpires := None, nextAttempt := None)
  }

  function Power2(n: nat): nat { if n == 0 then 1 else 2 * Power2(n - 1) }

  /** Seconds to wait before the next attempt. */
  function Backoff(attempts: nat): int { if Power2(attempts) * 30 < 3600 then Power2(attempts) * 30 else 3600 }

  lemma {:induction false} BackoffRange(attempts: nat)
    requires attempts >= 1
    ensures Power2(attempts) >= 2 && 60 <= Backoff(attempts) <= 3600
  {
    if attempts > 1 { BackoffRange(attempts - 1); }
  }

  /** The wait is a minute after the first failure, and doubles with each up to an hour. */
  lemma BackoffDoubles(attempts: nat)
    requires attempts >= 1
    ensures Backoff(1) == 60
    ensures Backoff(attempts + 1) == if 2 * Backoff(attempts) < 3600 then 2 * Backoff(attempts) else 3600
  {
    assert Power2(0) == 1 && Power2(1) == 2;
    assert Power2(attempts + 1) == 2 * Power2(attempts);
  }

  function Fail(j: Job, now: int): Job {
    var attempts := j.attempts + 1;
    j.(attempts := attempts, leaseExpires := None,
       status := if attempts >= j.maxAttempts then FAILED else RETRY,
       nextAttempt := if attempts >= j.maxAttempts then None else Some(now + Backoff(attempts)))
  }

  /** The oldest claimable job; jobs are listed in order of creation. */
  function Claim(jobs: seq<Job>, now: int): (r: Option<nat>)
    ensures r.Some? ==> r.value < |jobs| && Claimable(jobs[r.value], now)
    ensures r.Some? ==> forall i :: 0 <= i < r.value ==> !Claimable(jobs[i], now)
    ensures r.None? ==> forall j :: j in jobs ==> !Claimable(j, now)
  {
    if jobs == [] then None
    else
      var n := |jobs| - 1;
      var r := Claim(jobs[..n], now);
      assert jobs == jobs[..n] + [jobs[n]];
      if r.Some? then r else if Claimable(jobs[n], now) then Some(n) else None
  }

  // ---- gap repair ----------------------------------------------------------------------------------

  /** What the provider does on one request: it may raise, or the write that follows may. */
  datatype Reply = Raised | Returned(candles: seq<Candle>)

  /** The surroundings of one run: the clock, the adapter's replies in request order (the chunk first,
      then one per gap), and reads of the database that fail. */
  datatype Env = Env(
    now: int, configured: bool, replies: nat -> Reply, reconcileFails: bool, readFails: bool, rereadFails: bool)

  datatype Health = HEALTHY | GAPS_DETECTED | PROVIDER_UNAVAILABLE | RepairRaised

  /** Requests the gaps from the i-th on, storing each reply; false when the adapter raises. */
  function FillGaps(store: Store, gaps: nat, env: Env, i: nat): (Store, bool)
    decreases gaps - i
  {
    if i >= gaps then (store, true)
    else
      match env.replies(i + 1)
      case Raised => (store, false)
      case Returned(candles) => FillGaps(Upsert(store, candles), gaps, env, i + 1)
  }

  function ExpectedOf(j: Job, calendar: set<int>): seq<int> {
    Expected(j.series.market, calendar, j.rangeStart, j.rangeEnd, Step(j))
  }

  function GapsOf(store: Store, j: Job, calendar: set<int>): seq<MissingRange> {
    Grouped(Sorted(Missing(ExpectedOf(j, calendar), CandleTimes(store, j.series, j.rangeStart, j.rangeEnd))), Step(j))
  }

  function Repair(store: Store, j: Job, calendar: set<int>, env: Env): (Store, Health) {
    if j.series.market.OtherMarket? || env.readFails then (store, RepairRaised)
    else
      var gaps := GapsOf(store, j, calendar);
      if gaps == [] then (store, HEALTHY)
      else
        var (after, ok) := FillGaps(store, |gaps|, env, 0);
        if !ok || env.rereadFails then (after, PROVIDER_UNAVAILABLE)
        else if TotalMissing(GapsOf(after, j, calendar)) == 0 then (after, HEALTHY)
        else (after, GAPS_DETECTED)
  }

  // ---- one run of the worker -----------------------------------------------------------------------

  function ChunkEnd(j: Job): int {
    var end := j.nextStart + j.chunkDays * DAY;
    if j.rangeEnd <= end then j.rangeEnd else end
  }

  predicate InChunk(c: Candle, j: Job) { c.series == j.series && j.nextStart <= c.openTime < ChunkEnd(j) && c.complete }

  datatype World = World(jobs: seq<Job>, store: Store)

  /** Advance, and when that completes the job repair its range; an unhealthy repair is a failed attempt. */
  function Conclude(j: Job, next: int, store: Store, calendar: set<int>, env: Env): (Job, Store) {
    var advanced := Advance(j, next);
    if advanced.status != COMPLETE then (advanced, store)
    else
      var (repaired, health) := Repair(store, j, calendar, env);
      (if health == HEALTHY then advanced else Fail(advanced, env.now), repaired)
  }

  /** What a claimed job and the table become; the job's status is also what the run reports. */
  function Attempt(j: Job, store: Store, calendar: set<int>, env: Env): (Job, Store) {
    if !env.configured then (Fail(j, env.now), store)
    else if j.nextStart >= j.rangeEnd then
      if Matched(store, [], j.series, j.rangeEnd, j.rangeEnd) then Conclude(j, j.rangeEnd, store, calendar, env)
      else (Fail(j, env.now), store)
    else
      match env.replies(0)
      case Raised => (Fail(j, env.now), store)
      case Returned(candles) =>
        if exists c :: c in candles && !InChunk(c, j) then (Fail(j, env.now), store)
        else
          var written := Upsert(store, candles);
          if env.reconcileFails || !Matched(written, candles, j.series, j.nextStart, ChunkEnd(j))
          then (Fail(j, env.now), written)
          else Conclude(j, ChunkEnd(j), written, calendar, env)
  }

  function RunOnce(w: World, calendar: set<int>, env: Env): (World, Option<Status>) {
    match Claim(w.jobs, env.now)
    case None => (w, None)
    case Some(i) =>
      var (job, store) := Attempt(Claimed(w.jobs[i], env.now), w.store, calendar, env);
      (World(w.jobs[i := job], store), Some(job.status))
  }

  // ---- progress ------------------------------------------------------------------------------------

  predicate Ended(j: Job) { j.status == COMPLETE || j.status == FAILED }

  ghost predicate JobOk(j: Job) {
    && j.rangeStart <= j.nextStart <= j.rangeEnd && 1 <= j.chunkDays
    && (!Ended(j) ==> j.attempts < j.maxAttempts)
    && (j.status == COMPLETE ==> j.nextStart == j.rangeEnd)
  }

  /** How many chunks are left before the range is exhausted. */
  function ChunksLeft(j: Job): int
    requires j.chunkDays >= 1
    decreases j.rangeEnd - j.nextStart
  {
    if j.nextStart >= j.rangeEnd then 0 else 1 + ChunksLeft(j.(nextStart := ChunkEnd(j)))
  }

  function Remaining(j: Job): int
    requires j.chunkDays >= 1
  {
    if Ended(j) then 0 else ChunksLeft(j) + j.maxAttempts - j.attempts
  }

  lemma ChunkEndProgress(j: Job)
    requires j.chunkDays >= 1 && j.nextStart < j.rangeEnd
    ensures j.nextStart < ChunkEnd(j) <= j.rangeEnd
  {}

  lemma {:induction false} ChunksLeftNat(j: Job)
    requires j.chunkDays >= 1
    ensures ChunksLeft(j) >= 0
    decreases j.rangeEnd - j.nextStart
  {
    if j.nextStart < j.rangeEnd {
      ChunkEndProgress(j);
      ChunksLeftNat(j.(nextStart := ChunkEnd(j)));
    }
  }

  /** The chunks left are as many stretches of the job's days as it takes to cover what is left of the range. */
  lemma {:induction false} ChunksCover(j: Job)
    requires j.chunkDays >= 1
    ensures var span, left := j.chunkDays * 86400, j.rangeEnd - j.nextStart;
            if left <= 0 then ChunksLeft(j) == 0
            else (ChunksLeft(j) - 1) * span < left <= ChunksLeft(j) * span
    decreases j.rangeEnd - j.nextStart
  {
    if j.nextStart < j.rangeEnd {
      ChunkEndProgress(j);
      var next := j.(nextStart := ChunkEnd(j));
      ChunksCover(next);
      var n, span := ChunksLeft(next), j.chunkDays * 86400;
      assert ChunksLeft(j) == n + 1;
      assert (n + 1) * span == n * span + span && n * span == (n - 1) * span + span;
    }
  }

  /** Chunks left depend on the position and the chunk size alone. */
  lemma {:induction false} ChunksLeftSame(a: Job, b: Job)
    requires a.chunkDays >= 1 && a.nextStart == b.nextStart && a.rangeEnd == b.rangeEnd && a.chunkDays == b.chunkDays
    ensures ChunksLeft(a) == ChunksLeft(b)
    decreases a.rangeEnd - a.nextStart
  {
    if a.nextStart < a.rangeEnd {
      ChunkEndProgress(a);
      ChunksLeftSame(a.(nextStart := ChunkEnd(a)), b.(nextStart := ChunkEnd(b)));
    }
  }

  /** What never changes about a job, and where its position may go. */
  ghost predicate Moves(j: Job, n: Job) {
    && n.series == j.series && n.rangeStart == j.rangeStart && n.rangeEnd == j.rangeEnd
    && n.chunkDays == j.chunkDays && n.maxAttempts == j.maxAttempts
    && j.nextStart <= n.nextStart <= n.rangeEnd && j.attempts <= n.attempts
  }

  lemma FailProgress(j: Job, now: int)
    requires j.chunkDays >= 1 && j.rangeStart <= j.nextStart <= j.rangeEnd && j.attempts < j.maxAttempts
    ensures var n := Fail(j, now);
            JobOk(n) && Moves(j, n) && Remaining(n) < ChunksLeft(j) + j.maxAttempts - j.attempts
  {
    ChunksLeftNat(j);
    ChunksLeftSame(Fail(j, now), j);
  }

  lemma ConcludeProgress(j: Job, next: int, store: Store, calendar: set<int>, env: Env)
    requires JobOk(j) && !Ended(j)
    requires (j.nextStart == j.rangeEnd && next == j.rangeEnd) || (j.nextStart < j.rangeEnd && next == ChunkEnd(j))
    ensures var n := Conclude(j, next, store, calendar, env).0;
            JobOk(n) && Moves(j, n) && Remaining(n) < Remaining(j)
  {
    hide Repair;
    var advanced := Advance(j, next);
    ChunksLeftNat(j);
    if j.nextStart < j.rangeEnd {
      ChunkEndProgress(j);
      var moved := j.(nextStart := ChunkEnd(j));
      ChunksLeftNat(moved);
      ChunksLeftSame(advanced, moved);
    } else {
      ChunksLeftSame(advanced, j);
    }
    hide ChunksLeft;
    if advanced.status == COMPLETE && Repair(store, j, calendar, env).1 != HEALTHY { FailProgress(advanced, env.now); }
  }

  /** An attempt ends the job or leaves strictly fewer chunks and attempts; the position never moves back
      or past the end of the range. */
  lemma AttemptProgress(j: Job, store: Store, calendar: set<int>, env: Env)
    requires JobOk(j) && !Ended(j)
    ensures var n := Attempt(j, store, calendar, env).0;
            JobOk(n) && Moves(j, n) && Remaining(n) < Remaining(j) && n.status != RUNNING
  {
    hide Conclude, Matched, Upsert, ChunksLeft;
    FailProgress(j, env.now);
    if j.nextStart >= j.rangeEnd {
      ConcludeProgress(j, j.rangeEnd, store, calendar, env);
      ConcludeIdle(j, j.rangeEnd, store, calendar, env);
    } else if env.replies(0).Returned? {
      var written := Upsert(store, env.replies(0).candles);
      ConcludeProgress(j, ChunkEnd(j), written, calendar, env);
      ConcludeIdle(j, ChunkEnd(j), written, calendar, env);
    }
  }

  lemma ConcludeIdle(j: Job, next: int, store: Store, calendar: set<int>, env: Env)
    ensures Conclude(j, next, store, calendar, env).0.status != RUNNING
  {
    hide Repair;
  }

  ghost predicate JobsOk(jobs: seq<Job>) { forall j :: j in jobs ==> JobOk(j) }

  function TotalRemaining(jobs: seq<Job>): int
    requires forall j :: j in jobs ==> j.chunkDays >= 1
  {
    if jobs == [] then 0
    else
      var n := |jobs| - 1;
      assert jobs[n] in jobs;
      TotalRemaining(jobs[..n]) + Remaining(jobs[n])
  }

  lemma {:induction false} TotalAfter(jobs: seq<Job>, i: nat, job: Job)
    requires JobsOk(jobs) && JobOk(job) && i < |jobs|
    ensures JobsOk(jobs[i := job])
    ensures TotalRemaining(jobs[i := job]) == TotalRemaining(jobs) - Remaining(jobs[i]) + Remaining(job)
  {
    hide Remaining, JobOk;
    var n := |jobs| - 1;
    assert forall j :: j in jobs[i := job] ==> j == job || j in jobs;
    assert JobsOk(jobs[i := job]);
    Positive(jobs);
    Positive(jobs[i := job]);
    if i == n {
      assert jobs[i := job][..n] == jobs[..n];
    } else {
      assert jobs[i := job][..n] == jobs[..n][i := job];
      TotalAfter(jobs[..n], i, job);
    }
  }

  lemma Positive(jobs: seq<Job>)
    requires JobsOk(jobs)
    ensures forall j :: j in jobs ==> j.chunkDays >= 1
  {}

  /** One run of the worker: every job stays well formed, positions only move forward within their ranges,
      and a run that claims a job strictly lowers the work left. */
  lemma RunOnceProgress(w: World, calendar: set<int>, env: Env)
    requires JobsOk(w.jobs)
    ensures var (next, report) := RunOnce(w, calendar, env);
            && JobsOk(next.jobs) && |next.jobs| == |w.jobs|
            && (forall i :: 0 <= i < |w.jobs| ==> Moves(w.jobs[i], next.jobs[i]))
            && TotalRemaining(next.jobs) + (if report.Some? then 1 else 0) <= TotalRemaining(w.jobs)
  {
    hide Attempt, TotalRemaining, Remaining, Claimable;
    assert forall i :: 0 <= i < |w.jobs| ==> w.jobs[i] in w.jobs;
    match Claim(w.jobs, env.now)
    case None =>
    case Some(i) =>
      var j := w.jobs[i];
      ClaimedSame(j, env.now);
      AttemptProgress(Claimed(j, env.now), w.store, calendar, env);
      TotalAfter(w.jobs, i, Attempt(Claimed(j, env.now), w.store, calendar, env).0);
  }

  lemma ClaimedSame(j: Job, now: int)
    requires JobOk(j) && Claimable(j, now)
    ensures JobOk(Claimed(j, now)) && !Ended(Claimed(j, now)) && Remaining(Claimed(j, now)) == Remaining(j)
  {
    ChunksLeftSame(Claimed(j, now), j);
  }

  function After(w: World, calendar: set<int>, envs: seq<Env>): World {
    if |envs| == 0 then w else RunOnce(After(w, calendar, envs[..|envs| - 1]), calendar, envs[|envs| - 1]).0
  }

  /** How many of the runs claimed a job. */
  function Claims(w: World, calendar: set<int>, envs: seq<Env>): nat {
    if |envs| == 0 then 0
    else
      var n := |envs| - 1;
      var before := After(w, calendar, envs[..n]);
      Claims(w, calendar, envs[..n]) + (if RunOnce(before, calendar, envs[n]).1.Some? then 1 else 0)
  }

  /** Over any sequence of runs, whatever the providers and the database do, the claims made never exceed
      the chunks and attempts there were at the start. */
  lemma {:induction false} ClaimsAreBounded(w: World, calendar: set<int>, envs: seq<Env>)
    requires JobsOk(w.jobs)
    ensures JobsOk(After(w, calendar, envs).jobs) && |After(w, calendar, envs).jobs| == |w.jobs|
    ensures TotalRemaining(After(w, calendar, envs).jobs) + Claims(w, calendar, envs) <= TotalRemaining(w.jobs)
    ensures forall i :: 0 <= i < |w.jobs| ==> Moves(w.jobs[i], After(w, calendar, envs).jobs[i])
  {
    hide RunOnce, TotalRemaining;
    if |envs| > 0 {
      var n := |envs| - 1;
      ClaimsAreBounded(w, calendar, envs[..n]);
      RunOnceProgress(After(w, calendar, envs[..n]), calendar, envs[n]);
    } else {
      assert forall i :: 0 <= i < |w.jobs| ==> w.jobs[i] in w.jobs;
    }
  }

  // ---- every job ends ------------------------------------------------------------------------------

  /** Neither a wait nor a lease keeps the job from being claimed at this time. */
  predicate DueBy(j: Job, t: int) {
    (j.nextAttempt.Some? ==> j.nextAttempt.value <= t) && (j.leaseExpires.Some? ==> j.leaseExpires.value < t)
  }

  ghost predicate AllDueBy(jobs: seq<Job>, t: int) { forall j :: j in jobs ==> DueBy(j, t) }

  lemma AttemptDue(j: Job, store: Store, calendar: set<int>, env: Env)
    requires DueBy(j, env.now + 3600)
    ensures DueBy(Attempt(j, store, calendar, env).0, env.now + 3600)
  {
    hide Repair, Matched, Upsert;
  }

  lemma RunOnceDue(w: World, calendar: set<int>, env: Env)
    requires AllDueBy(w.jobs, env.now + 3600)
    ensures AllDueBy(RunOnce(w, calendar, env).0.jobs, env.now + 3600)
  {
    hide Attempt, Claimable;
    match Claim(w.jobs, env.now)
    case None =>
    case Some(i) =>
      assert w.jobs[i] in w.jobs;
      AttemptDue(Claimed(w.jobs[i], env.now), w.store, calendar, env);
      var job := Attempt(Claimed(w.jobs[i], env.now), w.store, calendar, env).0;
      assert forall j :: j in w.jobs[i := job] ==> j == job || j in w.jobs;
  }

  lemma IdleMeansEnded(w: World, calendar: set<int>, env: Env)
    requires AllDueBy(w.jobs, env.now) && RunOnce(w, calendar, env).1.None?
    ensures forall j :: j in w.jobs ==> Ended(j)
  {
    hide Attempt;
  }

  ghost predicate HourApart(envs: seq<Env>) {
    forall i :: 0 <= i < |envs| - 1 ==> envs[i].now + 3600 <= envs[i + 1].now
  }

  lemma DueLater(jobs: seq<Job>, t: int, u: int)
    requires AllDueBy(jobs, t) && t <= u
    ensures AllDueBy(jobs, u)
  {}

  /** Runs at least an hour apart either claim a job every time or have nothing left to do. */
  lemma {:induction false} RunsClaimOrEnd(w: World, calendar: set<int>, envs: seq<Env>)
    requires JobsOk(w.jobs) && HourApart(envs) && (|envs| > 0 ==> AllDueBy(w.jobs, envs[0].now))
    ensures |envs| > 0 ==> AllDueBy(After(w, calendar, envs).jobs, envs[|envs| - 1].now + 3600)
    ensures Claims(w, calendar, envs) == |envs| || (forall j :: j in After(w, calendar, envs).jobs ==> Ended(j))
  {
    if |envs| > 0 {
      hide RunOnce, Ended, DueBy;
      var n := |envs| - 1;
      var before := After(w, calendar, envs[..n]);
      RunsClaimOrEnd(w, calendar, envs[..n]);
      assert AllDueBy(before.jobs, envs[n].now) by {
        if n > 0 { DueLater(before.jobs, envs[n - 1].now + 3600, envs[n].now); }
      }
      DueLater(before.jobs, envs[n].now, envs[n].now + 3600);
      RunOnceDue(before, calendar, envs[n]);
      if Claims(w, calendar, envs[..n]) == n {
        if RunOnce(before, calendar, envs[n]).1.None? {
          IdleMeansEnded(before, calendar, envs[n]);
          IdleKeeps(before, calendar, envs[n]);
        }
      } else {
        EndedKeeps(before, calendar, envs[n]);
      }
    }
  }

  lemma IdleKeeps(w: World, calendar: set<int>, env: Env)
    requires RunOnce(w, calendar, env).1.None?
    ensures RunOnce(w, calendar, env).0 == w
  {
    hide Attempt;
  }

  lemma EndedKeeps(w: World, calendar: set<int>, env: Env)
    requires forall j :: j in w.jobs ==> Ended(j)
    ensures RunOnce(w, calendar, env).0 == w
  {
    hide Attempt;
    assert forall i :: 0 <= i < |w.jobs| ==> w.jobs[i] in w.jobs && !Claimable(w.jobs[i], env.now);
  }

  /** After as many runs, an hour or more apart, as there were chunks and attempts at the start, every
      job is complete or has failed for good, whatever the providers and the database did. */
  lemma EnoughRunsFinish(w: World, calendar: set<int>, envs: seq<Env>)
    requires JobsOk(w.jobs) && HourApart(envs) && (|envs| > 0 ==> AllDueBy(w.jobs, envs[0].now))
    requires |envs| >= TotalRemaining(w.jobs)
    ensures forall j :: j in After(w, calendar, envs).jobs ==> Ended(j)
  {
    hide After, Claims, TotalRemaining;
    ClaimsAreBounded(w, calendar, envs);
    RunsClaimOrEnd(w, calendar, envs);
    if Claims(w, calendar, envs) == |envs| { NothingRemains(After(w, calendar, envs).jobs); }
  }

  /** Work is left exactly when some job has not ended. */
  lemma {:induction false} NothingRemains(jobs: seq<Job>)
    requires JobsOk(jobs)
    ensures TotalRemaining(jobs) >= 0
    ensures TotalRemaining(jobs) == 0 ==> forall j :: j in jobs ==> Ended(j)
  {
    if jobs != [] {
      var n := |jobs| - 1;
      NothingRemains(jobs[..n]);
      assert jobs[n] in jobs && jobs == jobs[..n] + [jobs[n]];
      ChunksLeftNat(jobs[n]);
    }
  }

  // ---- completeness --------------------------------------------------------------------------------

  /** Every candle the market should have in the job's range is stored. */
  ghost predicate FullyStored(j: Job, calendar: set<int>, store: Store) {
    forall t :: t in ExpectedOf(j, calendar) ==> t in CandleTimes(store, j.series, j.rangeStart, j.rangeEnd)
  }

  lemma NoGaps(store: Store, j: Job, calendar: set<int>)
    ensures GapsOf(store, j, calendar) == [] <==> FullyStored(j, calendar, store)
    ensures TotalMissing(GapsOf(store, j, calendar)) == 0 <==> FullyStored(j, calendar, store)
  {
    hide Expected, CandleTimes, Grouped, Sorted;
    var expected, actual := ExpectedOf(j, calendar), CandleTimes(store, j.series, j.rangeStart, j.rangeEnd);
    RangesAreTheMissing(expected, actual, Step(j));
    SubtractNothing(Elements(expected), actual);
    ElementsWithin(expected, actual);
  }

  /** A repair reports health exactly when it could read the table and the whole range is then stored. */
  lemma HealthyMeansStored(store: Store, j: Job, calendar: set<int>, env: Env)
    ensures var (after, health) := Repair(store, j, calendar, env);
            health == HEALTHY ==> FullyStored(j, calendar, after)
    ensures var (after, health) := Repair(store, j, calendar, env);
            health == GAPS_DETECTED ==> !FullyStored(j, calendar, after)
  {
    hide GapsOf, FillGaps, FullyStored, TotalMissing;
    NoGaps(store, j, calendar);
    NoGaps(Repair(store, j, calendar, env).0, j, calendar);
  }

  /** A job that a run leaves COMPLETE has every expected candle of its range in the table. */
  lemma CompleteMeansStored(j: Job, store: Store, calendar: set<int>, env: Env)
    requires !Ended(j)
    ensures var (n, after) := Attempt(j, store, calendar, env);
            n.status == COMPLETE ==> FullyStored(n, calendar, after)
  {
    hide Matched, Upsert, FullyStored, Repair;
    HealthyMeansStored(store, j, calendar, env);
    SameRange(j, Advance(j, j.rangeEnd), calendar, Repair(store, j, calendar, env).0);
    if env.replies(0).Returned? {
      var written := Upsert(store, env.replies(0).candles);
      HealthyMeansStored(written, j, calendar, env);
      SameRange(j, Advance(j, ChunkEnd(j)), calendar, Repair(written, j, calendar, env).0);
    }
  }

  lemma SameRange(a: Job, b: Job, calendar: set<int>, store: Store)
    requires a.series == b.series && a.rangeStart == b.rangeStart && a.rangeEnd == b.rangeEnd
    ensures FullyStored(a, calendar, store) <==> FullyStored(b, calendar, store)
  {}

  // ---- completeness lasts --------------------------------------------------------------------------

  predicate Holds(store: Store, k: Key) { k in store && store[k].complete }

  /** Nothing that was complete in the table is lost. */
  ghost predicate Keeps(before: Store, after: Store) { forall k :: Holds(before, k) ==> Holds(after, k) }

  ghost predicate OnlyComplete(env: Env) {
    forall k: nat :: env.replies(k).Returned? ==> forall c :: c in env.replies(k).candles ==> c.complete
  }

  lemma {:induction false} UpsertKeeps(store: Store, candles: seq<Candle>)
    requires forall c :: c in candles ==> c.complete
    ensures Keeps(store, Upsert(store, candles))
  {
    if candles != [] { UpsertKeeps(store, candles[..|candles| - 1]); }
  }

  lemma {:induction false} FillGapsKeeps(store: Store, gaps: nat, env: Env, i: nat)
    requires OnlyComplete(env)
    ensures Keeps(store, FillGaps(store, gaps, env, i).0)
    decreases gaps - i
  {
    hide Holds, Upsert;
    if i < gaps && env.replies(i + 1).Returned? {
      UpsertKeeps(store, env.replies(i + 1).candles);
      FillGapsKeeps(Upsert(store, env.replies(i + 1).candles), gaps, env, i + 1);
    }
  }

  lemma RepairKeeps(store: Store, j: Job, calendar: set<int>, env: Env)
    requires OnlyComplete(env)
    ensures Keeps(store, Repair(store, j, calendar, env).0)
  {
    hide FillGaps, GapsOf, OnlyComplete;
    FillGapsKeeps(store, |GapsOf(store, j, calendar)|, env, 0);
  }

  lemma AttemptKeeps(j: Job, store: Store, calendar: set<int>, env: Env)
    requires OnlyComplete(env)
    ensures Keeps(store, Attempt(j, store, calendar, env).1)
  {
    assert env.replies(0).Returned? ==> forall c :: c in env.replies(0).candles ==> c.complete;
    hide Matched, Upsert, Repair, OnlyComplete, Holds;
    RepairKeeps(store, j, calendar, env);
    if env.replies(0).Returned? {
      var candles := env.replies(0).candles;
      UpsertKeeps(store, candles);
      RepairKeeps(Upsert(store, candles), j, calendar, env);
    }
  }

  lemma StoredStays(j: Job, calendar: set<int>, before: Store, after: Store)
    requires FullyStored(j, calendar, before) && Keeps(before, after)
    ensures FullyStored(j, calendar, after)
  {
    hide Expected;
    forall t | t in ExpectedOf(j, calendar) ensures t in CandleTimes(after, j.series, j.rangeStart, j.rangeEnd) {
      assert t in CandleTimes(before, j.series, j.rangeStart, j.rangeEnd);
      assert Holds(before, Key(j.series, t));
      assert Holds(after, Key(j.series, t));
    }
  }

  /** Every completed job has its whole range stored. */
  ghost predicate CompleteIsStored(w: World, calendar: set<int>) {
    forall j :: j in w.jobs && j.status == COMPLETE ==> FullyStored(j, calendar, w.store)
  }

  lemma RunOnceStays(w: World, calendar: set<int>, env: Env)
    requires CompleteIsStored(w, calendar) && OnlyComplete(env)
    ensures CompleteIsStored(RunOnce(w, calendar, env).0, calendar)
  {
    hide Attempt, FullyStored, Keeps, OnlyComplete;
    match Claim(w.jobs, env.now)
    case None =>
    case Some(i) =>
      var claimed := Claimed(w.jobs[i], env.now);
      var (job, store) := Attempt(claimed, w.store, calendar, env);
      CompleteMeansStored(claimed, w.store, calendar, env);
      AttemptKeeps(claimed, w.store, calendar, env);
      forall j | j in w.jobs[i := job] && j.status == COMPLETE ensures FullyStored(j, calendar, store) {
        if j in w.jobs { StoredStays(j, calendar, w.store, store); }
      }
  }

  /** While providers return only finished candles, in every state that a sequence of runs reaches, a
      COMPLETE job has every expected candle stored: later jobs and repairs do not undo it. */
  lemma {:induction false} CompletedJobsStayStored(w: World, calendar: set<int>, envs: seq<Env>)
    requires CompleteIsStored(w, calendar) && forall i :: 0 <= i < |envs| ==> OnlyComplete(envs[i])
    ensures CompleteIsStored(After(w, calendar, envs), calendar)
  {
    hide RunOnce, OnlyComplete, CompleteIsStored;
    if |envs| > 0 {
      CompletedJobsStayStored(w, calendar, envs[..|envs| - 1]);
      RunOnceStays(After(w, calendar, envs[..|envs| - 1]), calendar, envs[|envs| - 1]);
    }
  }

  // ---- a provider that answers ---------------------------------------------------------------------

  /** The i-th gap is answered with every candle it asks for, finished. */
  ghost predicate Answers(env: Env, s: Series, gaps: seq<MissingRange>, i: nat)
    requires i < |gaps|
  {
    && env.replies(i + 1).Returned?
    && forall k :: 0 <= k < gaps[i].count ==>
         exists c :: c in env.replies(i + 1).candles && KeyOf(c) == Key(s, At(gaps[i].start, k, Seconds(s.timeframe)))
  }

  lemma {:induction false} UpsertHas(store: Store, candles: seq<Candle>, c: Candle)
    requires (forall d :: d in candles ==> d.complete) && c in candles
    ensures Holds(Upsert(store, candles), KeyOf(c))
  {
    var n := |candles| - 1;
    if c != candles[n] {
      assert c in candles[..n];
      UpsertHas(store, candles[..n], c);
    }
  }

  lemma {:induction false} FillGapsHas(
    store: Store, gaps: seq<MissingRange>, s: Series, env: Env, i: nat, g: nat, k: nat)
    requires OnlyComplete(env) && i <= g < |gaps| && k < gaps[g].count
    requires forall m :: 0 <= m < |gaps| ==> Answers(env, s, gaps, m)
    ensures FillGaps(store, |gaps|, env, i).1
    ensures Holds(FillGaps(store, |gaps|, env, i).0, Key(s, At(gaps[g].start, k, Seconds(s.timeframe))))
    decreases |gaps| - i
  {
    hide At, Upsert;
    assert Answers(env, s, gaps, i);
    var candles := env.replies(i + 1).candles;
    var next := Upsert(store, candles);
    if i == g {
      var c :| c in candles && KeyOf(c) == Key(s, At(gaps[g].start, k, Seconds(s.timeframe)));
      UpsertHas(store, candles, c);
      FillGapsKeeps(next, |gaps|, env, i + 1);
      FillGapsSucceeds(next, gaps, s, env, i + 1);
    } else {
      FillGapsHas(next, gaps, s, env, i + 1, g, k);
    }
  }

  lemma {:induction false} FillGapsSucceeds(store: Store, gaps: seq<MissingRange>, s: Series, env: Env, i: nat)
    requires i <= |gaps| && forall m :: 0 <= m < |gaps| ==> Answers(env, s, gaps, m)
    ensures FillGaps(store, |gaps|, env, i).1
    decreases |gaps| - i
  {
    hide At, Upsert;
    if i < |gaps| {
      assert Answers(env, s, gaps, i);
      FillGapsSucceeds(Upsert(store, env.replies(i + 1).candles), gaps, s, env, i + 1);
    }
  }

  /** One request per gap range is enough: when each is answered with the finished candles of that range,
      the repair ends healthy. */
  lemma AnsweredRepairHeals(store: Store, j: Job, calendar: set<int>, env: Env)
    requires !j.series.market.OtherMarket? && !env.readFails && !env.rereadFails && OnlyComplete(env)
    requires forall i :: 0 <= i < |GapsOf(store, j, calendar)| ==> Answers(env, j.series, GapsOf(store, j, calendar), i)
    ensures Repair(store, j, calendar, env).1 == HEALTHY
  {
    hide At, Expected, Grouped, Sorted, Answers, OnlyComplete, TotalMissing, FillGaps;
    var gaps := GapsOf(store, j, calendar);
    if gaps != [] {
      var after := FillGaps(store, |gaps|, env, 0).0;
      FillGapsSucceeds(store, gaps, j.series, env, 0);
      FillGapsKeeps(store, |gaps|, env, 0);
      var expected, actual := ExpectedOf(j, calendar), CandleTimes(store, j.series, j.rangeStart, j.rangeEnd);
      RangesAreTheMissing(expected, actual, Step(j));
      forall t | t in expected ensures t in CandleTimes(after, j.series, j.rangeStart, j.rangeEnd) {
        ExpectedExact(j.series.market, calendar, j.rangeStart, j.rangeEnd, Step(j), t);
        assert Holds(after, Key(j.series, t)) by {
          if t in actual {
            assert Holds(store, Key(j.series, t));
          } else {
            assert t in Missing(expected, actual) && t in Elements(AllPoints(gaps, Step(j)));
            var g, k := PointOwner(gaps, Step(j), t);
            FillGapsHas(store, gaps, j.series, env, 0, g, k);
          }
        }
      }
      NoGaps(after, j, calendar);
    }
  }

  // ---- when completeness does not last -------------------------------------------------------------

  /** The last candle of a batch with this key. */
  function LastOf(candles: seq<Candle>, k: Key): Option<Candle> {
    if candles == [] then None
    else if KeyOf(candles[|candles| - 1]) == k then Some(candles[|candles| - 1])
    else LastOf(candles[..|candles| - 1], k)
  }

  lemma {:induction false} UpsertLookup(store: Store, candles: seq<Candle>, k: Key)
    ensures Holds(Upsert(store, candles), k) <==>
              if LastOf(candles, k).Some? then LastOf(candles, k).value.complete else Holds(store, k)
  {
    if candles != [] { UpsertLookup(store, candles[..|candles| - 1], k); }
  }

  /** A batch loses nothing exactly when no stored candle is last overwritten by an unfinished one. */
  lemma UpsertKeepsExactly(store: Store, candles: seq<Candle>)
    ensures Keeps(store, Upsert(store, candles)) <==>
              forall k :: Holds(store, k) && LastOf(candles, k).Some? ==> LastOf(candles, k).value.complete
  {
    hide Upsert, LastOf, Holds;
    forall k ensures Holds(Upsert(store, candles), k) <==>
        if LastOf(candles, k).Some? then LastOf(candles, k).value.complete else Holds(store, k) {
      UpsertLookup(store, candles, k);
    }
  }

  lemma UpsertOne(store: Store, c: Candle)
    ensures Upsert(store, [c]) == store[KeyOf(c) := c]
  {
    assert [c][..0] == [];
    assert Upsert(store, []) == store;
  }

  lemma {:induction false} FillGapsOverwrites(store: Store, gaps: nat, env: Env, i: nat, c: Candle)
    requires (forall k: nat :: k >= 1 ==> env.replies(k) == Returned([c])) && i < gaps && !c.complete
    ensures !Holds(FillGaps(store, gaps, env, i).0, KeyOf(c))
    decreases gaps - i
  {
    UpsertOne(store, c);
    if i + 1 < gaps { FillGapsOverwrites(Upsert(store, [c]), gaps, env, i + 1, c); }
  }

  // Two minutes of one crypto series, and two jobs for it that have just been enqueued.

  function MinuteSeries(): Series { Series(CRYPTO, 0, 0, M1) }

  function Enqueued(end: int): Job { Job(MinuteSeries(), 0, end, 0, 1, PENDING, 0, 5, None, None) }

  function FirstCandle(complete: bool): Candle { Candle(MinuteSeries(), 0, complete, 0) }

  /** A chunk of the first candle alone is reconciled, on an empty table or one that holds just that candle. */
  lemma FirstChunkMatches(store: Store, end: int)
    requires end > 0 && store.Keys <= {Key(MinuteSeries(), 0)}
    ensures var c := FirstCandle(true);
            && Upsert(store, [c]) == map[KeyOf(c) := c]
            && Matched(Upsert(store, [c]), [c], MinuteSeries(), 0, end)
  {
    var c := FirstCandle(true);
    UpsertOne(store, c);
    var written := Upsert(store, [c]);
    assert written.Keys == {KeyOf(c)};
    assert written == map[KeyOf(c) := c];
    assert KeyOf(c) in written && forall k :: k in written ==> k == KeyOf(c);
    assert CandleTimes(written, MinuteSeries(), 0, end) == {0};
    assert Canonical(written, MinuteSeries(), 0, end) == {(0, 0)} by { OnlyContents(written, end); }
    assert (set x | x in [c] :: (x.openTime, x.ohlcv)) == {(0, 0)} by { OnlyCandle(c); }
  }

  lemma OnlyCandle(c: Candle)
    ensures (set x | x in [c] :: (x.openTime, x.ohlcv)) == {(c.openTime, c.ohlcv)}
  {
    var s := set x | x in [c] :: (x.openTime, x.ohlcv);
    assert c in [c];
    assert (c.openTime, c.ohlcv) in s;
    forall p | p in s ensures p == (c.openTime, c.ohlcv) {
      var x :| x in [c] && p == (x.openTime, x.ohlcv);
    }
  }

  lemma OnlyContents(written: Store, end: int)
    requires end > 0 && written == map[Key(MinuteSeries(), 0) := FirstCandle(true)]
    ensures Canonical(written, MinuteSeries(), 0, end) == {(0, 0)}
  {
    var s := Canonical(written, MinuteSeries(), 0, end);
    var k := Key(MinuteSeries(), 0);
    assert k in written && (k.time, written[k].ohlcv) == (0, 0);
    assert (0, 0) in s;
    forall p | p in s ensures p == (0, 0) {
      var x :| x in written && p == (x.time, written[x].ohlcv);
    }
  }

  /** The only chunk of such a job, answered with the first candle: the range is exhausted, and repaired. */
  lemma ChunkConcludes(store: Store, end: int, env: Env)
    requires 0 < end <= DAY && store.Keys <= {Key(MinuteSeries(), 0)}
    requires env.configured && !env.reconcileFails && env.replies(0) == Returned([FirstCandle(true)])
    ensures var j, c := Claimed(Enqueued(end), env.now), FirstCandle(true);
            Attempt(j, store, {}, env) == Conclude(j, end, map[KeyOf(c) := c], {}, env)
  {
    hide Conclude, Matched, Upsert;
    FirstChunkMatches(store, end);
    var j := Claimed(Enqueued(end), env.now);
    assert ChunkEnd(j) == end;
    assert forall c :: c in [FirstCandle(true)] ==> InChunk(c, j);
  }

  /** One minute is all there is of the first job's range, and it is stored. */
  lemma FirstMinuteStored(j: Job, store: Store)
    requires j.series == MinuteSeries() && j.rangeStart == 0 && j.rangeEnd == 60 && Holds(store, Key(MinuteSeries(), 0))
    ensures FullyStored(j, {}, store)
  {
    forall t | t in ExpectedOf(j, {}) ensures t in CandleTimes(store, j.series, 0, 60) {
      ExpectedExact(CRYPTO, {}, 0, 60, 60, t);
      assert t == 0;
      assert Key(j.series, 0) in store;
    }
  }

  /** The second minute is expected of the second job, and missing. */
  lemma SecondMinuteMissing(j: Job, store: Store)
    requires j.series == MinuteSeries() && j.rangeStart == 0 && j.rangeEnd == 120
    requires store.Keys <= {Key(MinuteSeries(), 0)}
    ensures GapsOf(store, j, {}) != []
  {
    FirstMinutes(MinuteSeries(), 120, 60);
    hide Expected;
    assert Key(MinuteSeries(), 60) !in store;
    assert 60 !in CandleTimes(store, j.series, 0, 120);
    NoGaps(store, j, {});
  }

  function AnswerOnce(now: int): Env { Env(now, true, (k: nat) => Returned([FirstCandle(true)]), false, false, false) }

  function AnswerThenUnfinished(now: int): Env {
    Env(now, true, (k: nat) => Returned([FirstCandle(k == 0)]), false, false, false)
  }

  lemma FirstJobCompletes()
    ensures var c := FirstCandle(true);
            RunOnce(World([Enqueued(60), Enqueued(120)], map[]), {}, AnswerOnce(0)).0
            == World([Advance(Claimed(Enqueued(60), 0), 60), Enqueued(120)], map[KeyOf(c) := c])
  {
    var w, env, c := World([Enqueued(60), Enqueued(120)], map[]), AnswerOnce(0), FirstCandle(true);
    var j, store := Claimed(Enqueued(60), 0), map[KeyOf(c) := c];
    ChunkConcludes(map[], 60, env);
    FirstMinuteStored(j, store);
    NoGaps(store, j, {});
    hide GapsOf, Attempt, FullyStored, FillGaps;
    assert w.jobs[..1] == [Enqueued(60)] && w.jobs[..1][..0] == [];
    assert Claim(w.jobs[..1], 0) == Some(0);
    assert Claim(w.jobs, 0) == Some(0);
  }

  lemma SecondJobOverwrites(done: Job)
    requires done == Advance(Claimed(Enqueued(60), 0), 60)
    ensures var c := FirstCandle(true);
            var w := RunOnce(World([done, Enqueued(120)], map[KeyOf(c) := c]), {}, AnswerThenUnfinished(1)).0;
            |w.jobs| == 2 && w.jobs[0] == done && !Holds(w.store, Key(MinuteSeries(), 0))
  {
    var c, env := FirstCandle(true), AnswerThenUnfinished(1);
    var store := map[KeyOf(c) := c];
    var jobs := [done, Enqueued(120)];
    var j := Claimed(Enqueued(120), 1);
    ChunkConcludes(store, 120, env);
    SecondMinuteMissing(j, store);
    FillGapsOverwrites(store, |GapsOf(store, j, {})|, env, 0, FirstCandle(false));
    hide GapsOf, Attempt, FillGaps, Holds;
    assert jobs[..1] == [done] && [done][..0] == [];
    assert Claim([done], 1).None? by { assert done in [done]; }
    assert Claim(jobs, 1) == Some(1);
  }

  /** Gap repair stores whatever the provider returns. From an empty table: the first job completes with its
      range stored; then an unfinished candle, returned while the second job repairs its range, takes it away. */
  lemma UnfinishedCandleUndoesCompletion()
    ensures var w := World([Enqueued(60), Enqueued(120)], map[]);
            var once, twice := After(w, {}, [AnswerOnce(0)]), After(w, {}, [AnswerOnce(0), AnswerThenUnfinished(1)]);
            && JobsOk(w.jobs) && |once.jobs| == 2 == |twice.jobs|
            && once.jobs[0].status == COMPLETE && FullyStored(once.jobs[0], {}, once.store)
            && twice.jobs[0] == once.jobs[0] && !FullyStored(twice.jobs[0], {}, twice.store)
  {
    var w, a, z := World([Enqueued(60), Enqueued(120)], map[]), AnswerOnce(0), AnswerThenUnfinished(1);
    var done := Advance(Claimed(Enqueued(60), 0), 60);
    FirstJobCompletes();
    SecondJobOverwrites(done);
    FirstMinutes(MinuteSeries(), 60, 0);
    hide RunOnce, Expected, Holds, FullyStored, After, AnswerOnce, AnswerThenUnfinished;
    AfterTwo(w, a, z);
    var once := After(w, {}, [a]);
    assert once == World([done, Enqueued(120)], map[KeyOf(FirstCandle(true)) := FirstCandle(true)]);
    assert Holds(once.store, Key(MinuteSeries(), 0)) by { FirstIsHeld(); }
    FirstMinuteStored(done, once.store);
    NotHeld(done, RunOnce(once, {}, z).0.store);
  }

  lemma FirstIsHeld()
    ensures Holds(map[KeyOf(FirstCandle(true)) := FirstCandle(true)], Key(MinuteSeries(), 0))
  {}

  lemma AfterTwo(w: World, a: Env, z: Env)
    ensures After(w, {}, [a]) == RunOnce(w, {}, a).0
    ensures After(w, {}, [a, z]) == RunOnce(RunOnce(w, {}, a).0, {}, z).0
  {
    hide RunOnce;
    assert [a][..0] == [] && [a, z][..1] == [a];
    assert After(w, {}, []) == w;
  }

  lemma NotHeld(j: Job, store: Store)
    requires 0 in ExpectedOf(j, {}) && !Holds(store, Key(j.series, 0))
    ensures !FullyStored(j, {}, store)
  {
    hide Expected;
    assert 0 !in CandleTimes(store, j.series, j.rangeStart, j.rangeEnd);
  }

  lemma FirstMinutes(s: Series, end: int, t: int)
    requires s.market == CRYPTO && s.timeframe == M1 && (t == 0 || t == 60) && t + 60 <= end
    ensures t in Expected(s.market, {}, 0, end, 60)
  {
    ExpectedExact(s.market, {}, 0, end, 60, t);
    assert t == At(0, t / 60, 60);
    assert OnGrid(t, 0, end, 60);
  }

  /** The reconciliation of an exhausted range, over an empty window, always matches. */
  lemma EmptyWindowMatches(store: Store, s: Series, t: int)
    ensures Matched(store, [], s, t, t)
  {
    assert CandleTimes(store, s, t, t) == {};
    assert Canonical(store, s, t, t) == {};
    assert (set c: Candle | c in [] :: (c.openTime, c.ohlcv)) == {};
  }

  /** A chunk that was advanced past, the range not being exhausted, is stored exactly as the provider
      returned it. */
  lemma AdvancedChunkIsReconciled(j: Job, store: Store, calendar: set<int>, env: Env)
    requires j.status == RUNNING && Attempt(j, store, calendar, env).0.status == PENDING
    ensures env.replies(0).Returned? && Attempt(j, store, calendar, env).0.nextStart == ChunkEnd(j)
    ensures Canonical(Attempt(j, store, calendar, env).1, j.series, j.nextStart, ChunkEnd(j)) ==
              set c | c in env.replies(0).candles :: (c.openTime, c.ohlcv)
    ensures forall c :: c in env.replies(0).candles ==> InChunk(c, j)
  {
    hide Upsert, Canonical, CandleTimes, Repair;
  }
}

/** The backfill worker and the tables it updates in place; each method does to them what the functions of
    Backfill say. */
module BackfillWorker {
  import opened Common
  import opened GapRanges
  import opened Backfill

  class MarketDataStore {
    var jobs: seq<Job>
    var candles: Store

    constructor (jobs: seq<Job>, candles: Store)
      ensures View() == World(jobs, candles)
    {
      this.jobs, this.candles := jobs, candles;
    }

    ghost function View(): World
      reads this
    {
      World(jobs, candles)
    }

    /** Claims the oldest job that is due, and no other: it is RUNNING and can be claimed again exactly when its
        lease of five minutes is over. Nothing is claimed exactly when nothing is due. */
    method ClaimBackfill(now: int) returns (i: Option<nat>)
      modifies this`jobs
      ensures i.None? ==> jobs == old(jobs) && forall j :: j in jobs ==> !Claimable(j, now)
      ensures i.Some? ==>
                && i.value < |old(jobs)| == |jobs| && Claimable(old(jobs)[i.value], now)
                && (forall k :: 0 <= k < i.value ==> !Claimable(old(jobs)[k], now))
                && (forall k :: 0 <= k < |jobs| && k != i.value ==> jobs[k] == old(jobs)[k])
                && jobs[i.value].status == RUNNING && (forall t :: Claimable(jobs[i.value], t) <==> t > now + 300)
                && jobs[i.value].nextStart == old(jobs)[i.value].nextStart
                && jobs[i.value].attempts == old(jobs)[i.value].attempts
      ensures i == Claim(old(jobs), now)
      ensures jobs == if i.Some? then old(jobs)[i.value := Claimed(old(jobs)[i.value], now)] else old(jobs)
    {
      i := Claim(jobs, now);
      if i.Some? { jobs := jobs[i.value := Claimed(jobs[i.value], now)]; }
    }

    /** Moves the position: the job is COMPLETE exactly when it reached the end, and otherwise due at once. */
    method AdvanceBackfill(i: nat, next: int) returns (complete: bool)
      requires i < |jobs|
      modifies this`jobs
      ensures jobs == old(jobs)[i := Advance(old(jobs)[i], next)]
      ensures complete <==> next >= old(jobs)[i].rangeEnd
      ensures jobs[i].nextStart == next && jobs[i].attempts == old(jobs)[i].attempts
      ensures if complete then jobs[i].status == COMPLETE
              else jobs[i].status == PENDING && forall t :: Claimable(jobs[i], t)
    {
      jobs := jobs[i := Advance(jobs[i], next)];
      complete := jobs[i].status == COMPLETE;
    }

    /** Counts the attempt. The job has FAILED for good exactly when its attempts are used up; otherwise it
        can be claimed again from one moment on, one minute to one hour later. Its position and the other
        jobs stay as they were. */
    method FailBackfill(i: nat, now: int) returns (status: Status)
      requires i < |jobs|
      modifies this`jobs
      ensures |jobs| == |old(jobs)| && status == jobs[i].status
      ensures jobs[i].attempts == old(jobs)[i].attempts + 1 && jobs[i].nextStart == old(jobs)[i].nextStart
      ensures status == FAILED <==> old(jobs)[i].attempts + 1 >= old(jobs)[i].maxAttempts
      ensures status == FAILED ==> forall t :: !Claimable(jobs[i], t)
      ensures status != FAILED ==>
                && status == RETRY && jobs[i].nextAttempt.Some? && now + 60 <= jobs[i].nextAttempt.value <= now + 3600
                && forall t :: Claimable(jobs[i], t) <==> t >= jobs[i].nextAttempt.value
      ensures forall k :: 0 <= k < |jobs| && k != i ==> jobs[k] == old(jobs)[k]
      ensures jobs == old(jobs)[i := Fail(old(jobs)[i], now)]
    {
      jobs := jobs[i := Fail(jobs[i], now)];
      status := jobs[i].status;
      BackoffRange(jobs[i].attempts);
    }

    method UpsertCandles(batch: seq<Candle>)
      modifies this`candles
      ensures candles == Upsert(old(candles), batch)
    {
      var i := 0;
      while i < |batch|
        invariant 0 <= i <= |batch|
        invariant candles == Upsert(old(candles), batch[..i])
      {
        candles := candles[KeyOf(batch[i]) := batch[i]];
        i := i + 1;
        assert batch[..i][..i - 1] == batch[..i - 1];
      }
      assert batch[..i] == batch;
    }
  }

  class Worker {
    const store: MarketDataStore
    const calendar: set<int>

    constructor (store: MarketDataStore, calendar: set<int>)
      ensures this.store == store && this.calendar == calendar
    {
      this.store, this.calendar := store, calendar;
    }

    method ExpectedTimes(j: Job) returns (times: seq<int>)
      requires !j.series.market.OtherMarket?
      ensures times == ExpectedOf(j, calendar)
    {
      if j.series.market.CRYPTO? {
        times := CryptoExpectedOpenTimes(j.rangeStart, j.rangeEnd, Seconds(j.series.timeframe));
      } else {
        var sessions := SessionDates(calendar, j.rangeStart, j.rangeEnd);
        times := NseExpectedOpenTimes(sessions, j.rangeStart, j.rangeEnd, Seconds(j.series.timeframe));
      }
    }

    /** `GapRepairService.repair` over the job's whole range. */
    method RepairRange(j: Job, env: Env) returns (health: Health)
      modifies store`candles
      ensures (store.candles, health) == Repair(old(store.candles), j, calendar, env)
    {
      hide Upsert, Expected, CandleTimes, Grouped, Sorted, TotalMissing;
      if j.series.market.OtherMarket? || env.readFails { return RepairRaised; }
      var step := Seconds(j.series.timeframe);
      var expected := ExpectedTimes(j);
      var actual := CandleTimes(store.candles, j.series, j.rangeStart, j.rangeEnd);
      var gaps := ContiguousMissingRanges(expected, actual, step);
      if gaps == [] { return HEALTHY; }
      var i := 0;
      while i < |gaps|
        invariant 0 <= i <= |gaps|
        invariant FillGaps(old(store.candles), |gaps|, env, 0) == FillGaps(store.candles, |gaps|, env, i)
      {
        match env.replies(i + 1) {
          case Raised => return PROVIDER_UNAVAILABLE;
          case Returned(batch) => store.UpsertCandles(batch);
        }
        i := i + 1;
      }
      if env.rereadFails { return PROVIDER_UNAVAILABLE; }
      actual := CandleTimes(store.candles, j.series, j.rangeStart, j.rangeEnd);
      var left := ContiguousMissingRanges(expected, actual, step);
      health := if TotalMissing(left) == 0 then HEALTHY else GAPS_DETECTED;
    }

    /** The tail of a run that reached the end of its chunk: advance, and repair when that was the last. */
    method Finish(i: nat, next: int, env: Env) returns (status: Status)
      requires i < |store.jobs|
      modifies store
      ensures var (job, candles) := Conclude(old(store.jobs)[i], next, old(store.candles), calendar, env);
              store.View() == World(old(store.jobs)[i := job], candles) && status == job.status
    {
      hide Repair;
      var j := store.jobs[i];
      var complete := store.AdvanceBackfill(i, next);
      if !complete { return PENDING; }
      var health := RepairRange(j, env);
      status := COMPLETE;
      if health != HEALTHY { status := store.FailBackfill(i, env.now); }
    }

    /** `run_once`. */
    method RunNext(env: Env) returns (report: Option<Status>)
      modifies store
      ensures (store.View(), report) == RunOnce(old(store.View()), calendar, env)
    {
      hide Conclude, Upsert, CandleTimes, Canonical, Claimable;
      var found := store.ClaimBackfill(env.now);
      if found.None? { return None; }
      var i := found.value;
      var j := store.jobs[i];
      var status: Status;
      if !env.configured {
        status := store.FailBackfill(i, env.now);
      } else if j.nextStart >= j.rangeEnd {
        if Matched(store.candles, [], j.series, j.rangeEnd, j.rangeEnd) {
          status := Finish(i, j.rangeEnd, env);
        } else {
          status := store.FailBackfill(i, env.now);
        }
      } else if env.replies(0).Raised? {
        status := store.FailBackfill(i, env.now);
      } else {
        status := LoadChunk(i, env);
      }
      report := Some(status);
      assert store.jobs == old(store.jobs)[i := store.jobs[i]];
    }

    /** `run_pending`: one run after another, as many as there are surroundings given, until one finds
        nothing to claim. */
    method RunPending(envs: seq<Env>) returns (reports: seq<Status>)
      modifies store
      ensures |reports| <= |envs| && store.View() == After(old(store.View()), calendar, envs[..|reports|])
      ensures |reports| < |envs| ==> Claim(store.jobs, envs[|reports|].now).None?
      ensures JobsOk(old(store.jobs)) ==> |reports| <= TotalRemaining(old(store.jobs))
    {
      hide RunOnce, TotalRemaining, JobOk;
      reports := [];
      while |reports| < |envs|
        invariant |reports| <= |envs|
        invariant store.View() == After(old(store.View()), calendar, envs[..|reports|])
        invariant Claims(old(store.View()), calendar, envs[..|reports|]) == |reports|
      {
        ghost var n, before := |reports|, store.View();
        assert envs[..n + 1][..n] == envs[..n];
        var report := RunNext(envs[|reports|]);
        if report.None? {
          IdleMeansNoClaim(before, calendar, envs[n]);
          break;
        }
        reports := reports + [report.value];
      }
      if JobsOk(old(store.jobs)) {
        ClaimsAreBounded(old(store.View()), calendar, envs[..|reports|]);
        NothingRemains(store.jobs);
      }
    }

    /** The chunk's candles: all inside it, written, and reconciled against the table. */
    method LoadChunk(i: nat, env: Env) returns (status: Status)
      requires i < |store.jobs| && store.jobs[i].nextStart < store.jobs[i].rangeEnd
      requires env.configured && env.replies(0).Returned?
      modifies store
      ensures var (job, candles) := Attempt(old(store.jobs)[i], old(store.candles), calendar, env);
              store.View() == World(old(store.jobs)[i := job], candles) && status == job.status
    {
      hide Conclude, Upsert, Matched;
      var j, batch := store.jobs[i], env.replies(0).candles;
      var k := 0;
      while k < |batch|
        invariant 0 <= k <= |batch| && store.View() == old(store.View())
        invariant forall c :: c in batch[..k] ==> InChunk(c, j)
      {
        if !InChunk(batch[k], j) {
          assert batch[k] in batch;
          status := store.FailBackfill(i, env.now);
          return;
        }
        k := k + 1;
      }
      assert batch[..k] == batch;
      store.UpsertCandles(batch);
      if env.reconcileFails || !Matched(store.candles, batch, j.series, j.nextStart, ChunkEnd(j)) {
        status := store.FailBackfill(i, env.now);
      } else {
        status := Finish(i, ChunkEnd(j), env);
      }
    }
  }

  lemma IdleMeansNoClaim(w: World, calendar: set<int>, env: Env)
    requires RunOnce(w, calendar, env).1.None?
    ensures RunOnce(w, calendar, env).0 == w && Claim(w.jobs, env.now).None?
  {
    hide Attempt;
  }
}

/** The bounded backtest queue (backend/backtest/jobs.py). Every lock-protected block is one atomic step;
    threads interleave the steps of any number of reservations and finishing jobs in any order. */
module JobQueue {
  import opened Common

  /** Run ids are only ever compared for equality. */
  type RunId = nat

  datatype QueueError = NotPositive | QueueFull | Inactive | CountMismatch | ReservationLost | ExecutorRefused

  /** The runner's fields, with `jobs`, what its executor has accepted and not yet finished. */
  datatype Queue = Queue(maxPending: nat, reserved: int, futures: set<RunId>, jobs: seq<RunId>)

  function Pending(q: Queue): int { |q.futures| + q.reserved }

  function Ids(ids: seq<RunId>): set<RunId> { set id | id in ids }

  function ReserveSlots(q: Queue, count: int): Result<Queue, QueueError> {
    if count < 1 then Err(NotPositive)
    else if Pending(q) + count > q.maxPending then Err(QueueFull)
    else Ok(q.(reserved := q.reserved + count))
  }

  /** The executor accepts the first `accepts` requests and refuses the next, if there is one. */
  function Accepted(ids: seq<RunId>, accepts: nat): seq<RunId> { if accepts < |ids| then ids[..accepts] else ids }

  function SubmitJobs(q: Queue, ids: seq<RunId>, accepts: nat): (Queue, Option<QueueError>) {
    if q.reserved < |ids| then (q, Some(ReservationLost))
    else
      var taken := Accepted(ids, accepts);
      (q.(reserved := q.reserved - |ids|, futures := q.futures + Ids(taken), jobs := q.jobs + taken),
       if accepts < |ids| then Some(ExecutorRefused) else None)
  }

  function ReleaseSlots(q: Queue, count: int): Queue {
    q.(reserved := if q.reserved - count > 0 then q.reserved - count else 0)
  }

  function FinishJob(q: Queue, k: nat): Queue
    requires k < |q.jobs|
  {
    q.(futures := q.futures - {q.jobs[k]}, jobs := q.jobs[..k] + q.jobs[k + 1..])
  }

  // ---- reservations --------------------------------------------------------------------------------

  datatype Ticket = Ticket(count: int, submitted: bool, released: bool) {
    predicate Live() { !submitted && !released }
  }

  datatype System = System(queue: Queue, tickets: seq<Ticket>)

  datatype Action =
    | Reserve(count: int)
    | Submit(ticket: nat, ids: seq<RunId>, accepts: nat)
    | Release(ticket: nat)
    | Finish(job: nat)

  function SubmitTicket(s: System, r: nat, ids: seq<RunId>, accepts: nat): (System, Option<QueueError>)
    requires r < |s.tickets|
  {
    if !s.tickets[r].Live() then (s, Some(Inactive))
    else if |ids| != s.tickets[r].count then (s, Some(CountMismatch))
    else
      var (queue, error) := SubmitJobs(s.queue, ids, accepts);
      (System(queue, if error.None? then s.tickets[r := s.tickets[r].(submitted := true)] else s.tickets), error)
  }

  function ReleaseTicket(s: System, r: nat): System
    requires r < |s.tickets|
  {
    if s.tickets[r].Live()
    then System(ReleaseSlots(s.queue, s.tickets[r].count), s.tickets[r := s.tickets[r].(released := true)])
    else s
  }

  /** Actions name a reservation that was handed out or a job that is in the executor. */
  predicate Possible(s: System, a: Action) {
    match a
    case Reserve(_) => true
    case Submit(r, _, _) => r < |s.tickets|
    case Release(r) => r < |s.tickets|
    case Finish(k) => k < |s.queue.jobs|
  }

  function Act(s: System, a: Action): (System, Option<QueueError>)
    requires Possible(s, a)
  {
    match a
    case Reserve(count) =>
      (match ReserveSlots(s.queue, count)
       case Ok(queue) => (System(queue, s.tickets + [Ticket(count, false, false)]), None)
       case Err(error) => (s, Some(error)))
    case Submit(r, ids, accepts) => SubmitTicket(s, r, ids, accepts)
    case Release(r) => (ReleaseTicket(s, r), None)
    case Finish(k) => (System(FinishJob(s.queue, k), s.tickets), None)
  }

  /** One interleaving: the states it passes through, from a new runner. */
  ghost predicate Interleaving(maxPending: nat, actions: seq<Action>, states: seq<System>) {
    && |states| == |actions| + 1
    && states[0] == System(Queue(maxPending, 0, {}, []), [])
    && forall i :: 0 <= i < |actions| ==>
         Possible(states[i], actions[i]) && states[i + 1] == Act(states[i], actions[i]).0
  }

  // ---- the bound: no assumption at all -------------------------------------------------------------

  predicate Bounded(q: Queue) { 0 <= q.reserved && Pending(q) <= q.maxPending }

  lemma {:induction false} IdsSize(ids: seq<RunId>)
    ensures |Ids(ids)| <= |ids|
  {
    if ids != [] {
      var n := |ids| - 1;
      IdsSize(ids[..n]);
      assert Ids(ids) == Ids(ids[..n]) + {ids[n]};
    }
  }

  lemma UnionSize(a: set<RunId>, b: set<RunId>)
    ensures |a + b| <= |a| + |b|
  {
    assert a + b == a + (b - a);
    assert |b| == |b - a| + |b * a| by { assert b == (b - a) + (b * a); }
  }

  lemma ActBounded(s: System, a: Action)
    requires Possible(s, a) && Bounded(s.queue) && forall t :: t in s.tickets ==> t.count >= 1
    ensures var n := Act(s, a).0;
            Bounded(n.queue) && n.queue.maxPending == s.queue.maxPending && forall t :: t in n.tickets ==> t.count >= 1
  {
    match a
    case Submit(r, ids, accepts) =>
      var taken := Accepted(ids, accepts);
      IdsSize(taken);
      UnionSize(s.queue.futures, Ids(taken));
    case Finish(k) =>
      UnionSize(s.queue.futures - {s.queue.jobs[k]}, {});
    case _ =>
  }

  // ---- the accounting: an executor that accepts work -----------------------------------------------

  function LiveSlots(tickets: seq<Ticket>): int {
    if tickets == [] then 0
    else
      var t := tickets[|tickets| - 1];
      LiveSlots(tickets[..|tickets| - 1]) + (if t.Live() then t.count else 0)
  }

  lemma {:induction false} LiveSlotsUpdate(tickets: seq<Ticket>, r: nat, t: Ticket)
    requires r < |tickets| && tickets[r].Live() && !t.Live()
    ensures LiveSlots(tickets[r := t]) == LiveSlots(tickets) - tickets[r].count
  {
    var n := |tickets| - 1;
    if r == n {
      assert tickets[r := t][..n] == tickets[..n];
    } else {
      assert tickets[r := t][..n] == tickets[..n][r := t];
      LiveSlotsUpdate(tickets[..n], r, t);
    }
  }

  lemma {:induction false} LiveSlotsAtLeast(tickets: seq<Ticket>, r: nat)
    requires r < |tickets| && forall t :: t in tickets ==> t.count >= 1
    ensures LiveSlots(tickets) >= if tickets[r].Live() then tickets[r].count else 0
  {
    var n := |tickets| - 1;
    assert tickets[n] in tickets;
    if r < n {
      LiveSlotsAtLeast(tickets[..n], r);
    } else if n > 0 {
      LiveSlotsAtLeast(tickets[..n], n - 1);
    }
  }

  ghost predicate Accounted(s: System) {
    && s.queue.reserved == LiveSlots(s.tickets)
    && forall t :: t in s.tickets ==> t.count >= 1
  }

  predicate Accepts(a: Action) { a.Submit? ==> a.accepts >= |a.ids| }

  lemma ActAccounted(s: System, a: Action)
    requires Possible(s, a) && Accounted(s) && Accepts(a)
    ensures Accounted(Act(s, a).0)
    ensures Act(s, a).1 != Some(ReservationLost) && Act(s, a).1 != Some(ExecutorRefused)
    ensures a.Release? && s.tickets[a.ticket].Live() ==> s.queue.reserved >= s.tickets[a.ticket].count
  {
    match a
    case Reserve(count) =>
      assert (s.tickets + [Ticket(count, false, false)])[..|s.tickets|] == s.tickets;
    case Submit(r, ids, _) =>
      LiveSlotsAtLeast(s.tickets, r);
      if s.tickets[r].Live() { LiveSlotsUpdate(s.tickets, r, s.tickets[r].(submitted := true)); }
    case Release(r) =>
      LiveSlotsAtLeast(s.tickets, r);
      if s.tickets[r].Live() { LiveSlotsUpdate(s.tickets, r, s.tickets[r].(released := true)); }
    case Finish(_) =>
  }

  // ---- the executor: run ids not in use ------------------------------------------------------------

  ghost predicate Distinct(ids: seq<RunId>) { forall i, j :: 0 <= i < j < |ids| ==> ids[i] != ids[j] }

  ghost predicate Tracked(q: Queue) { q.futures == Ids(q.jobs) && Distinct(q.jobs) }

  /** No submitted run id is in the table, and none is repeated. */
  predicate FreshIds(s: System, a: Action) {
    a.Submit? ==>
      && (forall i :: 0 <= i < |a.ids| ==> a.ids[i] !in s.queue.futures)
      && (forall i, j :: 0 <= i < j < |a.ids| ==> a.ids[i] != a.ids[j])
  }

  lemma {:induction false} DistinctSize(ids: seq<RunId>)
    requires Distinct(ids)
    ensures |Ids(ids)| == |ids|
  {
    if ids != [] {
      var n := |ids| - 1;
      DistinctSize(ids[..n]);
      assert Ids(ids) == Ids(ids[..n]) + {ids[n]};
    }
  }

  lemma SubmitTracked(q: Queue, taken: seq<RunId>)
    requires Tracked(q) && Distinct(taken) && forall i :: 0 <= i < |taken| ==> taken[i] !in q.futures
    ensures q.futures + Ids(taken) == Ids(q.jobs + taken) && Distinct(q.jobs + taken)
  {
    var jobs := q.jobs + taken;
    forall i, j | 0 <= i < j < |jobs| ensures jobs[i] != jobs[j] {
      if i < |q.jobs| <= j { assert jobs[i] in q.futures && jobs[j] == taken[j - |q.jobs|]; }
    }
  }

  lemma FinishTracked(q: Queue, k: nat)
    requires Tracked(q) && k < |q.jobs|
    ensures Tracked(FinishJob(q, k))
  {
    var jobs := q.jobs[..k] + q.jobs[k + 1..];
    forall id | id in q.futures && id != q.jobs[k] ensures id in jobs {
      var i :| 0 <= i < |q.jobs| && q.jobs[i] == id;
      assert jobs[if i < k then i else i - 1] == id;
    }
    forall id | id in jobs ensures id in q.futures && id != q.jobs[k] {
      var i :| 0 <= i < |jobs| && jobs[i] == id;
      assert q.jobs[if i < k then i else i + 1] == id;
    }
    assert Ids(jobs) == q.futures - {q.jobs[k]};
  }

  lemma FinishFrees(q: Queue, k: nat)
    requires k < |q.jobs|
    ensures var n := FinishJob(q, k);
            && multiset(n.jobs) == multiset(q.jobs) - multiset{q.jobs[k]}
            && (Bounded(q) ==> Bounded(n)) && (Tracked(q) ==> Tracked(n) && |n.futures| == |q.futures| - 1)
  {
    assert q.jobs == q.jobs[..k] + [q.jobs[k]] + q.jobs[k + 1..];
    hide Distinct, Ids;
    if Tracked(q) {
      FinishTracked(q, k);
      DistinctSize(q.jobs);
      DistinctSize(FinishJob(q, k).jobs);
    }
  }

  lemma ActTracked(s: System, a: Action)
    requires Possible(s, a) && Tracked(s.queue) && FreshIds(s, a)
    ensures Tracked(Act(s, a).0.queue)
  {
    hide Ids, Distinct, FinishJob;
    match a
    case Submit(r, ids, accepts) => SubmitStays(s, a);
    case Finish(k) => FinishTracked(s.queue, k);
    case _ =>
  }

  lemma SubmitStays(s: System, a: Action)
    requires Possible(s, a) && Tracked(s.queue) && FreshIds(s, a) && a.Submit?
    ensures Tracked(Act(s, a).0.queue)
  {
    var taken := Accepted(a.ids, a.accepts);
    assert Distinct(taken);
    hide Ids, Distinct;
    SubmitTracked(s.queue, taken);
  }

  /** A submission the queue honours: a live reservation, of the size it was made for. */
  predicate Honoured(s: System, a: Action) {
    a.Submit? && a.ticket < |s.tickets| && s.tickets[a.ticket].Live() && |a.ids| == s.tickets[a.ticket].count
  }

  /** The counter survives a submission exactly when the executor takes all of it. */
  lemma AccountedExactlyWhenAccepted(s: System, a: Action)
    requires Accounted(s) && Honoured(s, a)
    ensures Accounted(Act(s, a).0) <==> Accepts(a)
  {
    LiveSlotsAtLeast(s.tickets, a.ticket);
    if Accepts(a) {
      ActAccounted(s, a);
    } else {
      assert Act(s, a).0.tickets == s.tickets && s.tickets[a.ticket] in s.tickets;
    }
  }

  /** The table keeps listing exactly the executor's jobs exactly when the submitted run ids are fresh. */
  lemma TrackedExactlyWhenFresh(s: System, a: Action)
    requires Accounted(s) && Tracked(s.queue) && Honoured(s, a) && Accepts(a)
    ensures Tracked(Act(s, a).0.queue) <==> FreshIds(s, a)
  {
    LiveSlotsAtLeast(s.tickets, a.ticket);
    if FreshIds(s, a) {
      ActTracked(s, a);
    } else {
      hide LiveSlots;
      assert Act(s, a).0.queue.jobs == s.queue.jobs + a.ids;
      if Distinct(s.queue.jobs + a.ids) { RepeatsStay(s.queue.jobs, a.ids); }
    }
  }

  lemma RepeatsStay(jobs: seq<RunId>, ids: seq<RunId>)
    requires Distinct(jobs + ids)
    ensures Distinct(ids) && forall i :: 0 <= i < |ids| ==> ids[i] !in Ids(jobs)
  {
    var all := jobs + ids;
    forall i, j | 0 <= i < j < |ids| ensures ids[i] != ids[j] {
      assert all[|jobs| + i] != all[|jobs| + j];
    }
    forall i | 0 <= i < |ids| ensures ids[i] !in Ids(jobs) {
      forall k | 0 <= k < |jobs| ensures jobs[k] != ids[i] { assert all[k] != all[|jobs| + i]; }
    }
  }

  // ---- every interleaving --------------------------------------------------------------------------

  /** Whatever the executor does and whichever run ids are used, pending work stays within the cap. */
  lemma {:induction false} EveryInterleavingIsBounded(
    maxPending: nat, actions: seq<Action>, states: seq<System>, i: nat)
    requires Interleaving(maxPending, actions, states) && i < |states|
    ensures 0 <= states[i].queue.reserved && |states[i].queue.futures| + states[i].queue.reserved <= maxPending
    ensures states[i].queue.maxPending == maxPending && forall t :: t in states[i].tickets ==> t.count >= 1
  {
    hide Act;
    if i > 0 {
      EveryInterleavingIsBounded(maxPending, actions, states, i - 1);
      ActBounded(states[i - 1], actions[i - 1]);
    }
  }

  /** When the executor accepts work, the reserved counter is the sum of the live reservations, so the
      clamp at zero never changes a release and no live reservation is ever reported lost. */
  lemma {:induction false} EveryInterleavingIsAccounted(
    maxPending: nat, actions: seq<Action>, states: seq<System>, i: nat)
    requires Interleaving(maxPending, actions, states) && i < |states| && forall a :: a in actions ==> Accepts(a)
    ensures Accounted(states[i])
    ensures i < |actions| ==> Act(states[i], actions[i]).1 != Some(ReservationLost)
    ensures (i < |actions| && actions[i].Release? && states[i].tickets[actions[i].ticket].Live()) ==>
              states[i + 1].queue.reserved == states[i].queue.reserved - states[i].tickets[actions[i].ticket].count
  {
    hide Act, LiveSlots;
    if i > 0 {
      EveryInterleavingIsAccounted(maxPending, actions, states, i - 1);
      ActAccounted(states[i - 1], actions[i - 1]);
    } else {
      NoTicketsNoSlots();
    }
    if i < |actions| {
      ActAccounted(states[i], actions[i]);
      ReleaseExact(states[i], actions[i]);
    }
  }

  lemma NoTicketsNoSlots()
    ensures LiveSlots([]) == 0
  {}

  lemma ReleaseExact(s: System, a: Action)
    requires Possible(s, a)
    requires (a.Release? && s.tickets[a.ticket].Live() ==> s.queue.reserved >= s.tickets[a.ticket].count)
    ensures a.Release? && s.tickets[a.ticket].Live() ==>
              Act(s, a).0.queue.reserved == s.queue.reserved - s.tickets[a.ticket].count
  {}

  /** When every submission uses run ids that are not in the table, the table lists exactly the jobs in the
      executor, so the cap bounds the jobs themselves, not only the table. */
  lemma {:induction false} JobsAreBounded(maxPending: nat, actions: seq<Action>, states: seq<System>, i: nat)
    requires Interleaving(maxPending, actions, states) && i < |states|
    requires forall k :: 0 <= k < |actions| ==> FreshIds(states[k], actions[k])
    ensures Tracked(states[i].queue) && |states[i].queue.jobs| + states[i].queue.reserved <= maxPending
  {
    hide Act, FreshIds;
    if i > 0 {
      JobsAreBounded(maxPending, actions, states, i - 1);
      ActTracked(states[i - 1], actions[i - 1]);
    }
    EveryInterleavingIsBounded(maxPending, actions, states, i);
    DistinctSize(states[i].queue.jobs);
  }

  lemma RepeatedSubmit(q: Queue, id: RunId)
    requires q.reserved == 2 && q.futures == {} && q.jobs == []
    ensures SubmitJobs(q, [id, id], 2) == (Queue(q.maxPending, 0, {id}, [id, id]), None)
  {
    assert Ids([id, id]) == {id};
    assert {} + {id} == {id} && q.jobs + [id, id] == [id, id] && Accepted([id, id], 2) == [id, id];
  }

  /** A repeated run id hides a job from the count: with room for two, three jobs end up in the executor. */
  lemma RepeatedIdsExceedTheCap(a: RunId, b: RunId) returns (actions: seq<Action>, states: seq<System>)
    ensures Interleaving(2, actions, states) && |states[|actions|].queue.jobs| == 3
    ensures forall a :: a in actions ==> Accepts(a)
  {
    var s0 := System(Queue(2, 0, {}, []), []);
    var s1 := System(Queue(2, 2, {}, []), [Ticket(2, false, false)]);
    var s2 := System(Queue(2, 0, {a}, [a, a]), [Ticket(2, true, false)]);
    var s3 := System(Queue(2, 1, {a}, [a, a]), [Ticket(2, true, false), Ticket(1, false, false)]);
    var a0, a1, a2, a3 := Reserve(2), Submit(0, [a, a], 2), Reserve(1), Submit(1, [b], 1);
    actions, states := [a0, a1, a2, a3], [s0, s1, s2, s3, Act(s3, a3).0];
    assert Act(s0, a0).0 == s1;
    assert Act(s1, a1).0 == s2 by {
      RepeatedSubmit(s1.queue, a);
      assert s1.tickets[0 := Ticket(2, true, false)] == s2.tickets;
    }
    assert Act(s2, a2).0 == s3;
  }

  /** An executor that refuses leaves its reservation live after its slots were given back; releasing it
      gives them back again, and another live reservation is then reported lost. */
  lemma RefusalLosesAReservation() returns (actions: seq<Action>, states: seq<System>)
    ensures Interleaving(2, actions, states) && |actions| == 5
    ensures Possible(states[4], actions[4]) && actions[4].Submit? && actions[4].ticket == 1
    ensures states[4].tickets[1].Live() && Act(states[4], actions[4]).1 == Some(ReservationLost)
  {
    actions := [Reserve(1), Reserve(1), Submit(0, [7], 0), Release(0), Submit(1, [8], 1)];
    var s0 := System(Queue(2, 0, {}, []), []);
    var s1 := Act(s0, actions[0]).0;
    var s2 := Act(s1, actions[1]).0;
    assert s2.queue.reserved == 2;
    var s3 := Act(s2, actions[2]).0;
    assert s3.queue.reserved == 1 && s3.tickets[0].Live();
    var s4 := Act(s3, actions[3]).0;
    assert s4.queue.reserved == 0;
    var s5 := Act(s4, actions[4]).0;
    states := [s0, s1, s2, s3, s4, s5];
  }

  // ---- the runner and its reservations as objects ---------------------------------------------------

  class JobRunner {
    const maxPending: nat
    var reserved: int
    var futures: set<RunId>
    var jobs: seq<RunId>

    ghost function View(): Queue
      reads this
    {
      Queue(maxPending, reserved, futures, jobs)
    }

    constructor (maxPending: nat)
      ensures View() == Queue(maxPending, 0, {}, [])
    {
      this.maxPending := maxPending;
      reserved := 0;
      futures := {};
      jobs := [];
    }

    method ReserveCount(count: int) returns (r: Result<Reservation, QueueError>)
      modifies this
      ensures match ReserveSlots(old(View()), count)
              case Ok(q) => View() == q && r.Ok? && fresh(r.value) && r.value.runner == this
                && r.value.AsTicket() == Ticket(count, false, false)
              case Err(e) => View() == old(View()) && r == Err(e)
    {
      if count < 1 { return Err(NotPositive); }
      var pending := |futures| + reserved;
      if pending + count > maxPending { return Err(QueueFull); }
      reserved := reserved + count;
      var reservation := new Reservation(this, count);
      r := Ok(reservation);
    }

    method SubmitReserved(ids: seq<RunId>, accepts: nat) returns (error: Option<QueueError>)
      modifies this
      ensures (View(), error) == SubmitJobs(old(View()), ids, accepts)
    {
      if reserved < |ids| { return Some(ReservationLost); }
      reserved := reserved - |ids|;
      var i := 0;
      while i < |ids|
        invariant 0 <= i <= |ids| && i <= accepts
        invariant reserved == old(reserved) - |ids|
        invariant futures == old(futures) + Ids(ids[..i])
        invariant jobs == old(jobs) + ids[..i]
      {
        if i == accepts { return Some(ExecutorRefused); }
        futures := futures + {ids[i]};
        jobs := jobs + [ids[i]];
        i := i + 1;
        assert ids[..i] == ids[..i - 1] + [ids[i - 1]];
      }
      assert ids[..i] == ids;
      error := None;
    }

    /** Gives slots back: exactly `count` when that many are reserved, and otherwise all there are. The cap
        keeps holding and no job is touched. */
    method ReleaseReservation(count: int)
      modifies this
      ensures old(reserved) >= count ==> reserved == old(reserved) - count
      ensures old(reserved) <= count ==> reserved == 0
      ensures futures == old(futures) && jobs == old(jobs)
      ensures count >= 0 && Bounded(old(View())) ==> Bounded(View())
      ensures View() == ReleaseSlots(old(View()), count)
    {
      reserved := reserved - count;
      if reserved < 0 { reserved := 0; }
    }

    /** One job, and no other, leaves the executor, its run id leaves the table, and its slot is free. A table
        that listed exactly the jobs in the executor still does. */
    method FinishRun(k: nat)
      requires k < |jobs|
      modifies this
      ensures multiset(jobs) == multiset(old(jobs)) - multiset{old(jobs)[k]} && reserved == old(reserved)
      ensures old(jobs)[k] !in futures && forall id :: id != old(jobs)[k] ==> (id in futures <==> id in old(futures))
      ensures Bounded(old(View())) ==> Bounded(View())
      ensures Tracked(old(View())) ==> Tracked(View()) && |futures| == |old(futures)| - 1
      ensures View() == FinishJob(old(View()), k)
    {
      FinishFrees(View(), k);
      futures := futures - {jobs[k]};
      jobs := jobs[..k] + jobs[k + 1..];
    }
  }

  class Reservation {
    const runner: JobRunner
    const count: int
    var submitted: bool
    var released: bool

    constructor (runner: JobRunner, count: int)
      ensures this.runner == runner && AsTicket() == Ticket(count, false, false)
    {
      this.runner := runner;
      this.count := count;
      submitted := false;
      released := false;
    }

    function AsTicket(): Ticket
      reads this
    {
      Ticket(count, submitted, released)
    }

    method Submit(ids: seq<RunId>, accepts: nat) returns (error: Option<QueueError>)
      modifies this, runner
      ensures SubmitTicket(System(old(runner.View()), [old(AsTicket())]), 0, ids, accepts) ==
                (System(runner.View(), [AsTicket()]), error)
    {
      if submitted || released { return Some(Inactive); }
      if |ids| != count { return Some(CountMismatch); }
      error := runner.SubmitReserved(ids, accepts);
      if error.None? {
        submitted := true;
        assert [old(AsTicket())][0 := AsTicket()] == [AsTicket()];
      }
    }

    method Release()
      modifies this, runner
      ensures ReleaseTicket(System(old(runner.View()), [old(AsTicket())]), 0) == System(runner.View(), [AsTicket()])
    {
      if !submitted && !released {
        runner.ReleaseReservation(count);
        released := true;
        assert [old(AsTicket())][0 := AsTicket()] == [AsTicket()];
      }
    }
  }
}

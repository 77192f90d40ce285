/** Worker leases (backend/monitoring/repository.py and leases.py): one row per task, claimed, renewed,
    released and swept by conditional updates. Each call is one atomic step on its row. */
module Leases {
  import opened Common

  type Token = nat

  datatype Status = ACTIVE | RELEASED | EXPIRED | FAILED

  datatype Row = Row(owner: Token, acquiredAt: int, heartbeatAt: int, expiresAt: int, status: Status)

  datatype Call =
    | Acquire(token: Token, ttl: nat)
    | Heartbeat(token: Token, ttl: nat)
    | Release(token: Token, failed: bool)
    | Sweep

  /** Leases last between 5 seconds and an hour; other lengths are refused before any update. */
  predicate ValidTtl(ttl: nat) { 5 <= ttl <= 3600 }

  /** INSERT ... ON CONFLICT DO UPDATE WHERE same owner, expired or not active. */
  function AcquireRow(row: Option<Row>, token: Token, ttl: nat, now: int): Option<Row> {
    if !ValidTtl(ttl) then None
    else if row.None? then Some(Row(token, now, now, now + ttl, ACTIVE))
    else
      var r := row.value;
      if r.owner == token || r.expiresAt <= now || r.status != ACTIVE
      then Some(Row(token, if r.owner == token then r.acquiredAt else now, now, now + ttl, ACTIVE))
      else None
  }

  /** UPDATE ... WHERE this owner, active and not expired. */
  function HeartbeatRow(row: Option<Row>, token: Token, ttl: nat, now: int): Option<Row> {
    if ValidTtl(ttl) && row.Some? && row.value.owner == token && row.value.status == ACTIVE && row.value.expiresAt > now
    then Some(row.value.(heartbeatAt := now, expiresAt := now + ttl))
    else None
  }

  function ReleaseRow(row: Option<Row>, token: Token, failed: bool): Option<Row> {
    if row.Some? && row.value.owner == token && row.value.status == ACTIVE
    then Some(row.value.(status := if failed then FAILED else RELEASED))
    else row
  }

  function SweepRow(row: Option<Row>, now: int): Option<Row> {
    if row.Some? && row.value.status == ACTIVE && row.value.expiresAt <= now
    then Some(row.value.(status := EXPIRED))
    else row
  }

  // ---- runs of calls on one task -------------------------------------------------------------------

  datatype Event = Event(at: int, call: Call)

  /** The row the call is granted, if it grants a lease. */
  function Grant(row: Option<Row>, e: Event): Option<Row> {
    match e.call
    case Acquire(token, ttl) => AcquireRow(row, token, ttl, e.at)
    case Heartbeat(token, ttl) => HeartbeatRow(row, token, ttl, e.at)
    case Release(_, _) => None
    case Sweep => None
  }

  function Step(row: Option<Row>, e: Event): Option<Row> {
    match e.call
    case Release(token, failed) => ReleaseRow(row, token, failed)
    case Sweep => SweepRow(row, e.at)
    case _ => if Grant(row, e).Some? then Grant(row, e) else row
  }

  function RowAfter(events: seq<Event>): Option<Row> {
    if events == [] then None else Step(RowAfter(events[..|events| - 1]), events[|events| - 1])
  }

  /** The lease the i-th call was granted. */
  ghost function Granted(events: seq<Event>, i: nat): Option<Row>
    requires i < |events|
  {
    Grant(RowAfter(events[..i]), events[i])
  }

  /** A call made by the holder of this token. */
  predicate Own(e: Event, token: Token) { !e.call.Sweep? && e.call.token == token }

  ghost predicate OneClock(events: seq<Event>) {
    forall i, j :: 0 <= i < j < |events| ==> events[i].at <= events[j].at
  }

  /** From i to j this token was granted nothing and released nothing; calls of its own that were refused
      do not count. */
  ghost predicate Silent(events: seq<Event>, token: Token, i: nat, j: nat)
    requires i <= j <= |events|
  {
    forall k :: i <= k < j && Own(events[k], token) ==> Granted(events, k).None? && !events[k].call.Release?
  }

  lemma RowAfterNext(events: seq<Event>, i: nat)
    requires i < |events|
    ensures RowAfter(events[..i + 1]) == Step(RowAfter(events[..i]), events[i])
  {
    assert events[..i + 1][..i] == events[..i];
  }

  /** No call of anyone else ends, shortens or takes over an unexpired lease: late and doubled
      releases included. */
  lemma OthersLeaveItAlone(row: Row, e: Event)
    requires row.status == ACTIVE && e.at < row.expiresAt && !Own(e, row.owner)
    ensures Step(Some(row), e) == Some(row) && Grant(Some(row), e).None?
  {}

  /** A call that is refused leaves the row alone, whoever makes it. */
  lemma RefusedLeavesItAlone(row: Row, e: Event)
    requires Grant(Some(row), e).None? && !e.call.Release? && !e.call.Sweep?
    ensures Step(Some(row), e) == Some(row)
  {}

  /** A granted lease stands, unchanged, until it expires or its owner renews or releases it. */
  lemma {:induction false} LeaseStands(events: seq<Event>, i: nat, j: nat)
    requires i < j <= |events| && Granted(events, i).Some?
    requires Silent(events, events[i].call.token, i + 1, j)
    requires forall k :: i < k < j ==> events[k].at < Granted(events, i).value.expiresAt
    ensures RowAfter(events[..j]) == Granted(events, i)
    ensures Granted(events, i).value.status == ACTIVE && Granted(events, i).value.owner == events[i].call.token
    decreases j
  {
    hide AcquireRow, HeartbeatRow;
    RowAfterNext(events, j - 1);
    GrantIsActive(RowAfter(events[..i]), events[i]);
    if j > i + 1 {
      LeaseStands(events, i, j - 1);
      var lease, e := Granted(events, i).value, events[j - 1];
      if Own(e, lease.owner) { RefusedLeavesItAlone(lease, e); } else { OthersLeaveItAlone(lease, e); }
    }
  }

  lemma GrantIsActive(row: Option<Row>, e: Event)
    requires Grant(row, e).Some?
    ensures var r := Grant(row, e).value;
            r.status == ACTIVE && r.owner == e.call.token && r.expiresAt == e.at + e.call.ttl && r.heartbeatAt == e.at
    ensures Step(row, e) == Grant(row, e)
  {}

  /** Exclusivity: on one non-decreasing clock, when a token holds a grant and has neither renewed nor released
      it since, no other token is granted anything before that grant's expiry. Grants of different owners,
      each ending at its expiry or at its owner's next grant or release, never overlap. */
  lemma LeasesAreExclusive(events: seq<Event>, i: nat, j: nat)
    requires OneClock(events) && i < j < |events|
    requires Granted(events, i).Some? && Granted(events, j).Some? && events[i].call.token != events[j].call.token
    requires Silent(events, events[i].call.token, i + 1, j)
    ensures events[j].at >= events[i].at + events[i].call.ttl
  {
    hide Grant, RowAfter;
    GrantIsActive(RowAfter(events[..i]), events[i]);
    GrantIsActive(RowAfter(events[..j]), events[j]);
    var lease := Granted(events, i).value;
    if events[j].at < lease.expiresAt {
      LeaseStands(events, i, j);
      OthersLeaveItAlone(lease, events[j]);
    }
  }

  /** Behind every active row there is a grant to its owner, with that expiry, after which its owner
      neither released it nor was anyone granted anything. */
  lemma {:induction false} GrantBehind(events: seq<Event>, n: nat) returns (i: nat)
    requires n <= |events| && RowAfter(events[..n]).Some? && RowAfter(events[..n]).value.status == ACTIVE
    ensures i < n && Granted(events, i) == RowAfter(events[..n])
    ensures forall k :: i < k < n ==> Granted(events, k).None?
    ensures forall k :: i < k < n ==> !(events[k].call.Release? && events[k].call.token == events[i].call.token)
  {
    hide AcquireRow, HeartbeatRow;
    assert events[..0] == [];
    RowAfterNext(events, n - 1);
    var before, e := RowAfter(events[..n - 1]), events[n - 1];
    if Grant(before, e).Some? {
      i := n - 1;
      GrantIsActive(before, e);
    } else {
      assert before == RowAfter(events[..n]);
      i := GrantBehind(events, n - 1);
      GrantIsActive(RowAfter(events[..i]), events[i]);
    }
  }

  /** A heartbeat only renews a lease that is still running: the latest grant was to the same token,
      has not been released and has not expired. Once expired, only a new claim revives it. */
  lemma HeartbeatRenewsLive(events: seq<Event>, j: nat) returns (i: nat)
    requires j < |events| && events[j].call.Heartbeat? && Granted(events, j).Some?
    ensures i < j && Granted(events, i).Some? && events[i].call.token == events[j].call.token
    ensures events[j].at < events[i].at + events[i].call.ttl
    ensures forall k :: i < k < j ==> Granted(events, k).None?
  {
    i := GrantBehind(events, j);
    GrantIsActive(RowAfter(events[..i]), events[i]);
  }

  /** And every such lease can be renewed: a heartbeat of an allowed length from the token of an unexpired,
      unreleased grant is granted, and moves the expiry to its own length from then. */
  lemma LiveLeaseIsRenewed(events: seq<Event>, i: nat, j: nat)
    requires i < j < |events| && Granted(events, i).Some? && Silent(events, events[i].call.token, i + 1, j)
    requires forall k :: i < k <= j ==> events[k].at < Granted(events, i).value.expiresAt
    requires events[j].call.Heartbeat? && events[j].call.token == events[i].call.token
    requires 5 <= events[j].call.ttl <= 3600
    ensures Granted(events, j).Some?
    ensures var lease, renewed := Granted(events, i).value, Granted(events, j).value;
            && renewed.owner == lease.owner && renewed.status == ACTIVE && renewed.acquiredAt == lease.acquiredAt
            && renewed.heartbeatAt == events[j].at && renewed.expiresAt == events[j].at + events[j].call.ttl
            && RowAfter(events[..j + 1]) == Some(renewed)
  {
    hide AcquireRow, Silent;
    LeaseStands(events, i, j);
    RowAfterNext(events, j);
  }

  // ---- guards and groups --------------------------------------------------------------------------

  function Lookup(rows: map<string, Row>, key: string): Option<Row> { if key in rows then Some(rows[key]) else None }

  function Store(rows: map<string, Row>, key: string, row: Option<Row>): map<string, Row> {
    if row.Some? then rows[key := row.value] else rows
  }

  predicate Holds(rows: map<string, Row>, key: string, token: Token) {
    key in rows && rows[key].status == ACTIVE && rows[key].owner == token
  }

  class Repository {
    var rows: map<string, Row>

    /** Granted exactly when the length is allowed and the row is free, the caller's own, expired or no longer
        active; then the caller holds it, active, until now + ttl. A refusal changes nothing, and no other
        task's row is touched. */
    method AcquireLease(key: string, token: Token, ttl: nat, now: int) returns (granted: bool)
      modifies this
      ensures granted <==>
                && 5 <= ttl <= 3600
                && (key in old(rows) ==>
                      var r := old(rows)[key]; r.owner == token || r.expiresAt <= now || r.status != ACTIVE)
      ensures granted ==>
                && Holds(rows, key, token) && rows[key].expiresAt == now + ttl && rows[key].heartbeatAt == now
                && rows[key].acquiredAt ==
                     (if key in old(rows) && old(rows)[key].owner == token then old(rows)[key].acquiredAt else now)
      ensures forall k :: k != key ==> Lookup(rows, k) == Lookup(old(rows), k)
      ensures !granted ==> rows == old(rows)
      ensures granted == AcquireRow(Lookup(old(rows), key), token, ttl, now).Some?
      ensures rows == Store(old(rows), key, AcquireRow(Lookup(old(rows), key), token, ttl, now))
    {
      if !ValidTtl(ttl) { return false; }
      if key !in rows {
        rows := rows[key := Row(token, now, now, now + ttl, ACTIVE)];
        return true;
      }
      var r := rows[key];
      if r.owner != token && r.expiresAt > now && r.status == ACTIVE { return false; }
      rows := rows[key := Row(token, if r.owner == token then r.acquiredAt else now, now, now + ttl, ACTIVE)];
      granted := true;
    }

    /** Renews the caller's own lease exactly when it is active and has not expired; nothing else changes. */
    method Heartbeat(key: string, token: Token, ttl: nat, now: int) returns (renewed: bool)
      modifies this
      ensures renewed <==> 5 <= ttl <= 3600 && Holds(old(rows), key, token) && old(rows)[key].expiresAt > now
      ensures renewed ==> rows == old(rows)[key := old(rows)[key].(heartbeatAt := now, expiresAt := now + ttl)]
      ensures !renewed ==> rows == old(rows)
      ensures rows == Store(old(rows), key, HeartbeatRow(Lookup(old(rows), key), token, ttl, now))
    {
      if !ValidTtl(ttl) || key !in rows { return false; }
      var r := rows[key];
      if r.owner != token || r.status != ACTIVE || r.expiresAt <= now { return false; }
      rows := rows[key := r.(heartbeatAt := now, expiresAt := now + ttl)];
      renewed := true;
    }

    /** Every active row past its time becomes EXPIRED, and no other row changes: none that still runs. */
    method ExpireStaleLeases(now: int)
      modifies this
      ensures rows.Keys == old(rows).Keys
      ensures forall k :: k in rows ==>
                rows[k] == if old(rows)[k].status == ACTIVE && old(rows)[k].expiresAt <= now
                           then old(rows)[k].(status := EXPIRED) else old(rows)[k]
      ensures forall k :: Lookup(rows, k) == SweepRow(Lookup(old(rows), k), now)
    {
      rows := map k | k in rows ::
                if rows[k].status == ACTIVE && rows[k].expiresAt <= now then rows[k].(status := EXPIRED) else rows[k];
    }

    /** Ends the caller's own active lease, and only that: whoever else holds the row keeps it. */
    method ReleaseLease(key: string, token: Token, failed: bool)
      modifies this
      ensures !Holds(rows, key, token)
      ensures Holds(old(rows), key, token) ==>
                key in rows && rows[key] == old(rows)[key].(status := if failed then FAILED else RELEASED)
      ensures !Holds(old(rows), key, token) ==> rows == old(rows)
      ensures forall k :: k != key ==> Lookup(rows, k) == Lookup(old(rows), k)
      ensures rows == Store(old(rows), key, ReleaseRow(Lookup(old(rows), key), token, failed))
    {
      if key in rows && rows[key].owner == token && rows[key].status == ACTIVE {
        rows := rows[key := rows[key].(status := if failed then FAILED else RELEASED)];
      }
    }
  }

  ghost predicate Running(rows: map<string, Row>, key: string, now: int) {
    key in rows && rows[key].status == ACTIVE && rows[key].expiresAt > now
  }

  datatype Guard = Guard(key: string, token: Token, ttl: nat, acquired: bool)

  ghost predicate NoneHeld(rows: map<string, Row>, guards: seq<Guard>) {
    forall i, k :: 0 <= i < |guards| ==> !Holds(rows, k, guards[i].token)
  }

  /** The guard's row is its own, active and unexpired. */
  ghost predicate HeldAt(rows: map<string, Row>, g: Guard, now: int) {
    Holds(rows, g.key, g.token) && rows[g.key].expiresAt > now
  }

  /** One of the first n guards has this token and key and was granted its lease. */
  ghost predicate Claimed(guards: seq<Guard>, n: nat, key: string, token: Token)
    requires n <= |guards|
  {
    exists m :: 0 <= m < n && guards[m].key == key && guards[m].token == token && guards[m].acquired
  }

  /** Whatever a token of the group holds was claimed by one of its first n guards. */
  ghost predicate OnlyClaimed(rows: map<string, Row>, guards: seq<Guard>, n: nat)
    requires n <= |guards|
  {
    forall i, k :: 0 <= i < |guards| && Holds(rows, k, guards[i].token) ==> Claimed(guards, n, k, guards[i].token)
  }

  /** Every row that runs at this moment is as it was. */
  ghost predicate Spares(before: map<string, Row>, after: map<string, Row>, now: int) {
    forall k :: Running(before, k, now) ==> k in after && after[k] == before[k]
  }

  lemma ClaimStep(rows: map<string, Row>, guards: seq<Guard>, n: nat, now: int)
    requires n < |guards| && OnlyClaimed(rows, guards, n)
    ensures var row := AcquireRow(Lookup(rows, guards[n].key), guards[n].token, guards[n].ttl, now);
            var after := guards[n := guards[n].(acquired := row.Some?)];
            OnlyClaimed(Store(rows, guards[n].key, row), after, n + 1)
  {
    var g := guards[n];
    var row := AcquireRow(Lookup(rows, g.key), g.token, g.ttl, now);
    var next, after := Store(rows, g.key, row), guards[n := g.(acquired := row.Some?)];
    forall i, k | 0 <= i < |after| && Holds(next, k, after[i].token) ensures Claimed(after, n + 1, k, after[i].token) {
      if row.Some? && k == g.key {
        assert after[n].key == k && after[n].token == after[i].token;
      } else {
        assert Holds(rows, k, guards[i].token);
        var m :| 0 <= m < n && guards[m].key == k && guards[m].token == guards[i].token && guards[m].acquired;
        assert after[m] == guards[m];
      }
    }
  }

  /** A claim of the group takes no lease from a guard that holds one. */
  lemma ClaimKeepsHeld(rows: map<string, Row>, h: Guard, g: Guard, now: int)
    requires HeldAt(rows, h, now)
    ensures HeldAt(Store(rows, g.key, AcquireRow(Lookup(rows, g.key), g.token, g.ttl, now)), h, now)
  {}

  lemma ClaimSpares(start: map<string, Row>, rows: map<string, Row>, g: Guard, guards: seq<Guard>, now: int)
    requires Spares(start, rows, now) && g in guards && NoneHeld(start, guards)
    ensures Spares(start, Store(rows, g.key, AcquireRow(Lookup(rows, g.key), g.token, g.ttl, now)), now)
  {
    var i :| 0 <= i < |guards| && guards[i] == g;
    assert !Holds(start, g.key, guards[i].token);
  }

  lemma SparesItself(rows: map<string, Row>, now: int)
    ensures Spares(rows, rows, now)
  {}

  /** A group of guards entered together: all leases or none. */
  class LeaseGroup {
    var guards: seq<Guard>
    var acquired: bool
    const repository: Repository

    constructor (repository: Repository, guards: seq<Guard>)
      ensures this.repository == repository && this.guards == guards && !acquired
    {
      this.repository := repository;
      this.guards := guards;
      acquired := false;
    }

    /** Releases, last first, the leases of the first n guards that are marked acquired: none of them is
        held afterwards, nobody gains a lease, and rows they did not hold are untouched. */
    method ReleaseFirst(n: nat, failed: bool)
      requires n <= |guards|
      modifies repository
      ensures forall i :: 0 <= i < n && guards[i].acquired ==> !Holds(repository.rows, guards[i].key, guards[i].token)
      ensures forall k, t :: Holds(repository.rows, k, t) ==> Holds(old(repository.rows), k, t)
      ensures forall k :: k in old(repository.rows) && !Claimed(guards, n, k, old(repository.rows)[k].owner) ==>
                k in repository.rows && repository.rows[k] == old(repository.rows)[k]
    {
      var i := n;
      while i > 0
        invariant 0 <= i <= n
        invariant forall j :: i <= j < n && guards[j].acquired ==>
                    !Holds(repository.rows, guards[j].key, guards[j].token)
        invariant forall k, t :: Holds(repository.rows, k, t) ==> Holds(old(repository.rows), k, t)
        invariant forall k :: k in old(repository.rows) ==>
                    k in repository.rows && repository.rows[k].owner == old(repository.rows)[k].owner
        invariant forall k :: k in old(repository.rows) && !Claimed(guards, n, k, old(repository.rows)[k].owner) ==>
                    k in repository.rows && repository.rows[k] == old(repository.rows)[k]
      {
        i := i - 1;
        if guards[i].acquired {
          repository.ReleaseLease(guards[i].key, guards[i].token, failed);
          assert Claimed(guards, n, guards[i].key, guards[i].token);
        }
      }
    }

    /** `__enter__`: claim in order; the first refusal rolls everything back. Tokens are fresh. The
        group ends with all its leases or with none, and never disturbs a running lease. */
    method Enter(now: int)
      requires NoneHeld(repository.rows, guards)
      modifies this, repository
      ensures |guards| == |old(guards)|
      ensures forall i :: 0 <= i < |guards| ==> guards[i] == old(guards)[i].(acquired := guards[i].acquired)
      ensures acquired ==> forall i :: 0 <= i < |guards| ==>
                guards[i].acquired && HeldAt(repository.rows, guards[i], now)
      ensures !acquired ==> NoneHeld(repository.rows, guards)
      ensures Spares(old(repository.rows), repository.rows, now)
    {
      hide AcquireRow, Running, Store;
      ghost var start := repository.rows;
      SparesItself(start, now);
      var i := 0;
      acquired := false;
      while i < |guards|
        invariant 0 <= i <= |guards| == |old(guards)| && !acquired
        invariant forall j :: 0 <= j < |guards| ==> guards[j] == old(guards)[j].(acquired := guards[j].acquired)
        invariant forall j :: 0 <= j < i ==> guards[j].acquired && HeldAt(repository.rows, guards[j], now)
        invariant OnlyClaimed(repository.rows, guards, i)
        invariant Spares(start, repository.rows, now)
      {
        var g := guards[i];
        ClaimStep(repository.rows, guards, i, now);
        NoneHeldSame(start, old(guards), guards);
        ClaimSpares(start, repository.rows, g, guards, now);
        forall j | 0 <= j < i
          ensures HeldAt(Store(repository.rows, g.key,
                    AcquireRow(Lookup(repository.rows, g.key), g.token, g.ttl, now)), guards[j], now)
        {
          ClaimKeepsHeld(repository.rows, guards[j], g, now);
        }
        var granted := repository.AcquireLease(g.key, g.token, g.ttl, now);
        guards := guards[i := g.(acquired := granted)];
        assert granted ==> HeldAt(repository.rows, guards[i], now);
        i := i + 1;
        if !granted {
          ghost var refused := repository.rows;
          ReleaseFirst(i, false);
          RolledBack(refused, repository.rows, guards, i);
          NoneHeldSame(start, old(guards), guards);
          RollbackSpares(start, refused, repository.rows, guards, i, now);
          return;
        }
      }
      acquired := true;
    }

    /** `__exit__`: release whatever is marked acquired. A second exit finds nothing to release and
        changes no row. */
    method Exit(failed: bool)
      modifies this, repository
      ensures guards == old(guards) && !acquired
      ensures forall i :: 0 <= i < |guards| && guards[i].acquired ==>
                !Holds(repository.rows, guards[i].key, guards[i].token)
      ensures forall k, t :: Holds(repository.rows, k, t) ==> Holds(old(repository.rows), k, t)
      ensures forall k :: k in old(repository.rows) && !Claimed(guards, |guards|, k, old(repository.rows)[k].owner) ==>
                k in repository.rows && repository.rows[k] == old(repository.rows)[k]
    {
      ReleaseFirst(|guards|, failed);
      acquired := false;
    }
  }

  lemma NoneHeldSame(rows: map<string, Row>, a: seq<Guard>, b: seq<Guard>)
    requires NoneHeld(rows, a) && |a| == |b| && forall i :: 0 <= i < |a| ==> b[i] == a[i].(acquired := b[i].acquired)
    ensures NoneHeld(rows, b)
  {
    forall i, k | 0 <= i < |b| ensures !Holds(rows, k, b[i].token) {
      assert b[i].token == a[i].token;
    }
  }

  lemma RolledBack(before: map<string, Row>, after: map<string, Row>, guards: seq<Guard>, n: nat)
    requires n <= |guards| && OnlyClaimed(before, guards, n)
    requires forall i :: 0 <= i < n && guards[i].acquired ==> !Holds(after, guards[i].key, guards[i].token)
    requires forall k, t :: Holds(after, k, t) ==> Holds(before, k, t)
    ensures NoneHeld(after, guards)
  {
    forall i, k | 0 <= i < |guards| ensures !Holds(after, k, guards[i].token) {
      if Holds(before, k, guards[i].token) {
        var m :| 0 <= m < n && guards[m].key == k && guards[m].token == guards[i].token && guards[m].acquired;
      }
    }
  }

  lemma RollbackSpares(
    start: map<string, Row>, before: map<string, Row>, after: map<string, Row>, guards: seq<Guard>, n: nat, now: int)
    requires n <= |guards| && NoneHeld(start, guards) && Spares(start, before, now)
    requires forall k :: k in before && !Claimed(guards, n, k, before[k].owner) ==> k in after && after[k] == before[k]
    ensures Spares(start, after, now)
  {
    forall k | Running(start, k, now) ensures k in after && after[k] == start[k] {
      assert before[k] == start[k];
      assert !Claimed(guards, n, k, before[k].owner) by {
        if Claimed(guards, n, k, before[k].owner) {
          var m :| 0 <= m < n && guards[m].key == k && guards[m].token == before[k].owner && guards[m].acquired;
          assert Holds(start, k, guards[m].token);
        }
      }
    }
  }
}

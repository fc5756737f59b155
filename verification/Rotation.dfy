/** Round-robin host choice: pickRotationHost and leastLoadedHost of
    internal/booking/service.go, and what "even" rotation achieves over many bookings. */
module Rotation {

  type HostId = string

  /** A host with no row in the count query has load 0. */
  function Load(load: map<HostId, nat>, h: HostId): (n: nat) {
    if h in load then load[h] else 0
  }

  /** The candidate at i is the earliest of the least-loaded ones. */
  ghost predicate EarliestLeast(load: map<HostId, nat>, candidates: seq<HostId>, i: int) {
    && 0 <= i < |candidates|
    && (forall j :: 0 <= j < |candidates| ==> Load(load, candidates[i]) <= Load(load, candidates[j]))
    && (forall j :: 0 <= j < i ==> Load(load, candidates[i]) < Load(load, candidates[j]))
  }

  function LeastIndex(load: map<HostId, nat>, candidates: seq<HostId>): (i: nat)
    requires candidates != []
    ensures i < |candidates|
  {
    var n := |candidates| - 1;
    if n == 0 then 0
    else
      var i := LeastIndex(load, candidates[..n]);
      if Load(load, candidates[n]) < Load(load, candidates[i]) then n else i
  }

  function LeastLoaded(load: map<HostId, nat>, candidates: seq<HostId>): (h: HostId)
    requires candidates != []
    ensures h in candidates
  {
    candidates[LeastIndex(load, candidates)]
  }

  lemma {:induction false} LeastIndexIsEarliestLeast(load: map<HostId, nat>, candidates: seq<HostId>)
    requires candidates != []
    ensures EarliestLeast(load, candidates, LeastIndex(load, candidates))
  {
    var n := |candidates| - 1;
    if n > 0 {
      LeastIndexIsEarliestLeast(load, candidates[..n]);
      assert forall j :: 0 <= j < n ==> candidates[..n][j] == candidates[j];
    }
  }

  /** There is only one earliest least-loaded candidate. */
  lemma EarliestLeastUnique(load: map<HostId, nat>, candidates: seq<HostId>, i: int)
    requires EarliestLeast(load, candidates, i)
    ensures candidates[i] == LeastLoaded(load, candidates)
  {
    LeastIndexIsEarliestLeast(load, candidates);
    assert i == LeastIndex(load, candidates);
  }

  function PickRotationHost(load: map<HostId, nat>, priority: bool, free: seq<HostId>): (h: HostId)
    requires free != []
    ensures h in free
  {
    if priority then free[0] else LeastLoaded(load, free)
  }

  /** "priority" takes the first free host, every other strategy the earliest least-loaded. */
  lemma {:induction false} PickIsFirstOrLeast(load: map<HostId, nat>, priority: bool, free: seq<HostId>)
    requires free != []
    ensures priority ==> PickRotationHost(load, priority, free) == free[0]
    ensures !priority ==> exists i ::
      EarliestLeast(load, free, i) && free[i] == PickRotationHost(load, priority, free)
  {
    LeastIndexIsEarliestLeast(load, free);
  }

  /** The scan of leastLoadedHost over the loads the count query returned. */
  method LeastLoadedHost(load: map<HostId, nat>, candidates: seq<HostId>) returns (best: HostId)
    requires candidates != []
    ensures best == LeastLoaded(load, candidates)
  {
    best := candidates[0];
    var bestN := Load(load, best);
    for i := 1 to |candidates|
      invariant best == LeastLoaded(load, candidates[..i]) && bestN == Load(load, best)
    {
      var c := candidates[i];
      assert candidates[..i + 1][..i] == candidates[..i];
      if Load(load, c) < bestN {
        bestN := Load(load, c);
        best := c;
      }
    }
    assert candidates[..|candidates|] == candidates;
  }

  // ---------------------------------------------------------------- balance

  ghost predicate Distinct(pool: seq<HostId>) {
    forall i, j :: 0 <= i < j < |pool| ==> pool[i] != pool[j]
  }

  function Total(load: map<HostId, nat>, pool: seq<HostId>): (n: nat) {
    if pool == [] then 0 else Load(load, pool[0]) + Total(load, pool[1..])
  }

  /** No host of the pool is more than one booking ahead of another. */
  ghost predicate Even(load: map<HostId, nat>, pool: seq<HostId>) {
    forall i, j :: 0 <= i < |pool| && 0 <= j < |pool| ==>
      Load(load, pool[i]) <= Load(load, pool[j]) + 1
  }

  /** The loads after one more booking of an event type, everyone in the pool being free. */
  function Book(load: map<HostId, nat>, pool: seq<HostId>): (load': map<HostId, nat>)
    requires pool != []
  {
    var h := LeastLoaded(load, pool);
    load[h := Load(load, h) + 1]
  }

  function BookMany(pool: seq<HostId>, k: nat): (load: map<HostId, nat>)
    requires pool != []
  {
    if k == 0 then map[] else Book(BookMany(pool, k - 1), pool)
  }

  lemma {:induction false} TotalOfUpdate(load: map<HostId, nat>, pool: seq<HostId>, h: HostId)
    requires Distinct(pool)
    ensures Total(load[h := Load(load, h) + 1], pool)
         == Total(load, pool) + (if h in pool then 1 else 0)
  {
    if pool != [] {
      TotalOfUpdate(load, pool[1..], h);
      if h == pool[0] {
        assert h !in pool[1..];
      }
    }
  }

  lemma {:induction false} TotalOfNothing(pool: seq<HostId>)
    ensures Total(map[], pool) == 0
  {
    if pool != [] { TotalOfNothing(pool[1..]); }
  }

  lemma {:induction false} EvenStep(load: map<HostId, nat>, pool: seq<HostId>)
    requires pool != [] && Even(load, pool)
    ensures Even(Book(load, pool), pool)
  {
    var least := LeastIndex(load, pool);
    LeastIndexIsEarliestLeast(load, pool);
    forall i, j | 0 <= i < |pool| && 0 <= j < |pool|
      ensures Load(Book(load, pool), pool[i]) <= Load(Book(load, pool), pool[j]) + 1
    {
      assert Load(load, pool[least]) <= Load(load, pool[j]);
      assert Load(load, pool[i]) <= Load(load, pool[j]) + 1;
    }
  }

  lemma {:induction false} TotalStep(load: map<HostId, nat>, pool: seq<HostId>)
    requires pool != [] && Distinct(pool)
    ensures Total(Book(load, pool), pool) == Total(load, pool) + 1
  {
    TotalOfUpdate(load, pool, LeastLoaded(load, pool));
  }

  ghost predicate Balanced(load: map<HostId, nat>, pool: seq<HostId>, k: nat) {
    Total(load, pool) == k && Even(load, pool)
  }

  lemma {:induction false} BalancedStep(load: map<HostId, nat>, pool: seq<HostId>, k: nat)
    requires pool != [] && Distinct(pool) && Balanced(load, pool, k)
    ensures Balanced(Book(load, pool), pool, k + 1)
  {
    TotalStep(load, pool);
    EvenStep(load, pool);
  }

  /** After any k bookings the loads add up to k and differ by at most one. */
  lemma {:induction false} EvenRotation(pool: seq<HostId>, k: nat)
    requires pool != [] && Distinct(pool)
    ensures Balanced(BookMany(pool, k), pool, k)
  {
    if k == 0 {
      TotalOfNothing(pool);
    } else {
      EvenRotation(pool, k - 1);
      BalancedStep(BookMany(pool, k - 1), pool, k - 1);
    }
  }

  // ---------------------------------------------- the same, over the stored bookings

  /** The hosts of the first k bookings, each chosen from what the earlier ones left. */
  function Assignments(pool: seq<HostId>, k: nat): (rows: seq<HostId>)
    requires pool != []
  {
    if k == 0 then []
    else
      var rows := Assignments(pool, k - 1);
      rows + [LeastLoaded(Loads(rows), pool)]
  }

  /** The grouped count over the stored bookings. */
  function Loads(rows: seq<HostId>): (load: map<HostId, nat>)
  {
    if rows == [] then map[]
    else
      var n := |rows| - 1;
      var load := Loads(rows[..n]);
      load[rows[n] := Load(load, rows[n]) + 1]
  }

  lemma {:induction false} LoadsCount(rows: seq<HostId>, h: HostId)
    ensures Load(Loads(rows), h) == multiset(rows)[h]
  {
    if rows != [] {
      var n := |rows| - 1;
      LoadsCount(rows[..n], h);
      assert rows == rows[..n] + [rows[n]];
    }
  }

  lemma {:induction false} LoadsSnoc(rows: seq<HostId>, h: HostId)
    ensures Loads(rows + [h]) == Loads(rows)[h := Load(Loads(rows), h) + 1]
  {
    assert (rows + [h])[..|rows|] == rows;
  }

  lemma {:induction false} AssignmentsAreBookMany(pool: seq<HostId>, k: nat)
    requires pool != []
    ensures |Assignments(pool, k)| == k && Loads(Assignments(pool, k)) == BookMany(pool, k)
  {
    if k > 0 {
      AssignmentsAreBookMany(pool, k - 1);
      var rows := Assignments(pool, k - 1);
      LoadsSnoc(rows, LeastLoaded(Loads(rows), pool));
    }
  }

  /** However many bookings are made, no host of the pool has two more than another. */
  lemma {:induction false} NoHostGetsAhead(pool: seq<HostId>, k: nat, a: HostId, b: HostId)
    requires pool != [] && Distinct(pool) && a in pool && b in pool
    ensures |Assignments(pool, k)| == k
    ensures multiset(Assignments(pool, k))[a] <= multiset(Assignments(pool, k))[b] + 1
  {
    AssignmentsAreBookMany(pool, k);
    EvenRotation(pool, k);
    var i :| 0 <= i < |pool| && pool[i] == a;
    var j :| 0 <= j < |pool| && pool[j] == b;
    LoadsCount(Assignments(pool, k), a);
    LoadsCount(Assignments(pool, k), b);
    assert Load(BookMany(pool, k), pool[i]) <= Load(BookMany(pool, k), pool[j]) + 1;
  }
}

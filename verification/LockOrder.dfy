/** Waiting for locks in the booking protocol. lockHosts takes its keys in increasing
    order, so transactions that call it once cannot wait in a circle; Reschedule calls it
    twice, and only its second call can close one. */
module LockOrder {
  import opened HostLock
  import opened BookingProtocol

  /** t cannot go on until u ends: u holds the next advisory key of t, or has written the
      row t is about to update. */
  ghost predicate Waits(s: State, t: TxId, u: TxId) {
    && t in s.txs && u in s.txs && t != u
    && (WaitsForKey(s.txs[t], s.txs[u]) || WaitsForRow(s.txs[t], s.txs[u]))
  }

  ghost predicate WaitsForKey(tx: Tx, ux: Tx) {
    tx.pc.Locking? && tx.pc.todo != [] && tx.pc.todo[0] in ux.held
  }

  ghost predicate WaitsForRow(tx: Tx, ux: Tx) {
    tx.pc.Writing? && !tx.op.Create? && ux.pc == Written(tx.op.id)
  }

  ghost predicate AwaitsKey(tx: Tx) {
    tx.pc.Locking? && tx.pc.todo != []
  }

  ghost function NextKey(tx: Tx): (key: int) {
    if AwaitsKey(tx) then tx.pc.todo[0] else 0
  }

  ghost predicate SecondCall(tx: Tx) {
    tx.op.Reschedule? && tx.pc.Locking? && tx.pc.second
  }

  ghost predicate WaitChain(s: State, p: seq<TxId>) {
    |p| >= 2 && forall i :: 0 <= i < |p| - 1 ==> Waits(s, p[i], p[i + 1])
  }

  ghost predicate WaitCycle(s: State, p: seq<TxId>) {
    WaitChain(s, p) && p[0] == p[|p| - 1]
  }

  // ---------------------------------------------------------------- the lock order

  ghost predicate Ordered(db: map<BookingId, Booking>, tx: Tx) {
    && (tx.pc.Started? ==> tx.held == {} && !tx.op.Create?)
    && (tx.pc.Keying? && !tx.pc.second ==> tx.held == {})
    && (tx.pc.Locking? ==> Increasing(tx.pc.todo))
    && (tx.pc.Locking? && !tx.pc.second ==> Below(tx.held, tx.pc.todo))
    && ((tx.pc.Keying? && tx.pc.second) || (tx.pc.Locking? && tx.pc.second) || tx.pc.ReadingSeats? ==>
          tx.op.Reschedule?)
    && (!tx.op.Create? && !tx.pc.Started? ==> tx.op.id in db)
  }

  /** Every key held is smaller than every key still to be taken. */
  ghost predicate Below(held: set<int>, todo: seq<int>) {
    forall x, i :: x in held && 0 <= i < |todo| ==> x < todo[i]
  }

  ghost predicate AllOrdered(s: State) {
    forall t :: t in s.txs ==> Ordered(s.db, s.txs[t])
  }

  lemma OrderedWriteStep(k: Keys, s: State, step: Step)
    requires AllOrdered(s) && Enabled(k, s, step)
    requires step.Check? || step.Advance? || step.Write? ||
             step.Commit? || step.Abort? || step.Cancel? || step.SetCalendars?
    ensures AllOrdered(Apply(k, s, step))
  {
  }

  lemma OrderedStep(k: Keys, s: State, step: Step)
    requires AllOrdered(s) && Enabled(k, s, step)
    ensures AllOrdered(Apply(k, s, step))
  {
    if step.Check? || step.Advance? || step.Write? || step.Commit? || step.Abort? || step.Cancel? ||
       step.SetCalendars? {
      OrderedWriteStep(k, s, step);
    }
  }

  lemma {:induction false} OrderedRun(k: Keys, s: State, run: seq<Step>)
    requires AllOrdered(s) && IsRun(k, s, run)
    ensures AllOrdered(After(k, s, run))
    decreases |run|
  {
    if run != [] {
      OrderedStep(k, s, run[0]);
      OrderedRun(k, Apply(k, s, run[0]), run[1..]);
    }
  }

  // ---------------------------------------------------------------- no cycles

  /** In a cycle everyone waits, so nobody has written yet and every wait is for a key. */
  lemma CycleWaitsForKeys(s: State, p: seq<TxId>, i: nat)
    requires WaitCycle(s, p) && i < |p| - 1
    ensures p[i] in s.txs && p[i + 1] in s.txs && WaitsForKey(s.txs[p[i]], s.txs[p[i + 1]])
  {
    assert Waits(s, p[i], p[i + 1]);
    if i + 1 < |p| - 1 {
      assert Waits(s, p[i + 1], p[i + 2]);
    } else {
      assert Waits(s, p[0], p[1]);
    }
  }

  /** t waits for a key below one it already holds. */
  ghost predicate WaitsBelow(tx: Tx) {
    AwaitsKey(tx) && exists key :: key in tx.held && tx.pc.todo[0] < key
  }

  /** Keys that return to where they started do not grow at every step. */
  lemma {:induction false} StopsGrowing(keys: seq<int>, i: nat) returns (j: nat)
    requires 0 < i < |keys| && keys[i] <= keys[0]
    ensures j < i && keys[j + 1] <= keys[j]
  {
    j := i - 1;
    if keys[j] < keys[i] {
      j := StopsGrowing(keys, i - 1);
    }
  }

  /** v waits for t and t for u, and the key t waits for is below the one it keeps from v. */
  ghost predicate Descent(s: State, v: TxId, t: TxId, u: TxId) {
    && v in s.txs && t in s.txs && u in s.txs && v != t && t != u
    && WaitsForKey(s.txs[v], s.txs[t]) && WaitsForKey(s.txs[t], s.txs[u]) && AwaitsKey(s.txs[u])
    && NextKey(s.txs[t]) < NextKey(s.txs[v])
  }

  ghost function NextKeys(s: State, p: seq<TxId>): (keys: seq<int>) {
    seq(|p|, i requires 0 <= i < |p| => if p[i] in s.txs then NextKey(s.txs[p[i]]) else 0)
  }

  /** Around a circle the awaited keys cannot keep growing. */
  lemma CycleDescends(s: State, p: seq<TxId>) returns (i: nat, v: TxId, u: TxId)
    requires WaitCycle(s, p) && LocksExclusive(s)
    ensures i < |p| - 1 && Descent(s, v, p[i], u)
  {
    var n := |p| - 1;
    var j := StopsGrowing(NextKeys(s, p), n);
    i := if j + 1 < n then j + 1 else 0;
    v, u := p[j], p[i + 1];
    CycleWaitsForKeys(s, p, j);
    CycleWaitsForKeys(s, p, i);
    CycleWaitsForKeys(s, p, if i + 1 < n then i + 1 else 0);
    assert Waits(s, v, p[j + 1]) && Waits(s, p[i], u);
  }

  /** Every circle of waiting transactions contains a Reschedule in its second lock call that
      waits for a key below one it already holds. */
  lemma {:induction false} CycleNeedsSecondCall(k: Keys, s: State, run: seq<Step>, p: seq<TxId>)
    requires Initial(s) && IsRun(k, s, run) && WaitCycle(After(k, s, run), p)
    ensures exists i :: 0 <= i < |p| - 1 && p[i] in After(k, s, run).txs
              && SecondCall(After(k, s, run).txs[p[i]]) && WaitsBelow(After(k, s, run).txs[p[i]])
  {
    OrderedRun(k, s, run);
    NothingToKeep(k, s, run);
    KeepRun(k, s, run, {});
    var c := After(k, s, run);
    var i, v, u := CycleDescends(c, p);
    assert Ordered(c.db, c.txs[p[i]]);
  }

  ghost predicate NoReschedule(s: State) {
    forall t :: t in s.txs ==> !s.txs[t].op.Reschedule?
  }

  /** Any number of Create and ReassignHost transactions never wait in a circle. */
  lemma {:induction false} SingleCallsNeverCycle(k: Keys, s: State, run: seq<Step>, p: seq<TxId>)
    requires Initial(s) && IsRun(k, s, run) && NoReschedule(After(k, s, run))
    ensures !WaitCycle(After(k, s, run), p)
  {
    if WaitCycle(After(k, s, run), p) {
      CycleNeedsSecondCall(k, s, run, p);
    }
  }

  // ---------------------------------------------------------------- progress

  lemma {:induction false} Inserted(ks: seq<int>, x: int) returns (out: seq<int>)
    requires Increasing(ks)
    ensures Increasing(out) && Elements(out) == Elements(ks) + {x}
    decreases |ks|
  {
    if ks == [] {
      out := [x];
      ElementsSnoc(ks, x);
    } else {
      var n := |ks| - 1;
      assert ks == ks[..n] + [ks[n]];
      ElementsSnoc(ks[..n], ks[n]);
      if ks[n] < x {
        out := ks + [x];
        ElementsSnoc(ks, x);
      } else if ks[n] == x {
        out := ks;
      } else {
        var front := Inserted(ks[..n], x);
        assert forall i :: 0 <= i < |front| ==> front[i] in Elements(front);
        out := front + [ks[n]];
        ElementsSnoc(front, ks[n]);
      }
    }
  }

  lemma {:induction false} InOrderHosts(k: Keys, hosts: set<HostId>) returns (ks: seq<int>)
    ensures Increasing(ks) && Elements(ks) == HostKeys(k, hosts)
    decreases hosts
  {
    if hosts == {} {
      ks := [];
    } else {
      var h :| h in hosts;
      var rest := InOrderHosts(k, hosts - {h});
      ks := Inserted(rest, k.host(h));
      assert HostKeys(k, hosts) == HostKeys(k, hosts - {h}) + {k.host(h)};
    }
  }

  lemma {:induction false} InOrder(k: Keys, hosts: set<HostId>, cals: set<Calendar>) returns (ks: seq<int>)
    ensures Increasing(ks) && Elements(ks) == HostKeys(k, hosts) + CalKeys(k, cals)
    decreases cals
  {
    if cals == {} {
      ks := InOrderHosts(k, hosts);
    } else {
      var c :| c in cals;
      var rest := InOrder(k, hosts, cals - {c});
      ks := Inserted(rest, k.cal(c));
      assert CalKeys(k, cals) == CalKeys(k, cals - {c}) + {k.cal(c)};
    }
  }

  /** Of a set of waiting transactions, one that waits for the greatest key. */
  lemma {:induction false} GreatestWaiter(s: State, ts: set<TxId>) returns (t: TxId)
    requires ts != {} && ts <= s.txs.Keys
    ensures t in ts && forall u :: u in ts ==> NextKey(s.txs[u]) <= NextKey(s.txs[t])
    decreases ts
  {
    t :| t in ts;
    if ts != {t} {
      var other: TxId := GreatestWaiter(s, ts - {t});
      assert forall u :: u in ts ==> u == t || u in ts - {t};
      t := if NextKey(s.txs[t]) < NextKey(s.txs[other]) then other else t;
    }
  }

  lemma {:induction false} Listing(hs: set<HostId>) returns (order: seq<HostId>)
    ensures forall h :: h in order <==> h in hs
    decreases hs
  {
    if hs == {} {
      order := [];
    } else {
      var h :| h in hs;
      var rest := Listing(hs - {h});
      order := rest + [h];
    }
  }

  /** A step of a transaction already running, other than giving up. */
  ghost predicate Moves(step: Step, t: TxId) {
    match step
    case ReadBooking(u) => u == t
    case ReadCalendars(u, _) => u == t
    case TakeKey(u) => u == t
    case LocksDone(u) => u == t
    case ReadSeats(u, _) => u == t
    case Check(u) => u == t
    case Advance(u) => u == t
    case Write(u, _) => u == t
    case Commit(u) => u == t
    case _ => false
  }

  /** A transaction either waits for another one or can take its next step. */
  lemma WaitsOrMoves(k: Keys, s: State, t: TxId, newId: BookingId) returns (step: Step, u: TxId)
    requires AllOrdered(s) && t in s.txs
    requires newId != "" && newId !in s.db && RowFree(s, newId)
    ensures (Moves(step, t) && Enabled(k, s, step)) || Waits(s, t, u)
  {
    var tx := s.txs[t];
    u := t;
    step := Abort(t);
    assert Ordered(s.db, tx);
    match tx.pc
    case Started => step := ReadBooking(t);
    case Keying(hosts, second) =>
      var todo := InOrder(k, NonEmpty(hosts), CalendarsOf(s.cals, NonEmpty(hosts)));
      step := ReadCalendars(t, todo);
    case Locking(_, _, todo) =>
      if todo == [] {
        step := LocksDone(t);
      } else if v :| v in s.txs && v != t && todo[0] in s.txs[v].held {
        u := v;
      } else {
        step := TakeKey(t);
      }
    case ReadingSeats =>
      var order := Listing(s.db[tx.op.id].seats);
      step := ReadSeats(t, order);
    case Checking(_, rest) => step := if rest == [] then Advance(t) else Check(t);
    case Writing =>
      if tx.op.Create? {
        step := Write(t, newId);
      } else if v :| v in s.txs && s.txs[v].pc == Written(tx.op.id) {
        u := v;
      } else {
        step := Write(t, tx.op.id);
      }
    case Written(_) => step := Commit(t);
  }

  /** Among transactions that call lockHosts once, one can always take its next step. */
  lemma {:induction false} SomeoneMoves(k: Keys, s: State, run: seq<Step>, newId: BookingId)
      returns (step: Step, mover: TxId)
    requires Initial(s) && IsRun(k, s, run)
    requires After(k, s, run).txs != map[] && NoReschedule(After(k, s, run))
    requires newId != "" && newId !in After(k, s, run).db && RowFree(After(k, s, run), newId)
    ensures mover in After(k, s, run).txs
    ensures Moves(step, mover) && Enabled(k, After(k, s, run), step)
  {
    OrderedRun(k, s, run);
    var c := After(k, s, run);
    var t :| t in c.txs.Keys;
    step, mover := MovesUnlessKey(k, c, t, newId);
    if step.Abort? {
      var waiting := set u | u in c.txs && AwaitsKey(c.txs[u]);
      assert t in waiting;
      var last := GreatestWaiter(c, waiting);
      step, mover := MovesUnlessKey(k, c, last, newId);
      if step.Abort? {
        var holder := mover;
        step, mover := MovesUnlessKey(k, c, holder, newId);
        assert Ordered(c.db, c.txs[holder]);
      }
    }
  }

  /** Either someone can move (t, or the writer t waits for), or t waits for a key held by `other`. */
  lemma MovesUnlessKey(k: Keys, s: State, t: TxId, newId: BookingId) returns (step: Step, other: TxId)
    requires AllOrdered(s) && t in s.txs
    requires newId != "" && newId !in s.db && RowFree(s, newId)
    ensures other in s.txs
    ensures !step.Abort? ==> Moves(step, other) && Enabled(k, s, step)
    ensures step.Abort? ==> WaitsForKey(s.txs[t], s.txs[other]) && other != t
  {
    step, other := WaitsOrMoves(k, s, t, newId);
    if Moves(step, t) && Enabled(k, s, step) {
      other := t;
    } else if WaitsForRow(s.txs[t], s.txs[other]) {
      step := Commit(other);
    } else {
      step := Abort(t);
    }
  }
}

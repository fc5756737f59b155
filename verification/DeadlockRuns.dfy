/** Runs that end in a circle of waits, and with them the exact conditions for one
    (internal/booking/service.go). */
module DeadlockRuns {
  import opened HostLock
  import opened BookingProtocol
  import opened LockOrder
  import opened Deadlock

  // ---------------------------------------------------------------- a prone booking closes a circle

  lemma Snoc(k: Keys, s: State, run: seq<Step>, step: Step, sc: Scope) returns (run': seq<Step>)
    requires IsRun(k, s, run) && Enabled(k, After(k, s, run), step) && Within(run, sc) && Allowed(step, sc)
    ensures IsRun(k, s, run') && After(k, s, run') == Apply(k, After(k, s, run), step) && Within(run', sc)
  {
    Extend(k, s, run, step);
    run' := run + [step];
  }

  ghost function Taken(tx: Tx, keys: set<int>, rest: seq<int>): (tx': Tx)
    requires tx.pc.Locking?
  {
    tx.(held := tx.held + keys, pc := tx.pc.(todo := rest))
  }

  lemma TakeOne(k: Keys, s: State, run: seq<Step>, sc: Scope, t: TxId, rest: seq<int>) returns (run': seq<Step>)
    requires IsRun(k, s, run) && Within(run, sc) && t in After(k, s, run).txs && AwaitsKey(After(k, s, run).txs[t])
    requires var c := After(k, s, run);
             && c.txs[t].pc.todo[1..] == rest
             && forall u :: u in c.txs && u != t ==> NextKey(c.txs[t]) !in c.txs[u].held
    ensures IsRun(k, s, run') && Within(run', sc)
    ensures var c, tx := After(k, s, run), After(k, s, run).txs[t];
            After(k, s, run') == Put(c, t, Taken(tx, {NextKey(tx)}, rest))
  {
    run' := Snoc(k, s, run, TakeKey(t), sc);
  }

  lemma TakeNone(c: State, t: TxId, rest: seq<int>)
    requires t in c.txs && c.txs[t].pc.Locking? && c.txs[t].pc.todo == rest
    ensures c == Put(c, t, Taken(c.txs[t], Elements([]), rest))
  {
    EmptyElements([]);
    assert c.txs[t].held + {} == c.txs[t].held && c.txs == c.txs[t := c.txs[t]];
  }

  /** t takes the keys a, which nobody else holds. */
  lemma {:induction false} TakeMany(k: Keys, s: State, run: seq<Step>, sc: Scope, t: TxId, a: seq<int>,
                                    rest: seq<int>) returns (run': seq<Step>)
    requires IsRun(k, s, run) && Within(run, sc) && t in After(k, s, run).txs
    requires var c := After(k, s, run);
             && c.txs[t].pc.Locking? && c.txs[t].pc.todo == a + rest
             && forall u :: u in c.txs && u != t ==> c.txs[u].held !! Elements(a)
    ensures IsRun(k, s, run') && Within(run', sc)
    ensures After(k, s, run') == Put(After(k, s, run), t, Taken(After(k, s, run).txs[t], Elements(a), rest))
    decreases |a|
  {
    var c := After(k, s, run);
    var tx := c.txs[t];
    if a == [] {
      run' := run;
      assert a + rest == rest;
      TakeNone(c, t, rest);
    } else {
      assert a[0] in Elements(a) && (a + rest)[0] == a[0] && (a + rest)[1..] == a[1..] + rest;
      assert Elements(a) == {a[0]} + Elements(a[1..]) by { assert a == [a[0]] + a[1..]; }
      var next := TakeOne(k, s, run, sc, t, a[1..] + rest);
      run' := TakeMany(k, s, next, sc, t, a[1..], rest);
      assert tx.held + {a[0]} + Elements(a[1..]) == tx.held + Elements(a);
    }
  }

  /** The keys before the first one of a set. */
  lemma {:induction false} FirstOf(ks: seq<int>, stop: set<int>) returns (a: seq<int>, rest: seq<int>)
    requires exists x :: x in ks && x in stop
    ensures ks == a + rest && rest != [] && rest[0] in stop && Elements(a) !! stop
  {
    if ks[0] in stop {
      a, rest := [], ks;
    } else {
      var x :| x in ks && x in stop;
      assert x in ks[1..];
      a, rest := FirstOf(ks[1..], stop);
      a := [ks[0]] + a;
      assert ks == [ks[0]] + ks[1..];
    }
  }

  ghost function CreateFor(hosts: seq<HostId>): (op: Op) {
    Create(Params("", hosts, [], [], false, false, 0, 0, 0))
  }

  ghost function MakeTx(hosts: seq<HostId>, pc: Pc, held: set<int>, attending: seq<HostId>, chosen: HostId): (tx: Tx) {
    Tx(CreateFor(hosts), pc, held, "", 0, 0, [], [], attending, chosen)
  }

  ghost function CreateTx(hosts: seq<HostId>, held: set<int>, todo: seq<int>): (tx: Tx) {
    MakeTx(hosts, Locking(hosts, false, todo), held, [], "")
  }

  ghost function MoveTx(id: BookingId, pc: Pc, held: set<int>, primary: HostId, seats: seq<HostId>): (tx: Tx) {
    Tx(Reschedule(id, 0, 0), pc, held, primary, 0, 0, seats, [], [], "")
  }

  ghost predicate InKeyOrder(k: Keys, cals: set<CalendarRow>, hosts: seq<HostId>, todo: seq<int>) {
    Increasing(todo) && Elements(todo) == KeysFor(k, cals, hosts)
  }

  lemma CreateBegins(k: Keys, s: State, sc: Scope, hosts: seq<HostId>, todo: seq<int>) returns (run: seq<Step>)
    requires s.txs == map[] && hosts != [] && InKeyOrder(k, s.cals, hosts, todo)
    ensures IsRun(k, s, run) && Within(run, sc) && After(k, s, run) == s.(txs := map[1 := CreateTx(hosts, {}, todo)])
  {
    assert hosts + [] + [] == hosts;
    run := Snoc(k, s, [], Begin(1, CreateFor(hosts)), sc);
    run := Snoc(k, s, run, ReadCalendars(1, todo), sc);
  }

  /** The Create takes its keys up to the first of the primary's. */
  lemma CreateWaits(k: Keys, s: State, sc: Scope, hosts: seq<HostId>, primary: set<int>, todo: seq<int>)
      returns (run: seq<Step>, a: seq<int>, rest: seq<int>)
    requires s.txs == map[] && hosts != [] && InKeyOrder(k, s.cals, hosts, todo)
    requires exists y :: y in todo && y in primary
    ensures IsRun(k, s, run) && Within(run, sc)
    ensures After(k, s, run) == s.(txs := map[1 := CreateTx(hosts, Elements(a), rest)])
    ensures todo == a + rest && rest != [] && rest[0] in primary && Elements(a) !! primary
  {
    run := CreateBegins(k, s, sc, hosts, todo);
    a, rest := FirstOf(todo, primary);
    run := TakeMany(k, s, run, sc, 1, a, rest);
    assert {} + Elements(a) == Elements(a);
  }

  lemma InOrderKeys(k: Keys, cals: set<CalendarRow>, hosts: seq<HostId>) returns (todo: seq<int>)
    ensures InKeyOrder(k, cals, hosts, todo)
  {
    todo := LockOrder.InOrder(k, NonEmpty(hosts), CalendarsOf(cals, NonEmpty(hosts)));
  }

  ghost predicate Beside(s: State, c: State, create: Tx, move: Tx) {
    c == s.(txs := map[1 := create, 0 := move])
  }

  /** The Reschedule reads the booking. */
  lemma MoveReads(k: Keys, s: State, sc: Scope, run: seq<Step>, id: BookingId, create: Tx) returns (run': seq<Step>)
    requires IsRun(k, s, run) && Within(run, sc) && After(k, s, run) == s.(txs := map[1 := create])
    requires id in s.db && id in sc.ids && !s.db[id].cancelled
    ensures IsRun(k, s, run') && Within(run', sc)
    ensures Beside(s, After(k, s, run'), create, MoveTx(id, Keying([s.db[id].host], false), {}, s.db[id].host, []))
  {
    run' := Snoc(k, s, run, Begin(0, Reschedule(id, 0, 0)), sc);
    assert Beside(s, After(k, s, run'), create, MoveTx(id, Started, {}, "", []));
    run' := Snoc(k, s, run', ReadBooking(0), sc);
  }

  /** It takes all of the primary's keys. */
  lemma MoveLocksPrimary(k: Keys, s: State, sc: Scope, run: seq<Step>, id: BookingId, create: Tx, host: HostId,
                         todo: seq<int>) returns (run': seq<Step>)
    requires IsRun(k, s, run) && Within(run, sc)
    requires Beside(s, After(k, s, run), create, MoveTx(id, Keying([host], false), {}, host, []))
    requires InKeyOrder(k, s.cals, [host], todo) && create.held !! Elements(todo)
    ensures IsRun(k, s, run') && Within(run', sc)
    ensures Beside(s, After(k, s, run'), create, MoveTx(id, Locking([host], false, []), Elements(todo), host, []))
  {
    run' := Snoc(k, s, run, ReadCalendars(0, todo), sc);
    assert Beside(s, After(k, s, run'), create, MoveTx(id, Locking([host], false, todo), {}, host, []));
    assert todo + [] == todo && {} + Elements(todo) == Elements(todo);
    run' := TakeMany(k, s, run', sc, 0, todo, []);
  }

  lemma MoveLocked(k: Keys, s: State, sc: Scope, run: seq<Step>, id: BookingId, create: Tx, host: HostId,
                   held: set<int>) returns (run': seq<Step>)
    requires IsRun(k, s, run) && Within(run, sc)
    requires Beside(s, After(k, s, run), create, MoveTx(id, Locking([host], false, []), held, host, []))
    ensures IsRun(k, s, run') && Within(run', sc)
    ensures Beside(s, After(k, s, run'), create, MoveTx(id, ReadingSeats, held, host, []))
  {
    run' := Snoc(k, s, run, LocksDone(0), sc);
  }

  /** It reads the seats. */
  lemma MoveReadsSeats(k: Keys, s: State, sc: Scope, run: seq<Step>, id: BookingId, create: Tx, held: set<int>,
                       order: seq<HostId>) returns (run': seq<Step>)
    requires IsRun(k, s, run) && Within(run, sc) && id in s.db && order != []
    requires Beside(s, After(k, s, run), create, MoveTx(id, ReadingSeats, held, s.db[id].host, []))
    requires forall h :: h in order <==> h in s.db[id].seats
    ensures IsRun(k, s, run') && Within(run', sc)
    ensures Beside(s, After(k, s, run'), create, MoveTx(id, Keying(order, true), held, s.db[id].host, order))
  {
    run' := Snoc(k, s, run, ReadSeats(0, order), sc);
  }

  /** It has their keys to take. */
  lemma MoveReadsKeys(k: Keys, s: State, sc: Scope, run: seq<Step>, id: BookingId, create: Tx, held: set<int>,
                      order: seq<HostId>, todo: seq<int>) returns (run': seq<Step>)
    requires IsRun(k, s, run) && Within(run, sc) && id in s.db && InKeyOrder(k, s.cals, order, todo)
    requires Beside(s, After(k, s, run), create, MoveTx(id, Keying(order, true), held, s.db[id].host, order))
    ensures IsRun(k, s, run') && Within(run', sc)
    ensures Beside(s, After(k, s, run'), create, MoveTx(id, Locking(order, true, todo), held, s.db[id].host, order))
  {
    run' := Snoc(k, s, run, ReadCalendars(0, todo), sc);
  }

  lemma BothWait(s: State, c: State, create: Tx, move: Tx)
    requires Beside(s, c, create, move) && AwaitsKey(create) && AwaitsKey(move)
    requires NextKey(create) in move.held && NextKey(move) in create.held
    ensures WaitCycle(c, [0, 1, 0])
  {
    assert Waits(c, 0, 1) && Waits(c, 1, 0);
  }

  /** It takes the seats' keys up to the first one the Create holds: each waits for the other. */
  lemma MoveWaits(k: Keys, s: State, sc: Scope, run: seq<Step>, id: BookingId, create: Tx, held: set<int>,
                  order: seq<HostId>, todo: seq<int>) returns (run': seq<Step>)
    requires IsRun(k, s, run) && Within(run, sc) && id in s.db
    requires Beside(s, After(k, s, run), create, MoveTx(id, Locking(order, true, todo), held, s.db[id].host, order))
    requires AwaitsKey(create) && NextKey(create) in held && exists x :: x in todo && x in create.held
    ensures IsRun(k, s, run') && Within(run', sc) && WaitCycle(After(k, s, run'), [0, 1, 0])
  {
    var a, rest := FirstOf(todo, create.held);
    run' := TakeMany(k, s, run, sc, 0, a, rest);
    var move := MoveTx(id, Locking(order, true, rest), held + Elements(a), s.db[id].host, order);
    assert Beside(s, After(k, s, run'), create, move);
    BothWait(s, After(k, s, run'), create, move);
  }

  lemma ElementsSplit(a: seq<int>, rest: seq<int>, x: int)
    requires Increasing(a + rest) && rest != [] && x in a + rest && x < rest[0]
    ensures x in Elements(a)
  {
    var i :| 0 <= i < |a + rest| && (a + rest)[i] == x;
    assert (a + rest)[|a|] == rest[0];
    assert i < |a|;
  }

  /** For every hash, calendar configuration and database: a Reschedule of a live booking and a
      Create for the hosts of the condition can wait for each other. */
  lemma RescheduleCanDeadlock(k: Keys, s: State, sc: Scope, id: BookingId, hosts: seq<HostId>, x: int)
      returns (run: seq<Step>)
    requires Initial(s) && id in s.db && id in sc.ids && !s.db[id].cancelled
    requires ProneTo(k, s.cals, s.db[id].seats, s.db[id].host, hosts, x)
    ensures IsRun(k, s, run) && Within(run, sc) && WaitCycle(After(k, s, run), [0, 1, 0])
  {
    var b := s.db[id];
    var keys := InOrderKeys(k, s.cals, hosts);
    var own := InOrderKeys(k, s.cals, [b.host]);
    var order := Listing(b.seats);
    assert NonEmpty(order) == b.seats;
    var seatKeys := InOrderKeys(k, s.cals, order);
    var y :| y in KeysFor(k, s.cals, hosts) && y in KeysFor(k, s.cals, [b.host]);
    assert y in Elements(keys) && x in Elements(keys) && x in Elements(seatKeys);
    assert hosts != [] && order != [];
    var a, rest;
    run, a, rest := CreateWaits(k, s, sc, hosts, Elements(own), keys);
    assert rest[0] in Elements(keys);
    ElementsSplit(a, rest, x);
    run := MoveReads(k, s, sc, run, id, CreateTx(hosts, Elements(a), rest));
    run := MoveLocksPrimary(k, s, sc, run, id, CreateTx(hosts, Elements(a), rest), b.host, own);
    run := MoveLocked(k, s, sc, run, id, CreateTx(hosts, Elements(a), rest), b.host, Elements(own));
    run := MoveReadsSeats(k, s, sc, run, id, CreateTx(hosts, Elements(a), rest), Elements(own), order);
    run := MoveReadsKeys(k, s, sc, run, id, CreateTx(hosts, Elements(a), rest), Elements(own), order, seatKeys);
    run := MoveWaits(k, s, sc, run, id, CreateTx(hosts, Elements(a), rest), Elements(own), order, seatKeys);
  }

  // ---------------------------------------------------------------- reassigned first

  ghost function OnlyLive(db: map<BookingId, Booking>, id: BookingId): (r: map<BookingId, Booking>) {
    map i | i in db :: if i == id then db[i] else db[i].(cancelled := true)
  }

  /** Everything but booking id is cancelled. */
  lemma {:induction false} CancelOthers(k: Keys, s: State, sc: Scope, id: BookingId, live: set<BookingId>)
      returns (run: seq<Step>)
    requires s.txs == map[] && live <= s.db.Keys && id !in live
    requires forall i :: i in s.db && i != id && !s.db[i].cancelled ==> i in live
    ensures IsRun(k, s, run) && Within(run, sc) && After(k, s, run) == s.(db := OnlyLive(s.db, id))
    decreases live
  {
    run := [];
    if live == {} {
      assert OnlyLive(s.db, id) == s.db;
    } else {
      var i :| i in live;
      if s.db[i].cancelled {
        run := CancelOthers(k, s, sc, id, live - {i});
      } else {
        var s' := Apply(k, s, Cancel(i));
        var rest := CancelOthers(k, s', sc, id, live - {i});
        assert OnlyLive(s'.db, id) == OnlyLive(s.db, id);
        run := [Cancel(i)] + rest;
        assert run[1..] == rest;
      }
    }
  }

  ghost function LeadTx(id: BookingId, host: HostId, b: Booking, pc: Pc, held: set<int>, seats: seq<HostId>): (tx: Tx) {
    Tx(Reassign(id, host), pc, held, b.host, b.start, b.end, [], [], seats, "")
  }

  ghost predicate Alone(s: State, c: State, tx: Tx) {
    c == s.(txs := map[0 := tx])
  }

  /** A reassignment reads the booking. */
  lemma LeadReads(k: Keys, s: State, sc: Scope, id: BookingId, host: HostId) returns (run: seq<Step>)
    requires s.txs == map[] && id in s.db && !s.db[id].cancelled && s.db[id].host != host && (id, host) in sc.moves
    ensures IsRun(k, s, run) && Within(run, sc)
    ensures Alone(s, After(k, s, run), LeadTx(id, host, s.db[id], Keying([s.db[id].host, host], false), {}, []))
  {
    run := Snoc(k, s, [], Begin(0, Reassign(id, host)), sc);
    run := Snoc(k, s, run, ReadBooking(0), sc);
  }

  lemma LeadReadsKeys(k: Keys, s: State, sc: Scope, run: seq<Step>, id: BookingId, host: HostId, hosts: seq<HostId>,
                      todo: seq<int>) returns (run': seq<Step>)
    requires IsRun(k, s, run) && Within(run, sc) && id in s.db && InKeyOrder(k, s.cals, hosts, todo)
    requires Alone(s, After(k, s, run), LeadTx(id, host, s.db[id], Keying(hosts, false), {}, []))
    ensures IsRun(k, s, run') && Within(run', sc)
    ensures Alone(s, After(k, s, run'), LeadTx(id, host, s.db[id], Locking(hosts, false, todo), {}, []))
  {
    run' := Snoc(k, s, run, ReadCalendars(0, todo), sc);
  }

  /** It locks both hosts. */
  lemma LeadLocks(k: Keys, s: State, sc: Scope, run: seq<Step>, id: BookingId, host: HostId, hosts: seq<HostId>,
                  todo: seq<int>) returns (run': seq<Step>)
    requires IsRun(k, s, run) && Within(run, sc) && id in s.db
    requires Alone(s, After(k, s, run), LeadTx(id, host, s.db[id], Locking(hosts, false, todo), {}, []))
    ensures IsRun(k, s, run') && Within(run', sc)
    ensures Alone(s, After(k, s, run'), LeadTx(id, host, s.db[id], Locking(hosts, false, []), Elements(todo), []))
  {
    assert todo + [] == todo && {} + Elements(todo) == Elements(todo);
    run' := TakeMany(k, s, run, sc, 0, todo, []);
  }

  /** It has the new host to check. */
  lemma LeadLocked(k: Keys, s: State, sc: Scope, run: seq<Step>, id: BookingId, host: HostId, hosts: seq<HostId>,
                   held: set<int>) returns (run': seq<Step>)
    requires IsRun(k, s, run) && Within(run, sc) && id in s.db
    requires Alone(s, After(k, s, run), LeadTx(id, host, s.db[id], Locking(hosts, false, []), held, []))
    ensures IsRun(k, s, run') && Within(run', sc)
    ensures Alone(s, After(k, s, run'), LeadTx(id, host, s.db[id], Checking(Fixed, [host]), held, []))
  {
    run' := Snoc(k, s, run, LocksDone(0), sc);
  }

  /** It finds the new host free. */
  lemma LeadChecks(k: Keys, s: State, sc: Scope, run: seq<Step>, id: BookingId, host: HostId, held: set<int>)
      returns (run': seq<Step>)
    requires IsRun(k, s, run) && Within(run, sc) && id in s.db
    requires Alone(s, After(k, s, run), LeadTx(id, host, s.db[id], Checking(Fixed, [host]), held, []))
    requires !HostBusy(s.db, s.cals, host, s.db[id].start, s.db[id].end, id)
    ensures IsRun(k, s, run') && Within(run', sc)
    ensures Alone(s, After(k, s, run'), LeadTx(id, host, s.db[id], Checking(Fixed, []), held, [host]))
  {
    assert [host][1..] == [] && [] + [host] == [host];
    run' := Snoc(k, s, run, Check(0), sc);
  }

  lemma LeadChecked(k: Keys, s: State, sc: Scope, run: seq<Step>, id: BookingId, host: HostId, held: set<int>)
      returns (run': seq<Step>)
    requires IsRun(k, s, run) && Within(run, sc) && id in s.db
    requires Alone(s, After(k, s, run), LeadTx(id, host, s.db[id], Checking(Fixed, []), held, [host]))
    ensures IsRun(k, s, run') && Within(run', sc)
    ensures Alone(s, After(k, s, run'), LeadTx(id, host, s.db[id], Writing, held, [host]))
  {
    run' := Snoc(k, s, run, Advance(0), sc);
  }

  /** It commits. */
  lemma LeadCommits(k: Keys, s: State, sc: Scope, run: seq<Step>, id: BookingId, host: HostId, held: set<int>)
      returns (run': seq<Step>)
    requires IsRun(k, s, run) && Within(run, sc) && id in s.db && s.txs == map[]
    requires Alone(s, After(k, s, run), LeadTx(id, host, s.db[id], Writing, held, [host]))
    ensures IsRun(k, s, run') && Within(run', sc)
    ensures After(k, s, run') == s.(db := s.db[id := s.db[id].(host := host)])
  {
    run' := Snoc(k, s, run, Write(0, id), sc);
    assert Alone(s, After(k, s, run'), LeadTx(id, host, s.db[id], Written(id), held, [host]));
    run' := Snoc(k, s, run', Commit(0), sc);
    assert After(k, s, run').txs == map[];
  }

  /** A live booking can be given any lead it may have, with its seats as they were. */
  lemma LeadChanges(k: Keys, s: State, sc: Scope, id: BookingId, host: HostId) returns (run: seq<Step>)
    requires s.txs == map[] && MayLead(s.db, sc, id, host) && !s.db[id].cancelled
    ensures IsRun(k, s, run) && Within(run, sc)
    ensures var c := After(k, s, run);
            && c.cals == s.cals && c.txs == map[] && id in c.db
            && c.db[id] == s.db[id].(host := host)
  {
    run := [];
    if host != s.db[id].host {
      run := CancelOthers(k, s, sc, id, s.db.Keys - {id});
      var c := After(k, s, run);
      var todo := InOrderKeys(k, c.cals, [c.db[id].host, host]);
      var more := LeadReads(k, c, sc, id, host);
      more := LeadReadsKeys(k, c, sc, more, id, host, [c.db[id].host, host], todo);
      more := LeadLocks(k, c, sc, more, id, host, [c.db[id].host, host], todo);
      more := LeadLocked(k, c, sc, more, id, host, [c.db[id].host, host], Elements(todo));
      more := LeadChecks(k, c, sc, more, id, host, Elements(todo));
      more := LeadChecked(k, c, sc, more, id, host, Elements(todo));
      more := LeadCommits(k, c, sc, more, id, host, Elements(todo));
      Splice(k, s, run, more);
      run := run + more;
    }
  }

  // ---------------------------------------------------------------- the exact condition

  /** Some run within the scope has transactions waiting in a circle. */
  ghost predicate CanDeadlock(k: Keys, s: State, sc: Scope) {
    exists run, p :: IsRun(k, s, run) && Within(run, sc) && WaitCycle(After(k, s, run), p)
  }

  /** Some booking of the scope is prone under its primary host or one it may be reassigned to. */
  ghost predicate ScopeProne(k: Keys, s: State, sc: Scope) {
    exists id, host :: MayLead(s.db, sc, id, host) && Prone(k, s.cals, s.db[id].seats, host)
  }

  ghost predicate Leads(db: map<BookingId, Booking>, sc: Scope, seats: set<HostId>, host: HostId) {
    exists id :: MayLead(db, sc, id, host) && db[id].seats == seats
  }

  lemma {:induction false} DeadlockIsProne(k: Keys, s: State, sc: Scope, run: seq<Step>, p: seq<TxId>)
    requires Initial(s) && (forall id :: id in sc.ids ==> id in s.db)
    requires IsRun(k, s, run) && Within(run, sc) && WaitCycle(After(k, s, run), p)
    ensures ScopeProne(k, s, sc)
  {
    var r: Relation := (seats, host) => Leads(s.db, sc, seats, host);
    WithinReads(k, r, s.db, sc, s, run);
    var seats, primary := CycleReadsProne(k, r, s, run, p);
  }

  lemma DeadlocksLater(k: Keys, s: State, sc: Scope, run: seq<Step>, more: seq<Step>, p: seq<TxId>)
    requires IsRun(k, s, run) && Within(run, sc) && IsRun(k, After(k, s, run), more) && Within(more, sc)
    requires WaitCycle(After(k, After(k, s, run), more), p)
    ensures CanDeadlock(k, s, sc) && AnyDeadlock(k, s)
  {
    Splice(k, s, run, more);
    assert Within(run + more, sc) && CalendarsFixed(run + more);
  }

  lemma ProneDeadlocks(k: Keys, s: State, sc: Scope, id: BookingId, host: HostId)
    requires Initial(s) && MayLead(s.db, sc, id, host) && !s.db[id].cancelled && Prone(k, s.cals, s.db[id].seats, host)
    ensures CanDeadlock(k, s, sc)
  {
    var run := LeadChanges(k, s, sc, id, host);
    NothingToKeep(k, s, run);
    KeepRun(k, s, run, {});
    var c := After(k, s, run);
    var hosts, x :| ProneTo(k, c.cals, c.db[id].seats, c.db[id].host, hosts, x);
    var more := RescheduleCanDeadlock(k, c, sc, id, hosts, x);
    DeadlocksLater(k, s, sc, run, more, [0, 1, 0]);
  }

  /** Any number of transactions that reschedule only the given live bookings, and reassign them
      only as given, can wait in a circle if and only if one of the bookings is prone under its
      primary host or a host it may be given: for every hash and calendar configuration. */
  lemma DeadlocksExactly(k: Keys, s: State, sc: Scope)
    requires Initial(s) && forall id :: id in sc.ids ==> id in s.db && !s.db[id].cancelled
    ensures CanDeadlock(k, s, sc) <==> ScopeProne(k, s, sc)
  {
    if run, p :| IsRun(k, s, run) && Within(run, sc) && WaitCycle(After(k, s, run), p) {
      DeadlockIsProne(k, s, sc, run, p);
    }
    if id, host :| MayLead(s.db, sc, id, host) && Prone(k, s.cals, s.db[id].seats, host) {
      ProneDeadlocks(k, s, sc, id, host);
    }
  }

  // ---------------------------------------------------------------- runs about any bookings

  lemma {:induction false} Longer(ids: set<BookingId>) returns (n: nat)
    ensures forall id :: id in ids ==> |id| < n
    decreases ids
  {
    n := 0;
    if ids != {} {
      var id :| id in ids;
      n := Longer(ids - {id});
      n := if |id| < n then n else |id| + 1;
    }
  }

  lemma FreshId(db: map<BookingId, Booking>) returns (id: BookingId)
    ensures id != "" && id !in db
  {
    var n := Longer(db.Keys);
    id := seq(n + 1, _ => 'x');
  }

  lemma {:induction false} DistinctList(hosts: set<HostId>) returns (list: seq<HostId>)
    ensures forall h :: h in list <==> h in hosts
    ensures forall i, j :: 0 <= i < j < |list| ==> list[i] != list[j]
    decreases hosts
  {
    list := [];
    if hosts != {} {
      var h :| h in hosts;
      var rest := DistinctList(hosts - {h});
      list := [h] + rest;
    }
  }

  ghost predicate Making(s: State, c: State, tx: Tx) {
    c == s.(txs := map[1 := tx])
  }

  /** A Create locks its hosts. */
  lemma MakeLocks(k: Keys, s: State, sc: Scope, hosts: seq<HostId>, todo: seq<int>) returns (run: seq<Step>)
    requires s.txs == map[] && hosts != [] && InKeyOrder(k, s.cals, hosts, todo)
    ensures IsRun(k, s, run) && Within(run, sc)
    ensures Making(s, After(k, s, run), MakeTx(hosts, Locking(hosts, false, []), Elements(todo), [], ""))
  {
    run := CreateBegins(k, s, sc, hosts, todo);
    assert todo + [] == todo && {} + Elements(todo) == Elements(todo);
    run := TakeMany(k, s, run, sc, 1, todo, []);
  }

  lemma MakeLocked(k: Keys, s: State, sc: Scope, run: seq<Step>, hosts: seq<HostId>, held: set<int>)
      returns (run': seq<Step>)
    requires IsRun(k, s, run) && Within(run, sc)
    requires Making(s, After(k, s, run), MakeTx(hosts, Locking(hosts, false, []), held, [], ""))
    ensures IsRun(k, s, run') && Within(run', sc)
    ensures Making(s, After(k, s, run'), MakeTx(hosts, Checking(Fixed, hosts), held, [], ""))
  {
    run' := Snoc(k, s, run, LocksDone(1), sc);
  }

  lemma MakeCheck(k: Keys, s: State, sc: Scope, run: seq<Step>, hosts: seq<HostId>, held: set<int>,
                  rest: seq<HostId>, done: seq<HostId>) returns (run': seq<Step>)
    requires IsRun(k, s, run) && Within(run, sc) && rest != []
    requires Making(s, After(k, s, run), MakeTx(hosts, Checking(Fixed, rest), held, done, ""))
    requires !HostBusy(s.db, s.cals, rest[0], 0, 0, "")
    ensures IsRun(k, s, run') && Within(run', sc)
    ensures Making(s, After(k, s, run'), MakeTx(hosts, Checking(Fixed, rest[1..]), held, done + [rest[0]], ""))
  {
    run' := Snoc(k, s, run, Check(1), sc);
  }

  /** It finds them all free. */
  lemma {:induction false} MakeChecks(k: Keys, s: State, sc: Scope, run: seq<Step>, hosts: seq<HostId>, held: set<int>,
                                      rest: seq<HostId>, done: seq<HostId>) returns (run': seq<Step>)
    requires IsRun(k, s, run) && Within(run, sc)
    requires Making(s, After(k, s, run), MakeTx(hosts, Checking(Fixed, rest), held, done, ""))
    requires forall h :: h in rest ==> !HostBusy(s.db, s.cals, h, 0, 0, "")
    ensures IsRun(k, s, run') && Within(run', sc)
    ensures Making(s, After(k, s, run'), MakeTx(hosts, Checking(Fixed, []), held, done + rest, ""))
    decreases |rest|
  {
    run' := run;
    if rest == [] {
      assert done + rest == done;
    } else {
      run' := MakeCheck(k, s, sc, run, hosts, held, rest, done);
      run' := MakeChecks(k, s, sc, run', hosts, held, rest[1..], done + [rest[0]]);
      assert done + [rest[0]] + rest[1..] == done + rest;
    }
  }

  /** The first host is the primary. */
  lemma MakeChooses(k: Keys, s: State, sc: Scope, run: seq<Step>, hosts: seq<HostId>, held: set<int>)
      returns (run': seq<Step>)
    requires IsRun(k, s, run) && Within(run, sc) && hosts != []
    requires Making(s, After(k, s, run), MakeTx(hosts, Checking(Fixed, []), held, hosts, ""))
    ensures IsRun(k, s, run') && Within(run', sc)
    ensures Making(s, After(k, s, run'), MakeTx(hosts, Checking(Optional, []), held, hosts, hosts[0]))
  {
    run' := Snoc(k, s, run, Advance(1), sc);
  }

  lemma MakeChecked(k: Keys, s: State, sc: Scope, run: seq<Step>, hosts: seq<HostId>, held: set<int>)
      returns (run': seq<Step>)
    requires IsRun(k, s, run) && Within(run, sc) && hosts != []
    requires Making(s, After(k, s, run), MakeTx(hosts, Checking(Optional, []), held, hosts, hosts[0]))
    ensures IsRun(k, s, run') && Within(run', sc)
    ensures Making(s, After(k, s, run'), MakeTx(hosts, Writing, held, hosts, hosts[0]))
  {
    run' := Snoc(k, s, run, Advance(1), sc);
  }

  lemma MakeCommits(k: Keys, s: State, sc: Scope, run: seq<Step>, id: BookingId, hosts: seq<HostId>, held: set<int>)
      returns (run': seq<Step>)
    requires IsRun(k, s, run) && Within(run, sc) && hosts != [] && s.txs == map[] && id != "" && id !in s.db
    requires SeatsInsertable(hosts)
    requires Making(s, After(k, s, run), MakeTx(hosts, Writing, held, hosts, hosts[0]))
    ensures IsRun(k, s, run') && Within(run', sc)
    ensures After(k, s, run') == s.(db := s.db[id := NewBooking(MakeTx(hosts, Writing, held, hosts, hosts[0]))])
  {
    run' := Snoc(k, s, run, Write(1, id), sc);
    assert Making(s, After(k, s, run'), MakeTx(hosts, Written(id), held, hosts, hosts[0]));
    run' := Snoc(k, s, run', Commit(1), sc);
    assert After(k, s, run').txs == map[];
  }

  /** From any rows a booking with any primary host and seats can be made. */
  lemma BookingMade(k: Keys, s: State, sc: Scope, id: BookingId, hosts: seq<HostId>) returns (run: seq<Step>)
    requires Initial(s) && hosts != [] && SeatsInsertable(hosts) && id != "" && id !in s.db
    ensures IsRun(k, s, run) && Within(run, sc)
    ensures var c := After(k, s, run);
            && c.cals == s.cals && c.txs == map[] && id in c.db && !c.db[id].cancelled
            && c.db[id].host == hosts[0] && c.db[id].seats == set h | h in hosts
  {
    run := CancelOthers(k, s, sc, "", s.db.Keys);
    var c := After(k, s, run);
    var todo := InOrderKeys(k, c.cals, hosts);
    var more := MakeLocks(k, c, sc, hosts, todo);
    more := MakeLocked(k, c, sc, more, hosts, Elements(todo));
    more := MakeChecks(k, c, sc, more, hosts, Elements(todo), hosts, []);
    assert [] + hosts == hosts;
    more := MakeChooses(k, c, sc, more, hosts, Elements(todo));
    more := MakeChecked(k, c, sc, more, hosts, Elements(todo));
    more := MakeCommits(k, c, sc, more, id, hosts, Elements(todo));
    Splice(k, s, run, more);
    run := run + more;
  }

  /** Some hosts have a key that comes before all keys they share with another host, and share one. */
  ghost predicate KeysCross(k: Keys, cals: set<CalendarRow>) {
    exists primary, hosts, x :: ProneTo(k, cals, NonEmpty(hosts), primary, hosts, x)
  }

  ghost predicate AnyDeadlock(k: Keys, s: State) {
    exists run, p :: IsRun(k, s, run) && CalendarsFixed(run) && WaitCycle(After(k, s, run), p)
  }

  /** A booking for such hosts, once made, can be deadlocked on. */
  lemma CrossingDeadlocks(k: Keys, s: State, primary: HostId, hosts: seq<HostId>, x: int)
    requires Initial(s) && ProneTo(k, s.cals, NonEmpty(hosts), primary, hosts, x)
    ensures AnyDeadlock(k, s)
  {
    var id := FreshId(s.db);
    var sc := Scope({id}, iset{});
    assert primary != "";
    var others := DistinctList(NonEmpty(hosts) - {primary});
    var list := [primary] + others;
    var run := BookingMade(k, s, sc, id, list);
    var c := After(k, s, run);
    NothingToKeep(k, s, run);
    KeepRun(k, s, run, {});
    KeySetMonotone(k, s.cals, s.cals, NonEmpty(hosts), c.db[id].seats);
    var more := RescheduleCanDeadlock(k, c, sc, id, hosts, x);
    DeadlocksLater(k, s, sc, run, more, [0, 1, 0]);
  }

  /** With no limit on what is created, rescheduled or reassigned, transactions can wait in a
      circle if and only if the keys of some hosts cross, whatever is stored. */
  lemma AnyDeadlockExactly(k: Keys, s: State)
    requires Initial(s)
    ensures AnyDeadlock(k, s) <==> KeysCross(k, s.cals)
  {
    if run, p :| IsRun(k, s, run) && CalendarsFixed(run) && WaitCycle(After(k, s, run), p) {
      LadderRun(k, s, run);
      var c := After(k, s, run);
      var t := CycleIsProne(k, s.cals, c, p);
      var seats, primary := c.db[c.txs[t].op.id].seats, c.txs[t].primary;
      var hosts, x :| ProneTo(k, s.cals, seats, primary, hosts, x);
      assert ProneTo(k, s.cals, NonEmpty(hosts), primary, hosts, x);
    }
    if primary, hosts, x :| ProneTo(k, s.cals, NonEmpty(hosts), primary, hosts, x) {
      CrossingDeadlocks(k, s, primary, hosts, x);
    }
  }

  /** Where no calendar is saved, that is as soon as two hosts have different keys. */
  lemma HostKeysCross(k: Keys)
    ensures KeysCross(k, {}) <==> exists g: HostId, h: HostId :: g != "" && h != "" && k.host(g) != k.host(h)
  {
    if g: HostId, h: HostId :| g != "" && h != "" && k.host(g) < k.host(h) {
      assert NonEmpty([g, h]) == {g, h} && NonEmpty([h]) == {h};
      assert KeysFor(k, {}, [h]) == {k.host(h)} && KeysFor(k, {}, [g, h]) == {k.host(g), k.host(h)};
      assert ProneTo(k, {}, NonEmpty([g, h]), h, [g, h], k.host(g));
    }
    if primary, hosts, x :| ProneTo(k, {}, NonEmpty(hosts), primary, hosts, x) {
      assert x in HostKeys(k, NonEmpty(hosts));
      var y :| y in KeysFor(k, {}, hosts) && y in KeysFor(k, {}, [primary]);
      assert y in HostKeys(k, NonEmpty(hosts));
    }
  }

  // ---------------------------------------------------------------- runs that change calendars too

  /** Every host has the key first, and no calendar a smaller one. */
  ghost predicate FirstOfAll(k: Keys, first: int) {
    (forall h :: h != "" ==> k.host(h) == first) && forall c :: first <= k.cal(c)
  }

  /** A transaction takes that key before any other. */
  ghost predicate TookFirst(first: int, tx: Tx) {
    && (tx.held == {} || first in tx.held)
    && (tx.pc.Locking? && tx.pc.todo != [] ==> first in tx.held || tx.pc.todo[0] == first)
  }

  ghost predicate AllTookFirst(first: int, s: State) {
    forall t :: t in s.txs ==> TookFirst(first, s.txs[t])
  }

  lemma StartsWithFirst(k: Keys, cals: set<CalendarRow>, hosts: set<HostId>, first: int, todo: seq<int>)
    requires FirstOfAll(k, first) && "" !in hosts && todo != []
    requires Increasing(todo) && Elements(todo) == KeySet(k, cals, hosts)
    ensures todo[0] == first
  {
    assert todo[0] in Elements(todo);
    var h := KeyHolder(k, cals, hosts, todo[0]);
    assert k.host(h) in HostKeys(k, hosts);
    assert first in Elements(todo);
    var i :| 0 <= i < |todo| && todo[i] == first;
    assert first <= todo[0];
  }

  lemma FirstStep(k: Keys, first: int, s: State, step: Step)
    requires FirstOfAll(k, first) && AllTookFirst(first, s) && Enabled(k, s, step)
    ensures AllTookFirst(first, Apply(k, s, step))
  {
    if step.ReadCalendars? && step.todo != [] {
      StartsWithFirst(k, s.cals, NonEmpty(s.txs[step.t].pc.hosts), first, step.todo);
    }
  }

  lemma {:induction false} FirstRun(k: Keys, first: int, s: State, run: seq<Step>)
    requires FirstOfAll(k, first) && AllTookFirst(first, s) && IsRun(k, s, run)
    ensures AllTookFirst(first, After(k, s, run))
    decreases |run|
  {
    if run != [] {
      FirstStep(k, first, s, run[0]);
      FirstRun(k, first, Apply(k, s, run[0]), run[1..]);
    }
  }

  lemma OneHolds(first: int, s: State, t: TxId, u: TxId)
    requires AllTookFirst(first, s) && LocksExclusive(s) && t in s.txs && u in s.txs && t != u
    ensures s.txs[t].held == {} || s.txs[u].held == {}
  {
    assert TookFirst(first, s.txs[t]) && TookFirst(first, s.txs[u]);
  }

  /** Then only one transaction at a time holds a key. */
  lemma FirstNeverCycles(k: Keys, first: int, s: State, run: seq<Step>, p: seq<TxId>)
    requires Initial(s) && IsRun(k, s, run) && FirstOfAll(k, first)
    ensures !WaitCycle(After(k, s, run), p)
  {
    var c := After(k, s, run);
    FirstRun(k, first, s, run);
    NothingToKeep(k, s, run);
    KeepRun(k, s, run, {});
    if WaitCycle(c, p) {
      var i, v, u := CycleDescends(c, p);
      OneHolds(first, c, p[i], u);
    }
  }

  /** Two hosts have different keys, or a calendar has a smaller key than a host. */
  ghost predicate HashCrosses(k: Keys) {
    || (exists g: HostId, h: HostId :: g != "" && h != "" && k.host(g) != k.host(h))
    || (exists c: Calendar, h: HostId :: h != "" && k.cal(c) < k.host(h))
  }

  /** A calendar with a small key, saved for another host. */
  lemma CalendarCrosses(k: Keys, c: Calendar, h: HostId) returns (cals: set<CalendarRow>)
    requires h != "" && k.cal(c) < k.host(h)
    ensures KeysCross(k, cals)
  {
    var g := h + "x";
    cals := {CalendarRow(g, c, true, false)};
    assert NonEmpty([g, h]) == {g, h} && NonEmpty([h]) == {h};
    assert CalendarsOf(cals, {h}) == {} && CalendarsOf(cals, {g, h}) == {c};
    assert KeysFor(k, cals, [h]) == {k.host(h)};
    assert k.host(h) in HostKeys(k, {g, h}) && k.cal(c) in CalKeys(k, {c});
    assert ProneTo(k, cals, NonEmpty([g, h]), h, [g, h], k.cal(c));
  }

  lemma CrossingCalendars(k: Keys) returns (cals: set<CalendarRow>)
    requires HashCrosses(k)
    ensures KeysCross(k, cals)
  {
    if c: Calendar, h: HostId :| h != "" && k.cal(c) < k.host(h) {
      cals := CalendarCrosses(k, c, h);
    } else {
      cals := {};
      HostKeysCross(k);
    }
  }

  ghost predicate EverDeadlocks(k: Keys, s: State) {
    exists run, p :: IsRun(k, s, run) && WaitCycle(After(k, s, run), p)
  }

  lemma DeadlocksAfter(k: Keys, s: State, step: Step, run: seq<Step>, p: seq<TxId>)
    requires Enabled(k, s, step) && IsRun(k, Apply(k, s, step), run) && WaitCycle(After(k, Apply(k, s, step), run), p)
    ensures EverDeadlocks(k, s)
  {
    assert ([step] + run)[1..] == run;
    assert IsRun(k, s, [step] + run) && WaitCycle(After(k, s, [step] + run), p);
  }

  /** Over all runs whatsoever, from any rows and settings, transactions can wait in a circle if and
      only if the hash gives two hosts different keys or a calendar a smaller key than a host. */
  lemma EverDeadlocksExactly(k: Keys, s: State)
    requires Initial(s)
    ensures EverDeadlocks(k, s) <==> HashCrosses(k)
  {
    if HashCrosses(k) {
      var cals := CrossingCalendars(k);
      var s' := Apply(k, s, SetCalendars(cals));
      AnyDeadlockExactly(k, s');
      var run, p :| IsRun(k, s', run) && CalendarsFixed(run) && WaitCycle(After(k, s', run), p);
      DeadlocksAfter(k, s, SetCalendars(cals), run, p);
    } else if run, p :| IsRun(k, s, run) && WaitCycle(After(k, s, run), p) {
      assert forall h: HostId :: h != "" ==> k.host(h) == k.host("x");
      assert FirstOfAll(k, k.host("x"));
      FirstNeverCycles(k, k.host("x"), s, run, p);
    }
  }
}

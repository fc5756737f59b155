/** When Reschedule's second lock call can close a circle of waits (internal/booking/service.go,
    internal/booking/hostlock.go): the bookings that are prone to it, and why every circle has
    one. The calendar settings are fixed; the hash is any. */
module Deadlock {
  import opened HostLock
  import opened BookingProtocol
  import opened LockOrder

  ghost function KeysFor(k: Keys, cals: set<CalendarRow>, hosts: seq<HostId>): (r: set<int>) {
    KeySet(k, cals, NonEmpty(hosts))
  }

  /** A transaction locking these hosts would take the key x of a seat before any of the primary's
      keys it needs, and it needs one. */
  ghost predicate ProneTo(k: Keys, cals: set<CalendarRow>, seats: set<HostId>, primary: HostId, hosts: seq<HostId>,
                          x: int)
  {
    && x in KeySet(k, cals, seats) && x in KeysFor(k, cals, hosts)
    && (exists y :: y in KeysFor(k, cals, hosts) && y in KeysFor(k, cals, [primary]))
    && (forall y :: y in KeysFor(k, cals, hosts) && y in KeysFor(k, cals, [primary]) ==> x < y)
  }

  ghost predicate Prone(k: Keys, cals: set<CalendarRow>, seats: set<HostId>, primary: HostId) {
    exists hosts, x :: ProneTo(k, cals, seats, primary, hosts, x)
  }

  /** Every key of a seat holder that is not the primary's exceeds all of the primary's. */
  ghost predicate InOrder(k: Keys, cals: set<CalendarRow>, seats: set<HostId>, primary: HostId) {
    forall x, y :: x in KeySet(k, cals, seats) && x !in KeysFor(k, cals, [primary]) && y in KeysFor(k, cals, [primary])
      ==> y < x
  }

  lemma KeysForConcat(k: Keys, cals: set<CalendarRow>, a: seq<HostId>, b: seq<HostId>)
    ensures KeysFor(k, cals, a + b) == KeysFor(k, cals, a) + KeysFor(k, cals, b)
  {
    assert NonEmpty(a + b) == NonEmpty(a) + NonEmpty(b);
    var c, d := NonEmpty(a), NonEmpty(b);
    assert CalendarsOf(cals, c + d) == CalendarsOf(cals, c) + CalendarsOf(cals, d);
  }

  lemma InOrderIsNotProne(k: Keys, cals: set<CalendarRow>, seats: set<HostId>, primary: HostId)
    requires InOrder(k, cals, seats, primary)
    ensures !Prone(k, cals, seats, primary)
  {
    forall hosts, x ensures !ProneTo(k, cals, seats, primary, hosts, x) {
      assert x in KeySet(k, cals, seats) && x !in KeysFor(k, cals, [primary]) ==>
          forall y :: y in KeysFor(k, cals, [primary]) ==> y < x;
    }
  }

  /** A seat's key below all of the primary's is enough, whatever the calendars. */
  lemma LowSeatIsProne(k: Keys, cals: set<CalendarRow>, seats: set<HostId>, primary: HostId, h: HostId, x: int)
    requires h in seats && h != "" && primary != "" && x in KeySet(k, cals, {h})
    requires forall y :: y in KeysFor(k, cals, [primary]) ==> x < y
    ensures ProneTo(k, cals, seats, primary, [h, primary], x)
  {
    KeySetMonotone(k, cals, cals, {h}, seats);
    KeysForConcat(k, cals, [h], [primary]);
    assert [h] + [primary] == [h, primary] && NonEmpty([h]) == {h};
    var y := k.host(primary);
    assert y in HostKeys(k, NonEmpty([primary]));
    assert y in KeysFor(k, cals, [h, primary]) && y in KeysFor(k, cals, [primary]);
  }

  /** For a primary host with no calendar the condition is that a seat's key is below its own. */
  lemma OneKeyProneExactly(k: Keys, cals: set<CalendarRow>, seats: set<HostId>, primary: HostId)
    requires primary != "" && "" !in seats && CalendarsOf(cals, {primary}) == {}
    ensures Prone(k, cals, seats, primary) <==> exists x :: x in KeySet(k, cals, seats) && x < k.host(primary)
  {
    assert NonEmpty([primary]) == {primary};
    assert KeysFor(k, cals, [primary]) == {k.host(primary)};
    if x :| x in KeySet(k, cals, seats) && x < k.host(primary) {
      var h := KeyHolder(k, cals, seats, x);
      LowSeatIsProne(k, cals, seats, primary, h, x);
    }
  }

  lemma KeyHolder(k: Keys, cals: set<CalendarRow>, hosts: set<HostId>, x: int) returns (h: HostId)
    requires x in KeySet(k, cals, hosts)
    ensures h in hosts && x in KeySet(k, cals, {h})
  {
    if x in HostKeys(k, hosts) {
      h :| h in hosts && k.host(h) == x;
    } else {
      var c :| c in cals && c.user in hosts && (c.checks || c.destination) && k.cal(c.cal) == x;
      h := c.user;
      assert c.cal in CalendarsOf(cals, {h});
    }
  }

  // ---------------------------------------------------------------- which keys are held when

  ghost function OwnPrimary(k: Keys, cals: set<CalendarRow>, tx: Tx): (r: set<int>) {
    KeysFor(k, cals, [tx.primary])
  }

  /** The hosts of a second lock call: the seat holders, or the primary if there are none. */
  ghost predicate SeatHosts(db: map<BookingId, Booking>, tx: Tx, hosts: seq<HostId>) {
    && tx.op.Reschedule? && tx.op.id in db
    && forall h :: h in hosts ==> h in db[tx.op.id].seats || h == tx.primary
  }

  /** Keys taken in a second lock call are below those still to be taken. */
  ghost predicate Above(primary: set<int>, held: set<int>, todo: seq<int>) {
    forall v, i :: v in held && v !in primary && 0 <= i < |todo| ==> v < todo[i]
  }

  ghost predicate Ladder(k: Keys, cals: set<CalendarRow>, db: map<BookingId, Booking>, tx: Tx) {
    match tx.pc
    case Keying(hosts, second) =>
      if second then SeatHosts(db, tx, hosts) && tx.held == OwnPrimary(k, cals, tx)
      else tx.op.Reschedule? ==> hosts == [tx.primary]
    case Locking(hosts, second, todo) =>
      if second then
        && SeatHosts(db, tx, hosts) && OwnPrimary(k, cals, tx) <= tx.held
        && tx.held + Elements(todo) == OwnPrimary(k, cals, tx) + KeysFor(k, cals, hosts)
        && Above(OwnPrimary(k, cals, tx), tx.held, todo)
      else
        && (tx.op.Reschedule? ==> hosts == [tx.primary])
        && tx.held + Elements(todo) == KeysFor(k, cals, hosts)
    case ReadingSeats => tx.held == OwnPrimary(k, cals, tx)
    case _ => true
  }

  ghost predicate AllLadder(k: Keys, cals: set<CalendarRow>, s: State) {
    s.cals == cals && forall t :: t in s.txs ==> Ladder(k, cals, s.db, s.txs[t])
  }

  ghost predicate SeatsStay(db: map<BookingId, Booking>, db': map<BookingId, Booking>) {
    forall id :: id in db ==> id in db' && db'[id].seats == db[id].seats
  }

  lemma LadderFrame(k: Keys, cals: set<CalendarRow>, db: map<BookingId, Booking>, db': map<BookingId, Booking>, tx: Tx)
    requires Ladder(k, cals, db, tx) && SeatsStay(db, db')
    ensures Ladder(k, cals, db', tx)
  {
  }

  lemma LadderPut(k: Keys, cals: set<CalendarRow>, s: State, t: TxId, tx: Tx)
    requires AllLadder(k, cals, s) && Ladder(k, cals, s.db, tx)
    ensures AllLadder(k, cals, Put(s, t, tx)) && AllLadder(k, cals, End(s, t))
  {
  }

  lemma LadderCalendars(k: Keys, cals: set<CalendarRow>, s: State, t: TxId, todo: seq<int>)
    requires AllLadder(k, cals, s) && AllOrdered(s) && Enabled(k, s, ReadCalendars(t, todo))
    ensures AllLadder(k, cals, Apply(k, s, ReadCalendars(t, todo)))
  {
    var tx := s.txs[t];
    assert Ordered(s.db, tx) && Ladder(k, cals, s.db, tx);
    LadderPut(k, cals, s, t, tx.(pc := Locking(tx.pc.hosts, tx.pc.second, todo)));
  }

  lemma LadderTake(k: Keys, cals: set<CalendarRow>, s: State, t: TxId)
    requires AllLadder(k, cals, s) && AllOrdered(s) && Enabled(k, s, TakeKey(t))
    ensures AllLadder(k, cals, Apply(k, s, TakeKey(t)))
  {
    var tx := s.txs[t];
    assert Ordered(s.db, tx) && Ladder(k, cals, s.db, tx);
    ElementsTail(tx.pc.todo);
    assert tx.pc.todo[0] in Elements(tx.pc.todo);
    LadderPut(k, cals, s, t, Apply(k, s, TakeKey(t)).txs[t]);
  }

  lemma LadderLocksDone(k: Keys, cals: set<CalendarRow>, s: State, t: TxId)
    requires AllLadder(k, cals, s) && Enabled(k, s, LocksDone(t))
    ensures AllLadder(k, cals, Apply(k, s, LocksDone(t)))
  {
    var tx := s.txs[t];
    assert Ladder(k, cals, s.db, tx);
    EmptyElements(tx.pc.todo);
    LadderPut(k, cals, s, t, AfterLocks(tx));
  }

  lemma LadderRead(k: Keys, cals: set<CalendarRow>, s: State, step: Step)
    requires AllLadder(k, cals, s) && Enabled(k, s, step) && (step.Begin? || step.ReadBooking? || step.ReadSeats?)
    ensures AllLadder(k, cals, Apply(k, s, step))
  {
    var s' := Apply(k, s, step);
    assert !step.Begin? ==> Ladder(k, cals, s.db, s.txs[step.t]);
    if step.t in s'.txs {
      LadderPut(k, cals, s, step.t, s'.txs[step.t]);
    }
  }

  lemma LadderDecide(k: Keys, cals: set<CalendarRow>, s: State, step: Step)
    requires AllLadder(k, cals, s) && Enabled(k, s, step)
    requires step.Check? || step.Advance? || step.Write? || step.Abort?
    ensures AllLadder(k, cals, Apply(k, s, step))
  {
  }

  /** Neither a commit nor a cancellation changes the seats of a stored booking. */
  lemma SeatsStayStored(k: Keys, s: State, step: Step)
    requires Inv(k, s, {}) && Enabled(k, s, step) && (step.Commit? || step.Cancel?)
    ensures SeatsStay(s.db, Apply(k, s, step).db)
  {
    assert step.Commit? ==> TxOk(k, s.db, {}, s.txs[step.t]);
  }

  lemma LadderStore(k: Keys, cals: set<CalendarRow>, s: State, step: Step)
    requires AllLadder(k, cals, s) && Inv(k, s, {}) && Enabled(k, s, step) && (step.Commit? || step.Cancel?)
    ensures AllLadder(k, cals, Apply(k, s, step))
  {
    var s' := Apply(k, s, step);
    SeatsStayStored(k, s, step);
    forall t | t in s'.txs ensures Ladder(k, cals, s'.db, s'.txs[t]) {
      LadderFrame(k, cals, s.db, s'.db, s.txs[t]);
    }
  }

  lemma LadderLockStep(k: Keys, cals: set<CalendarRow>, s: State, step: Step)
    requires AllLadder(k, cals, s) && AllOrdered(s) && Enabled(k, s, step)
    requires step.ReadCalendars? || step.TakeKey? || step.LocksDone?
    ensures AllLadder(k, cals, Apply(k, s, step))
  {
    match step
    case ReadCalendars(t, todo) => LadderCalendars(k, cals, s, t, todo);
    case TakeKey(t) => LadderTake(k, cals, s, t);
    case LocksDone(t) => LadderLocksDone(k, cals, s, t);
  }

  lemma LadderStep(k: Keys, cals: set<CalendarRow>, s: State, step: Step)
    requires AllLadder(k, cals, s) && AllOrdered(s) && Inv(k, s, {}) && Enabled(k, s, step) && !step.SetCalendars?
    ensures AllLadder(k, cals, Apply(k, s, step))
  {
    if step.ReadCalendars? || step.TakeKey? || step.LocksDone? {
      LadderLockStep(k, cals, s, step);
    } else if step.Begin? || step.ReadBooking? || step.ReadSeats? {
      LadderRead(k, cals, s, step);
    } else if step.Commit? || step.Cancel? {
      LadderStore(k, cals, s, step);
    } else {
      LadderDecide(k, cals, s, step);
    }
  }

  ghost predicate CalendarsFixed(run: seq<Step>) {
    forall i :: 0 <= i < |run| ==> !run[i].SetCalendars?
  }

  lemma {:induction false} LadderRun(k: Keys, s: State, run: seq<Step>)
    requires IsRun(k, s, run) && CalendarsFixed(run) && AllLadder(k, s.cals, s) && AllOrdered(s) && Inv(k, s, {})
    ensures AllLadder(k, s.cals, After(k, s, run)) && AllOrdered(After(k, s, run)) && Inv(k, After(k, s, run), {})
    decreases |run|
  {
    if run != [] {
      LadderStep(k, s.cals, s, run[0]);
      OrderedStep(k, s, run[0]);
      KeepStep(k, s, {}, run[0]);
      LadderRun(k, Apply(k, s, run[0]), run[1..]);
    }
  }

  // ---------------------------------------------------------------- what was read of the booking

  /** What a Reschedule has read satisfies r: the booking's seats and its primary host. */
  type Relation = (set<HostId>, HostId) -> bool

  ghost predicate HasRead(r: Relation, db: map<BookingId, Booking>, tx: Tx) {
    tx.op.Reschedule? && !tx.pc.Started? ==> tx.op.id in db && r(db[tx.op.id].seats, tx.primary)
  }

  ghost predicate AllRead(r: Relation, s: State) {
    forall t :: t in s.txs ==> HasRead(r, s.db, s.txs[t])
  }

  /** If the step reads a booking for a Reschedule, r holds of it. */
  ghost predicate Reads(r: Relation, s: State, step: Step) {
    step.ReadBooking? && step.t in s.txs && s.txs[step.t].op.Reschedule? && s.txs[step.t].op.id in s.db ==>
      r(s.db[s.txs[step.t].op.id].seats, s.db[s.txs[step.t].op.id].host)
  }

  ghost predicate RunReads(k: Keys, r: Relation, s: State, run: seq<Step>)
    requires IsRun(k, s, run)
    decreases |run|
  {
    run == [] || (Reads(r, s, run[0]) && RunReads(k, r, Apply(k, s, run[0]), run[1..]))
  }

  /** A transaction keeps its operation and, once it has read the booking, the primary host. */
  ghost predicate Kept(s: State, tx: Tx, tx': Tx) {
    && tx'.op == tx.op && (!tx.pc.Started? ==> !tx'.pc.Started? && tx'.primary == tx.primary)
    && (tx.pc.Started? && !tx'.pc.Started? && tx.op.Reschedule? ==>
          tx.op.id in s.db && tx'.primary == s.db[tx.op.id].host)
  }

  lemma TxKept(k: Keys, s: State, step: Step, t: TxId)
    requires Enabled(k, s, step) && t in s.txs && t in Apply(k, s, step).txs && !step.Commit? && !step.Cancel?
    ensures Apply(k, s, step).db == s.db && Kept(s, s.txs[t], Apply(k, s, step).txs[t])
    ensures !s.txs[t].pc.Started? || Apply(k, s, step).txs[t].pc.Started? || step == ReadBooking(t)
  {
  }

  lemma {:induction false} ReadRun(k: Keys, r: Relation, s: State, run: seq<Step>)
    requires IsRun(k, s, run) && RunReads(k, r, s, run) && AllRead(r, s) && Inv(k, s, {})
    ensures AllRead(r, After(k, s, run))
    decreases |run|
  {
    if run != [] {
      var s' := Apply(k, s, run[0]);
      ReadStep(k, r, s, run[0]);
      KeepStep(k, s, {}, run[0]);
      ReadRun(k, r, s', run[1..]);
    }
  }

  lemma ReadStep(k: Keys, r: Relation, s: State, step: Step)
    requires Enabled(k, s, step) && Reads(r, s, step) && AllRead(r, s) && Inv(k, s, {})
    ensures AllRead(r, Apply(k, s, step))
  {
    var s' := Apply(k, s, step);
    if step.Commit? || step.Cancel? {
      SeatsStayStored(k, s, step);
    } else {
      forall t | t in s'.txs ensures HasRead(r, s'.db, s'.txs[t]) {
        if t in s.txs {
          TxKept(k, s, step, t);
          assert HasRead(r, s.db, s.txs[t]);
        }
      }
    }
  }

  // ---------------------------------------------------------------- a circle shows a booking prone

  /** A state a run with fixed calendars reaches. */
  ghost predicate Reached(k: Keys, cals: set<CalendarRow>, s: State) {
    AllLadder(k, cals, s) && AllOrdered(s) && Inv(k, s, {})
  }

  /** What a transaction t holds that waits, in its second call, for a seat's key: all of the
      primary's keys, and beyond the awaited one nothing else. */
  ghost predicate Closes(k: Keys, cals: set<CalendarRow>, db: map<BookingId, Booking>, tx: Tx) {
    && SecondCall(tx) && AwaitsKey(tx) && tx.op.id in db && NextKey(tx) in KeySet(k, cals, db[tx.op.id].seats)
    && OwnPrimary(k, cals, tx) <= tx.held
    && forall y :: y in tx.held && NextKey(tx) < y ==> y in OwnPrimary(k, cals, tx)
  }

  /** A key of seat holders or the primary that is not the primary's is a seat holder's. */
  lemma SeatKey(k: Keys, cals: set<CalendarRow>, db: map<BookingId, Booking>, tx: Tx, hosts: seq<HostId>, x: int)
    requires SeatHosts(db, tx, hosts) && x in KeysFor(k, cals, hosts) && x !in OwnPrimary(k, cals, tx)
    ensures x in KeySet(k, cals, db[tx.op.id].seats)
  {
    var h := KeyHolder(k, cals, NonEmpty(hosts), x);
    assert h == tx.primary ==> NonEmpty([tx.primary]) == {h};
    KeySetMonotone(k, cals, cals, {h}, if h == tx.primary then {h} else db[tx.op.id].seats);
  }

  lemma DescentCloses(k: Keys, cals: set<CalendarRow>, s: State, v: TxId, t: TxId, u: TxId)
    requires Reached(k, cals, s) && Descent(s, v, t, u)
    ensures Closes(k, cals, s.db, s.txs[t])
  {
    var tx := s.txs[t];
    assert Ladder(k, cals, s.db, tx) && Ordered(s.db, tx) && tx.held !! s.txs[u].held;
    assert SecondCall(tx) && NextKey(tx) in Elements(tx.pc.todo);
    SeatKey(k, cals, s.db, tx, tx.pc.hosts, NextKey(tx));
  }

  /** Hosts with the key x all of whose other keys in `keys` come later. */
  ghost predicate TakesFirst(k: Keys, cals: set<CalendarRow>, hosts: seq<HostId>, x: int, keys: set<int>) {
    && x in KeysFor(k, cals, hosts)
    && forall y :: y in KeysFor(k, cals, hosts) && y in keys ==> x < y
  }

  /** Among the hosts a waiting transaction locks are some that take a key it holds before any
      key it does not. */
  lemma HolderTakesFirst(k: Keys, cals: set<CalendarRow>, db: map<BookingId, Booking>, ux: Tx, x: int, keys: set<int>)
      returns (hosts: seq<HostId>)
    requires Ladder(k, cals, db, ux) && Ordered(db, ux) && AwaitsKey(ux) && x in ux.held && ux.held !! keys
    ensures TakesFirst(k, cals, hosts, x, keys)
  {
    hosts := if ux.pc.second && x in OwnPrimary(k, cals, ux) then [ux.primary] else ux.pc.hosts;
    forall y | y in KeysFor(k, cals, hosts) && y in keys ensures x < y {
      assert y in Elements(ux.pc.todo);
    }
  }

  /** The hosts of a transaction that waits for y have y, and no earlier key that it does not hold. */
  lemma WaiterTakesFirst(k: Keys, cals: set<CalendarRow>, db: map<BookingId, Booking>, vx: Tx, keys: set<int>)
    requires Ladder(k, cals, db, vx) && Ordered(db, vx) && AwaitsKey(vx) && NextKey(vx) in keys && vx.held !! keys
    ensures NextKey(vx) in KeysFor(k, cals, vx.pc.hosts)
    ensures forall y :: y in KeysFor(k, cals, vx.pc.hosts) && y in keys ==> NextKey(vx) <= y
  {
    assert NextKey(vx) in Elements(vx.pc.todo);
  }

  lemma DescentIsProne(k: Keys, cals: set<CalendarRow>, s: State, v: TxId, t: TxId, u: TxId)
    requires Reached(k, cals, s) && Descent(s, v, t, u) && Closes(k, cals, s.db, s.txs[t])
    ensures Prone(k, cals, s.db[s.txs[t].op.id].seats, s.txs[t].primary)
  {
    var tx, x := s.txs[t], NextKey(s.txs[t]);
    var own := OwnPrimary(k, cals, tx);
    assert Ladder(k, cals, s.db, s.txs[u]) && Ordered(s.db, s.txs[u]) && s.txs[u].held !! tx.held;
    assert Ladder(k, cals, s.db, s.txs[v]) && Ordered(s.db, s.txs[v]) && s.txs[v].held !! tx.held;
    var hosts := HolderTakesFirst(k, cals, s.db, s.txs[u], x, own);
    WaiterTakesFirst(k, cals, s.db, s.txs[v], own);
    KeysForConcat(k, cals, hosts, s.txs[v].pc.hosts);
    assert ProneTo(k, cals, s.db[tx.op.id].seats, tx.primary, hosts + s.txs[v].pc.hosts, x);
  }

  /** Every circle of waiting transactions contains a Reschedule whose booking is prone. */
  lemma CycleIsProne(k: Keys, cals: set<CalendarRow>, s: State, p: seq<TxId>) returns (t: TxId)
    requires Reached(k, cals, s) && WaitCycle(s, p)
    ensures t in s.txs && SecondCall(s.txs[t]) && s.txs[t].op.id in s.db
    ensures Prone(k, cals, s.db[s.txs[t].op.id].seats, s.txs[t].primary)
  {
    var i, v, u := CycleDescends(s, p);
    t := p[i];
    DescentCloses(k, cals, s, v, t, u);
    DescentIsProne(k, cals, s, v, t, u);
  }

  lemma {:induction false} CycleReadsProne(k: Keys, r: Relation, s: State, run: seq<Step>, p: seq<TxId>)
      returns (seats: set<HostId>, primary: HostId)
    requires Initial(s) && IsRun(k, s, run) && CalendarsFixed(run) && RunReads(k, r, s, run)
    requires WaitCycle(After(k, s, run), p)
    ensures r(seats, primary) && Prone(k, s.cals, seats, primary)
  {
    LadderRun(k, s, run);
    ReadRun(k, r, s, run);
    var c := After(k, s, run);
    var t := CycleIsProne(k, s.cals, c, p);
    seats, primary := c.db[c.txs[t].op.id].seats, c.txs[t].primary;
    assert HasRead(r, c.db, c.txs[t]);
  }

  /** Over any run with fixed calendars in which no Reschedule reads a prone booking, no
      transactions wait in a circle. */
  lemma NotProneNeverCycles(k: Keys, r: Relation, s: State, run: seq<Step>, p: seq<TxId>)
    requires Initial(s) && IsRun(k, s, run) && CalendarsFixed(run) && RunReads(k, r, s, run)
    requires forall seats, primary :: r(seats, primary) ==> !Prone(k, s.cals, seats, primary)
    ensures !WaitCycle(After(k, s, run), p)
  {
    if WaitCycle(After(k, s, run), p) {
      var seats, primary := CycleReadsProne(k, r, s, run, p);
    }
  }

  /** So it is when every Reschedule reads a booking that is in order. */
  lemma InOrderNeverCycles(k: Keys, r: Relation, s: State, run: seq<Step>, p: seq<TxId>)
    requires Initial(s) && IsRun(k, s, run) && CalendarsFixed(run) && RunReads(k, r, s, run)
    requires forall seats, primary :: r(seats, primary) ==> InOrder(k, s.cals, seats, primary)
    ensures !WaitCycle(After(k, s, run), p)
  {
    forall seats, primary | r(seats, primary) ensures !Prone(k, s.cals, seats, primary) {
      InOrderIsNotProne(k, s.cals, seats, primary);
    }
    NotProneNeverCycles(k, r, s, run, p);
  }

  // ---------------------------------------------------------------- runs about given bookings

  /** The bookings a run may reschedule, and to whom it may reassign them. */
  datatype Scope = Scope(ids: set<BookingId>, moves: iset<(BookingId, HostId)>)

  ghost predicate Allowed(step: Step, sc: Scope) {
    && !step.SetCalendars?
    && (step.Begin? && step.op.Reschedule? ==> step.op.id in sc.ids)
    && (step.Begin? && step.op.Reassign? && step.op.id in sc.ids ==> (step.op.id, step.op.newHost) in sc.moves)
  }

  ghost predicate Within(run: seq<Step>, sc: Scope) {
    forall i :: 0 <= i < |run| ==> Allowed(run[i], sc)
  }

  /** The booking's primary host at the start, or one it may be reassigned to. */
  ghost predicate MayLead(db: map<BookingId, Booking>, sc: Scope, id: BookingId, host: HostId) {
    id in sc.ids && id in db && (host == db[id].host || (id, host) in sc.moves)
  }

  ghost predicate TxWithin(sc: Scope, tx: Tx) {
    && (tx.op.Reschedule? ==> tx.op.id in sc.ids)
    && (tx.op.Reassign? && tx.op.id in sc.ids ==> (tx.op.id, tx.op.newHost) in sc.moves)
  }

  /** From the rows db, transactions within the scope have reached s. */
  ghost predicate StateWithin(db: map<BookingId, Booking>, sc: Scope, s: State) {
    && (forall id :: id in sc.ids ==>
          id in db && id in s.db && s.db[id].seats == db[id].seats && MayLead(db, sc, id, s.db[id].host))
    && (forall t :: t in s.txs ==> TxWithin(sc, s.txs[t]))
  }

  lemma WithinStored(k: Keys, db: map<BookingId, Booking>, sc: Scope, s: State, step: Step)
    requires StateWithin(db, sc, s) && Inv(k, s, {}) && Enabled(k, s, step) && (step.Commit? || step.Cancel?)
    ensures StateWithin(db, sc, Apply(k, s, step))
  {
    assert step.Commit? ==> TxOk(k, s.db, {}, s.txs[step.t]) && TxWithin(sc, s.txs[step.t]);
  }

  /** A new transaction is the one the step begins; the others keep their operation. */
  lemma OpsStay(k: Keys, s: State, step: Step)
    requires Enabled(k, s, step) && !step.Commit? && !step.Cancel?
    ensures Apply(k, s, step).db == s.db
    ensures forall t :: t in Apply(k, s, step).txs ==>
              if t in s.txs then Apply(k, s, step).txs[t].op == s.txs[t].op
              else step.Begin? && Apply(k, s, step).txs[t].op == step.op
  {
  }

  lemma WithinOps(db: map<BookingId, Booking>, sc: Scope, s: State, s': State, step: Step)
    requires StateWithin(db, sc, s) && Allowed(step, sc) && s'.db == s.db
    requires forall t :: t in s'.txs ==>
               if t in s.txs then s'.txs[t].op == s.txs[t].op else step.Begin? && s'.txs[t].op == step.op
    ensures StateWithin(db, sc, s')
  {
  }

  lemma WithinStep(k: Keys, db: map<BookingId, Booking>, sc: Scope, s: State, step: Step)
    requires StateWithin(db, sc, s) && Inv(k, s, {}) && Enabled(k, s, step) && Allowed(step, sc)
    ensures StateWithin(db, sc, Apply(k, s, step))
  {
    if step.Commit? || step.Cancel? {
      WithinStored(k, db, sc, s, step);
    } else {
      OpsStay(k, s, step);
      WithinOps(db, sc, s, Apply(k, s, step), step);
    }
  }

  /** Every Reschedule of the run reads one of the bookings, with its seats and a possible lead. */
  lemma {:induction false} WithinReads(k: Keys, r: Relation, db: map<BookingId, Booking>, sc: Scope, s: State,
                                       run: seq<Step>)
    requires IsRun(k, s, run) && Within(run, sc) && StateWithin(db, sc, s) && Inv(k, s, {})
    requires forall id, host :: MayLead(db, sc, id, host) ==> r(db[id].seats, host)
    ensures RunReads(k, r, s, run)
    decreases |run|
  {
    if run != [] {
      assert run[0].ReadBooking? ==> TxWithin(sc, s.txs[run[0].t]);
      WithinStep(k, db, sc, s, run[0]);
      KeepStep(k, s, {}, run[0]);
      WithinReads(k, r, db, sc, Apply(k, s, run[0]), run[1..]);
    }
  }
}

/** The booking write protocol on PostgreSQL: Create, Reschedule, ReassignHost and the
    cancellations of internal/booking/service.go, running concurrently.

    Every step below is one statement of one transaction (or one autocommitted update).
    A statement reads the rows committed before it; a transaction's own write stays
    invisible until its commit; advisory locks are held from the statement that takes
    them until the transaction ends. Any transaction may end without effect at any point. */
module BookingProtocol {
  import opened HostLock
  import Rotation
  import Timestamps

  type TxId = nat

  datatype Params = Params(
    eventType: string, hostIds: seq<HostId>, required: seq<HostId>, optional: seq<HostId>,
    roundRobin: bool, priority: bool, start: int, end: int, now: nat)

  datatype Op =
    | Create(p: Params)
    | Reschedule(id: BookingId, start: int, end: int)
    | Reassign(id: BookingId, newHost: HostId)

  /** Which of Create's host loops is running; the other operations have one only. */
  datatype Stage = Fixed | Pool | Optional

  datatype Pc =
    | Started                                              // before the booking row is read
    | Keying(hosts: seq<HostId>, second: bool)             // inside lockHosts, before its query
    | Locking(hosts: seq<HostId>, second: bool, todo: seq<int>)
    | ReadingSeats
    | Checking(stage: Stage, rest: seq<HostId>)
    | Writing
    | Written(row: BookingId)

  datatype Tx = Tx(
    op: Op, pc: Pc, held: set<int>,
    primary: HostId, start: int, end: int,                 // read from, or given for, the booking
    seats: seq<HostId>,                                    // Reschedule's host list
    free: seq<HostId>, attending: seq<HostId>, chosen: HostId)

  datatype State = State(db: map<BookingId, Booking>, cals: set<CalendarRow>, txs: map<TxId, Tx>)

  datatype Step =
    | Begin(t: TxId, op: Op)
    | ReadBooking(t: TxId)
    | ReadCalendars(t: TxId, todo: seq<int>)
    | TakeKey(t: TxId)
    | LocksDone(t: TxId)
    | ReadSeats(t: TxId, order: seq<HostId>)
    | Check(t: TxId)
    | Advance(t: TxId)
    | Write(t: TxId, row: BookingId)
    | Commit(t: TxId)
    | Abort(t: TxId)
    | Cancel(id: BookingId)
    | SetCalendars(cals: set<CalendarRow>)

  // ---------------------------------------------------------------- the operations

  /** The hosts whose availability the operation decides on. */
  ghost function Subjects(tx: Tx): (r: seq<HostId>) {
    match tx.op
    case Create(p) => p.hostIds + p.required + p.optional
    case Reschedule(_, _, _) => tx.seats
    case Reassign(_, newHost) => [newHost]
  }

  function Exclude(op: Op): (id: BookingId) {
    if op.Create? then "" else op.id
  }

  ghost predicate Busy(s: State, tx: Tx, h: HostId) {
    HostBusy(s.db, s.cals, h, tx.start, tx.end, Exclude(tx.op))
  }

  /** Upcoming live bookings of the event type that h attends. */
  function Load(db: map<BookingId, Booking>, p: Params, h: HostId): (r: set<BookingId>) {
    set id | id in db && db[id].eventType == p.eventType && !db[id].cancelled
             && Timestamps.EndsAfter(db[id].end, p.now) && h in db[id].seats
  }

  function LoadOf(db: map<BookingId, Booking>, p: Params, h: HostId): (n: nat) {
    |Load(db, p, h)|
  }

  /** The booking is part of the load of h. */
  predicate Counts(b: Booking, p: Params, h: HostId) {
    !b.cancelled && b.eventType == p.eventType && h in b.seats && Timestamps.EndsAfter(b.end, p.now)
  }

  /** A new booking raises the load of exactly the hosts it counts for. */
  lemma LoadFollowsCreate(db: map<BookingId, Booking>, p: Params, h: HostId, id: BookingId, b: Booking)
    requires id !in db
    ensures LoadOf(db[id := b], p, h) == LoadOf(db, p, h) + if Counts(b, p, h) then 1 else 0
  {
    var db' := db[id := b];
    assert Load(db', p, h) == Load(db, p, h) + if Counts(b, p, h) then {id} else {};
  }

  /** Cancelling a booking lowers the load of exactly the hosts it counted for. */
  lemma LoadFollowsCancel(db: map<BookingId, Booking>, p: Params, h: HostId, id: BookingId)
    requires id in db
    ensures LoadOf(db[id := db[id].(cancelled := true)], p, h) ==
            LoadOf(db, p, h) - if Counts(db[id], p, h) then 1 else 0
  {
    var db' := db[id := db[id].(cancelled := true)];
    assert Load(db, p, h) == Load(db', p, h) + if Counts(db[id], p, h) then {id} else {};
  }

  function LoadMap(db: map<BookingId, Booking>, p: Params, free: seq<HostId>): (m: map<HostId, nat>) {
    map h | h in free :: LoadOf(db, p, h)
  }

  /** Inserting the seats succeeds: no host twice in one booking, and every host a user. */
  ghost predicate SeatsInsertable(attending: seq<HostId>) {
    "" !in attending && forall i, j :: 0 <= i < j < |attending| ==> attending[i] != attending[j]
  }

  lemma SeatsInsertableExactly(attending: seq<HostId>)
    ensures SeatsInsertable(attending) <==> "" !in attending && |set h | h in attending| == |attending|
  {
    NobodyTwice(attending);
  }

  ghost predicate RowFree(s: State, row: BookingId) {
    forall t :: t in s.txs && s.txs[t].pc.Written? ==> s.txs[t].pc.row != row
  }

  ghost function End(s: State, t: TxId): (s': State) {
    s.(txs := s.txs - {t})
  }

  ghost function Put(s: State, t: TxId, tx: Tx): (s': State) {
    s.(txs := s.txs[t := tx])
  }

  ghost predicate AtPc(s: State, t: TxId, step: Step) {
    t in s.txs && match step
      case ReadBooking(_) => s.txs[t].pc.Started? && !s.txs[t].op.Create?
      case ReadCalendars(_, _) => s.txs[t].pc.Keying?
      case TakeKey(_) => s.txs[t].pc.Locking? && s.txs[t].pc.todo != []
      case LocksDone(_) => s.txs[t].pc.Locking? && s.txs[t].pc.todo == []
      case ReadSeats(_, _) => s.txs[t].pc.ReadingSeats? && s.txs[t].op.Reschedule?
      case Check(_) => s.txs[t].pc.Checking? && s.txs[t].pc.rest != []
      case Advance(_) => s.txs[t].pc.Checking? && s.txs[t].pc.rest == []
      case Write(_, _) => s.txs[t].pc.Writing?
      case Commit(_) => s.txs[t].pc.Written?
      case _ => true
  }

  ghost predicate Enabled(k: Keys, s: State, step: Step) {
    match step
    case Begin(t, op) => t !in s.txs && (op.Create? ==> op.p.hostIds != [])
    case ReadCalendars(t, todo) =>
      && AtPc(s, t, step) && Increasing(todo)
      && Elements(todo) == KeySet(k, s.cals, NonEmpty(s.txs[t].pc.hosts))
    case TakeKey(t) =>
      && AtPc(s, t, step)
      && forall u :: u in s.txs && u != t ==> s.txs[t].pc.todo[0] !in s.txs[u].held
    case ReadSeats(t, order) =>
      && AtPc(s, t, step) && s.txs[t].op.id in s.db
      && (forall h :: h in order <==> h in s.db[s.txs[t].op.id].seats)
    case Write(t, row) =>
      && AtPc(s, t, step) && RowFree(s, row)
      && if s.txs[t].op.Create? then row != "" && row !in s.db
         else row == s.txs[t].op.id && row in s.db
    case Cancel(id) => id in s.db && !s.db[id].cancelled && RowFree(s, id)
    case SetCalendars(_) => true
    case ReadBooking(t) => AtPc(s, t, step)
    case LocksDone(t) => AtPc(s, t, step)
    case Check(t) => AtPc(s, t, step)
    case Advance(t) => AtPc(s, t, step)
    case Commit(t) => AtPc(s, t, step)
    case Abort(t) => t in s.txs
  }

  ghost function BeginTx(op: Op): (tx: Tx) {
    match op
    case Create(p) =>
      Tx(op, Keying(p.hostIds + p.required + p.optional, false), {}, "", p.start, p.end, [], [], [], "")
    case Reschedule(_, start, end) => Tx(op, Started, {}, "", start, end, [], [], [], "")
    case Reassign(_, _) => Tx(op, Started, {}, "", 0, 0, [], [], [], "")
  }

  /** A missing or cancelled booking ends the transaction, and so does a reassignment to
      the host it already has. */
  ghost function AfterReadBooking(s: State, t: TxId): (s': State)
    requires AtPc(s, t, ReadBooking(t))
  {
    var tx := s.txs[t];
    if tx.op.id !in s.db || s.db[tx.op.id].cancelled then End(s, t)
    else
      var b := s.db[tx.op.id];
      if tx.op.Reschedule? then Put(s, t, tx.(primary := b.host, pc := Keying([b.host], false)))
      else if b.host == tx.op.newHost then End(s, t)
      else Put(s, t, tx.(primary := b.host, start := b.start, end := b.end,
                         pc := Keying([b.host, tx.op.newHost], false)))
  }

  ghost function AfterLocks(tx: Tx): (tx': Tx)
    requires tx.pc.Locking?
  {
    match tx.op
    case Create(p) => tx.(pc := Checking(Fixed, if p.roundRobin then p.required else p.hostIds))
    case Reschedule(_, _, _) => tx.(pc := if tx.pc.second then Checking(Fixed, tx.seats) else ReadingSeats)
    case Reassign(_, newHost) => tx.(pc := Checking(Fixed, [newHost]))
  }

  ghost function AfterCheck(s: State, t: TxId): (s': State)
    requires AtPc(s, t, Check(t))
  {
    var tx := s.txs[t];
    var h := tx.pc.rest[0];
    var next := tx.(pc := Checking(tx.pc.stage, tx.pc.rest[1..]));
    match tx.pc.stage
    case Fixed =>
      if Busy(s, tx, h) then End(s, t) else Put(s, t, next.(attending := tx.attending + [h]))
    case Pool =>
      Put(s, t, if Busy(s, tx, h) then next else next.(free := tx.free + [h]))
    case Optional =>
      Put(s, t, if h in tx.attending || Busy(s, tx, h) then next
                else next.(attending := tx.attending + [h]))
  }

  ghost function AfterAdvance(s: State, t: TxId): (s': State)
    requires AtPc(s, t, Advance(t))
  {
    var tx := s.txs[t];
    if !tx.op.Create? || tx.pc.stage == Optional then Put(s, t, tx.(pc := Writing))
    else
      var p := tx.op.p;
      if tx.pc.stage == Pool then
        if tx.free == [] then End(s, t)
        else
          var h := Rotation.PickRotationHost(LoadMap(s.db, p, tx.free), p.priority, tx.free);
          Put(s, t, tx.(chosen := h, attending := tx.attending + [h], pc := Checking(Optional, p.optional)))
      else if p.roundRobin then Put(s, t, tx.(pc := Checking(Pool, p.hostIds)))
      else Put(s, t, tx.(chosen := if p.hostIds == [] then "" else p.hostIds[0],
                         pc := Checking(Optional, p.optional)))
  }

  ghost function NewBooking(tx: Tx): (b: Booking)
    requires tx.op.Create?
  {
    Booking(tx.op.p.eventType, tx.chosen, tx.start, tx.end, false,
            (set h | h in tx.attending), tx.chosen)
  }

  ghost function Committed(s: State, tx: Tx): (db: map<BookingId, Booking>)
    requires tx.pc.Written?
  {
    var row := tx.pc.row;
    match tx.op
    case Create(_) => s.db[row := NewBooking(tx)]
    case Reschedule(_, _, _) =>
      if row in s.db then s.db[row := s.db[row].(start := tx.start, end := tx.end)] else s.db
    case Reassign(_, newHost) =>
      if row in s.db then s.db[row := s.db[row].(host := newHost)] else s.db
  }

  ghost function Apply(k: Keys, s: State, step: Step): (s': State)
    requires Enabled(k, s, step)
  {
    match step
    case Begin(t, op) => Put(s, t, BeginTx(op))
    case ReadBooking(t) => AfterReadBooking(s, t)
    case ReadCalendars(t, todo) =>
      Put(s, t, s.txs[t].(pc := Locking(s.txs[t].pc.hosts, s.txs[t].pc.second, todo)))
    case TakeKey(t) =>
      var tx := s.txs[t];
      Put(s, t, tx.(held := tx.held + {tx.pc.todo[0]}, pc := tx.pc.(todo := tx.pc.todo[1..])))
    case LocksDone(t) => Put(s, t, AfterLocks(s.txs[t]))
    case ReadSeats(t, order) =>
      var tx := s.txs[t];
      var seats := if order == [] then [tx.primary] else order;
      Put(s, t, tx.(seats := seats, pc := Keying(seats, true)))
    case Check(t) => AfterCheck(s, t)
    case Advance(t) => AfterAdvance(s, t)
    case Write(t, row) =>
      var tx := s.txs[t];
      if tx.op.Create? && !SeatsInsertable(tx.attending) then End(s, t)
      else Put(s, t, tx.(pc := Written(row)))
    case Commit(t) => End(s.(db := Committed(s, s.txs[t])), t)
    case Abort(t) => End(s, t)
    case Cancel(id) => s.(db := s.db[id := s.db[id].(cancelled := true)])
    case SetCalendars(cals) => s.(cals := cals)
  }

  /** Any transaction may stop at any point, and leaves nothing behind. */
  lemma MayStop(k: Keys, s: State, t: TxId)
    requires t in s.txs
    ensures Enabled(k, s, Abort(t)) && Apply(k, s, Abort(t)) == State(s.db, s.cals, s.txs - {t})
  {
  }

  // ---------------------------------------------------------------- runs

  ghost predicate IsRun(k: Keys, s: State, run: seq<Step>)
    decreases |run|
  {
    run == [] || (Enabled(k, s, run[0]) && IsRun(k, Apply(k, s, run[0]), run[1..]))
  }

  ghost function After(k: Keys, s: State, run: seq<Step>): (s': State)
    requires IsRun(k, s, run)
    decreases |run|
  {
    if run == [] then s else After(k, Apply(k, s, run[0]), run[1..])
  }

  /** The calendar rows w are saved in every state of the run. */
  ghost predicate KeepsSaved(k: Keys, s: State, run: seq<Step>, w: set<CalendarRow>)
    requires IsRun(k, s, run)
    decreases |run|
  {
    w <= s.cals && (run == [] || KeepsSaved(k, Apply(k, s, run[0]), run[1..], w))
  }

  /** No two live bookings overlap in time and share a seat holder. */
  ghost predicate NoDoubleBooking(db: map<BookingId, Booking>) {
    forall a, b ::
      (a in db && b in db && a != b && !db[a].cancelled && !db[b].cancelled
       && Overlaps(db[a], db[b].start, db[b].end))
      ==> db[a].seats !! db[b].seats
  }

  ghost predicate GoodDb(db: map<BookingId, Booking>) {
    && "" !in db
    && (forall id :: id in db ==> "" !in db[id].seats)
    && NoDoubleBooking(db)
  }

  /** Nothing is in progress, and the stored bookings are sound. */
  ghost predicate Initial(s: State) {
    s.txs == map[] && GoodDb(s.db)
  }

  lemma {:induction false} Extend(k: Keys, s: State, run: seq<Step>, step: Step)
    requires IsRun(k, s, run) && Enabled(k, After(k, s, run), step)
    ensures IsRun(k, s, run + [step])
    ensures After(k, s, run + [step]) == Apply(k, After(k, s, run), step)
    decreases |run|
  {
    if run == [] {
      assert run + [step] == [step] && [step][1..] == [];
    } else {
      Extend(k, Apply(k, s, run[0]), run[1..], step);
      assert (run + [step])[1..] == run[1..] + [step];
    }
  }

  /** Splicing two runs. */
  lemma {:induction false} Splice(k: Keys, s: State, run: seq<Step>, more: seq<Step>)
    requires IsRun(k, s, run) && IsRun(k, After(k, s, run), more)
    ensures IsRun(k, s, run + more) && After(k, s, run + more) == After(k, After(k, s, run), more)
    decreases |run|
  {
    if run == [] {
      assert run + more == more;
    } else {
      Splice(k, Apply(k, s, run[0]), run[1..], more);
      assert (run + more)[1..] == run[1..] + more;
    }
  }

  // ---------------------------------------------------------------- the invariant

  ghost predicate AfterLocking(tx: Tx) {
    tx.pc.Checking? || tx.pc.Writing? || tx.pc.Written?
  }

  /** The keys a lockHosts call is for are held, or still to be taken by this call. */
  ghost predicate KeysOk(k: Keys, w: set<CalendarRow>, tx: Tx) {
    match tx.pc
    case Keying(hosts, second) => HostsOk(tx, hosts, second)
    case Locking(hosts, second, todo) =>
      HostsOk(tx, hosts, second) && KeySet(k, w, NonEmpty(hosts)) <= tx.held + Elements(todo)
    case _ => AfterLocking(tx) ==> KeySet(k, w, NonEmpty(Subjects(tx))) <= tx.held
  }

  /** The last lockHosts call of an operation covers all its subjects. */
  ghost predicate HostsOk(tx: Tx, hosts: seq<HostId>, second: bool) {
    && (second ==> tx.op.Reschedule?)
    && ((tx.op.Reschedule? && !second) || forall h :: h in Subjects(tx) ==> h in hosts)
  }

  /** Every host counted as free was found free, is still free, and is locked. */
  ghost predicate FoundFree(db: map<BookingId, Booking>, w: set<CalendarRow>, tx: Tx) {
    && (!AfterLocking(tx) ==> tx.attending == [] && tx.free == [])
    && (forall h :: h in tx.attending || h in tx.free ==> h in Subjects(tx))
    && (forall h :: h != "" && (h in tx.attending || h in tx.free) ==>
          !HostBusy(db, w, h, tx.start, tx.end, Exclude(tx.op)))
    && (tx.pc.Checking? ==> forall h :: h in tx.pc.rest ==> h in Subjects(tx))
  }

  /** The host list Reschedule works with is the booking's seat list, which never changes,
      and by the time it writes every seat holder has been found free. */
  ghost predicate SeatsOk(db: map<BookingId, Booking>, tx: Tx) {
    tx.op.Reschedule? ==>
      && (!tx.pc.Started? ==> tx.op.id in db)
      && ((tx.pc.Keying? && tx.pc.second) || (tx.pc.Locking? && tx.pc.second) || AfterLocking(tx) ==>
            tx.op.id in db && forall h :: h in db[tx.op.id].seats ==> h in tx.seats)
      && (AfterLocking(tx) ==> forall h :: h in tx.seats ==>
            h in tx.attending || (tx.pc.Checking? && tx.pc.stage == Fixed && h in tx.pc.rest))
  }

  ghost predicate WrittenOk(db: map<BookingId, Booking>, tx: Tx) {
    tx.pc.Written? ==>
      && tx.pc.row != ""
      && if tx.op.Create? then tx.pc.row !in db && SeatsInsertable(tx.attending)
         else tx.pc.row == tx.op.id && tx.pc.row in db
  }

  /** What locks and checks have established for one transaction, w being calendar rows
      that have been saved all along. */
  ghost predicate TxOk(k: Keys, db: map<BookingId, Booking>, w: set<CalendarRow>, tx: Tx) {
    KeysOk(k, w, tx) && FoundFree(db, w, tx) && SeatsOk(db, tx) && WrittenOk(db, tx)
  }

  ghost predicate LocksExclusive(s: State) {
    forall t, u :: t in s.txs && u in s.txs && t != u ==> s.txs[t].held !! s.txs[u].held
  }

  ghost predicate RowsExclusive(s: State) {
    forall t, u :: t in s.txs && u in s.txs && t != u && s.txs[t].pc.Written? && s.txs[u].pc.Written?
      ==> s.txs[t].pc.row != s.txs[u].pc.row
  }

  ghost predicate Inv(k: Keys, s: State, w: set<CalendarRow>) {
    && w <= s.cals
    && GoodDb(s.db)
    && LocksExclusive(s)
    && RowsExclusive(s)
    && forall t :: t in s.txs ==> TxOk(k, s.db, w, s.txs[t])
  }

  // ------------------------------------------------------- the invariant is kept

  /** Replacing one transaction keeps the invariant when its own part holds, it takes no
      key another one holds and claims no row another one has written. */
  lemma InvPut(k: Keys, s: State, w: set<CalendarRow>, t: TxId, tx: Tx)
    requires Inv(k, s, w) && TxOk(k, s.db, w, tx)
    requires forall u :: u in s.txs && u != t ==> tx.held !! s.txs[u].held
    requires tx.pc.Written? ==> RowFree(s, tx.pc.row)
    ensures Inv(k, Put(s, t, tx), w)
  {
  }

  lemma InvEnd(k: Keys, s: State, w: set<CalendarRow>, t: TxId)
    requires Inv(k, s, w)
    ensures Inv(k, End(s, t), w)
  {
  }

  lemma KeepBegin(k: Keys, s: State, w: set<CalendarRow>, t: TxId, op: Op)
    requires Inv(k, s, w) && Enabled(k, s, Begin(t, op))
    ensures Inv(k, Apply(k, s, Begin(t, op)), w)
  {
    InvPut(k, s, w, t, BeginTx(op));
  }

  lemma KeepReadBooking(k: Keys, s: State, w: set<CalendarRow>, t: TxId)
    requires Inv(k, s, w) && Enabled(k, s, ReadBooking(t))
    ensures Inv(k, Apply(k, s, ReadBooking(t)), w)
  {
    var s' := Apply(k, s, ReadBooking(t));
    assert TxOk(k, s.db, w, s.txs[t]);
    if t in s'.txs {
      InvPut(k, s, w, t, s'.txs[t]);
    } else {
      InvEnd(k, s, w, t);
    }
  }

  lemma KeepReadCalendars(k: Keys, s: State, w: set<CalendarRow>, t: TxId, todo: seq<int>)
    requires Inv(k, s, w) && Enabled(k, s, ReadCalendars(t, todo))
    ensures Inv(k, Apply(k, s, ReadCalendars(t, todo)), w)
  {
    var s' := Apply(k, s, ReadCalendars(t, todo));
    assert TxOk(k, s.db, w, s.txs[t]);
    var hosts := NonEmpty(s.txs[t].pc.hosts);
    KeySetMonotone(k, w, s.cals, hosts, hosts);
    InvPut(k, s, w, t, s'.txs[t]);
  }

  lemma KeepTakeKey(k: Keys, s: State, w: set<CalendarRow>, t: TxId)
    requires Inv(k, s, w) && Enabled(k, s, TakeKey(t))
    ensures Inv(k, Apply(k, s, TakeKey(t)), w)
  {
    var s' := Apply(k, s, TakeKey(t));
    var tx := s.txs[t];
    assert TxOk(k, s.db, w, tx);
    forall x | x in Elements(tx.pc.todo) ensures x == tx.pc.todo[0] || x in Elements(tx.pc.todo[1..]) {
      var i :| 0 <= i < |tx.pc.todo| && tx.pc.todo[i] == x;
      if i > 0 { assert tx.pc.todo[1..][i - 1] == x; }
    }
    InvPut(k, s, w, t, s'.txs[t]);
  }

  lemma LockedTx(k: Keys, db: map<BookingId, Booking>, w: set<CalendarRow>, tx: Tx)
    requires TxOk(k, db, w, tx) && tx.pc.Locking? && tx.pc.todo == []
    ensures TxOk(k, db, w, AfterLocks(tx))
  {
    var next := AfterLocks(tx);
    if AfterLocking(next) {
      assert NonEmpty(Subjects(next)) <= NonEmpty(tx.pc.hosts);
      KeySetMonotone(k, w, w, NonEmpty(Subjects(next)), NonEmpty(tx.pc.hosts));
    }
  }

  lemma KeepLocksDone(k: Keys, s: State, w: set<CalendarRow>, t: TxId)
    requires Inv(k, s, w) && Enabled(k, s, LocksDone(t))
    ensures Inv(k, Apply(k, s, LocksDone(t)), w)
  {
    assert TxOk(k, s.db, w, s.txs[t]);
    LockedTx(k, s.db, w, s.txs[t]);
    InvPut(k, s, w, t, AfterLocks(s.txs[t]));
  }

  lemma KeepReadSeats(k: Keys, s: State, w: set<CalendarRow>, t: TxId, order: seq<HostId>)
    requires Inv(k, s, w) && Enabled(k, s, ReadSeats(t, order))
    ensures Inv(k, Apply(k, s, ReadSeats(t, order)), w)
  {
    var s' := Apply(k, s, ReadSeats(t, order));
    assert TxOk(k, s.db, w, s.txs[t]);
    InvPut(k, s, w, t, s'.txs[t]);
  }

  /** A check moves one host from `rest` to the hosts found free, or drops it. */
  lemma CheckedTx(k: Keys, db: map<BookingId, Booking>, w: set<CalendarRow>, tx: Tx, tx': Tx, h: HostId)
    requires TxOk(k, db, w, tx) && tx.pc.Checking? && tx.pc.rest != [] && h == tx.pc.rest[0]
    requires tx' == tx.(pc := Checking(tx.pc.stage, tx.pc.rest[1..]), attending := tx'.attending, free := tx'.free)
    requires tx'.attending == tx.attending || tx'.attending == tx.attending + [h]
    requires tx'.free == tx.free || tx'.free == tx.free + [h]
    requires (tx'.attending == tx.attending && tx'.free == tx.free)
          || !HostBusy(db, w, h, tx.start, tx.end, Exclude(tx.op))
    requires tx.pc.stage == Fixed ==> tx'.attending == tx.attending + [h]
    ensures TxOk(k, db, w, tx')
  {
    assert tx.pc.rest == [h] + tx.pc.rest[1..];
    assert h in Subjects(tx) && Subjects(tx') == Subjects(tx);
  }

  lemma KeepCheck(k: Keys, s: State, w: set<CalendarRow>, t: TxId)
    requires Inv(k, s, w) && Enabled(k, s, Check(t))
    ensures Inv(k, Apply(k, s, Check(t)), w)
  {
    var s' := Apply(k, s, Check(t));
    if t in s'.txs {
      var tx := s.txs[t];
      BusyMonotone(s.db, w, s.cals, tx.pc.rest[0], tx.start, tx.end, Exclude(tx.op));
      assert TxOk(k, s.db, w, tx);
      CheckedTx(k, s.db, w, tx, s'.txs[t], tx.pc.rest[0]);
      InvPut(k, s, w, t, s'.txs[t]);
    } else {
      InvEnd(k, s, w, t);
    }
  }

  lemma AdvancedTx(k: Keys, s: State, w: set<CalendarRow>, t: TxId)
    requires AtPc(s, t, Advance(t)) && TxOk(k, s.db, w, s.txs[t])
    ensures var s' := AfterAdvance(s, t);
            t in s'.txs ==>
              && TxOk(k, s.db, w, s'.txs[t]) && s' == Put(s, t, s'.txs[t])
              && s'.txs[t].held == s.txs[t].held && !s'.txs[t].pc.Written?
    ensures t !in AfterAdvance(s, t).txs ==> AfterAdvance(s, t) == End(s, t)
  {
  }

  lemma KeepAdvance(k: Keys, s: State, w: set<CalendarRow>, t: TxId)
    requires Inv(k, s, w) && Enabled(k, s, Advance(t))
    ensures Inv(k, Apply(k, s, Advance(t)), w)
  {
    var s' := AfterAdvance(s, t);
    AdvancedTx(k, s, w, t);
    if t in s'.txs {
      InvPut(k, s, w, t, s'.txs[t]);
    } else {
      InvEnd(k, s, w, t);
    }
  }

  lemma KeepWrite(k: Keys, s: State, w: set<CalendarRow>, t: TxId, row: BookingId)
    requires Inv(k, s, w) && Enabled(k, s, Write(t, row))
    ensures Inv(k, Apply(k, s, Write(t, row)), w)
  {
    var s' := Apply(k, s, Write(t, row));
    assert TxOk(k, s.db, w, s.txs[t]);
    if t in s'.txs {
      InvPut(k, s, w, t, s'.txs[t]);
    } else {
      InvEnd(k, s, w, t);
    }
  }

  /** Cancelling a booking, or changing its primary host only, leaves everyone as free as before. */
  lemma KeepTouch(k: Keys, s: State, w: set<CalendarRow>, id: BookingId, b: Booking)
    requires Inv(k, s, w) && id in s.db
    requires b.seats == s.db[id].seats && b.start == s.db[id].start && b.end == s.db[id].end
    requires s.db[id].cancelled ==> b.cancelled
    ensures Inv(k, s.(db := s.db[id := b]), w)
  {
    var db' := s.db[id := b];
    assert NoDoubleBooking(db') by { assert NoDoubleBooking(s.db); }
    forall t | t in s.txs ensures TxOk(k, db', w, s.txs[t]) {
      var tx := s.txs[t];
      assert TxOk(k, s.db, w, tx);
      forall h ensures HostBusy(db', w, h, tx.start, tx.end, Exclude(tx.op))
                   ==> HostBusy(s.db, w, h, tx.start, tx.end, Exclude(tx.op)) {
        if HostBusy(db', w, h, tx.start, tx.end, Exclude(tx.op)) {
          var x :| x in db' && x != Exclude(tx.op) && Blocks(db'[x], w, h, tx.start, tx.end);
          assert Blocks(s.db[x], w, h, tx.start, tx.end);
        }
      }
    }
  }

  /** The lock argument: while t and u hold their locks, no host t decides on sees one that u
      seats. */
  lemma LocksSeparate(k: Keys, s: State, w: set<CalendarRow>, t: TxId, u: TxId, h: HostId, g: HostId)
    requires Inv(k, s, w) && t in s.txs && u in s.txs && t != u
    requires h in s.txs[t].attending || h in s.txs[t].free
    requires g in s.txs[u].attending
    requires h != "" && g != ""
    ensures !Sees(w, h, g)
  {
    var tt, tu := s.txs[t], s.txs[u];
    assert TxOk(k, s.db, w, tt) && TxOk(k, s.db, w, tu);
    if Sees(w, h, g) {
      var key := SeesSharesKey(k, w, h, g);
      KeySetMonotone(k, w, w, {h}, NonEmpty(Subjects(tt)));
      KeySetMonotone(k, w, w, {g}, NonEmpty(Subjects(tu)));
    }
  }

  /** Transaction u's commit puts booking b, whose seat holders u found free, at `row`. */
  ghost predicate Places(s: State, u: TxId, row: BookingId, b: Booking) {
    && u in s.txs && s.txs[u].pc == Written(row) && row != ""
    && (row in s.db ==> s.db[row].seats == b.seats && Exclude(s.txs[u].op) == row)
    && (row !in s.db ==> Exclude(s.txs[u].op) == "")
    && b.start == s.txs[u].start && b.end == s.txs[u].end
    && forall g :: g in b.seats ==> g in s.txs[u].attending && g != ""
  }

  lemma PlacedDbGood(k: Keys, s: State, w: set<CalendarRow>, u: TxId, row: BookingId, b: Booking)
    requires Inv(k, s, w) && Places(s, u, row, b)
    ensures GoodDb(s.db[row := b])
  {
    var db', tx := s.db[row := b], s.txs[u];
    assert TxOk(k, s.db, w, tx);
    forall x | x in s.db && x != row && !s.db[x].cancelled && Overlaps(s.db[x], b.start, b.end)
      ensures s.db[x].seats !! b.seats
    {
      forall g | g in b.seats ensures g !in s.db[x].seats {
        assert !HostBusy(s.db, w, g, tx.start, tx.end, Exclude(tx.op));
        assert !Blocks(s.db[x], w, g, tx.start, tx.end);
        assert Sees(w, g, g);
      }
    }
    assert NoDoubleBooking(s.db);
  }

  lemma PlacedOthersFree(k: Keys, s: State, w: set<CalendarRow>, u: TxId, row: BookingId, b: Booking,
                         t: TxId, h: HostId)
    requires Inv(k, s, w) && Places(s, u, row, b) && t in s.txs && t != u
    requires h != "" && (h in s.txs[t].attending || h in s.txs[t].free)
    ensures !HostBusy(s.db[row := b], w, h, s.txs[t].start, s.txs[t].end, Exclude(s.txs[t].op))
  {
    var tx, db' := s.txs[t], s.db[row := b];
    assert TxOk(k, s.db, w, tx);
    forall g | g in b.seats ensures !Sees(w, h, g) {
      LocksSeparate(k, s, w, t, u, h, g);
    }
    forall x | x in db' && x != Exclude(tx.op)
      ensures !Blocks(db'[x], w, h, tx.start, tx.end)
    {
      if x != row {
        assert !Blocks(s.db[x], w, h, tx.start, tx.end);
      }
    }
  }

  lemma PlacedOthersOk(k: Keys, s: State, w: set<CalendarRow>, u: TxId, row: BookingId, b: Booking, t: TxId)
    requires Inv(k, s, w) && Places(s, u, row, b) && t in s.txs && t != u
    ensures TxOk(k, s.db[row := b], w, s.txs[t])
  {
    var tx, db' := s.txs[t], s.db[row := b];
    assert TxOk(k, s.db, w, tx);
    forall h | h != "" && (h in tx.attending || h in tx.free)
      ensures !HostBusy(db', w, h, tx.start, tx.end, Exclude(tx.op))
    {
      PlacedOthersFree(k, s, w, u, row, b, t, h);
    }
    assert tx.pc.Written? ==> tx.pc.row != row;
  }

  lemma KeepPlace(k: Keys, s: State, w: set<CalendarRow>, u: TxId, row: BookingId, b: Booking)
    requires Inv(k, s, w) && Places(s, u, row, b)
    ensures Inv(k, End(s.(db := s.db[row := b]), u), w)
  {
    PlacedDbGood(k, s, w, u, row, b);
    forall t | t in s.txs && t != u ensures TxOk(k, s.db[row := b], w, s.txs[t]) {
      PlacedOthersOk(k, s, w, u, row, b, t);
    }
  }

  /** The booking a commit leaves behind. */
  ghost function Result(s: State, t: TxId): (b: Booking)
    requires t in s.txs && s.txs[t].pc.Written?
    requires s.txs[t].op.Create? || s.txs[t].pc.row in s.db
  {
    Committed(s, s.txs[t])[s.txs[t].pc.row]
  }

  lemma CommitPlaces(k: Keys, s: State, w: set<CalendarRow>, t: TxId)
    requires Inv(k, s, w) && Enabled(k, s, Commit(t)) && !s.txs[t].op.Reassign?
    ensures s.txs[t].op.Create? || s.txs[t].pc.row in s.db
    ensures Places(s, t, s.txs[t].pc.row, Result(s, t))
    ensures Committed(s, s.txs[t]) == s.db[s.txs[t].pc.row := Result(s, t)]
  {
    assert TxOk(k, s.db, w, s.txs[t]);
  }

  lemma KeepCommit(k: Keys, s: State, w: set<CalendarRow>, t: TxId)
    requires Inv(k, s, w) && Enabled(k, s, Commit(t))
    ensures Inv(k, Apply(k, s, Commit(t)), w)
  {
    var tx := s.txs[t];
    assert TxOk(k, s.db, w, tx);
    if tx.op.Reassign? {
      var b := s.db[tx.pc.row].(host := tx.op.newHost);
      KeepTouch(k, s, w, tx.pc.row, b);
      InvEnd(k, s.(db := s.db[tx.pc.row := b]), w, t);
    } else {
      CommitPlaces(k, s, w, t);
      KeepPlace(k, s, w, t, tx.pc.row, Result(s, t));
    }
  }

  lemma KeepLockStep(k: Keys, s: State, w: set<CalendarRow>, step: Step)
    requires Inv(k, s, w) && Enabled(k, s, step) && w <= Apply(k, s, step).cals
    requires step.Begin? || step.ReadBooking? || step.ReadCalendars? ||
             step.TakeKey? || step.LocksDone? || step.ReadSeats?
    ensures Inv(k, Apply(k, s, step), w)
  {
    match step
    case Begin(t, op) => KeepBegin(k, s, w, t, op);
    case ReadBooking(t) => KeepReadBooking(k, s, w, t);
    case ReadCalendars(t, todo) => KeepReadCalendars(k, s, w, t, todo);
    case TakeKey(t) => KeepTakeKey(k, s, w, t);
    case LocksDone(t) => KeepLocksDone(k, s, w, t);
    case ReadSeats(t, order) => KeepReadSeats(k, s, w, t, order);
  }

  lemma KeepWriteStep(k: Keys, s: State, w: set<CalendarRow>, step: Step)
    requires Inv(k, s, w) && Enabled(k, s, step) && w <= Apply(k, s, step).cals
    requires step.Check? || step.Advance? || step.Write? ||
             step.Commit? || step.Abort? || step.Cancel? || step.SetCalendars?
    ensures Inv(k, Apply(k, s, step), w)
  {
    match step
    case Check(t) => KeepCheck(k, s, w, t);
    case Advance(t) => KeepAdvance(k, s, w, t);
    case Write(t, row) => KeepWrite(k, s, w, t, row);
    case Commit(t) => KeepCommit(k, s, w, t);
    case Abort(t) => InvEnd(k, s, w, t);
    case Cancel(id) => KeepTouch(k, s, w, id, s.db[id].(cancelled := true));
    case SetCalendars(_) =>
  }

  lemma KeepStep(k: Keys, s: State, w: set<CalendarRow>, step: Step)
    requires Inv(k, s, w) && Enabled(k, s, step) && w <= Apply(k, s, step).cals
    ensures Inv(k, Apply(k, s, step), w)
  {
    if step.Begin? || step.ReadBooking? || step.ReadCalendars? || step.TakeKey? || step.LocksDone? || step.ReadSeats? {
      KeepLockStep(k, s, w, step);
    } else {
      KeepWriteStep(k, s, w, step);
    }
  }

  /** A host found free stays free through every step of the other transactions, commits included. */
  lemma FindingSurvives(k: Keys, s: State, w: set<CalendarRow>, step: Step, t: TxId, h: HostId)
    requires Inv(k, s, w) && Enabled(k, s, step) && w <= Apply(k, s, step).cals
    requires t in s.txs && t in Apply(k, s, step).txs && Apply(k, s, step).txs[t] == s.txs[t]
    requires h != "" && (h in s.txs[t].attending || h in s.txs[t].free)
    ensures var tx := s.txs[t];
            !HostBusy(Apply(k, s, step).db, w, h, tx.start, tx.end, Exclude(tx.op))
  {
    KeepStep(k, s, w, step);
    assert TxOk(k, Apply(k, s, step).db, w, s.txs[t]);
  }

  lemma {:induction false} KeepRun(k: Keys, s: State, run: seq<Step>, w: set<CalendarRow>)
    requires Inv(k, s, w) && IsRun(k, s, run) && KeepsSaved(k, s, run, w)
    ensures Inv(k, After(k, s, run), w)
    decreases |run|
  {
    if run != [] {
      KeepStep(k, s, w, run[0]);
      KeepRun(k, Apply(k, s, run[0]), run[1..], w);
    }
  }

  lemma {:induction false} NothingToKeep(k: Keys, s: State, run: seq<Step>)
    requires IsRun(k, s, run)
    ensures KeepsSaved(k, s, run, {})
    decreases |run|
  {
    if run != [] { NothingToKeep(k, Apply(k, s, run[0]), run[1..]); }
  }

  // ---------------------------------------------------------------- main theorems

  /** In every interleaving, for every hash, with calendar settings changing at will, nobody sits
      in two live bookings at any instant. */
  lemma {:induction false} NeverDoubleBooked(k: Keys, s: State, run: seq<Step>)
    requires Initial(s) && IsRun(k, s, run)
    ensures NoDoubleBooking(After(k, s, run).db)
    ensures var db := After(k, s, run).db;
            forall a, b, t :: a in db && b in db && a != b && TakesPlace(db[a], t) && TakesPlace(db[b], t) ==>
              db[a].seats !! db[b].seats
  {
    NothingToKeep(k, s, run);
    KeepRun(k, s, run, {});
  }

  /** When a Create or Reschedule commits, no seat holder of the booking it leaves behind is
      blocked by any other booking: not by attending it, and not through any calendar row
      that has been saved throughout the run. */
  lemma {:induction false} CommitSeesNoConflict(k: Keys, s: State, run: seq<Step>, w: set<CalendarRow>,
                                                t: TxId, h: HostId, other: BookingId)
    requires Initial(s) && IsRun(k, s, run) && KeepsSaved(k, s, run, w)
    requires Enabled(k, After(k, s, run), Commit(t)) && !After(k, s, run).txs[t].op.Reassign?
    requires var c := After(k, s, run);
             && (c.txs[t].op.Create? || c.txs[t].pc.row in c.db)
             && other in c.db && other != c.txs[t].pc.row && h in Result(c, t).seats
    ensures var c := After(k, s, run);
            var written := Result(c, t);
            !Blocks(c.db[other], w, h, written.start, written.end)
  {
    KeepRun(k, s, run, w);
    var c := After(k, s, run);
    CommitPlaces(k, c, w, t);
    assert TxOk(k, c.db, w, c.txs[t]);
    assert !HostBusy(c.db, w, h, c.txs[t].start, c.txs[t].end, Exclude(c.txs[t].op));
  }
}

/** What the booking protocol does not give. The statement with which the handler moves the
    primary seat after a reassignment (internal/handler/reassign.go) is outside the protocol:
    it takes no lock, and it is safe exactly when the new host has no other overlapping seat
    at that moment. */
module ProtocolLimits {
  import opened HostLock
  import opened BookingProtocol
  import Timestamps


  // Seconds, in nanoseconds.
  const FIVE := 5 * Timestamps.SECOND
  const TEN := 10 * Timestamps.SECOND
  const FIFTEEN := 15 * Timestamps.SECOND

  /** Keys 1 and 2 for hosts "a" and "b". */
  ghost function TwoKeys(): (k: Keys) {
    Keys((h: HostId) => if h == "a" then 1 else 2, (c: Calendar) => 0)
  }

  ghost function OneBooking(host: HostId, seats: set<HostId>): (s: State) {
    State(map["x" := Booking("intro", host, 0, TEN, false, seats, host)], {}, map[])
  }

  ghost function Group(hosts: seq<HostId>, start: int, end: int): (op: Op) {
    Create(Params("intro", hosts, [], [], false, false, start, end, 0))
  }

  lemma KeysOfB()
    ensures KeySet(TwoKeys(), {}, {"b"}) == {2} == Elements([2]) && Increasing([2])
  {
    assert HostKeys(TwoKeys(), {"b"}) == {2};
  }

  lemma KeysOfBoth()
    ensures KeySet(TwoKeys(), {}, {"a", "b"}) == {1, 2} == Elements([1, 2]) && Increasing([1, 2])
  {
    assert HostKeys(TwoKeys(), {"a", "b"}) == {TwoKeys().host("a"), TwoKeys().host("b")};
    assert Elements([1, 2]) == {1, 2};
  }

  // ------------------------------------------------------- the handler's seat move

  /** UPDATE booking_hosts SET user_id = newHost WHERE booking_id = id AND is_primary = 1.
      It fails, changing nothing, when the new host already has a seat. */
  ghost function MoveSeat(db: map<BookingId, Booking>, id: BookingId, newHost: HostId)
    : (db': map<BookingId, Booking>)
  {
    if id !in db || db[id].lead !in db[id].seats || newHost in db[id].seats then db
    else db[id := db[id].(seats := db[id].seats - {db[id].lead} + {newHost}, lead := newHost)]
  }

  /** Some other live booking overlaps id's and seats the host. */
  ghost predicate SeatedElsewhere(db: map<BookingId, Booking>, id: BookingId, h: HostId)
    requires id in db
  {
    exists x :: x in db && x != id && !db[x].cancelled
      && Overlaps(db[x], db[id].start, db[id].end) && h in db[x].seats
  }

  /** Moving the seat keeps the guarantee exactly when the booking is cancelled or has no primary
      seat, or the new host is on it already or sits in no other overlapping booking. */
  lemma MoveSeatExactly(db: map<BookingId, Booking>, id: BookingId, newHost: HostId)
    requires NoDoubleBooking(db) && id in db
    ensures NoDoubleBooking(MoveSeat(db, id, newHost)) <==>
            || db[id].cancelled || db[id].lead !in db[id].seats
            || newHost in db[id].seats || !SeatedElsewhere(db, id, newHost)
  {
    var db' := MoveSeat(db, id, newHost);
    if db' != db && !db[id].cancelled {
      assert newHost in db'[id].seats;
      if SeatedElsewhere(db, id, newHost) {
        var x :| x in db && x != id && !db[x].cancelled
          && Overlaps(db[x], db[id].start, db[id].end) && newHost in db[x].seats;
        assert Overlaps(db'[x], db'[id].start, db'[id].end) && newHost in db'[x].seats;
        assert !NoDoubleBooking(db');
      }
    }
  }

  ghost function Moved(): (s: State) {
    State(map["x" := Booking("intro", "b", 0, TEN, false, {"a"}, "a")], {}, map[])
  }

  lemma NobodyElse(cals: set<CalendarRow>, h: HostId, start: int, end: int)
    ensures !HostBusy(OneBooking("a", {"a"}).db, cals, h, start, end, "x")
  {
  }

  lemma ReassignChecks() returns (run: seq<Step>)
    ensures var k, s := TwoKeys(), OneBooking("a", {"a"});
            && IsRun(k, s, run)
            && After(k, s, run) == s.(txs := map[0 := Tx(Reassign("x", "b"),
                 Locking(["a", "b"], false, []), {1, 2}, "a", 0, TEN, [], [], [], "")])
  {
    var k, s := TwoKeys(), OneBooking("a", {"a"});
    KeysOfBoth();
    run := [];
    Extend(k, s, run, Begin(0, Reassign("x", "b")));
    run := run + [Begin(0, Reassign("x", "b"))];
    Extend(k, s, run, ReadBooking(0));
    run := run + [ReadBooking(0)];
    assert NonEmpty(["a", "b"]) == {"a", "b"};
    Extend(k, s, run, ReadCalendars(0, [1, 2]));
    run := run + [ReadCalendars(0, [1, 2])];
    Extend(k, s, run, TakeKey(0));
    run := run + [TakeKey(0)];
    assert [1, 2][1..] == [2];
    Extend(k, s, run, TakeKey(0));
    run := run + [TakeKey(0)];
    var tx := After(k, s, run).txs[0];
    assert tx.held == {1, 2} && tx.pc.todo == [];
    assert After(k, s, run).txs == map[0 := tx];
  }

  lemma ReassignFindsFree() returns (run: seq<Step>)
    ensures var k, s := TwoKeys(), OneBooking("a", {"a"});
            && IsRun(k, s, run) && After(k, s, run).db == s.db && After(k, s, run).cals == {}
            && After(k, s, run).txs.Keys == {0} && After(k, s, run).txs[0].op == Reassign("x", "b")
            && After(k, s, run).txs[0].pc == Checking(Fixed, [])
  {
    var k, s := TwoKeys(), OneBooking("a", {"a"});
    run := ReassignChecks();
    Extend(k, s, run, LocksDone(0));
    run := run + [LocksDone(0)];
    NobodyElse({}, "b", 0, TEN);
    Extend(k, s, run, Check(0));
    run := run + [Check(0)];
    assert ["b"][1..] == [];
  }

  /** ReassignHost commits: the booking's host is "b", its seat is still that of "a". */
  lemma ReassignCommits() returns (run: seq<Step>)
    ensures var k, s := TwoKeys(), OneBooking("a", {"a"});
            IsRun(k, s, run) && After(k, s, run) == Moved()
  {
    var k, s := TwoKeys(), OneBooking("a", {"a"});
    run := ReassignFindsFree();
    Extend(k, s, run, Advance(0));
    run := run + [Advance(0)];
    Extend(k, s, run, Write(0, "x"));
    run := run + [Write(0, "x")];
    Extend(k, s, run, Commit(0));
    run := run + [Commit(0)];
    assert After(k, s, run).txs == map[];
  }

  lemma SeatOfBFree()
    ensures !HostBusy(Moved().db, {}, "b", FIVE, FIFTEEN, "")
  {
    assert !Sees({}, "b", "a");
  }

  lemma CreateLocks() returns (run: seq<Step>)
    ensures var k, s := TwoKeys(), Moved();
            && IsRun(k, s, run)
            && After(k, s, run) == s.(txs := map[1 := Tx(Group(["b"], FIVE, FIFTEEN),
                 Checking(Fixed, ["b"]), {2}, "", FIVE, FIFTEEN, [], [], [], "")])
  {
    var k, s := TwoKeys(), Moved();
    KeysOfB();
    var create := Group(["b"], FIVE, FIFTEEN);
    run := [];
    Extend(k, s, run, Begin(1, create));
    run := run + [Begin(1, create)];
    assert NonEmpty(["b"] + [] + []) == {"b"};
    Extend(k, s, run, ReadCalendars(1, [2]));
    run := run + [ReadCalendars(1, [2])];
    Extend(k, s, run, TakeKey(1));
    run := run + [TakeKey(1)];
    Extend(k, s, run, LocksDone(1));
    run := run + [LocksDone(1)];
    var tx := After(k, s, run).txs[1];
    assert tx.held == {2};
    assert After(k, s, run).txs == map[1 := tx];
  }

  lemma CreateSeats() returns (run: seq<Step>)
    ensures var k, s := TwoKeys(), Moved();
            && IsRun(k, s, run)
            && After(k, s, run) == s.(txs := map[1 := Tx(Group(["b"], FIVE, FIFTEEN),
                 Checking(Fixed, []), {2}, "", FIVE, FIFTEEN, [], [], ["b"], "")])
  {
    var k, s := TwoKeys(), Moved();
    run := CreateLocks();
    SeatOfBFree();
    Extend(k, s, run, Check(1));
    run := run + [Check(1)];
    var tx := After(k, s, run).txs[1];
    assert tx.attending == ["b"] && ["b"][1..] == [];
    assert After(k, s, run).txs == map[1 := tx];
  }

  lemma CreateChecks() returns (run: seq<Step>)
    ensures var k, s := TwoKeys(), Moved();
            && IsRun(k, s, run)
            && After(k, s, run) == s.(txs := map[1 := Tx(Group(["b"], FIVE, FIFTEEN),
                 Writing, {2}, "", FIVE, FIFTEEN, [], [], ["b"], "b")])
  {
    var k, s := TwoKeys(), Moved();
    run := CreateSeats();
    Extend(k, s, run, Advance(1));
    run := run + [Advance(1)];
    Extend(k, s, run, Advance(1));
    run := run + [Advance(1)];
    var tx := After(k, s, run).txs[1];
    assert After(k, s, run).txs == map[1 := tx];
  }

  lemma CreateCommits() returns (run: seq<Step>)
    ensures var k, s := TwoKeys(), Moved();
            && IsRun(k, s, run)
            && After(k, s, run).db == s.db["y" := Booking("intro", "b", FIVE, FIFTEEN, false, {"b"}, "b")]
  {
    var k, s := TwoKeys(), Moved();
    run := CreateChecks();
    Extend(k, s, run, Write(1, "y"));
    run := run + [Write(1, "y")];
    Extend(k, s, run, Commit(1));
    run := run + [Commit(1)];
    assert (set h | h in ["b"]) == {"b"};
  }

  /** The protocol accepts a booking for a host who has just been given another one at the
      same time, and the handler's seat move then double-books them. */
  lemma SeatMoveCanDoubleBook() returns (run: seq<Step>)
    ensures var k, s := TwoKeys(), OneBooking("a", {"a"});
            && Initial(s) && IsRun(k, s, run)
            && !NoDoubleBooking(MoveSeat(After(k, s, run).db, "x", "b"))
  {
    var k, s := TwoKeys(), OneBooking("a", {"a"});
    var first := ReassignCommits();
    var second := CreateCommits();
    Splice(k, s, first, second);
    run := first + second;
    var db := After(k, s, run).db;
    NeverDoubleBooked(k, s, run);
    assert "b" in db["y"].seats && Overlaps(db["y"], 0, TEN);
    MoveSeatExactly(db, "x", "b");
    assert MoveSeat(db, "x", "b")["x"].lead == "b";
  }
}

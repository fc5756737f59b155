/** The booking service as it runs on SQLite, where transactions are serial: Create, Reschedule,
    ReassignHost and the cancellations of internal/booking/service.go as code that updates the
    tables, with the exact condition of every error. */
module BookingService {
  import opened HostLock
  import opened BookingProtocol
  import Rotation
  import Throttle
  import Timestamps

  type Db = map<BookingId, Booking>

  /** The organizer's row of booking_attendees with the booking's created_at. */
  datatype Organizer = Organizer(email: string, created: nat)

  /** Create's parameters: lower is SQL's LOWER, cutoff an hour before the throttle's own clock
      read, id what uid.New returns. */
  datatype Request = Request(p: Params, email: string, lower: string -> string, maxActive: int, maxHourly: int,
                             cutoff: nat, id: BookingId)

  datatype Error = NoHosts | DoubleBooked | LimitReached | Throttled | InsertFailed | NotFound | AlreadyCancelled

  datatype Result = Ok | Err(error: Error)

  // ---------------------------------------------------------------- who attends

  predicate Free(db: Db, cals: set<CalendarRow>, p: Params, h: HostId) {
    !HostBusy(db, cals, h, p.start, p.end, "")
  }

  predicate AllFree(db: Db, cals: set<CalendarRow>, hosts: seq<HostId>, start: int, end: int, exclude: BookingId) {
    forall i :: 0 <= i < |hosts| ==> !HostBusy(db, cals, hosts[i], start, end, exclude)
  }

  /** The free hosts of the pool, in order. */
  function FreeOf(db: Db, cals: set<CalendarRow>, p: Params, pool: seq<HostId>): (r: seq<HostId>) {
    if pool == [] then []
    else
      var front, last := FreeOf(db, cals, p, pool[..|pool| - 1]), pool[|pool| - 1];
      if Free(db, cals, p, last) then front + [last] else front
  }

  /** The request can be seated: every fixed host is free, and in rotation someone of the pool. */
  predicate Seatable(db: Db, cals: set<CalendarRow>, p: Params) {
    if p.roundRobin
    then && AllFree(db, cals, p.required, p.start, p.end, "")
         && exists i :: 0 <= i < |p.hostIds| && Free(db, cals, p, p.hostIds[i])
    else AllFree(db, cals, p.hostIds, p.start, p.end, "")
  }

  /** The primary host: the pick of the rotation, or the first host. */
  ghost predicate IsChosen(db: Db, cals: set<CalendarRow>, p: Params, h: HostId) {
    if !p.roundRobin then p.hostIds != [] && h == p.hostIds[0]
    else
      var free := FreeOf(db, cals, p, p.hostIds);
      if p.priority then free != [] && h == free[0]
      else exists i :: Rotation.EarliestLeast(LoadMap(db, p, free), free, i) && h == free[i]
  }

  function FixedHosts(p: Params, chosen: HostId): (r: seq<HostId>) {
    if p.roundRobin then p.required + [chosen] else p.hostIds
  }

  /** Everyone who attends: the fixed hosts, then each free optional host that is not there yet. */
  ghost predicate Attends(db: Db, cals: set<CalendarRow>, p: Params, chosen: HostId, attending: seq<HostId>) {
    var fixed := FixedHosts(p, chosen);
    && |fixed| <= |attending| && attending[..|fixed|] == fixed
    && (forall h :: h in attending <==> h in fixed || (h in p.optional && Free(db, cals, p, h)))
    && (forall i, j :: |fixed| <= j < |attending| && 0 <= i < j ==> attending[i] != attending[j])
  }

  lemma {:induction false} FreeOfElements(db: Db, cals: set<CalendarRow>, p: Params, pool: seq<HostId>, h: HostId)
    ensures h in FreeOf(db, cals, p, pool) <==> h in pool && Free(db, cals, p, h)
  {
    if pool != [] {
      FreeOfElements(db, cals, p, pool[..|pool| - 1], h);
    }
  }

  /** The free hosts stand where they stood in the pool: at increasing places, all of the free ones. */
  ghost predicate Subsequence(db: Db, cals: set<CalendarRow>, p: Params, pool: seq<HostId>, places: seq<nat>) {
    && Increasing(places) && |places| == |FreeOf(db, cals, p, pool)|
    && (forall k :: 0 <= k < |places| ==> places[k] < |pool| && FreeOf(db, cals, p, pool)[k] == pool[places[k]])
    && (forall i :: 0 <= i < |pool| ==> (i in places <==> Free(db, cals, p, pool[i])))
  }

  lemma {:induction false} FreeOfInOrder(db: Db, cals: set<CalendarRow>, p: Params, pool: seq<HostId>)
      returns (places: seq<nat>)
    ensures Subsequence(db, cals, p, pool, places)
  {
    places := [];
    if pool != [] {
      var n := |pool| - 1;
      places := FreeOfInOrder(db, cals, p, pool[..n]);
      if Free(db, cals, p, pool[n]) {
        places := places + [n];
      }
    }
  }

  // ---------------------------------------------------------------- limits and indexes

  function Active(db: Db, who: map<BookingId, Organizer>, q: Request): (r: set<BookingId>) {
    set id | id in db && id in who && db[id].eventType == q.p.eventType && !db[id].cancelled
             && Timestamps.EndsAfter(db[id].end, q.p.now) && q.lower(who[id].email) == q.lower(q.email)
  }

  function Recent(db: Db, who: map<BookingId, Organizer>, q: Request): (r: set<BookingId>) {
    set id | id in db && id in who && q.lower(who[id].email) == q.lower(q.email)
             && Throttle.Newer(who[id].created, q.cutoff)
  }

  predicate AtLimit(db: Db, who: map<BookingId, Organizer>, q: Request) {
    q.maxActive > 0 && |Active(db, who, q)| >= q.maxActive
  }

  predicate AtThrottle(db: Db, who: map<BookingId, Organizer>, q: Request) {
    q.maxHourly > 0 && |Recent(db, who, q)| >= q.maxHourly
  }

  /** The partial unique index on (host_id, start_at) of live bookings. */
  predicate StartTaken(db: Db, host: HostId, start: int, exclude: BookingId) {
    exists id :: id in db && id != exclude && !db[id].cancelled && db[id].host == host && db[id].start == start
  }

  ghost predicate SameStart(db: Db, a: BookingId, b: BookingId) {
    && a in db && b in db && !db[a].cancelled && !db[b].cancelled
    && db[a].host == db[b].host && db[a].start == db[b].start
  }

  ghost predicate IndexOk(db: Db) {
    forall a, b :: SameStart(db, a, b) ==> a == b
  }

  /** UNIQUE(booking_id, user_id), and every user exists. */
  predicate Insertable(users: set<HostId>, attending: seq<HostId>) {
    && (forall i :: 0 <= i < |attending| ==> attending[i] in users)
    && (forall i, j :: 0 <= i < j < |attending| ==> attending[i] != attending[j])
  }

  lemma InsertableDistinct(users: set<HostId>, attending: seq<HostId>)
    ensures Insertable(users, attending) <==>
            (set h | h in attending) <= users && |set h | h in attending| == |attending|
  {
    NobodyTwice(attending);
  }

  /** A live row may be added to an index that is in order exactly when its start is not taken. */
  lemma StartTakenExactly(db: Db, id: BookingId, b: Booking)
    requires IndexOk(db) && !b.cancelled
    ensures IndexOk(db[id := b]) <==> !StartTaken(db, b.host, b.start, id)
  {
    var db' := db[id := b];
    if x :| x in db && x != id && !db[x].cancelled && db[x].host == b.host && db[x].start == b.start {
      assert SameStart(db', x, id);
    } else {
      forall x, y | SameStart(db', x, y) ensures x == y {
        assert x != id && y != id ==> SameStart(db, x, y);
      }
    }
  }

  // ---------------------------------------------------------------- when a request is accepted

  /** The inserts succeed: the fixed hosts are distinct users, and every free optional host is one. */
  ghost predicate SeatsAccepted(db: Db, cals: set<CalendarRow>, users: set<HostId>, p: Params, chosen: HostId) {
    && Insertable(users, FixedHosts(p, chosen))
    && forall h :: h in p.optional && Free(db, cals, p, h) ==> h in users
  }

  lemma InsertableExactly(db: Db, cals: set<CalendarRow>, users: set<HostId>, p: Params, chosen: HostId,
                          attending: seq<HostId>)
    requires Attends(db, cals, p, chosen, attending)
    ensures Insertable(users, attending) <==> SeatsAccepted(db, cals, users, p, chosen)
  {
    var fixed := FixedHosts(p, chosen);
    assert forall i :: 0 <= i < |fixed| ==> attending[i] == attending[..|fixed|][i] == fixed[i];
    assert forall h :: h in attending <==> exists i :: 0 <= i < |attending| && attending[i] == h;
  }

  lemma ChosenUnique(db: Db, cals: set<CalendarRow>, p: Params, g: HostId, h: HostId)
    requires IsChosen(db, cals, p, g) && IsChosen(db, cals, p, h)
    ensures g == h
  {
    if p.roundRobin && !p.priority {
      var free := FreeOf(db, cals, p, p.hostIds);
      var load := LoadMap(db, p, free);
      var i :| Rotation.EarliestLeast(load, free, i) && g == free[i];
      var j :| Rotation.EarliestLeast(load, free, j) && h == free[j];
      assert i == j;
    }
  }

  /** The request gets as far as its inserts. */
  ghost predicate Admitted(db: Db, who: map<BookingId, Organizer>, cals: set<CalendarRow>, q: Request) {
    q.p.hostIds != [] && Seatable(db, cals, q.p) && !AtLimit(db, who, q) && !AtThrottle(db, who, q)
  }

  /** Its booking row violates no unique index. */
  ghost predicate RowFits(db: Db, cals: set<CalendarRow>, q: Request) {
    q.id !in db && forall chosen :: IsChosen(db, cals, q.p, chosen) ==> !StartTaken(db, chosen, q.p.start, "")
  }

  /** Its seat rows violate no constraint. */
  ghost predicate SeatsFit(db: Db, cals: set<CalendarRow>, users: set<HostId>, q: Request) {
    forall chosen :: IsChosen(db, cals, q.p, chosen) ==> SeatsAccepted(db, cals, users, q.p, chosen)
  }

  lemma FitsExactly(db: Db, cals: set<CalendarRow>, users: set<HostId>, q: Request, chosen: HostId,
                    attending: seq<HostId>)
    requires IsChosen(db, cals, q.p, chosen) && Attends(db, cals, q.p, chosen, attending)
    ensures RowFits(db, cals, q) <==> q.id !in db && !StartTaken(db, chosen, q.p.start, "")
    ensures SeatsFit(db, cals, users, q) <==> Insertable(users, attending)
  {
    InsertableExactly(db, cals, users, q.p, chosen, attending);
    forall h | IsChosen(db, cals, q.p, h) ensures h == chosen {
      ChosenUnique(db, cals, q.p, h, chosen);
    }
  }

  /** The booking counts against the active-booking cap of a request. */
  predicate CountsActive(b: Booking, o: Organizer, q: Request) {
    && b.eventType == q.p.eventType && !b.cancelled && Timestamps.EndsAfter(b.end, q.p.now)
    && q.lower(o.email) == q.lower(q.email)
  }

  predicate CountsRecent(o: Organizer, q: Request) {
    q.lower(o.email) == q.lower(q.email) && Throttle.Newer(o.created, q.cutoff)
  }

  /** At the cap: so many bookings of the organizer count already. */
  lemma AtLimitExactly(db: Db, who: map<BookingId, Organizer>, q: Request)
    ensures AtLimit(db, who, q) <==> q.maxActive >= 1 && exists ids: set<BookingId> ::
              |ids| == q.maxActive &&
              forall id :: id in ids ==> id in db && id in who && CountsActive(db[id], who[id], q)
  {
    if AtLimit(db, who, q) {
      var ids := OfSize(Active(db, who, q), q.maxActive);
    }
    if ids: set<BookingId> :|
         |ids| == q.maxActive && forall id :: id in ids ==> id in db && id in who && CountsActive(db[id], who[id], q)
    {
      SubsetSize(ids, Active(db, who, q));
    }
  }

  lemma AtThrottleExactly(db: Db, who: map<BookingId, Organizer>, q: Request)
    ensures AtThrottle(db, who, q) <==> q.maxHourly >= 1 && exists ids: set<BookingId> ::
              |ids| == q.maxHourly && forall id :: id in ids ==> id in db && id in who && CountsRecent(who[id], q)
  {
    var all := Matching(db, who, o => CountsRecent(o, q));
    RecentMatches(db, who, q);
    if AtThrottle(db, who, q) {
      var ids := OfSize(all, q.maxHourly);
    }
    if ids: set<BookingId> :|
         |ids| == q.maxHourly && forall id :: id in ids ==> id in db && id in who && CountsRecent(who[id], q)
    {
      SubsetSize(ids, all);
    }
  }

  lemma {:induction false} OfSize(all: set<BookingId>, n: int) returns (some: set<BookingId>)
    requires 0 <= n <= |all|
    ensures some <= all && |some| == n
    decreases n
  {
    some := {};
    if n > 0 {
      var x :| x in all;
      some := OfSize(all - {x}, n - 1);
      some := some + {x};
    }
  }

  /** A new booking raises the active count of a request by one if it counts, and else by none. */
  lemma ActiveFollowsCreate(db: Db, who: map<BookingId, Organizer>, q: Request, id: BookingId, b: Booking,
                            o: Organizer)
    requires id !in db
    ensures |Active(db[id := b], who[id := o], q)| == |Active(db, who, q)| + if CountsActive(b, o, q) then 1 else 0
  {
    var db', who' := db[id := b], who[id := o];
    assert Active(db', who', q) == Active(db, who, q) + if CountsActive(b, o, q) then {id} else {};
  }

  function Matching(db: Db, who: map<BookingId, Organizer>, counts: Organizer -> bool): (r: set<BookingId>) {
    set id | id in db && id in who && counts(who[id])
  }

  lemma MatchingGrows(db: Db, who: map<BookingId, Organizer>, counts: Organizer -> bool, id: BookingId, b: Booking,
                      o: Organizer)
    requires id !in db
    ensures |Matching(db[id := b], who[id := o], counts)| == |Matching(db, who, counts)| + if counts(o) then 1 else 0
  {
    var db', who' := db[id := b], who[id := o];
    assert Matching(db', who', counts) == Matching(db, who, counts) + if counts(o) then {id} else {};
  }

  lemma RecentMatches(db: Db, who: map<BookingId, Organizer>, q: Request)
    ensures Recent(db, who, q) == Matching(db, who, o => CountsRecent(o, q))
  {
  }

  /** So with the hourly count. */
  lemma RecentFollowsCreate(db: Db, who: map<BookingId, Organizer>, q: Request, id: BookingId, b: Booking,
                            o: Organizer)
    requires id !in db
    ensures |Recent(db[id := b], who[id := o], q)| == |Recent(db, who, q)| + if CountsRecent(o, q) then 1 else 0
  {
    RecentMatches(db, who, q);
    RecentMatches(db[id := b], who[id := o], q);
    MatchingGrows(db, who, o => CountsRecent(o, q), id, b, o);
  }

  /** Cancelling a booking lowers the active count by one if it counted; the hourly count stays. */
  lemma CountsFollowCancel(db: Db, who: map<BookingId, Organizer>, q: Request, id: BookingId)
    requires id in db && id in who
    ensures var db' := db[id := db[id].(cancelled := true)];
            && |Active(db', who, q)| == |Active(db, who, q)| - (if CountsActive(db[id], who[id], q) then 1 else 0)
            && Recent(db', who, q) == Recent(db, who, q)
  {
    var db' := db[id := db[id].(cancelled := true)];
    assert Active(db, who, q) == Active(db', who, q) + if CountsActive(db[id], who[id], q) then {id} else {};
  }

  lemma CountsGrowByOne(db: Db, who: map<BookingId, Organizer>, q: Request, b: Booking, o: Organizer)
    ensures |Active(db[q.id := b], who[q.id := o], q)| <= |Active(db, who, q)| + 1
    ensures |Recent(db[q.id := b], who[q.id := o], q)| <= |Recent(db, who, q)| + 1
  {
    SubsetSize(Active(db[q.id := b], who[q.id := o], q), Active(db, who, q) + {q.id});
    SubsetSize(Recent(db[q.id := b], who[q.id := o], q), Recent(db, who, q) + {q.id});
  }

  lemma {:induction false} SubsetSize(a: set<BookingId>, b: set<BookingId>)
    requires a <= b
    ensures |a| <= |b|
  {
    if a != {} {
      var x :| x in a;
      SubsetSize(a - {x}, b - {x});
    }
  }

  // ---------------------------------------------------------------- what the writes keep

  /** No seat holder of the booking is busy with another one, by host or by shared calendar. */
  ghost predicate NoConflict(db: Db, cals: set<CalendarRow>, id: BookingId) {
    id in db && forall h :: h in db[id].seats ==> !HostBusy(db, cals, h, db[id].start, db[id].end, id)
  }

  /** What a committed Create leaves behind. */
  ghost predicate Creates(db: Db, cals: set<CalendarRow>, users: set<HostId>, q: Request, db': Db) {
    exists chosen, attending ::
      && IsChosen(db, cals, q.p, chosen) && Attends(db, cals, q.p, chosen, attending) && Insertable(users, attending)
      && !StartTaken(db, chosen, q.p.start, "")
      && db' == db[q.id := Booking(q.p.eventType, chosen, q.p.start, q.p.end, false, (set h | h in attending), chosen)]
  }

  /** Everyone a seatable request seats is free. */
  lemma AttendingFree(db: Db, cals: set<CalendarRow>, p: Params, chosen: HostId, attending: seq<HostId>, h: HostId)
    requires Seatable(db, cals, p) && IsChosen(db, cals, p, chosen) && Attends(db, cals, p, chosen, attending)
    requires h in attending
    ensures Free(db, cals, p, h)
  {
    FreeOfElements(db, cals, p, p.hostIds, chosen);
    if p.roundRobin {
      assert h in FixedHosts(p, chosen) ==> h in p.required || h == chosen;
    }
  }

  /** A committed Create keeps the invariants, and no seat of the new booking conflicts. */
  lemma CreateKeeps(db: Db, cals: set<CalendarRow>, users: set<HostId>, q: Request, db': Db)
    requires GoodDb(db) && IndexOk(db) && "" !in users && q.id !in db && q.id != ""
    requires Seatable(db, cals, q.p) && Creates(db, cals, users, q, db')
    ensures GoodDb(db') && IndexOk(db') && NoConflict(db', cals, q.id)
  {
    var chosen, attending :|
      && IsChosen(db, cals, q.p, chosen) && Attends(db, cals, q.p, chosen, attending) && Insertable(users, attending)
      && !StartTaken(db, chosen, q.p.start, "")
      && db' == db[q.id := Booking(q.p.eventType, chosen, q.p.start, q.p.end, false, (set h | h in attending), chosen)];
    forall h | h in db'[q.id].seats ensures !HostBusy(db', cals, h, q.p.start, q.p.end, q.id) {
      AttendingFree(db, cals, q.p, chosen, attending, h);
    }
    forall a, b | SameStart(db', a, b) ensures a == b {
      assert a != q.id && b != q.id ==> SameStart(db, a, b);
    }
  }

  /** Moving a booking to a time at which all its seat holders are free keeps the invariants. */
  lemma MoveKeeps(db: Db, cals: set<CalendarRow>, id: BookingId, start: int, end: int)
    requires GoodDb(db) && IndexOk(db) && id in db
    requires forall h :: h in db[id].seats ==> !HostBusy(db, cals, h, start, end, id)
    requires !StartTaken(db, db[id].host, start, id)
    ensures var db' := db[id := db[id].(start := start, end := end)];
            GoodDb(db') && IndexOk(db') && NoConflict(db', cals, id)
  {
    var db' := db[id := db[id].(start := start, end := end)];
    assert forall h :: h in db'[id].seats ==> !HostBusy(db', cals, h, start, end, id);
    forall a, b | SameStart(db', a, b) ensures a == b {
      assert a != id && b != id ==> SameStart(db, a, b);
    }
  }

  lemma CancelKeeps(db: Db, id: BookingId)
    requires GoodDb(db) && IndexOk(db) && id in db
    ensures GoodDb(db[id := db[id].(cancelled := true)]) && IndexOk(db[id := db[id].(cancelled := true)])
  {
    var db' := db[id := db[id].(cancelled := true)];
    forall a, b | SameStart(db', a, b) ensures a == b {
      assert SameStart(db, a, b);
    }
  }

  /** Changing the primary host leaves the seats, and so the invariants, as they are. */
  lemma ReassignKeeps(db: Db, id: BookingId, host: HostId)
    requires GoodDb(db) && IndexOk(db) && id in db && !StartTaken(db, host, db[id].start, id)
    ensures GoodDb(db[id := db[id].(host := host)]) && IndexOk(db[id := db[id].(host := host)])
  {
    var db' := db[id := db[id].(host := host)];
    forall a, b | a in db' && b in db' && a != b && !db'[a].cancelled && !db'[b].cancelled
                  && Overlaps(db'[a], db'[b].start, db'[b].end)
      ensures db'[a].seats !! db'[b].seats
    {
      assert Overlaps(db[a], db[b].start, db[b].end);
    }
    forall a, b | SameStart(db', a, b) ensures a == b {
      assert a != id && b != id ==> SameStart(db, a, b);
    }
  }

  // ---------------------------------------------------------------- the service

  class Service {
    var db: Db
    var who: map<BookingId, Organizer>
    var cals: set<CalendarRow>
    var needsSync: set<(BookingId, HostId)>
    const users: set<HostId>

    constructor (users: set<HostId>)
      requires "" !in users
      ensures Valid() && db == map[] && this.users == users
    {
      this.users, db, who, cals, needsSync := users, map[], map[], {}, {};
    }

    ghost predicate Valid()
      reads this
    {
      "" !in users && who.Keys == db.Keys && GoodDb(db) && IndexOk(db)
    }

    method CheckAllFree(hosts: seq<HostId>, start: int, end: int, exclude: BookingId) returns (free: bool)
      ensures free <==> AllFree(db, cals, hosts, start, end, exclude)
    {
      for i := 0 to |hosts|
        invariant forall j :: 0 <= j < i ==> !HostBusy(db, cals, hosts[j], start, end, exclude)
      {
        if HostBusy(db, cals, hosts[i], start, end, exclude) {
          return false;
        }
      }
      return true;
    }

    /** The rotation pool's free hosts, in priority order. */
    method FreePool(p: Params) returns (free: seq<HostId>)
      ensures free == FreeOf(db, cals, p, p.hostIds)
    {
      free := [];
      for i := 0 to |p.hostIds|
        invariant free == FreeOf(db, cals, p, p.hostIds[..i])
      {
        assert p.hostIds[..i + 1][..i] == p.hostIds[..i];
        if !HostBusy(db, cals, p.hostIds[i], p.start, p.end, "") {
          free := free + [p.hostIds[i]];
        }
      }
      assert p.hostIds[..|p.hostIds|] == p.hostIds;
    }

    /** Optional hosts join when free and not there already; a busy one is left off. */
    method AddOptional(p: Params, chosen: HostId) returns (attending: seq<HostId>)
      ensures Attends(db, cals, p, chosen, attending)
    {
      var fixed := FixedHosts(p, chosen);
      attending := fixed;
      for i := 0 to |p.optional|
        invariant |fixed| <= |attending| && attending[..|fixed|] == fixed
        invariant forall h :: h in attending <==> h in fixed || (h in p.optional[..i] && Free(db, cals, p, h))
        invariant forall k, j :: |fixed| <= j < |attending| && 0 <= k < j ==> attending[k] != attending[j]
      {
        var h := p.optional[i];
        assert p.optional[..i + 1] == p.optional[..i] + [h];
        if h in attending || HostBusy(db, cals, h, p.start, p.end, "") {
          continue;
        }
        attending := attending + [h];
      }
      assert p.optional[..|p.optional|] == p.optional;
    }

    /** The host selection of Create. */
    method SelectHosts(p: Params) returns (found: bool, chosen: HostId, attending: seq<HostId>)
      requires p.hostIds != []
      ensures found <==> Seatable(db, cals, p)
      ensures found ==> IsChosen(db, cals, p, chosen) && Attends(db, cals, p, chosen, attending)
    {
      chosen, attending := "", [];
      if p.roundRobin {
        var ok := CheckAllFree(p.required, p.start, p.end, "");
        if !ok {
          return false, chosen, attending;
        }
        var free := FreePool(p);
        PoolFree(db, cals, p);
        if free == [] {
          return false, chosen, attending;
        }
        if p.priority {
          chosen := free[0];
        } else {
          Rotation.LeastIndexIsEarliestLeast(LoadMap(db, p, free), free);
          chosen := Rotation.LeastLoadedHost(LoadMap(db, p, free), free);
        }
      } else {
        var ok := CheckAllFree(p.hostIds, p.start, p.end, "");
        if !ok {
          return false, chosen, attending;
        }
        chosen := p.hostIds[0];
      }
      attending := AddOptional(p, chosen);
      found := true;
    }

    /** Create: the hosts, then the two caps, then the inserts, all in one transaction. */
    method Create(q: Request) returns (r: Result)
      requires Valid() && q.id != ""
      modifies this
      ensures Valid() && cals == old(cals) && needsSync == old(needsSync)
      ensures r == Err(NoHosts) <==> q.p.hostIds == []
      ensures r == Err(LimitReached) <==>
                q.p.hostIds != [] && Seatable(old(db), cals, q.p) && AtLimit(old(db), old(who), q)
      ensures r == Err(Throttled) <==>
                && q.p.hostIds != [] && Seatable(old(db), cals, q.p)
                && !AtLimit(old(db), old(who), q) && AtThrottle(old(db), old(who), q)
      ensures r == Err(DoubleBooked) <==>
                || (q.p.hostIds != [] && !Seatable(old(db), cals, q.p))
                || (Admitted(old(db), old(who), cals, q) && !RowFits(old(db), cals, q))
      ensures r == Err(InsertFailed) <==>
                && Admitted(old(db), old(who), cals, q)
                && RowFits(old(db), cals, q) && !SeatsFit(old(db), cals, users, q)
      ensures r == Ok <==>
                && Admitted(old(db), old(who), cals, q)
                && RowFits(old(db), cals, q) && SeatsFit(old(db), cals, users, q)
      ensures r == Ok ==> q.id !in old(db) && Creates(old(db), cals, users, q, db) && NoConflict(db, cals, q.id)
      ensures r == Ok ==> who == old(who)[q.id := Organizer(q.email, q.p.now)]
      ensures r == Ok && q.maxActive > 0 ==> |Active(db, who, q)| <= q.maxActive
      ensures r == Ok && q.maxHourly > 0 ==> |Recent(db, who, q)| <= q.maxHourly
      ensures r != Ok ==> db == old(db) && who == old(who)
    {
      if q.p.hostIds == [] {
        return Err(NoHosts);
      }
      var found, chosen, attending := SelectHosts(q.p);
      if !found {
        return Err(DoubleBooked);
      }
      if AtLimit(db, who, q) {
        return Err(LimitReached);
      }
      if AtThrottle(db, who, q) {
        return Err(Throttled);
      }
      FitsExactly(db, cals, users, q, chosen, attending);
      if q.id in db || StartTaken(db, chosen, q.p.start, "") {
        return Err(DoubleBooked);
      }
      if !Insertable(users, attending) {
        return Err(InsertFailed);
      }
      ghost var before := db;
      db := db[q.id := Booking(q.p.eventType, chosen, q.p.start, q.p.end, false, (set h | h in attending), chosen)];
      who := who[q.id := Organizer(q.email, q.p.now)];
      CountsGrowByOne(before, old(who), q, db[q.id], who[q.id]);
      assert Creates(before, cals, users, q, db);
      CreateKeeps(before, cals, users, q, db);
      return Ok;
    }

    /** The seat holders in the order the query returns them. */
    method SeatHolders(id: BookingId) returns (hosts: seq<HostId>)
      requires id in db
      ensures forall h :: h in hosts <==> h in db[id].seats
    {
      hosts := [];
      var left := db[id].seats;
      while left != {}
        invariant left <= db[id].seats && forall h :: h in hosts <==> h in db[id].seats && h !in left
        decreases |left|
      {
        var h :| h in left;
        left := left - {h};
        hosts := hosts + [h];
      }
    }

    method Reschedule(id: BookingId, start: int, end: int) returns (r: Result)
      requires Valid()
      modifies this`db
      ensures Valid()
      ensures r == Err(NotFound) <==> id !in old(db)
      ensures r == Err(AlreadyCancelled) <==> id in old(db) && old(db)[id].cancelled
      ensures id in old(db) && !old(db)[id].cancelled ==> (r == Ok <==> MayMove(old(db), cals, id, start, end))
      ensures r == Ok ==> db == old(db)[id := old(db)[id].(start := start, end := end)] && NoConflict(db, cals, id)
      ensures r != Ok ==> db == old(db) && r.error in {NotFound, AlreadyCancelled, DoubleBooked}
    {
      if id !in db {
        return Err(NotFound);
      }
      if db[id].cancelled {
        return Err(AlreadyCancelled);
      }
      var hosts := SeatHolders(id);
      assert hosts != [] ==> hosts[0] in db[id].seats;
      if hosts == [] {
        hosts := [db[id].host];
      }
      var free := CheckAllFree(hosts, start, end, id);
      assert hosts[0] in hosts;
      assert free ==> forall h :: h in hosts ==> !HostBusy(db, cals, h, start, end, id);
      if !free || StartTaken(db, db[id].host, start, id) {
        return Err(DoubleBooked);
      }
      MoveKeeps(db, cals, id, start, end);
      db := db[id := db[id].(start := start, end := end)];
      return Ok;
    }

    method ReassignHost(id: BookingId, host: HostId) returns (r: Result)
      requires Valid()
      modifies this`db
      ensures Valid()
      ensures r == Err(NotFound) <==> id !in old(db)
      ensures r == Err(AlreadyCancelled) <==> id in old(db) && old(db)[id].cancelled
      ensures id in old(db) && !old(db)[id].cancelled ==> (r == Ok <==> MayReassign(old(db), cals, id, host))
      ensures r == Ok ==> db == old(db)[id := old(db)[id].(host := host)]
      ensures r != Ok ==> db == old(db) && r.error in {NotFound, AlreadyCancelled, DoubleBooked}
    {
      if id !in db {
        return Err(NotFound);
      }
      if db[id].cancelled {
        return Err(AlreadyCancelled);
      }
      if db[id].host == host {
        assert db == db[id := db[id].(host := host)];
        return Ok;
      }
      if HostBusy(db, cals, host, db[id].start, db[id].end, id) || StartTaken(db, host, db[id].start, id) {
        return Err(DoubleBooked);
      }
      ReassignKeeps(db, id, host);
      db := db[id := db[id].(host := host)];
      return Ok;
    }

    /** A cancelled booking's drift flags go, since only confirmed bookings are swept. */
    method ClearNeedsSync(id: BookingId)
      modifies this`needsSync
      ensures forall b, h :: (b, h) in needsSync <==> (b, h) in old(needsSync) && b != id
    {
      needsSync := set x | x in needsSync && x.0 != id;
    }

    /** Cancel by the host; any other user's booking looks missing. */
    method Cancel(host: HostId, id: BookingId) returns (r: Result)
      requires Valid()
      modifies this`db, this`needsSync
      ensures Valid()
      ensures r == Err(NotFound) <==> id !in old(db) || old(db)[id].host != host
      ensures r == Ok <==> id in old(db) && old(db)[id].host == host && !old(db)[id].cancelled
      ensures r == Ok ==> db == old(db)[id := old(db)[id].(cancelled := true)]
      ensures r == Ok ==> forall b, h :: (b, h) in needsSync <==> (b, h) in old(needsSync) && b != id
      ensures r != Ok ==> db == old(db) && needsSync == old(needsSync) && r.error in {NotFound, AlreadyCancelled}
    {
      if id in db && db[id].host == host && !db[id].cancelled {
        CancelKeeps(db, id);
        db := db[id := db[id].(cancelled := true)];
        ClearNeedsSync(id);
        return Ok;
      }
      if id in db && db[id].host == host {
        return Err(AlreadyCancelled);
      }
      return Err(NotFound);
    }

    method CancelByID(id: BookingId) returns (r: Result)
      requires Valid()
      modifies this`db, this`needsSync
      ensures Valid()
      ensures r == Err(NotFound) <==> id !in old(db)
      ensures r == Ok <==> id in old(db) && !old(db)[id].cancelled
      ensures r == Ok ==> db == old(db)[id := old(db)[id].(cancelled := true)]
      ensures r == Ok ==> forall b, h :: (b, h) in needsSync <==> (b, h) in old(needsSync) && b != id
      ensures r != Ok ==> db == old(db) && needsSync == old(needsSync) && r.error in {NotFound, AlreadyCancelled}
    {
      if id in db && !db[id].cancelled {
        CancelKeeps(db, id);
        db := db[id := db[id].(cancelled := true)];
        ClearNeedsSync(id);
        return Ok;
      }
      if id in db {
        return Err(AlreadyCancelled);
      }
      return Err(NotFound);
    }
  }

  lemma PoolFree(db: Db, cals: set<CalendarRow>, p: Params)
    ensures FreeOf(db, cals, p, p.hostIds) != [] <==>
              exists i :: 0 <= i < |p.hostIds| && Free(db, cals, p, p.hostIds[i])
  {
    var free := FreeOf(db, cals, p, p.hostIds);
    if free != [] {
      FreeOfElements(db, cals, p, p.hostIds, free[0]);
    }
    if i :| 0 <= i < |p.hostIds| && Free(db, cals, p, p.hostIds[i]) {
      FreeOfElements(db, cals, p, p.hostIds, p.hostIds[i]);
    }
  }

  /** A live booking may move when its seat holders are free then, or its host if it has none. */
  ghost predicate MayMove(db: Db, cals: set<CalendarRow>, id: BookingId, start: int, end: int)
    requires id in db
  {
    && (forall h :: h in db[id].seats ==> !HostBusy(db, cals, h, start, end, id))
    && (db[id].seats == {} ==> !HostBusy(db, cals, db[id].host, start, end, id))
    && !StartTaken(db, db[id].host, start, id)
  }

  ghost predicate MayReassign(db: Db, cals: set<CalendarRow>, id: BookingId, host: HostId)
    requires id in db
  {
    db[id].host == host
    || (!HostBusy(db, cals, host, db[id].start, db[id].end, id) && !StartTaken(db, host, db[id].start, id))
  }

  // ---------------------------------------------------------------- rotation over committed bookings

  /** An "even" round-robin request for the pool alone. */
  ghost predicate Rotates(p: Params, eventType: string, pool: seq<HostId>) {
    && p.eventType == eventType && p.hostIds == pool && p.roundRobin && !p.priority
    && p.required == [] && p.optional == []
  }

  /** The Creates of qs commit one after the other, each finding the whole pool free and no
      booking over. */
  ghost predicate RotationRun(dbs: seq<Db>, cals: set<CalendarRow>, users: set<HostId>, qs: seq<Request>,
                              eventType: string, pool: seq<HostId>)
  {
    && |dbs| == |qs| + 1 && dbs[0] == map[]
    && forall i :: 0 <= i < |qs| ==> RotatesTo(dbs[i], cals, users, qs[i], dbs[i + 1], eventType, pool)
  }

  ghost predicate RotatesTo(db: Db, cals: set<CalendarRow>, users: set<HostId>, q: Request, db': Db,
                            eventType: string, pool: seq<HostId>)
  {
    && Rotates(q.p, eventType, pool) && FreeOf(db, cals, q.p, pool) == pool && NothingOver(db, q.p.now)
    && q.id !in db && Creates(db, cals, users, q, db')
  }

  ghost predicate NothingOver(db: Db, now: nat) {
    forall id :: id in db ==> Timestamps.EndsAfter(db[id].end, now)
  }

  /** All bookings are live ones of the event type. */
  ghost predicate AllLive(db: Db, eventType: string) {
    forall id :: id in db ==> db[id].eventType == eventType && !db[id].cancelled
  }

  /** The bookings that seat h. */
  ghost function SeatsOf(db: Db, h: HostId): (n: nat) {
    |set id | id in db && h in db[id].seats|
  }

  lemma LoadIsSeats(db: Db, p: Params, h: HostId)
    requires AllLive(db, p.eventType) && NothingOver(db, p.now)
    ensures LoadOf(db, p, h) == SeatsOf(db, h)
  {
    assert (set id | id in db && db[id].eventType == p.eventType && !db[id].cancelled
                     && Timestamps.EndsAfter(db[id].end, p.now) && h in db[id].seats)
        == (set id | id in db && h in db[id].seats);
  }

  lemma SeatsOfNew(db: Db, id: BookingId, b: Booking, h: HostId)
    requires id !in db
    ensures SeatsOf(db[id := b], h) == SeatsOf(db, h) + (if h in b.seats then 1 else 0)
  {
    var db' := db[id := b];
    var before := set x | x in db && h in db[x].seats;
    assert (set x | x in db' && h in db'[x].seats) == if h in b.seats then before + {id} else before;
  }

  ghost function SeatMap(db: Db, pool: seq<HostId>): (m: map<HostId, nat>) {
    map h | h in pool :: SeatsOf(db, h)
  }

  lemma LoadsAreSeats(db: Db, p: Params, pool: seq<HostId>)
    requires AllLive(db, p.eventType) && NothingOver(db, p.now)
    ensures LoadMap(db, p, pool) == SeatMap(db, pool)
  {
    forall h | h in pool ensures LoadOf(db, p, h) == SeatsOf(db, h) {
      LoadIsSeats(db, p, h);
    }
  }

  lemma ChosenIsLeast(db: Db, cals: set<CalendarRow>, p: Params, pool: seq<HostId>, chosen: HostId)
    requires Rotates(p, p.eventType, pool) && FreeOf(db, cals, p, pool) == pool && IsChosen(db, cals, p, chosen)
    ensures pool != [] && chosen == Rotation.LeastLoaded(LoadMap(db, p, pool), pool)
  {
    var load := LoadMap(db, p, pool);
    var i :| Rotation.EarliestLeast(load, pool, i) && chosen == pool[i];
    Rotation.EarliestLeastUnique(load, pool, i);
  }

  lemma SeatsAlone(db: Db, cals: set<CalendarRow>, p: Params, chosen: HostId, attending: seq<HostId>)
    requires p.roundRobin && p.required == [] && p.optional == [] && Attends(db, cals, p, chosen, attending)
    ensures (set h | h in attending) == {chosen}
  {
    assert FixedHosts(p, chosen) == [chosen];
  }

  /** A rotation seats the least loaded host of the pool, alone. */
  lemma SeatsLeast(db: Db, cals: set<CalendarRow>, users: set<HostId>, q: Request, db': Db, pool: seq<HostId>,
                   eventType: string) returns (b: Booking)
    requires RotatesTo(db, cals, users, q, db', eventType, pool) && AllLive(db, eventType)
    ensures db' == db[q.id := b] && q.id !in db && Live(b, eventType)
    ensures pool != [] && b.seats == {Rotation.LeastLoaded(SeatMap(db, pool), pool)}
  {
    var chosen, attending :| IsChosen(db, cals, q.p, chosen) && Attends(db, cals, q.p, chosen, attending)
      && db' == db[q.id := Booking(q.p.eventType, chosen, q.p.start, q.p.end, false, (set h | h in attending), chosen)];
    LoadsAreSeats(db, q.p, pool);
    ChosenIsLeast(db, cals, q.p, pool, chosen);
    SeatsAlone(db, cals, q.p, chosen, attending);
    b := db'[q.id];
  }

  lemma OneMoreSeat(db: Db, id: BookingId, b: Booking, pool: seq<HostId>, h: HostId)
    requires id !in db && b.seats == {h} && h in pool
    ensures SeatMap(db[id := b], pool) == SeatMap(db, pool)[h := Rotation.Load(SeatMap(db, pool), h) + 1]
  {
    forall g | g in pool ensures SeatsOf(db[id := b], g) == SeatsOf(db, g) + (if g == h then 1 else 0) {
      SeatsOfNew(db, id, b, g);
    }
  }

  ghost predicate Live(b: Booking, eventType: string) {
    b.eventType == eventType && !b.cancelled
  }

  /** One committed rotation is one step of the abstract balance. */
  lemma RotationStep(db: Db, id: BookingId, b: Booking, pool: seq<HostId>, eventType: string, h: HostId, k: nat)
    requires id !in db && b.seats == {h} && Live(b, eventType) && AllLive(db, eventType)
    requires pool != [] && Rotation.Distinct(pool) && h == Rotation.LeastLoaded(SeatMap(db, pool), pool)
    requires Rotation.Balanced(SeatMap(db, pool), pool, k)
    ensures AllLive(db[id := b], eventType) && Rotation.Balanced(SeatMap(db[id := b], pool), pool, k + 1)
  {
    OneMoreSeat(db, id, b, pool, h);
    Rotation.BalancedStep(SeatMap(db, pool), pool, k);
  }

  /** After any k such Creates the seats of the pool add up to k and differ by at most one. */
  lemma {:induction false} CreatesRotateEvenly(dbs: seq<Db>, cals: set<CalendarRow>, users: set<HostId>,
                                               qs: seq<Request>, eventType: string, pool: seq<HostId>, k: nat)
    requires pool != [] && Rotation.Distinct(pool) && RotationRun(dbs, cals, users, qs, eventType, pool) && k <= |qs|
    ensures AllLive(dbs[k], eventType) && Rotation.Balanced(SeatMap(dbs[k], pool), pool, k)
    decreases k
  {
    if k == 0 {
      NobodySeated(dbs[0], pool);
    } else {
      CreatesRotateEvenly(dbs, cals, users, qs, eventType, pool, k - 1);
      var b := SeatsLeast(dbs[k - 1], cals, users, qs[k - 1], dbs[k], pool, eventType);
      RotationStep(dbs[k - 1], qs[k - 1].id, b, pool, eventType,
                   Rotation.LeastLoaded(SeatMap(dbs[k - 1], pool), pool), k - 1);
    }
  }

  /** So do the loads the next rotation will count. */
  lemma LoadsStayEven(dbs: seq<Db>, cals: set<CalendarRow>, users: set<HostId>, qs: seq<Request>, p: Params,
                      pool: seq<HostId>, k: nat)
    requires pool != [] && Rotation.Distinct(pool) && RotationRun(dbs, cals, users, qs, p.eventType, pool) && k <= |qs|
    requires NothingOver(dbs[k], p.now)
    ensures Rotation.Balanced(LoadMap(dbs[k], p, pool), pool, k)
  {
    CreatesRotateEvenly(dbs, cals, users, qs, p.eventType, pool, k);
    LoadsAreSeats(dbs[k], p, pool);
  }

  lemma {:induction false} NobodySeated(db: Db, pool: seq<HostId>)
    requires db == map[]
    ensures Rotation.Balanced(SeatMap(db, pool), pool, 0)
  {
    NothingToAdd(SeatMap(db, pool), pool);
  }

  lemma {:induction false} NothingToAdd(load: map<HostId, nat>, pool: seq<HostId>)
    requires forall h :: h in pool ==> Rotation.Load(load, h) == 0
    ensures Rotation.Total(load, pool) == 0
  {
    if pool != [] {
      NothingToAdd(load, pool[1..]);
    }
  }
}

/** The rows the booking service reads and the advisory-lock keys it derives from them:
    hostBusy of internal/booking/service.go and internal/booking/hostlock.go. */
module HostLock {

  type HostId = string
  type BookingId = string

  /** The identity hostBusy compares calendars by. */
  datatype Calendar = Calendar(provider: string, account: string, id: string)

  /** One row of connection_calendars. */
  datatype CalendarRow = CalendarRow(user: HostId, cal: Calendar, checks: bool, destination: bool)

  /** One row of bookings with its rows of booking_hosts; lead is the seat flagged primary. */
  datatype Booking = Booking(
    eventType: string, host: HostId, start: int, end: int, cancelled: bool,
    seats: set<HostId>, lead: HostId)

  /** The two hashes. Nothing is assumed of them: collisions are allowed. */
  datatype Keys = Keys(host: HostId -> int, cal: Calendar -> int)

  // ---------------------------------------------------------------- availability

  /** A booking g attends makes h busy: h is g, or h checks the calendar g books into. */
  predicate Sees(cals: set<CalendarRow>, h: HostId, g: HostId) {
    h == g || exists c, d :: c in cals && d in cals && SharedCalendar(c, d, h, g)
  }

  predicate SharedCalendar(c: CalendarRow, d: CalendarRow, h: HostId, g: HostId) {
    c.user == h && c.checks && d.user == g && d.destination && c.cal == d.cal
  }

  predicate Overlaps(b: Booking, start: int, end: int) {
    b.start < end && b.end > start
  }

  predicate Blocks(b: Booking, cals: set<CalendarRow>, h: HostId, start: int, end: int) {
    !b.cancelled && Overlaps(b, start, end) && exists g :: g in b.seats && Sees(cals, h, g)
  }

  /** hostBusy: some live booking other than `exclude` blocks h in [start, end). */
  predicate HostBusy(db: map<BookingId, Booking>, cals: set<CalendarRow>,
                           h: HostId, start: int, end: int, exclude: BookingId)
  {
    exists id :: id in db && id != exclude && Blocks(db[id], cals, h, start, end)
  }

  /** More saved calendars can only make a host busier. */
  lemma BusyMonotone(db: map<BookingId, Booking>, w: set<CalendarRow>, cals: set<CalendarRow>,
                     h: HostId, start: int, end: int, x: BookingId)
    requires w <= cals
    ensures HostBusy(db, w, h, start, end, x) ==> HostBusy(db, cals, h, start, end, x)
  {
    if HostBusy(db, w, h, start, end, x) {
      var id :| id in db && id != x && Blocks(db[id], w, h, start, end);
      var g :| g in db[id].seats && Sees(w, h, g);
      assert Sees(cals, h, g);
      assert Blocks(db[id], cals, h, start, end);
    }
  }

  /** The booking is live and in progress at instant t. */
  predicate TakesPlace(b: Booking, t: int) {
    !b.cancelled && b.start <= t < b.end
  }

  function CheckedBy(cals: set<CalendarRow>, h: HostId): (r: set<Calendar>) {
    set c | c in cals && c.user == h && c.checks :: c.cal
  }

  function BookedInto(cals: set<CalendarRow>, h: HostId): (r: set<Calendar>) {
    set c | c in cals && c.user == h && c.destination :: c.cal
  }

  /** Booking b takes place at an instant of [start, end), and a seat holder of it is h or has
      bookings written to a calendar that h checks. */
  ghost predicate Collides(b: Booking, cals: set<CalendarRow>, h: HostId, start: int, end: int) {
    && (exists t :: start <= t < end && TakesPlace(b, t))
    && (exists g :: g in b.seats && (g == h || CheckedBy(cals, h) * BookedInto(cals, g) != {}))
  }

  lemma SeesExactly(cals: set<CalendarRow>, h: HostId, g: HostId)
    ensures Sees(cals, h, g) <==> h == g || CheckedBy(cals, h) * BookedInto(cals, g) != {}
  {
    if c, d :| c in cals && d in cals && SharedCalendar(c, d, h, g) {
      assert c.cal in CheckedBy(cals, h) * BookedInto(cals, g);
    }
    if x :| x in CheckedBy(cals, h) * BookedInto(cals, g) {
      var c :| c in cals && c.user == h && c.checks && c.cal == x;
      var d :| d in cals && d.user == g && d.destination && d.cal == x;
      assert SharedCalendar(c, d, h, g);
    }
  }

  lemma BlocksExactly(b: Booking, cals: set<CalendarRow>, h: HostId, start: int, end: int)
    ensures Collides(b, cals, h, start, end) ==> Blocks(b, cals, h, start, end)
    ensures b.start < b.end && start < end && Blocks(b, cals, h, start, end) ==> Collides(b, cals, h, start, end)
  {
    forall g ensures Sees(cals, h, g) <==> h == g || CheckedBy(cals, h) * BookedInto(cals, g) != {} {
      SeesExactly(cals, h, g);
    }
    var t := if b.start < start then start else b.start;
    assert b.start < b.end && start < end && Blocks(b, cals, h, start, end) ==> start <= t < end && TakesPlace(b, t);
  }

  /** hostBusy, for bookings and times of positive length: another live booking takes place at an
      instant of the time, and seats the host or someone whose bookings the host's calendars show. */
  lemma HostBusyExactly(db: map<BookingId, Booking>, cals: set<CalendarRow>, h: HostId, start: int, end: int,
                        exclude: BookingId)
    ensures (exists id :: id in db && id != exclude && Collides(db[id], cals, h, start, end)) ==>
              HostBusy(db, cals, h, start, end, exclude)
    ensures (forall id :: id in db ==> db[id].start < db[id].end) && start < end ==>
              (HostBusy(db, cals, h, start, end, exclude) ==>
                 exists id :: id in db && id != exclude && Collides(db[id], cals, h, start, end))
  {
    forall id | id in db
      ensures Collides(db[id], cals, h, start, end) ==> Blocks(db[id], cals, h, start, end)
      ensures db[id].start < db[id].end && start < end && Blocks(db[id], cals, h, start, end) ==>
                Collides(db[id], cals, h, start, end)
    {
      BlocksExactly(db[id], cals, h, start, end);
    }
  }

  /** A list names nobody twice when it names as many hosts as it has places. */
  lemma {:induction false} NobodyTwice(hosts: seq<HostId>)
    ensures |set h | h in hosts| <= |hosts|
    ensures (forall i, j :: 0 <= i < j < |hosts| ==> hosts[i] != hosts[j]) <==> |set h | h in hosts| == |hosts|
  {
    if hosts != [] {
      var n := |hosts| - 1;
      var front, last := hosts[..n], hosts[n];
      NobodyTwice(front);
      assert hosts == front + [last];
      assert (set h | h in hosts) == (set h | h in front) + {last};
      assert last in front <==> exists i :: 0 <= i < n && hosts[i] == last;
    }
  }

  // ---------------------------------------------------------------- lock keys

  /** The calendars any of the hosts checks or books into. */
  ghost function CalendarsOf(cals: set<CalendarRow>, hosts: set<HostId>): (r: set<Calendar>) {
    set c | c in cals && c.user in hosts && (c.checks || c.destination) :: c.cal
  }

  ghost function HostKeys(k: Keys, hosts: set<HostId>): (r: set<int>) {
    set h | h in hosts :: k.host(h)
  }

  ghost function CalKeys(k: Keys, cs: set<Calendar>): (r: set<int>) {
    set c | c in cs :: k.cal(c)
  }

  /** Every key lockHosts takes for these hosts. */
  ghost function KeySet(k: Keys, cals: set<CalendarRow>, hosts: set<HostId>): (r: set<int>) {
    HostKeys(k, hosts) + CalKeys(k, CalendarsOf(cals, hosts))
  }

  ghost function NonEmpty(ids: seq<HostId>): (r: set<HostId>) {
    set h | h in ids && h != ""
  }

  /** Two hosts that can block each other, by identity or by a shared calendar, share a
      key, whatever the hash functions are. */
  lemma SeesSharesKey(k: Keys, w: set<CalendarRow>, h: HostId, g: HostId) returns (key: int)
    requires Sees(w, h, g)
    ensures key in KeySet(k, w, {h}) && key in KeySet(k, w, {g})
  {
    if h == g {
      key := k.host(h);
    } else {
      var c, d :| c in w && d in w && SharedCalendar(c, d, h, g);
      key := k.cal(c.cal);
      assert c.cal in CalendarsOf(w, {h}) && d.cal in CalendarsOf(w, {g});
    }
  }

  lemma KeySetMonotone(k: Keys, w: set<CalendarRow>, cals: set<CalendarRow>, hs: set<HostId>, hosts: set<HostId>)
    requires w <= cals && hs <= hosts
    ensures KeySet(k, w, hs) <= KeySet(k, cals, hosts)
  {
    assert CalendarsOf(w, hs) <= CalendarsOf(cals, hosts);
  }

  // ------------------------------------------------- sorting and deduplicating keys

  ghost predicate Increasing(ks: seq<int>) {
    forall i, j :: 0 <= i < j < |ks| ==> ks[i] < ks[j]
  }

  ghost predicate Sorted(ks: seq<int>) {
    forall i, j :: 0 <= i < j < |ks| ==> ks[i] <= ks[j]
  }

  ghost function Elements(ks: seq<int>): (r: set<int>) {
    set x | x in ks
  }

  lemma {:induction false} EmptyElements(a: seq<int>)
    ensures Elements(a) == {} <==> a == []
  {
    if a != [] { assert a[0] in Elements(a); }
  }

  lemma {:induction false} ElementsTail(a: seq<int>)
    requires a != [] && Increasing(a)
    ensures Elements(a[1..]) == Elements(a) - {a[0]}
  {
    forall x ensures x in Elements(a[1..]) <==> x in Elements(a) && x != a[0] {
      if x in Elements(a) && x != a[0] {
        var i :| 0 <= i < |a| && a[i] == x;
        assert a[1..][i - 1] == x;
      }
    }
  }

  lemma {:induction false} ElementsSnoc(ks: seq<int>, x: int)
    ensures Elements(ks + [x]) == Elements(ks) + {x}
  {
    assert (ks + [x])[|ks|] == x;
    forall y ensures y in Elements(ks + [x]) <==> y in Elements(ks) || y == x {
      if y in ks {
        var i :| 0 <= i < |ks| && ks[i] == y;
        assert (ks + [x])[i] == y;
      }
    }
  }

  /** An increasing sequence is determined by its elements. */
  lemma {:induction false} IncreasingUnique(a: seq<int>, b: seq<int>)
    requires Increasing(a) && Increasing(b) && Elements(a) == Elements(b)
    ensures a == b
    decreases |a|
  {
    EmptyElements(a);
    EmptyElements(b);
    if a != [] {
      assert a[0] in Elements(b);
      var i :| 0 <= i < |b| && b[i] == a[0];
      assert b[0] in Elements(a);
      var j :| 0 <= j < |a| && a[j] == b[0];
      assert a[0] == b[0];
      ElementsTail(a);
      ElementsTail(b);
      IncreasingUnique(a[1..], b[1..]);
      assert a == [a[0]] + a[1..] && b == [b[0]] + b[1..];
    }
  }

  /** Where a key goes among sorted ones. */
  method InsertKey(keys: seq<int>, key: int) returns (out: seq<int>)
    requires Sorted(keys)
    ensures Sorted(out) && multiset(out) == multiset(keys) + multiset{key}
  {
    var i := 0;
    while i < |keys| && keys[i] < key
      invariant 0 <= i <= |keys|
      invariant forall j :: 0 <= j < i ==> keys[j] < key
    {
      i := i + 1;
    }
    InsertPermutes(keys, i, key);
    out := keys[..i] + [key] + keys[i..];
  }

  lemma InsertPermutes(keys: seq<int>, i: nat, key: int)
    requires i <= |keys|
    ensures multiset(keys[..i] + [key] + keys[i..]) == multiset(keys) + multiset{key}
  {
    assert keys == keys[..i] + keys[i..];
  }

  /** slices.Sort. */
  method SortKeys(keys: seq<int>) returns (out: seq<int>)
    ensures Sorted(out) && multiset(out) == multiset(keys)
  {
    out := [];
    for n := 0 to |keys|
      invariant Sorted(out) && multiset(out) == multiset(keys[..n])
    {
      assert keys[..n + 1] == keys[..n] + [keys[n]];
      out := InsertKey(out, keys[n]);
    }
    assert keys[..|keys|] == keys;
  }

  /** slices.Compact. */
  method Compact(keys: seq<int>) returns (out: seq<int>)
    requires Sorted(keys)
    ensures Increasing(out) && Elements(out) == Elements(keys)
  {
    out := [];
    for n := 0 to |keys|
      invariant Increasing(out) && Elements(out) == Elements(keys[..n])
      invariant n > 0 ==> out != [] && out[|out| - 1] == keys[n - 1]
      invariant n == 0 ==> out == []
    {
      assert keys[..n + 1] == keys[..n] + [keys[n]];
      ElementsSnoc(keys[..n], keys[n]);
      ElementsSnoc(out, keys[n]);
      assert n > 0 ==> keys[..n][n - 1] in Elements(keys[..n]);
      if n == 0 || keys[n] != keys[n - 1] {
        out := out + [keys[n]];
      }
    }
    assert keys[..|keys|] == keys;
  }

  /** calendarLockKeys: one key per distinct calendar of the hosts. */
  method CalendarLockKeys(k: Keys, cals: set<CalendarRow>, hosts: seq<HostId>) returns (keys: seq<int>)
    ensures Elements(keys) == CalKeys(k, CalendarsOf(cals, set h | h in hosts))
  {
    var rows := set c | c in cals && c.user in hosts && (c.checks || c.destination) :: c.cal;
    keys := [];
    ghost var all := rows;
    assert rows == CalendarsOf(cals, set h | h in hosts);
    while rows != {}
      invariant rows <= all
      invariant Elements(keys) == CalKeys(k, all - rows)
      decreases rows
    {
      var c :| c in rows;
      ghost var before := all - rows;
      ElementsSnoc(keys, k.cal(c));
      keys := keys + [k.cal(c)];
      rows := rows - {c};
      assert all - rows == before + {c};
      assert CalKeys(k, all - rows) == CalKeys(k, before) + {k.cal(c)};
    }
    assert all - rows == all;
  }

  /** The keys lockHosts walks: those of the non-empty ids, sorted and without repeats. */
  method LockKeys(k: Keys, cals: set<CalendarRow>, hostIds: seq<HostId>) returns (keys: seq<int>)
    ensures Increasing(keys) && Elements(keys) == KeySet(k, cals, NonEmpty(hostIds))
  {
    var hosts: seq<HostId> := [];
    keys := [];
    for i := 0 to |hostIds|
      invariant (set h | h in hosts) == NonEmpty(hostIds[..i])
      invariant Elements(keys) == HostKeys(k, NonEmpty(hostIds[..i]))
    {
      assert hostIds[..i + 1] == hostIds[..i] + [hostIds[i]];
      if hostIds[i] != "" {
        assert NonEmpty(hostIds[..i + 1]) == NonEmpty(hostIds[..i]) + {hostIds[i]};
        assert HostKeys(k, NonEmpty(hostIds[..i + 1]))
            == HostKeys(k, NonEmpty(hostIds[..i])) + {k.host(hostIds[i])};
        ElementsSnoc(keys, k.host(hostIds[i]));
        hosts := hosts + [hostIds[i]];
        keys := keys + [k.host(hostIds[i])];
      } else {
        assert NonEmpty(hostIds[..i + 1]) == NonEmpty(hostIds[..i]);
      }
    }
    assert hostIds[..|hostIds|] == hostIds;
    var calKeys := CalendarLockKeys(k, cals, hosts);
    var all := keys + calKeys;
    var sorted := SortKeys(all);
    assert forall x :: x in sorted <==> x in multiset(sorted);
    assert forall x :: x in all <==> x in multiset(all);
    keys := Compact(sorted);
    assert Elements(sorted) == Elements(all);
  }
}

/** The calendar reconciler (internal/handler/calendar_reconcile.go): one pass deletes events left
    on cancelled bookings, creates the missing ones, and re-applies the time of the flagged ones.
    The providers are arbitrary: each call has any outcome. */
module Reconcile {
  import opened Text
  import Timestamps

  datatype Status = Confirmed | Cancelled | Other

  datatype Times = Times(start: int, end: int)

  type EventId = nat

  /** event mirrors the primary host's event id. */
  datatype Booking = Booking(status: Status, times: Times, created: nat, event: Option<EventId>)

  /** The key of a booking_hosts row. */
  datatype Seat = Seat(booking: string, host: string)

  datatype SeatRow = SeatRow(event: Option<EventId>, needsSync: bool, primary: bool)

  /** A provider call that changes a calendar. */
  datatype Call = CancelCall(seat: Seat) | CreateCall(seat: Seat) | UpdateCall(seat: Seat)

  /** Unreachable: no single account holds the event, and nothing was sent. */
  datatype Fate = Succeeds | Unreachable | Fails

  /** What each provider call comes to, and which hosts have a destination calendar. */
  datatype Providers = Providers(cancel: Seat -> Fate, create: Seat -> Fate, update: Seat -> Fate, dest: set<string>)

  /** next: the providers have given out event ids below it. */
  datatype World = World(bookings: map<string, Booking>, seats: map<Seat, SeatRow>, events: map<EventId, Times>,
                         next: EventId, calls: seq<Call>)

  /** Instants are in nanoseconds. */
  const GRACE := 300 * Timestamps.SECOND

  // ---------------------------------------------------------------- what each query selects

  predicate Orphan(w: World, s: Seat) {
    s in w.seats && s.booking in w.bookings && w.bookings[s.booking].status == Cancelled && w.seats[s].event.Some?
  }

  predicate Upcoming(w: World, s: Seat, now: int) {
    && s in w.seats && s.booking in w.bookings
    && w.bookings[s.booking].status == Confirmed && w.bookings[s.booking].times.end > now
  }

  /** The stored text of created_at sorts before that of the cutoff. */
  predicate PastGrace(w: World, s: Seat, now: int) {
    s.booking in w.bookings && Timestamps.CreatedBefore(w.bookings[s.booking].created, now - GRACE)
  }

  predicate Missing(w: World, s: Seat, now: int) {
    Upcoming(w, s, now) && PastGrace(w, s, now) && w.seats[s].event.None?
  }

  /** The texts of the creations query: the end sorts after the clock, and the creation before the
      clock five minutes ago, both to the second. */
  lemma MissingExactly(w: World, s: Seat, now: nat)
    requires s in w.seats && s.booking in w.bookings && 5 * 60 * 1_000_000_000 <= now
    requires var b := w.bookings[s.booking];
             && b.times.end >= 0 && b.times.end % Timestamps.SECOND == 0
             && Timestamps.FourDigitYear(b.times.end / Timestamps.SECOND)
             && Timestamps.FourDigitYear(b.created / Timestamps.SECOND)
             && Timestamps.FourDigitYear(now / Timestamps.SECOND)
    ensures var b := w.bookings[s.booking];
            Missing(w, s, now) <==>
              && b.status == Confirmed && w.seats[s].event == None
              && Timestamps.Less(Timestamps.SqlTime(now), Timestamps.RFC3339Nano(b.times.end))
              && Timestamps.Less(Timestamps.RFC3339Nano(b.created), Timestamps.SqlTime(now - 5 * 60 * 1_000_000_000))
  {
    Timestamps.SqlTimeBoundary(w.bookings[s.booking].times.end, now);
    GraceText(w.bookings[s.booking].created, now);
  }

  lemma GraceText(created: nat, now: nat)
    requires 5 * 60 * 1_000_000_000 <= now
    requires Timestamps.FourDigitYear(created / Timestamps.SECOND) && Timestamps.FourDigitYear(now / Timestamps.SECOND)
    ensures Timestamps.CreatedBefore(created, now - GRACE) <==>
            Timestamps.Less(Timestamps.RFC3339Nano(created), Timestamps.SqlTime(now - 5 * 60 * 1_000_000_000))
  {
    var cutoff := now - GRACE;
    assert cutoff == now - 5 * 60 * 1_000_000_000;
    Timestamps.EarlierYear(cutoff / Timestamps.SECOND, now / Timestamps.SECOND);
    Timestamps.CreatedBeforeText(created, cutoff);
  }

  predicate Drifted(w: World, s: Seat, now: int) {
    Upcoming(w, s, now) && w.seats[s].event.Some? && w.seats[s].needsSync
  }

  function Orphans(w: World): (r: set<Seat>) {
    set s | s in w.seats && Orphan(w, s)
  }

  function MissingSeats(w: World, now: int): (r: set<Seat>) {
    set s | s in w.seats && Missing(w, s, now)
  }

  function DriftedSeats(w: World, now: int): (r: set<Seat>) {
    set s | s in w.seats && Drifted(w, s, now)
  }

  // ---------------------------------------------------------------- what each loop does

  /** Every recorded event id was given out, and no two seats record the same event. */
  ghost predicate Sound(w: World) {
    && (forall e :: e in w.events ==> e < w.next)
    && (forall s :: s in w.seats && w.seats[s].event.Some? ==> w.seats[s].event.value < w.next)
    && (forall s, t :: SameEvent(w, s, t) ==> s == t)
  }

  ghost predicate SameEvent(w: World, s: Seat, t: Seat) {
    s in w.seats && t in w.seats && w.seats[s].event.Some? && w.seats[s].event == w.seats[t].event
  }

  ghost predicate Calls(w: World, w': World, seats: set<Seat>) {
    && |w.calls| <= |w'.calls| && w'.calls[..|w.calls|] == w.calls
    && forall i :: |w.calls| <= i < |w'.calls| ==> w'.calls[i].seat in seats
  }

  function AfterCancel(row: SeatRow, fate: Fate): (r: SeatRow) {
    if fate == Fails then row else row.(event := None)
  }

  /** The world after the delete calls of the seats in done. */
  ghost predicate Cancels(w: World, w': World, p: Providers, done: set<Seat>) {
    && w'.bookings == w.bookings && w'.next == w.next && w'.seats.Keys == w.seats.Keys && Calls(w, w', done)
    && (forall s :: s in w.seats ==>
            w'.seats[s] == if s in done then AfterCancel(w.seats[s], p.cancel(s)) else w.seats[s])
    && (forall e :: e in w'.events ==> e in w.events && w'.events[e] == w.events[e])
    && (forall e :: e in w.events ==> (e !in w'.events <==> Deleted(w, p, done, e)))
  }

  ghost predicate Deleted(w: World, p: Providers, done: set<Seat>, e: EventId) {
    exists s :: s in done && s in w.seats && w.seats[s].event == Some(e) && p.cancel(s) == Succeeds
  }

  predicate Heals(p: Providers, s: Seat) {
    s.host in p.dest && p.create(s) == Succeeds
  }

  /** The world after the create calls of the seats in done. */
  ghost predicate Creates(w: World, w': World, p: Providers, done: set<Seat>) {
    CreatesRows(w, w', p, done) && forall b :: b in w.bookings ==> Mirrors(w, w', p, done, b)
  }

  ghost predicate CreatesRows(w: World, w': World, p: Providers, done: set<Seat>) {
    && w'.seats.Keys == w.seats.Keys && w.next <= w'.next && Sound(w')
    && Calls(w, w', set s | s in done && s.host in p.dest) && SameBookings(w, w')
    && KeepsEvents(w, w')
    && (forall s :: s in w.seats ==> if s in done && Heals(p, s) then Healed(w, w', s) else w'.seats[s] == w.seats[s])
  }

  /** The calendars keep what they had, and only events with new ids are added. */
  ghost predicate KeepsEvents(w: World, w': World) {
    && (forall e :: e in w.events ==> e in w'.events && w'.events[e] == w.events[e])
    && (forall e :: e in w'.events ==> e in w.events || w.next <= e)
  }

  /** Nothing about a booking changes but its event. */
  ghost predicate SameBookings(w: World, w': World) {
    && w'.bookings.Keys == w.bookings.Keys
    && forall b :: b in w.bookings ==> w'.bookings[b] == w.bookings[b].(event := w'.bookings[b].event)
  }

  /** A healed seat records a new event at the booking's time. */
  ghost predicate Healed(w: World, w': World, s: Seat) {
    && s in w.seats && s in w'.seats && s.booking in w.bookings
    && w'.seats[s] == w.seats[s].(event := w'.seats[s].event) && w'.seats[s].event.Some?
    && w.next <= w'.seats[s].event.value && w'.seats[s].event.value in w'.events
    && w'.events[w'.seats[s].event.value] == w.bookings[s.booking].times
  }

  /** The booking's event is that of a healed primary seat, if any. */
  ghost predicate Mirrors(w: World, w': World, p: Providers, done: set<Seat>, b: string) {
    && b in w.bookings && b in w'.bookings
    && if exists s :: HealedPrimary(w, p, done, s, b)
       then exists s :: HealedPrimary(w, p, done, s, b) && s in w'.seats && w'.bookings[b].event == w'.seats[s].event
       else w'.bookings[b].event == w.bookings[b].event
  }

  ghost predicate HealedPrimary(w: World, p: Providers, done: set<Seat>, s: Seat, b: string) {
    s in done && s in w.seats && s.booking == b && w.seats[s].primary && Heals(p, s)
  }

  function AfterUpdate(row: SeatRow, fate: Fate): (r: SeatRow) {
    if fate == Fails then row else row.(needsSync := false)
  }

  ghost predicate Moves(w: World, w': World, p: Providers, done: set<Seat>) {
    && w'.bookings == w.bookings && w'.next == w.next && w'.seats.Keys == w.seats.Keys && Calls(w, w', done)
    && (forall s :: s in w.seats ==>
            w'.seats[s] == if s in done then AfterUpdate(w.seats[s], p.update(s)) else w.seats[s])
    && w'.events.Keys == w.events.Keys
    && (forall e :: e in w.events && !Moved(w, p, done, e) ==> w'.events[e] == w.events[e])
    && (forall s :: s in done && p.update(s) == Succeeds && Present(w, s) ==> InPlace(w, w', s))
  }

  ghost predicate Moved(w: World, p: Providers, done: set<Seat>, e: EventId) {
    exists s :: s in done && s in w.seats && w.seats[s].event == Some(e) && p.update(s) == Succeeds
  }

  /** The event recorded for s is still on the calendar. */
  ghost predicate Present(w: World, s: Seat) {
    s in w.seats && s.booking in w.bookings && w.seats[s].event.Some? && w.seats[s].event.value in w.events
  }

  /** A successful update moves an event. One that has vanished is reported as moved and stays gone. */
  function Rescheduled(events: map<EventId, Times>, e: EventId, times: Times): (r: map<EventId, Times>) {
    if e in events then events[e := times] else events
  }

  /** The event recorded for s is on the calendar at the booking's time. */
  ghost predicate InPlace(w: World, w': World, s: Seat) {
    && s in w.seats && s.booking in w.bookings && w.seats[s].event.Some?
    && w.seats[s].event.value in w'.events && w'.events[w.seats[s].event.value] == w.bookings[s.booking].times
  }

  // ---------------------------------------------------------------- the three loops

  /** The rows of a query, in any order. */
  method Rows(sel: set<Seat>) returns (items: seq<Seat>)
    ensures forall s :: s in items <==> s in sel
    ensures forall i, j :: 0 <= i < j < |items| ==> items[i] != items[j]
  {
    items := [];
    var left := sel;
    while left != {}
      invariant left <= sel && forall s :: s in items <==> s in sel && s !in left
      invariant forall i, j :: 0 <= i < j < |items| ==> items[i] != items[j]
      decreases |left|
    {
      var s :| s in left;
      left := left - {s};
      items := items + [s];
    }
  }

  ghost function Seen(items: seq<Seat>, n: nat): (r: set<Seat>)
    requires n <= |items|
  {
    set i | 0 <= i < n :: items[i]
  }

  lemma SeenNext(items: seq<Seat>, n: nat)
    requires n < |items| && forall i, j :: 0 <= i < j < |items| ==> items[i] != items[j]
    ensures Seen(items, n + 1) == Seen(items, n) + {items[n]} && items[n] !in Seen(items, n)
  {
  }

  lemma SeenAll(items: seq<Seat>, sel: set<Seat>)
    requires forall s :: s in items <==> s in sel
    ensures Seen(items, |items|) == sel
  {
    forall s | s in sel ensures s in Seen(items, |items|) {
      var i :| 0 <= i < |items| && items[i] == s;
    }
  }

  /** One iteration of the cancellation loop. */
  function CancelOne(w: World, p: Providers, s: Seat): (r: World)
    requires s in w.seats && w.seats[s].event.Some?
  {
    w.(seats := w.seats[s := AfterCancel(w.seats[s], p.cancel(s))],
       events := if p.cancel(s) == Succeeds then w.events - {w.seats[s].event.value} else w.events,
       calls := w.calls + [CancelCall(s)])
  }

  lemma CancelsOneMore(w: World, w': World, p: Providers, done: set<Seat>, s: Seat)
    requires Cancels(w, w', p, done) && Orphan(w, s) && s !in done
    ensures Cancels(w, CancelOne(w', p, s), p, done + {s})
  {
    var r := CancelOne(w', p, s);
    forall e | e in w.events ensures e !in r.events <==> Deleted(w, p, done + {s}, e) {
      if Deleted(w, p, done + {s}, e) {
        var t :| t in done + {s} && t in w.seats && w.seats[t].event == Some(e) && p.cancel(t) == Succeeds;
        assert t in done ==> Deleted(w, p, done, e);
      }
    }
  }

  /** One iteration of the creation loop: hosts without a destination are skipped. */
  function CreateOne(w: World, p: Providers, s: Seat): (r: World)
    requires s in w.seats && s.booking in w.bookings
  {
    if s.host !in p.dest then w
    else if p.create(s) != Succeeds then w.(calls := w.calls + [CreateCall(s)])
    else
      var b, row := w.bookings[s.booking], w.seats[s];
      World(if row.primary then w.bookings[s.booking := b.(event := Some(w.next))] else w.bookings,
            w.seats[s := row.(event := Some(w.next))], w.events[w.next := b.times], w.next + 1,
            w.calls + [CreateCall(s)])
  }

  lemma CreatesOneMore(w: World, w': World, p: Providers, done: set<Seat>, s: Seat)
    requires Creates(w, w', p, done) && s in w.seats && s.booking in w.bookings && s !in done
    ensures Creates(w, CreateOne(w', p, s), p, done + {s})
  {
    RowsOneMore(w, w', p, done, s);
    forall b | b in w.bookings ensures Mirrors(w, CreateOne(w', p, s), p, done + {s}, b) {
      MirrorsOneMore(w, w', p, done, s, b);
    }
  }

  lemma RowsOneMore(w: World, w': World, p: Providers, done: set<Seat>, s: Seat)
    requires CreatesRows(w, w', p, done) && s in w.seats && s.booking in w.bookings && s !in done
    ensures CreatesRows(w, CreateOne(w', p, s), p, done + {s})
  {
    var r := CreateOne(w', p, s);
    forall t | t in w.seats
      ensures if t in done + {s} && Heals(p, t) then Healed(w, r, t) else r.seats[t] == w.seats[t]
    {
      HealedOneMore(w, w', p, done, s, t);
    }
    CreateKeepsSound(w', p, s);
    CreateKeepsRest(w', p, s);
    SameBookingsTwice(w, w', r);
    CreateCalls(w, w', p, done, s);
  }

  lemma CreateKeepsRest(w: World, p: Providers, s: Seat)
    requires Sound(w) && s in w.seats && s.booking in w.bookings
    ensures var r := CreateOne(w, p, s);
            && SameBookings(w, r) && r.seats.Keys == w.seats.Keys && w.next <= r.next
            && KeepsEvents(w, r)
  {
  }

  lemma SameBookingsTwice(w: World, w': World, w'': World)
    requires SameBookings(w, w') && SameBookings(w', w'')
    ensures SameBookings(w, w'')
  {
  }

  lemma CreateCalls(w: World, w': World, p: Providers, done: set<Seat>, s: Seat)
    requires s in w'.seats && s.booking in w'.bookings && Calls(w, w', set t | t in done && t.host in p.dest)
    ensures Calls(w, CreateOne(w', p, s), set t | t in done + {s} && t.host in p.dest)
  {
    CallsGrow(w, w', CreateOne(w', p, s), set t | t in done && t.host in p.dest,
              set t | t in done + {s} && t.host in p.dest);
  }

  lemma CallsGrow(w: World, w': World, w'': World, seats: set<Seat>, more: set<Seat>)
    requires Calls(w, w', seats) && Calls(w', w'', more) && seats <= more
    ensures Calls(w, w'', more)
  {
    assert w''.calls[..|w.calls|] == w''.calls[..|w'.calls|][..|w.calls|];
    forall i | |w.calls| <= i < |w''.calls| ensures w''.calls[i].seat in more {
      if i < |w'.calls| {
        assert w''.calls[..|w'.calls|][i] == w''.calls[i];
      }
    }
  }

  lemma HealedOneMore(w: World, w': World, p: Providers, done: set<Seat>, s: Seat, t: Seat)
    requires CreatesRows(w, w', p, done) && s in w.seats && s.booking in w.bookings && s !in done && t in w.seats
    ensures var r := CreateOne(w', p, s);
            if t in done + {s} && Heals(p, t) then Healed(w, r, t) else r.seats[t] == w.seats[t]
  {
    if t in done && Heals(p, t) {
      assert Healed(w, w', t);
      assert w'.seats[t].event.value < w'.next;
    }
  }

  lemma CreateKeepsSound(w: World, p: Providers, s: Seat)
    requires Sound(w) && s in w.seats && s.booking in w.bookings
    ensures Sound(CreateOne(w, p, s))
  {
    var r := CreateOne(w, p, s);
    forall t, u | SameEvent(r, t, u) ensures t == u {
      assert !Heals(p, s) || (t != s && u != s) ==> SameEvent(w, t, u);
    }
  }

  lemma MirrorsOneMore(w: World, w': World, p: Providers, done: set<Seat>, s: Seat, b: string)
    requires w'.seats.Keys == w.seats.Keys && w'.bookings.Keys == w.bookings.Keys && Mirrors(w, w', p, done, b)
    requires s in w.seats && s.booking in w.bookings && s !in done && b in w.bookings
    requires w'.seats[s].primary == w.seats[s].primary
    ensures Mirrors(w, CreateOne(w', p, s), p, done + {s}, b)
  {
    var r := CreateOne(w', p, s);
    if HealedPrimary(w, p, done + {s}, s, b) {
      assert r.bookings[b].event == r.seats[s].event;
    } else {
      assert forall t :: HealedPrimary(w, p, done + {s}, t, b) <==> HealedPrimary(w, p, done, t, b);
      if t :| HealedPrimary(w, p, done, t, b) && t in w'.seats && w'.bookings[b].event == w'.seats[t].event {
        assert r.bookings[b] == w'.bookings[b] && r.seats[t] == w'.seats[t];
        assert HealedPrimary(w, p, done + {s}, t, b);
      } else {
        assert !exists t :: HealedPrimary(w, p, done, t, b);
      }
    }
  }

  /** One iteration of the reschedule loop. */
  function UpdateOne(w: World, p: Providers, s: Seat): (r: World)
    requires s in w.seats && s.booking in w.bookings && w.seats[s].event.Some?
  {
    w.(seats := w.seats[s := AfterUpdate(w.seats[s], p.update(s))],
       events := if p.update(s) != Succeeds then w.events
                 else Rescheduled(w.events, w.seats[s].event.value, w.bookings[s.booking].times),
       calls := w.calls + [UpdateCall(s)])
  }

  lemma MovedGrows(w: World, p: Providers, done: set<Seat>, s: Seat, e: EventId)
    ensures Moved(w, p, done, e) ==> Moved(w, p, done + {s}, e)
  {
    if t :| t in done && t in w.seats && w.seats[t].event == Some(e) && p.update(t) == Succeeds {
      assert t in done + {s};
    }
  }

  lemma MovesOneMore(w: World, w': World, p: Providers, done: set<Seat>, s: Seat)
    requires Sound(w) && Moves(w, w', p, done) && s in w.seats && s !in done
    requires s.booking in w.bookings && w.seats[s].event.Some?
    ensures Moves(w, UpdateOne(w', p, s), p, done + {s})
  {
    var r := UpdateOne(w', p, s);
    forall e | e in w.events && !Moved(w, p, done + {s}, e) ensures r.events[e] == w.events[e] {
      MovedGrows(w, p, done, s, e);
      assert p.update(s) == Succeeds && w.seats[s].event == Some(e) ==> s in done + {s};
    }
    forall t | t in done + {s} && p.update(t) == Succeeds && Present(w, t) ensures InPlace(w, r, t) {
      if t != s {
        assert InPlace(w, w', t);
        assert SameEvent(w, t, s) <==> w.seats[t].event == w.seats[s].event;
      }
    }
  }

  class Reconciler {
    var w: World

    constructor (w: World)
      ensures this.w == w
    {
      this.w := w;
    }

    /** Delete the event of a cancelled booking. A failure leaves the id for the next sweep; an
        event nobody can reach is given up on. */
    method CancelSeat(p: Providers, s: Seat)
      requires s in w.seats && w.seats[s].event.Some?
      modifies this
      ensures w == CancelOne(old(w), p, s)
    {
      var row, fate := w.seats[s], p.cancel(s);
      w := w.(calls := w.calls + [CancelCall(s)]);
      if fate == Succeeds {
        w := w.(events := w.events - {row.event.value});
      } else if fate == Fails {
        return;
      }
      w := w.(seats := w.seats[s := row.(event := None)]);
    }

    /** reconcileCancellations */
    method ReconcileCancellations(p: Providers)
      modifies this
      ensures Cancels(old(w), w, p, Orphans(old(w)))
    {
      var items := Rows(Orphans(w));
      for i := 0 to |items|
        invariant Cancels(old(w), w, p, Seen(items, i))
      {
        SeenNext(items, i);
        assert items[i] in Orphans(old(w));
        CancelsOneMore(old(w), w, p, Seen(items, i), items[i]);
        CancelSeat(p, items[i]);
      }
      SeenAll(items, Orphans(old(w)));
    }

    /** Create the event a confirmed booking lacks, and record its id. */
    method CreateSeat(p: Providers, s: Seat)
      requires s in w.seats && s.booking in w.bookings
      modifies this
      ensures w == CreateOne(old(w), p, s)
    {
      if s.host !in p.dest {
        return;
      }
      var id, b, row := w.next, w.bookings[s.booking], w.seats[s];
      w := w.(calls := w.calls + [CreateCall(s)]);
      if p.create(s) != Succeeds {
        return;
      }
      w := w.(events := w.events[id := b.times], next := id + 1);
      w := w.(seats := w.seats[s := row.(event := Some(id))]);
      if row.primary {
        w := w.(bookings := w.bookings[s.booking := b.(event := Some(id))]);
      }
    }

    /** reconcileCreations, with the clock at now. */
    method ReconcileCreations(p: Providers, now: int)
      requires Sound(w)
      modifies this
      ensures Creates(old(w), w, p, MissingSeats(old(w), now))
    {
      var items := Rows(MissingSeats(w, now));
      for i := 0 to |items|
        invariant Creates(old(w), w, p, Seen(items, i))
      {
        SeenNext(items, i);
        assert items[i] in MissingSeats(old(w), now);
        CreatesOneMore(old(w), w, p, Seen(items, i), items[i]);
        CreateSeat(p, items[i]);
      }
      SeenAll(items, MissingSeats(old(w), now));
    }

    /** Re-apply the booking's time. A failure keeps the flag; an event nobody can reach loses it. */
    method UpdateSeat(p: Providers, s: Seat)
      requires s in w.seats && s.booking in w.bookings && w.seats[s].event.Some?
      modifies this
      ensures w == UpdateOne(old(w), p, s)
    {
      var row, fate := w.seats[s], p.update(s);
      w := w.(calls := w.calls + [UpdateCall(s)]);
      if fate == Succeeds {
        w := w.(events := Rescheduled(w.events, row.event.value, w.bookings[s.booking].times));
      } else if fate == Fails {
        return;
      }
      w := w.(seats := w.seats[s := row.(needsSync := false)]);
    }

    /** reconcileReschedules, with the clock at now. */
    method ReconcileReschedules(p: Providers, now: int)
      requires Sound(w)
      modifies this
      ensures Moves(old(w), w, p, DriftedSeats(old(w), now))
    {
      var items := Rows(DriftedSeats(w, now));
      for i := 0 to |items|
        invariant Moves(old(w), w, p, Seen(items, i))
      {
        SeenNext(items, i);
        assert items[i] in DriftedSeats(old(w), now);
        MovesOneMore(old(w), w, p, Seen(items, i), items[i]);
        UpdateSeat(p, items[i]);
      }
      SeenAll(items, DriftedSeats(old(w), now));
    }

    /** moveCalendarEvents after a reschedule: any failure flags the seat for the reconciler. */
    method MoveCalendarEvents(p: Providers, booking: string)
      requires Sound(w) && booking in w.bookings
      modifies this
      ensures Follows(old(w), w, p, SeatsOf(old(w), booking))
    {
      var items := Rows(SeatsOf(w, booking));
      for i := 0 to |items|
        invariant Follows(old(w), w, p, Seen(items, i))
      {
        SeenNext(items, i);
        assert items[i] in SeatsOf(old(w), booking);
        FollowsOneMore(old(w), w, p, Seen(items, i), items[i]);
        MoveSeat(p, items[i]);
      }
      SeenAll(items, SeatsOf(old(w), booking));
    }

    /** Move one host's event, and set or clear its flag. */
    method MoveSeat(p: Providers, s: Seat)
      requires s in w.seats && s.booking in w.bookings
      modifies this
      ensures w == MoveOne(old(w), p, s)
    {
      var row := w.seats[s];
      if row.event.None? {
        return;
      }
      w := w.(calls := w.calls + [UpdateCall(s)]);
      if p.update(s) != Succeeds {
        w := w.(seats := w.seats[s := row.(needsSync := true)]);
      } else {
        w := w.(events := Rescheduled(w.events, row.event.value, w.bookings[s.booking].times));
        w := w.(seats := w.seats[s := row.(needsSync := false)]);
      }
    }

    /** reconcileCalendarPass: the creations read the clock at now, the reschedules at later. */
    method ReconcilePass(p: Providers, now: int, later: int)
      requires Sound(w) && now <= later
      modifies this
      ensures Passes(old(w), w, p, now, later)
    {
      ghost var w0 := w;
      ReconcileCancellations(p);
      ghost var w1 := w;
      CancelsSound(w0, w1, p);
      ReconcileCreations(p, now);
      ghost var w2 := w;
      ReconcileReschedules(p, later);
      assert PassesVia(w0, w1, w2, w, p, now, later);
    }
  }

  ghost predicate PassesVia(w: World, w1: World, w2: World, w': World, p: Providers, now: int, later: int) {
    && Cancels(w, w1, p, Orphans(w)) && Creates(w1, w2, p, MissingSeats(w1, now))
    && Moves(w2, w', p, DriftedSeats(w2, later))
  }

  /** One reconciler pass, whatever its provider calls come to. */
  ghost predicate Passes(w: World, w': World, p: Providers, now: int, later: int) {
    exists w1, w2 :: PassesVia(w, w1, w2, w', p, now, later)
  }

  lemma CancelsSound(w: World, w': World, p: Providers)
    requires Sound(w) && Cancels(w, w', p, Orphans(w))
    ensures Sound(w')
  {
    forall s, t | SameEvent(w', s, t) ensures s == t {
      assert SameEvent(w, s, t);
    }
  }

  lemma MovesSound(w: World, w': World, p: Providers, done: set<Seat>)
    requires Sound(w) && Moves(w, w', p, done)
    ensures Sound(w')
  {
    forall s, t | SameEvent(w', s, t) ensures s == t {
      assert SameEvent(w, s, t);
    }
  }

  // ---------------------------------------------------------------- one successful pass

  ghost predicate AllSucceed(p: Providers) {
    forall s :: p.cancel(s) == Succeeds && p.create(s) == Succeeds && p.update(s) == Succeeds
  }

  predicate Recorded(w: World, s: Seat) {
    s in w.seats && s.booking in w.bookings && w.bookings[s.booking].status == Confirmed && w.seats[s].event.Some?
  }

  /** Events of confirmed bookings that are not flagged are in place. */
  ghost predicate InStep(w: World) {
    forall s :: Recorded(w, s) && !w.seats[s].needsSync ==> InPlace(w, w, s)
  }

  lemma CancelsInStep(w: World, w': World, p: Providers)
    requires Sound(w) && InStep(w) && Cancels(w, w', p, Orphans(w))
    ensures InStep(w')
  {
    forall s | Recorded(w', s) && !w'.seats[s].needsSync ensures InPlace(w', w', s) {
      assert Recorded(w, s) && InPlace(w, w, s);
      var e := w.seats[s].event.value;
      if Deleted(w, p, Orphans(w), e) {
        var t :| t in Orphans(w) && t in w.seats && w.seats[t].event == Some(e) && p.cancel(t) == Succeeds;
        assert SameEvent(w, s, t);
      }
    }
  }

  lemma CreatesInStep(w: World, w': World, p: Providers, done: set<Seat>)
    requires Sound(w) && InStep(w) && Creates(w, w', p, done)
    ensures InStep(w')
  {
    forall s | Recorded(w', s) && !w'.seats[s].needsSync ensures InPlace(w', w', s) {
      if s in done && Heals(p, s) {
        assert Healed(w, w', s);
      } else {
        assert Recorded(w, s) && InPlace(w, w, s);
      }
    }
  }

  /** Clearing the flag of s is right: the update reached its event, or the event needed no move. */
  ghost predicate Settles(w: World, p: Providers, s: Seat) {
    && (p.update(s) == Succeeds ==> Present(w, s))
    && (p.update(s) == Unreachable ==> InPlace(w, w, s))
  }

  /** The reschedule loop leaves the state in step exactly when each event nobody can reach was
      already where it belongs and each event reported as moved exists: the flag goes all the same. */
  lemma MovesInStep(w: World, w': World, p: Providers, now: int)
    requires Sound(w) && InStep(w) && Moves(w, w', p, DriftedSeats(w, now))
    ensures InStep(w') <==> forall s :: s in DriftedSeats(w, now) ==> Settles(w, p, s)
  {
    var done := DriftedSeats(w, now);
    forall s | s in w.seats && (s !in done || p.update(s) != Succeeds)
      ensures InPlace(w', w', s) <==> InPlace(w, w, s)
    {
      NotMoved(w, w', p, done, s);
    }
    forall s | s in done
      ensures Recorded(w', s) && (p.update(s) == Succeeds ==> (InPlace(w', w', s) <==> Present(w, s)))
    {
      assert w'.seats[s] == AfterUpdate(w.seats[s], p.update(s));
      assert p.update(s) == Succeeds && Present(w, s) ==> InPlace(w, w', s);
    }
    if forall s :: s in done ==> Settles(w, p, s) {
      forall s | Recorded(w', s) && !w'.seats[s].needsSync ensures InPlace(w', w', s) {
        assert Recorded(w, s);
        assert s in done ==> Settles(w, p, s);
      }
    } else {
      var s :| s in done && !Settles(w, p, s);
      assert Recorded(w', s) && !w'.seats[s].needsSync && !InPlace(w', w', s);
    }
  }

  /** An event left at its old time that nobody can reach, or one that vanished and is reported as
      moved: the loop takes the flag off and the state falls out of step. */
  lemma FallsOutOfStep(p: Providers, s: Seat) returns (w: World, w': World)
    requires p.update(s) != Fails
    ensures Sound(w) && InStep(w) && Moves(w, w', p, DriftedSeats(w, 0)) && !InStep(w')
  {
    var second := Timestamps.SECOND;
    w := World(map[s.booking := Booking(Confirmed, Times(second, 2 * second), 0, None)],
               map[s := SeatRow(Some(0), true, true)],
               if p.update(s) == Unreachable then map[0 := Times(0, second)] else map[], 1, []);
    w' := UpdateOne(w, p, s);
    MovesOneMore(w, w, p, {}, s);
    assert DriftedSeats(w, 0) == {} + {s};
    MovesInStep(w, w', p, 0);
    assert !Settles(w, p, s);
  }

  lemma NotMoved(w: World, w': World, p: Providers, done: set<Seat>, s: Seat)
    requires Sound(w) && Moves(w, w', p, done) && s in w.seats && (s !in done || p.update(s) != Succeeds)
    ensures InPlace(w', w', s) <==> InPlace(w, w, s)
  {
    if w.seats[s].event.Some? {
      var e := w.seats[s].event.value;
      if Moved(w, p, done, e) {
        var t :| t in done && t in w.seats && w.seats[t].event == Some(e) && p.update(t) == Succeeds;
        assert SameEvent(w, s, t);
      }
    }
  }

  /** A flagged event that is no longer on any calendar. */
  ghost predicate Lost(w: World, s: Seat, now: int) {
    Drifted(w, s, now) && !Present(w, s)
  }

  ghost predicate NoneLost(w: World, now: int) {
    forall s :: !Lost(w, s, now)
  }

  /** After a successful pass from a state in step: no event is left on a cancelled booking, and
      every upcoming confirmed seat past the grace period whose host has a destination has its
      event at the booking's time, exactly when its event was not lost. */
  lemma PassHeals(w: World, w': World, p: Providers, now: int, later: int, s: Seat)
    requires Sound(w) && InStep(w) && AllSucceed(p) && Passes(w, w', p, now, later) && now <= later
    ensures Sound(w') && (InStep(w') <==> NoneLost(w, later))
    ensures !Orphan(w', s) && (Orphan(w, s) ==> w.seats[s].event.value !in w'.events)
    ensures Upcoming(w', s, later) && PastGrace(w', s, now) && s.host in p.dest ==>
              (InPlace(w', w', s) <==> !Lost(w, s, later))
  {
    var w1, w2 :| PassesVia(w, w1, w2, w', p, now, later);
    PassKeepsStep(w, w1, w2, w', p, now, later);
    NoneLostStays(w, w1, w2, p, now, later);
    PassSettles(w, w1, w2, w', p, now, later, s);
    if Upcoming(w', s, later) && PastGrace(w', s, now) && s.host in p.dest {
      PassPlaces(w, w1, w2, w', p, now, later, s);
    }
    if Orphan(w, s) {
      OrphanGone(w, w1, w2, w', p, now, later, s);
    }
  }

  /** The first two loops lose no event of a confirmed booking and find none again. */
  lemma LostStays(w: World, w1: World, w2: World, p: Providers, now: int, later: int, s: Seat)
    requires Sound(w) && AllSucceed(p) && Cancels(w, w1, p, Orphans(w)) && Creates(w1, w2, p, MissingSeats(w1, now))
    ensures Lost(w2, s, later) <==> Lost(w, s, later)
  {
    if s in w.seats {
      LostThroughCancels(w, w1, p, later, s);
      assert s in MissingSeats(w1, now) && Heals(p, s) ==> Healed(w1, w2, s);
    }
  }

  lemma LostThroughCancels(w: World, w1: World, p: Providers, later: int, s: Seat)
    requires Sound(w) && Cancels(w, w1, p, Orphans(w)) && s in w.seats
    ensures Lost(w1, s, later) <==> Lost(w, s, later)
  {
    assert w1.seats[s] == if s in Orphans(w) then AfterCancel(w.seats[s], p.cancel(s)) else w.seats[s];
    if Drifted(w, s, later) {
      var e := w.seats[s].event.value;
      if Deleted(w, p, Orphans(w), e) {
        var t :| t in Orphans(w) && t in w.seats && w.seats[t].event == Some(e) && p.cancel(t) == Succeeds;
        assert SameEvent(w, s, t);
      }
    }
  }

  lemma MovesLost(w: World, w': World, p: Providers, now: int)
    requires Sound(w) && InStep(w) && AllSucceed(p) && Moves(w, w', p, DriftedSeats(w, now))
    ensures InStep(w') <==> NoneLost(w, now)
  {
    MovesInStep(w, w', p, now);
    assert forall s :: s in DriftedSeats(w, now) ==> (Settles(w, p, s) <==> !Lost(w, s, now));
    assert forall s :: Lost(w, s, now) ==> s in DriftedSeats(w, now);
  }

  lemma MovesPlace(w: World, w': World, p: Providers, now: int, s: Seat)
    requires Sound(w) && InStep(w) && AllSucceed(p) && Moves(w, w', p, DriftedSeats(w, now))
    requires Upcoming(w, s, now) && Recorded(w, s)
    ensures InPlace(w', w', s) <==> !Lost(w, s, now)
  {
    if s in DriftedSeats(w, now) {
      assert Present(w, s) ==> InPlace(w, w', s);
    } else {
      NotMoved(w, w', p, DriftedSeats(w, now), s);
    }
  }

  lemma PassKeepsStep(w: World, w1: World, w2: World, w': World, p: Providers, now: int, later: int)
    requires Sound(w) && InStep(w) && AllSucceed(p) && PassesVia(w, w1, w2, w', p, now, later)
    ensures Sound(w1) && Sound(w2) && InStep(w2) && Sound(w') && (InStep(w') <==> NoneLost(w2, later))
  {
    CancelsSound(w, w1, p);
    CancelsInStep(w, w1, p);
    CreatesInStep(w1, w2, p, MissingSeats(w1, now));
    MovesSound(w2, w', p, DriftedSeats(w2, later));
    MovesLost(w2, w', p, later);
  }

  lemma NoneLostStays(w: World, w1: World, w2: World, p: Providers, now: int, later: int)
    requires Sound(w) && AllSucceed(p) && Cancels(w, w1, p, Orphans(w)) && Creates(w1, w2, p, MissingSeats(w1, now))
    ensures NoneLost(w2, later) <==> NoneLost(w, later)
  {
    if s :| Lost(w, s, later) != Lost(w2, s, later) {
      LostStays(w, w1, w2, p, now, later, s);
    }
  }

  lemma PassPlaces(w: World, w1: World, w2: World, w': World, p: Providers, now: int, later: int, s: Seat)
    requires Sound(w) && Sound(w2) && InStep(w2) && AllSucceed(p) && PassesVia(w, w1, w2, w', p, now, later)
    requires Upcoming(w', s, later) && Recorded(w', s)
    ensures InPlace(w', w', s) <==> !Lost(w, s, later)
  {
    LostStays(w, w1, w2, p, now, later, s);
    MovesPlace(w2, w', p, later, s);
  }

  /** What the three loops leave for no later pass. */
  ghost predicate Settled(w: World, p: Providers, now: int, later: int, s: Seat) {
    !Orphan(w, s) && !Drifted(w, s, later) && (s.host in p.dest ==> !Missing(w, s, now))
  }

  lemma PassSettles(w: World, w1: World, w2: World, w': World, p: Providers, now: int, later: int, s: Seat)
    requires AllSucceed(p) && PassesVia(w, w1, w2, w', p, now, later) && now <= later
    ensures Settled(w', p, now, later, s)
  {
    if s in w.seats {
      RowsSettle(w, w1, w2, w', p, now, later, s);
    }
  }

  lemma RowsSettle(w: World, w1: World, w2: World, w': World, p: Providers, now: int, later: int, s: Seat)
    requires AllSucceed(p) && now <= later && s in w.seats && Cancels(w, w1, p, Orphans(w))
    requires CreatesRows(w1, w2, p, MissingSeats(w1, now)) && Moves(w2, w', p, DriftedSeats(w2, later))
    ensures Settled(w', p, now, later, s)
  {
    assert w1.seats[s] == if s in Orphans(w) then AfterCancel(w.seats[s], p.cancel(s)) else w.seats[s];
    assert s in MissingSeats(w1, now) && s.host in p.dest ==> Healed(w1, w2, s);
    assert w'.seats[s] == if s in DriftedSeats(w2, later) then AfterUpdate(w2.seats[s], p.update(s)) else w2.seats[s];
  }

  lemma NotRecorded(w: World, w1: World, w2: World, p: Providers, now: int, s: Seat, t: Seat)
    requires Sound(w) && AllSucceed(p) && Cancels(w, w1, p, Orphans(w)) && CreatesRows(w1, w2, p, MissingSeats(w1, now))
    requires Orphan(w, s) && t in w2.seats
    ensures w2.seats[t].event != w.seats[s].event
  {
    assert t in MissingSeats(w1, now) && Heals(p, t) ==> Healed(w1, w2, t);
    assert w1.seats[t] == if t in Orphans(w) then AfterCancel(w.seats[t], p.cancel(t)) else w.seats[t];
    if w.seats[t].event == w.seats[s].event {
      assert SameEvent(w, s, t) && s in Orphans(w);
    }
  }

  lemma OrphanGone(w: World, w1: World, w2: World, w': World, p: Providers, now: int, later: int, s: Seat)
    requires Sound(w) && Sound(w2) && AllSucceed(p) && PassesVia(w, w1, w2, w', p, now, later) && Orphan(w, s)
    ensures w.seats[s].event.value !in w'.events
  {
    var e := w.seats[s].event.value;
    assert s in Orphans(w) && Deleted(w, p, Orphans(w), e);
    assert e < w.next;
    forall t | t in w2.seats ensures w2.seats[t].event != Some(e) {
      NotRecorded(w, w1, w2, p, now, s, t);
    }
  }

  /** A second pass, at any later time and whatever its calls come to, changes no calendar for a
      booking that was past its grace period at the first; at the same time it makes no call. */
  lemma SecondPassIsQuiet(w: World, w': World, w'': World, p: Providers, q: Providers, now: int, later: int,
                          now': int, later': int, i: nat)
    requires Sound(w) && AllSucceed(p) && Passes(w, w', p, now, later) && now <= later
    requires q.dest <= p.dest && Passes(w', w'', q, now', later') && now <= now' && later <= later'
    requires |w'.calls| <= i < |w''.calls|
    ensures var s := w''.calls[i].seat;
            !PastGrace(w', s, now) && PastGrace(w', s, now')
  {
    var w1, w2 :| PassesVia(w, w1, w2, w', p, now, later);
    forall s ensures Settled(w', p, now, later, s) {
      PassSettles(w, w1, w2, w', p, now, later, s);
    }
    var u1, u2 :| PassesVia(w', u1, u2, w'', q, now', later');
    SettledIsQuiet(w', u1, u2, w'', p, q, now, later, now', later', i);
  }

  lemma SettledIsQuiet(w: World, u1: World, u2: World, w': World, p: Providers, q: Providers, now: int, later: int,
                       now': int, later': int, i: nat)
    requires forall s :: Settled(w, p, now, later, s)
    requires q.dest <= p.dest && now <= now' && later <= later' && |w.calls| <= i < |w'.calls|
    requires Cancels(w, u1, q, Orphans(w)) && CreatesRows(u1, u2, q, MissingSeats(u1, now'))
    requires Calls(u2, w', DriftedSeats(u2, later'))
    ensures var s := w'.calls[i].seat;
            !PastGrace(w, s, now) && PastGrace(w, s, now')
  {
    forall s ensures !Orphan(w, s) {
      assert Settled(w, p, now, later, s);
    }
    QuietCancels(w, u1, q);
    var made := set t | t in MissingSeats(u1, now') && t.host in q.dest;
    var moved := DriftedSeats(u2, later');
    CallsAdd(w, u1, u2, w', made, moved, i);
    QuietSeat(w, u1, u2, p, q, now, later, now', later', w'.calls[i].seat);
  }

  lemma CallsOfSome(w: World, w': World, seats: set<Seat>)
    requires Calls(w, w', seats)
    ensures |w'.calls| > |w.calls| ==> exists s :: s in seats
  {
    if |w'.calls| > |w.calls| {
      assert w'.calls[|w.calls|].seat in seats;
    }
  }

  lemma QuietSeat(w: World, u1: World, u2: World, p: Providers, q: Providers, now: int, later: int, now': int,
                  later': int, s: Seat)
    requires Settled(w, p, now, later, s) && q.dest <= p.dest && now <= now' && later <= later'
    requires u1.seats == w.seats && u1.bookings == w.bookings && CreatesRows(u1, u2, q, MissingSeats(u1, now'))
    requires (Missing(u1, s, now') && s.host in q.dest) || Drifted(u2, s, later')
    ensures !PastGrace(w, s, now) && PastGrace(w, s, now')
  {
    assert s in u1.seats && !(s in MissingSeats(u1, now') && Heals(q, s)) ==> u2.seats[s] == u1.seats[s];
  }

  lemma QuietCancels(w: World, w': World, p: Providers)
    requires Cancels(w, w', p, Orphans(w)) && forall s :: !Orphan(w, s)
    ensures w'.calls == w.calls && w'.seats == w.seats && w'.bookings == w.bookings
  {
    assert Orphans(w) == {};
    CallsOfSome(w, w', Orphans(w));
    assert w'.calls == w'.calls[..|w.calls|];
  }

  lemma CallsAdd(w: World, u1: World, u2: World, w': World, made: set<Seat>, moved: set<Seat>, i: nat)
    requires u1.calls == w.calls && Calls(u1, u2, made) && Calls(u2, w', moved) && |w.calls| <= i < |w'.calls|
    ensures w'.calls[i].seat in made || w'.calls[i].seat in moved
  {
    if i < |u2.calls| {
      assert w'.calls[..|u2.calls|][i] == w'.calls[i];
    }
  }

  // ---------------------------------------------------------------- the inline move of a reschedule

  function SeatsOf(w: World, booking: string): (r: set<Seat>) {
    set s | s in w.seats && s.booking == booking
  }

  function MoveOne(w: World, p: Providers, s: Seat): (r: World)
    requires s in w.seats && s.booking in w.bookings
  {
    if w.seats[s].event.None? then w
    else
      w.(seats := w.seats[s := w.seats[s].(needsSync := p.update(s) != Succeeds)],
         events := if p.update(s) != Succeeds then w.events
                   else Rescheduled(w.events, w.seats[s].event.value, w.bookings[s.booking].times),
         calls := w.calls + [UpdateCall(s)])
  }

  function AfterMove(row: SeatRow, fate: Fate): (r: SeatRow) {
    if row.event.None? then row else row.(needsSync := fate != Succeeds)
  }

  ghost predicate Follows(w: World, w': World, p: Providers, done: set<Seat>) {
    && w'.bookings == w.bookings && w'.next == w.next && w'.seats.Keys == w.seats.Keys
    && (forall s :: s in w.seats ==>
            w'.seats[s] == if s in done then AfterMove(w.seats[s], p.update(s)) else w.seats[s])
    && w'.events.Keys == w.events.Keys
    && (forall e :: e in w.events && !Moved(w, p, done, e) ==> w'.events[e] == w.events[e])
    && (forall s :: s in done && p.update(s) == Succeeds && Present(w, s) ==> InPlace(w, w', s))
  }

  lemma FollowsOneMore(w: World, w': World, p: Providers, done: set<Seat>, s: Seat)
    requires Sound(w) && Follows(w, w', p, done) && s in w.seats && s.booking in w.bookings && s !in done
    ensures Follows(w, MoveOne(w', p, s), p, done + {s})
  {
    var r := MoveOne(w', p, s);
    forall e | e in w.events && !Moved(w, p, done + {s}, e) ensures r.events[e] == w.events[e] {
      MovedGrows(w, p, done, s, e);
      assert p.update(s) == Succeeds && w.seats[s].event == Some(e) ==> s in done + {s};
    }
    forall t | t in done + {s} && p.update(t) == Succeeds && Present(w, t) ensures InPlace(w, r, t) {
      if t != s {
        assert InPlace(w, w', t);
        assert SameEvent(w, t, s) <==> w.seats[t].event == w.seats[s].event;
      }
    }
  }

  /** A reschedule followed by the inline move leaves the state in step, each event at the new time
      or flagged for the next pass, exactly when each event reported as moved exists. */
  lemma RescheduleKeepsStep(w: World, booking: string, times: Times, w': World, p: Providers)
    requires Sound(w) && InStep(w) && booking in w.bookings
    requires var moved := w.(bookings := w.bookings[booking := w.bookings[booking].(times := times)]);
             Follows(moved, w', p, SeatsOf(moved, booking))
    ensures InStep(w') <==>
              forall s :: Recorded(w, s) && s.booking == booking && p.update(s) == Succeeds ==> Present(w, s)
  {
    var v := w.(bookings := w.bookings[booking := w.bookings[booking].(times := times)]);
    var done := SeatsOf(v, booking);
    forall s, t | SameEvent(v, s, t) ensures s == t {
      assert SameEvent(w, s, t);
    }
    forall s | Recorded(w, s) && s in done && p.update(s) == Succeeds
      ensures Recorded(w', s) && !w'.seats[s].needsSync && (InPlace(w', w', s) <==> Present(w, s))
    {
      assert w'.seats[s] == AfterMove(v.seats[s], p.update(s));
      assert Present(v, s) ==> InPlace(v, w', s);
    }
    forall s | Recorded(w', s) && !w'.seats[s].needsSync && s !in done ensures InPlace(w', w', s) {
      assert Recorded(w, s) && InPlace(w, w, s);
      OtherEventStays(v, w', p, done, s);
    }
  }

  lemma OtherEventStays(w: World, w': World, p: Providers, done: set<Seat>, s: Seat)
    requires (forall s, t :: SameEvent(w, s, t) ==> s == t) && Follows(w, w', p, done)
    requires s in w.seats && s !in done && w.seats[s].event.Some? && w.seats[s].event.value in w.events
    ensures w'.events[w.seats[s].event.value] == w.events[w.seats[s].event.value]
  {
    var e := w.seats[s].event.value;
    if Moved(w, p, done, e) {
      var t :| t in done && t in w.seats && w.seats[t].event == Some(e) && p.update(t) == Succeeds;
      assert SameEvent(w, s, t);
    }
  }
}

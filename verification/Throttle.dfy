/** The hourly per-email cap that Create enforces inside its transaction
    (internal/booking/service.go). Create reads the clock twice: once for created_at and
    again, a little later, for the trailing hour it counts over. Both are stored and compared
    as text, in which an instant may sort before an earlier one of the same second. */
module Throttle {
  import opened Timestamps

  /** Instants are in nanoseconds. */
  const HOUR: int := 3_600_000_000_000

  /** A booking joined with its organizer; a cancelled one stays in the table. */
  datatype Row = Row(email: string, created: nat, cancelled: bool)

  /** created_at > cutoff, as the query compares them. */
  predicate Newer(created: nat, cutoff: nat) {
    Less(RFC3339Nano(cutoff), RFC3339Nano(created))
  }

  /** The comparisons of the count: SQL's LOWER, and created_at > cutoff. */
  datatype Query = Query(lower: string -> string, newer: (nat, nat) -> bool)

  function Text(lower: string -> string): (q: Query) {
    Query(lower, Newer)
  }

  /** How many rows of this email were created in (after, upTo]. */
  function CountIn(q: Query, rows: seq<Row>, email: string, after: int, upTo: int): (n: nat) {
    if rows == [] then 0
    else
      var last := rows[|rows| - 1];
      CountIn(q, rows[..|rows| - 1], email, after, upTo)
        + if q.lower(last.email) == q.lower(email) && after < last.created <= upTo then 1 else 0
  }

  /** The query of the throttle: rows newer than the cutoff, whatever their upper end. */
  function Recent(q: Query, rows: seq<Row>, email: string, cutoff: nat): (n: nat) {
    if rows == [] then 0
    else
      var last := rows[|rows| - 1];
      Recent(q, rows[..|rows| - 1], email, cutoff)
        + if q.lower(last.email) == q.lower(email) && q.newer(last.created, cutoff) then 1 else 0
  }

  datatype Event =
    | Create(email: string, created: nat, checked: nat)
    | Cancel(row: nat)

  /** A cap of zero, or less, is no cap. */
  function Apply(q: Query, cap: int, rows: seq<Row>, e: Event): (rows': seq<Row>) {
    match e
    case Create(email, created, checked) =>
      if cap > 0 && checked >= HOUR && Recent(q, rows, email, checked - HOUR) >= cap then rows
      else rows + [Row(email, created, false)]
    case Cancel(row) =>
      if row < |rows| then rows[row := rows[row].(cancelled := true)] else rows
  }

  function After(q: Query, cap: int, events: seq<Event>): (rows: seq<Row>) {
    if events == [] then []
    else Apply(q, cap, After(q, cap, events[..|events| - 1]), events[|events| - 1])
  }

  function CreatesIn(events: seq<Event>): (n: nat) {
    if events == [] then 0 else CreatesIn(events[..|events| - 1]) + if events[|events| - 1].Create? then 1 else 0
  }

  /** Without a cap every booking is taken. */
  lemma {:induction false} NoCap(q: Query, cap: int, events: seq<Event>)
    requires cap <= 0
    ensures |After(q, cap, events)| == CreatesIn(events)
  {
    if events != [] {
      NoCap(q, cap, events[..|events| - 1]);
    }
  }

  /** The two clock reads of each Create are in order and at most `gap` apart, the second one
      after the first hour of year 0 and no later than `last`. */
  ghost predicate Clocked(events: seq<Event>, gap: int, last: nat) {
    forall i :: 0 <= i < |events| && events[i].Create? ==>
      && events[i].created <= events[i].checked <= events[i].created + gap
      && HOUR <= events[i].checked <= last
  }

  // ---------------------------------------------------------------- windows that are capped

  /** Up to `last`, a row of a later second than the cutoff's is newer than it. */
  ghost predicate Sorts(q: Query, last: nat) {
    forall r: nat, c: nat :: r <= last && c / SECOND < r / SECOND ==> q.newer(r, c)
  }

  ghost predicate UpTo(rows: seq<Row>, last: nat) {
    forall i :: 0 <= i < |rows| ==> rows[i].created <= last
  }

  /** A row whose second is later than the cutoff's is counted. */
  lemma {:induction false} WindowIsRecent(q: Query, rows: seq<Row>, email: string, after: nat, upTo: int, cutoff: nat,
                                          last: nat)
    requires Sorts(q, last) && UpTo(rows, last) && cutoff / SECOND < (after + 1) / SECOND
    ensures CountIn(q, rows, email, after, upTo) <= Recent(q, rows, email, cutoff)
  {
    if rows != [] {
      WindowIsRecent(q, rows[..|rows| - 1], email, after, upTo, cutoff, last);
    }
  }

  lemma {:induction false} CancelKeepsCounts(q: Query, rows: seq<Row>, row: nat, email: string, after: int, upTo: int)
    requires row < |rows|
    ensures CountIn(q, rows[row := rows[row].(cancelled := true)], email, after, upTo)
         == CountIn(q, rows, email, after, upTo)
  {
    var n := |rows| - 1;
    var rows' := rows[row := rows[row].(cancelled := true)];
    if row < n {
      assert rows'[..n] == rows[..n][row := rows[..n][row].(cancelled := true)];
      CancelKeepsCounts(q, rows[..n], row, email, after, upTo);
    } else {
      assert rows'[..n] == rows[..n];
    }
  }

  lemma CountSame(q: Query, rows: seq<Row>, a: string, b: string, after: int, upTo: int)
    requires q.lower(a) == q.lower(b)
    ensures CountIn(q, rows, a, after, upTo) == CountIn(q, rows, b, after, upTo)
  {
  }

  /** The window (start, start + length] opens in a later second than that of the last cutoff
      a booking created inside it can be checked against. */
  predicate Capped(start: nat, length: nat, gap: nat) {
    var cutoff := start + length + gap - HOUR;
    cutoff < 0 || cutoff / SECOND < (start + 1) / SECOND
  }

  lemma CreateKeepsCap(q: Query, cap: int, rows: seq<Row>, who: string, created: nat, checked: nat, gap: nat,
                       email: string, start: nat, length: nat, last: nat)
    requires cap > 0 && created <= checked <= created + gap && HOUR <= checked && Sorts(q, last) && UpTo(rows, last)
    requires Capped(start, length, gap) && CountIn(q, rows, email, start, start + length) <= cap
    ensures CountIn(q, Apply(q, cap, rows, Create(who, created, checked)), email, start, start + length) <= cap
  {
    var rows' := rows + [Row(who, created, false)];
    assert rows'[..|rows|] == rows;
    if q.lower(who) == q.lower(email) && start < created <= start + length {
      CountSame(q, rows, who, email, start, start + length);
      WindowIsRecent(q, rows, who, start, start + length, checked - HOUR, last);
    }
  }

  lemma {:induction false} RowsUpTo(q: Query, cap: int, events: seq<Event>, gap: int, last: nat)
    requires Clocked(events, gap, last)
    ensures UpTo(After(q, cap, events), last)
  {
    if events != [] {
      RowsUpTo(q, cap, events[..|events| - 1], gap, last);
    }
  }

  lemma {:induction false} CapHolds(q: Query, cap: int, events: seq<Event>, gap: nat, email: string, start: nat,
                                    length: nat, last: nat)
    requires cap > 0 && Clocked(events, gap, last) && Sorts(q, last) && Capped(start, length, gap)
    ensures CountIn(q, After(q, cap, events), email, start, start + length) <= cap
  {
    if events != [] {
      var n := |events| - 1;
      CapHolds(q, cap, events[..n], gap, email, start, length, last);
      RowsUpTo(q, cap, events[..n], gap, last);
      var rows, e := After(q, cap, events[..n]), events[n];
      match e
      case Cancel(row) =>
        if row < |rows| { CancelKeepsCounts(q, rows, row, email, start, start + length); }
      case Create(who, created, checked) =>
        CreateKeepsCap(q, cap, rows, who, created, checked, gap, email, start, length, last);
    }
  }

  // ---------------------------------------------------------------- windows that are not

  function Rows(email: string, t: nat, n: nat): (r: seq<Row>) {
    seq(n, i => Row(email, t, false))
  }

  function Creates(email: string, t: nat, n: nat): (r: seq<Event>) {
    seq(n, i => Create(email, t, t))
  }

  lemma {:induction false} RecentAtMost(q: Query, rows: seq<Row>, email: string, cutoff: nat)
    ensures Recent(q, rows, email, cutoff) <= |rows|
  {
    if rows != [] {
      RecentAtMost(q, rows[..|rows| - 1], email, cutoff);
    }
  }

  lemma AfterSnoc(q: Query, cap: int, events: seq<Event>, e: Event)
    ensures After(q, cap, events + [e]) == Apply(q, cap, After(q, cap, events), e)
  {
    assert (events + [e])[..|events|] == events;
  }

  lemma Accepted(q: Query, cap: int, rows: seq<Row>, email: string, t: nat)
    requires |rows| < cap && HOUR <= t
    ensures Apply(q, cap, rows, Create(email, t, t)) == rows + [Row(email, t, false)]
  {
    RecentAtMost(q, rows, email, t - HOUR);
  }

  /** The cap fills up at any one instant. */
  lemma {:induction false} Fills(q: Query, cap: int, email: string, t: nat, n: nat)
    requires n <= cap && HOUR <= t
    ensures After(q, cap, Creates(email, t, n)) == Rows(email, t, n)
  {
    if n > 0 {
      Fills(q, cap, email, t, n - 1);
      Accepted(q, cap, Rows(email, t, n - 1), email, t);
      assert Rows(email, t, n) == Rows(email, t, n - 1) + [Row(email, t, false)];
      AfterSnoc(q, cap, Creates(email, t, n - 1), Create(email, t, t));
      assert Creates(email, t, n) == Creates(email, t, n - 1) + [Create(email, t, t)];
    }
  }

  lemma {:induction false} CountOfRows(q: Query, email: string, t: nat, n: nat, after: int, upTo: int)
    requires after < t <= upTo
    ensures CountIn(q, Rows(email, t, n), email, after, upTo) == n
  {
    if n > 0 {
      assert Rows(email, t, n)[..n - 1] == Rows(email, t, n - 1);
      CountOfRows(q, email, t, n - 1, after, upTo);
    }
  }

  lemma {:induction false} RecentOfRows(q: Query, email: string, t: nat, n: nat, cutoff: nat)
    requires !q.newer(t, cutoff)
    ensures Recent(q, Rows(email, t, n), email, cutoff) == 0
  {
    if n > 0 {
      assert Rows(email, t, n)[..n - 1] == Rows(email, t, n - 1);
      RecentOfRows(q, email, t, n - 1, cutoff);
    }
  }

  lemma OneMore(q: Query, cap: int, before: seq<Event>, e: Event, after: int, upTo: int)
    requires cap > 0 && e.Create? && e.checked >= HOUR && after < e.created <= upTo
    requires Recent(q, After(q, cap, before), e.email, e.checked - HOUR) == 0
    ensures CountIn(q, After(q, cap, before + [e]), e.email, after, upTo)
         == CountIn(q, After(q, cap, before), e.email, after, upTo) + 1
  {
    var rows := After(q, cap, before);
    assert (before + [e])[..|before|] == before;
    assert (rows + [Row(e.email, e.created, false)])[..|rows|] == rows;
  }

  /** A full cap of bookings at `first`, then one more whose cutoff misses them all. */
  function Overfull(cap: nat, email: string, first: nat, created: nat, checked: nat): (events: seq<Event>) {
    Creates(email, first, cap) + [Create(email, created, checked)]
  }

  lemma OneTooMany(q: Query, cap: int, email: string, first: nat, created: nat, checked: nat, after: int, upTo: int)
    requires cap > 0 && HOUR <= first && HOUR <= checked && after < first <= upTo && after < created <= upTo
    requires !q.newer(first, checked - HOUR)
    ensures CountIn(q, After(q, cap, Overfull(cap, email, first, created, checked)), email, after, upTo) == cap + 1
  {
    Fills(q, cap, email, first, cap);
    RecentOfRows(q, email, first, cap, checked - HOUR);
    CountOfRows(q, email, first, cap, after, upTo);
    OneMore(q, cap, Creates(email, first, cap), Create(email, created, checked), after, upTo);
  }

  /** Up to `last`, no row is newer than the whole second it falls in. */
  ghost predicate MissesSecond(q: Query, last: nat) {
    forall r: nat, c: nat :: c <= r <= last && c % SECOND == 0 && c / SECOND == r / SECOND ==> !q.newer(r, c)
  }

  function Floor(t: nat): (r: nat)
    ensures r <= t < r + SECOND && r % SECOND == 0 && r / SECOND == t / SECOND
  {
    t - t % SECOND
  }

  /** The whole second in which an uncapped window opens is a cutoff inside it. */
  lemma UncappedCutoff(start: nat, length: nat, gap: nat)
    requires gap + SECOND <= HOUR && !Capped(start, length, gap)
    ensures start < Floor(start + 1) + HOUR - gap <= start + length && start + 1 <= start + length
  {
  }

  lemma GoesOver(q: Query, cap: int, gap: nat, email: string, start: nat, length: nat, last: nat)
      returns (events: seq<Event>)
    requires cap > 0 && gap + SECOND <= HOUR <= start && start + 1 + HOUR <= last && MissesSecond(q, last)
    requires !Capped(start, length, gap)
    ensures Clocked(events, gap, last)
    ensures CountIn(q, After(q, cap, events), email, start, start + length) == cap + 1
  {
    var first, c := start + 1, Floor(start + 1);
    UncappedCutoff(start, length, gap);
    assert !q.newer(first, c);
    OneTooMany(q, cap, email, first, c + HOUR - gap, c + HOUR, start, start + length);
    events := Overfull(cap, email, first, c + HOUR - gap, c + HOUR);
  }

  // ---------------------------------------------------------------- the text comparison

  lemma TextMisses(lower: string -> string, last: nat)
    requires FourDigitYear(last / SECOND)
    ensures MissesSecond(Text(lower), last)
  {
    forall r: nat, c: nat | c <= r <= last && c % SECOND == 0 && c / SECOND == r / SECOND ensures !Newer(r, c) {
      EarlierYear(r / SECOND, last / SECOND);
      WholeSecondLast(c, r);
    }
  }

  lemma TextSorts(lower: string -> string, last: nat)
    requires FourDigitYear(last / SECOND)
    ensures Sorts(Text(lower), last)
  {
    forall r: nat, c: nat | r <= last && c / SECOND < r / SECOND ensures Newer(r, c) {
      EarlierYear(r / SECOND, last / SECOND);
      OtherSecondText(c, r);
    }
  }

  /** Over every run of creations and cancellations no email address has more than `cap`
      bookings created in a capped window. No assumption is made on the order in which clocks
      advance between transactions. */
  lemma {:induction false} HourlyCap(lower: string -> string, cap: int, events: seq<Event>, gap: nat, email: string,
                                     start: nat, length: nat, last: nat)
    requires cap > 0 && Clocked(events, gap, last) && FourDigitYear(last / SECOND) && Capped(start, length, gap)
    ensures CountIn(Text(lower), After(Text(lower), cap, events), email, start, start + length) <= cap
  {
    TextSorts(lower, last);
    CapHolds(Text(lower), cap, events, gap, email, start, length, last);
  }

  /** In any other window, and for every cap, some run goes over. */
  lemma UncappedWindow(lower: string -> string, cap: int, gap: nat, email: string, start: nat, length: nat, last: nat)
      returns (events: seq<Event>)
    requires cap > 0 && gap + SECOND <= HOUR <= start && start + 1 + HOUR <= last && FourDigitYear(last / SECOND)
    requires !Capped(start, length, gap)
    ensures Clocked(events, gap, last)
    ensures CountIn(Text(lower), After(Text(lower), cap, events), email, start, start + length) == cap + 1
  {
    TextMisses(lower, last);
    events := GoesOver(Text(lower), cap, gap, email, start, length, last);
  }

  /** The cap holds in a window over all runs if and only if the window opens in a later second
      than that of the last cutoff inside it. */
  lemma HourlyCapExactly(lower: string -> string, cap: int, gap: nat, email: string, start: nat, length: nat, last: nat)
    requires cap > 0 && gap + SECOND <= HOUR <= start && start + 1 + HOUR <= last && FourDigitYear(last / SECOND)
    ensures Capped(start, length, gap) <==> forall events :: Clocked(events, gap, last) ==>
              CountIn(Text(lower), After(Text(lower), cap, events), email, start, start + length) <= cap
  {
    if Capped(start, length, gap) {
      forall events | Clocked(events, gap, last)
        ensures CountIn(Text(lower), After(Text(lower), cap, events), email, start, start + length) <= cap
      {
        HourlyCap(lower, cap, events, gap, email, start, length, last);
      }
    } else {
      var events := UncappedWindow(lower, cap, gap, email, start, length, last);
    }
  }

  /** Less the gap between the clock reads, a full hour is capped exactly when it opens on a
      whole second; a second less is always capped; with any gap a full hour never is. */
  lemma CappedHours(start: nat, gap: nat)
    requires gap + SECOND <= HOUR
    ensures Capped(start, HOUR - gap, gap) <==> (start + 1) % SECOND == 0
    ensures Capped(start, HOUR - gap - SECOND, gap)
    ensures Capped(start, HOUR, gap) ==> gap == 0
  {
  }

  ghost predicate MissesHalf(q: Query, half: nat) {
    !q.newer(half + 20_000_000, half)
  }

  lemma TextMissesHalf(lower: string -> string, half: nat)
    requires half % SECOND == 500_000_000 && FourDigitYear(half / SECOND)
    ensures MissesHalf(Text(lower), half)
  {
    assert !Newer(half + 20_000_000, half) by { HalfSecondMisordered(half); }
  }

  /** With one clock read per Create: bookings 0.52 s into a second, and one more an hour after 0.5 s
      of it. Its cutoff sorts after the bookings, which are 20 ms younger. */
  lemma OverInOneHour(lower: string -> string, cap: int, email: string, half: nat)
    requires cap > 0 && half % SECOND == 500_000_000 && HOUR <= half && FourDigitYear(half / SECOND)
    ensures OverAt(Text(lower), cap, email, half)
  {
    TextMissesHalf(lower, half);
    OneOverAt(Text(lower), cap, email, half);
  }

  ghost predicate OverAt(q: Query, cap: nat, email: string, half: nat) {
    var events := Overfull(cap, email, half + 20_000_000, half + HOUR, half + HOUR);
    CountIn(q, After(q, cap, events), email, half, half + HOUR) == cap + 1
  }

  lemma OneOverAt(q: Query, cap: int, email: string, half: nat)
    requires cap > 0 && HOUR <= half && MissesHalf(q, half)
    ensures OverAt(q, cap, email, half)
  {
    OneTooMany(q, cap, email, half + 20_000_000, half + HOUR, half + HOUR, half, half + HOUR);
  }
}

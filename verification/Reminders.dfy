/** Reminder jobs: the create path's inserts and a reschedule's replacement race over one jobs
    table (internal/handler/booking_handler.go). Statements are atomic; the partial unique index
    covers the pending and running rows. */
module Reminders {

  datatype Status = Pending | Running | Done | Dead

  /** A reminder.send row; its payload is the booking and the hours before the start. */
  datatype Job = Job(booking: string, hours: int, runAt: int, status: Status)

  type Table = seq<Job>

  predicate Live(j: Job) {
    j.status == Pending || j.status == Running
  }

  predicate Has(j: Job, booking: string, hours: int) {
    j.booking == booking && j.hours == hours
  }

  /** The index ux_jobs_type_payload_live. */
  ghost predicate LiveUnique(t: Table) {
    forall i, k :: 0 <= i < k < |t| && Live(t[i]) && Live(t[k]) ==> !Has(t[k], t[i].booking, t[i].hours)
  }

  // ---------------------------------------------------------------- the statements

  /** InsertIgnore: ON CONFLICT DO NOTHING. Clear: DELETE … status <> running. Upsert: ON CONFLICT
      DO UPDATE … WHERE status <> running. */
  datatype Stmt =
    | InsertIgnore(booking: string, hours: int, runAt: int)
    | Clear(booking: string)
    | Upsert(booking: string, hours: int, runAt: int)

  function Keep(t: Table, booking: string): (r: Table) {
    if t == [] then []
    else
      var front, last := Keep(t[..|t| - 1], booking), t[|t| - 1];
      if last.booking == booking && last.status != Running then front else front + [last]
  }

  predicate HasLive(t: Table, booking: string, hours: int) {
    exists i :: 0 <= i < |t| && Live(t[i]) && Has(t[i], booking, hours)
  }

  function Updated(j: Job, booking: string, hours: int, runAt: int): (r: Job) {
    if j.status == Pending && Has(j, booking, hours) then j.(runAt := runAt, status := Pending) else j
  }

  function UpdateAll(t: Table, booking: string, hours: int, runAt: int): (r: Table) {
    if t == [] then []
    else UpdateAll(t[..|t| - 1], booking, hours, runAt) + [Updated(t[|t| - 1], booking, hours, runAt)]
  }

  function Do(t: Table, st: Stmt): (r: Table) {
    match st
    case InsertIgnore(b, h, at) => if HasLive(t, b, h) then t else t + [Job(b, h, at, Pending)]
    case Clear(b) => Keep(t, b)
    case Upsert(b, h, at) => if HasLive(t, b, h) then UpdateAll(t, b, h, at) else t + [Job(b, h, at, Pending)]
  }

  function After(t: Table, run: seq<Stmt>): (r: Table) {
    if run == [] then t else Do(After(t, run[..|run| - 1]), run[|run| - 1])
  }

  // ---------------------------------------------------------------- the two programs

  /** No configured list means one reminder a day ahead. */
  function Effective(list: seq<int>): (r: seq<int>) {
    if list == [] then [24] else list
  }

  /** The run time of a reminder, or now when that has passed. */
  function RunAt(start: int, hours: int, now: int): (at: int) {
    if start - hours * 3600 < now then now else start - hours * 3600
  }

  /** A reminder of so many hours, not yet due, goes out that many times sixty minutes of sixty
      seconds before the start; one that is due goes out now. */
  lemma LeadTime(start: int, hours: int, now: int)
    ensures now + hours * 60 * 60 <= start ==> start - RunAt(start, hours, now) == hours * 60 * 60
    ensures start <= now + hours * 60 * 60 ==> RunAt(start, hours, now) == now
  {
  }

  function Upserts(booking: string, list: seq<int>, start: int, now: int): (r: seq<Stmt>) {
    if list == [] then []
    else
      var n := |list| - 1;
      Upserts(booking, list[..n], start, now) + [Upsert(booking, list[n], RunAt(start, list[n], now))]
  }

  /** replaceReminderJobs as its statements. */
  function Replace(booking: string, list: seq<int>, start: int, now: int): (r: seq<Stmt>) {
    [Clear(booking)] + Upserts(booking, Effective(list), start, now)
  }

  /** Any part of enqueueBookingReminders: its inserts, at whatever times its clock gives. */
  ghost predicate Enqueues(run: seq<Stmt>, booking: string, list: seq<int>) {
    forall i :: 0 <= i < |run| ==> run[i].InsertIgnore? && run[i].booking == booking && run[i].hours in Effective(list)
  }

  /** run is an interleaving of xs and ys. */
  ghost predicate Merges(run: seq<Stmt>, xs: seq<Stmt>, ys: seq<Stmt>)
    decreases |run|
  {
    if run == [] then xs == [] && ys == []
    else
      var last, front := run[|run| - 1], run[..|run| - 1];
      || (xs != [] && xs[|xs| - 1] == last && Merges(front, xs[..|xs| - 1], ys))
      || (ys != [] && ys[|ys| - 1] == last && Merges(front, xs, ys[..|ys| - 1]))
  }

  // ---------------------------------------------------------------- one reminder at a time

  /** The rows for one reminder of one booking. */
  function RowsFor(t: Table, booking: string, hours: int): (r: Table) {
    if t == [] then []
    else
      var front, last := RowsFor(t[..|t| - 1], booking, hours), t[|t| - 1];
      if Has(last, booking, hours) then front + [last] else front
  }

  predicate Touches(st: Stmt, booking: string, hours: int) {
    st.booking == booking && (st.Clear? || st.hours == hours)
  }

  lemma RowsSnoc(t: Table, j: Job, b: string, h: int)
    ensures RowsFor(t + [j], b, h) == RowsFor(t, b, h) + if Has(j, b, h) then [j] else []
  {
    assert (t + [j])[..|t|] == t;
  }

  lemma KeepSnoc(t: Table, j: Job, b: string)
    ensures Keep(t + [j], b) == Keep(t, b) + if j.booking == b && j.status != Running then [] else [j]
  {
    assert (t + [j])[..|t|] == t;
  }

  lemma {:induction false} RowsOfKeep(t: Table, c: string, b: string, h: int)
    ensures RowsFor(Keep(t, c), b, h) == if c == b then Keep(RowsFor(t, b, h), b) else RowsFor(t, b, h)
  {
    if t != [] {
      var front, last := t[..|t| - 1], t[|t| - 1];
      RowsOfKeep(front, c, b, h);
      RowsSnoc(Keep(front, c), last, b, h);
      KeepSnoc(RowsFor(front, b, h), last, b);
    }
  }

  lemma {:induction false} RowsOfUpdate(t: Table, c: string, g: int, at: int, b: string, h: int)
    ensures RowsFor(UpdateAll(t, c, g, at), b, h) ==
            if c == b && g == h then UpdateAll(RowsFor(t, b, h), c, g, at) else RowsFor(t, b, h)
  {
    if t != [] {
      var front, last := t[..|t| - 1], t[|t| - 1];
      RowsOfUpdate(front, c, g, at, b, h);
      RowsSnoc(UpdateAll(front, c, g, at), Updated(last, c, g, at), b, h);
      assert (RowsFor(front, b, h) + [last])[..|RowsFor(front, b, h)|] == RowsFor(front, b, h);
    }
  }

  lemma {:induction false} RowsAreLive(t: Table, b: string, h: int)
    ensures HasLive(t, b, h) <==> HasLive(RowsFor(t, b, h), b, h)
  {
    if t != [] {
      var front, last := t[..|t| - 1], t[|t| - 1];
      RowsAreLive(front, b, h);
      var r, r' := RowsFor(front, b, h), RowsFor(t, b, h);
      assert HasLive(t, b, h) <==> HasLive(front, b, h) || (Live(last) && Has(last, b, h)) by {
        LiveSnoc(front, last, b, h);
        assert t == front + [last];
      }
      LiveSnoc(r, last, b, h);
    }
  }

  lemma LiveSnoc(t: Table, j: Job, b: string, h: int)
    ensures HasLive(t + [j], b, h) <==> HasLive(t, b, h) || (Live(j) && Has(j, b, h))
  {
    var t' := t + [j];
    assert t'[|t|] == j && forall i :: 0 <= i < |t| ==> t'[i] == t[i];
    if i :| 0 <= i < |t| && Live(t[i]) && Has(t[i], b, h) {
      assert Live(t'[i]);
    }
  }

  /** A statement acts on each reminder's rows on their own. */
  lemma DoOnRows(t: Table, st: Stmt, b: string, h: int)
    ensures RowsFor(Do(t, st), b, h) == if Touches(st, b, h) then Do(RowsFor(t, b, h), st) else RowsFor(t, b, h)
  {
    match st
    case Clear(c) => RowsOfKeep(t, c, b, h);
    case InsertIgnore(c, g, at) =>
      RowsAreLive(t, c, g);
      RowsSnoc(t, Job(c, g, at, Pending), b, h);
    case Upsert(c, g, at) =>
      RowsAreLive(t, c, g);
      RowsSnoc(t, Job(c, g, at, Pending), b, h);
      RowsOfUpdate(t, c, g, at, b, h);
  }

  // ---------------------------------------------------------------- every interleaving

  ghost predicate OneLive(r: Table) {
    forall i, k :: 0 <= i < k < |r| ==> !(Live(r[i]) && Live(r[k]))
  }

  ghost predicate AllFor(r: Table, b: string, h: int) {
    forall i :: 0 <= i < |r| ==> Has(r[i], b, h)
  }

  lemma {:induction false} RowsShape(t: Table, b: string, h: int)
    ensures AllFor(RowsFor(t, b, h), b, h)
    ensures forall j :: j in RowsFor(t, b, h) ==> j in t
  {
    if t != [] {
      RowsShape(t[..|t| - 1], b, h);
    }
  }

  lemma {:induction false} RowsOneLive(t: Table, b: string, h: int)
    requires LiveUnique(t)
    ensures OneLive(RowsFor(t, b, h))
  {
    if t != [] {
      var front, last := t[..|t| - 1], t[|t| - 1];
      RowsOneLive(front, b, h);
      RowsShape(front, b, h);
      var r := RowsFor(front, b, h);
      forall i | 0 <= i < |r| && Has(last, b, h) ensures !(Live(r[i]) && Live(last)) {
        assert r[i] in front;
        var k :| 0 <= k < |front| && front[k] == r[i];
        assert t[k] == r[i];
      }
    }
  }

  /** The running rows for one reminder, of which there is at most one. */
  lemma {:induction false} RunningRows(r: Table, b: string, h: int)
    requires OneLive(r) && AllFor(r, b, h)
    ensures |Keep(r, b)| <= 1 && AllFor(Keep(r, b), b, h)
    ensures forall i :: 0 <= i < |Keep(r, b)| ==> Keep(r, b)[i] in r && Keep(r, b)[i].status == Running
  {
    if r != [] {
      var front, last := r[..|r| - 1], r[|r| - 1];
      RunningRows(front, b, h);
      forall i | 0 <= i < |front| ensures last.status == Running ==> front[i].status != Running {
        assert r[i] == front[i] && !(Live(r[i]) && Live(r[|r| - 1]));
      }
      assert last.status == Running ==> Keep(front, b) == [] by {
        if Keep(front, b) != [] {
          assert Keep(front, b)[0] in front;
        }
      }
    }
  }

  /** What one reminder's rows look like while the reschedule has done its first n statements. */
  ghost predicate RowsOk(r: Table, running: Table, b: string, h: int, list: seq<int>, n: nat, at: int) {
    if n == 0 then OneLive(r) && AllFor(r, b, h) && Keep(r, b) == running
    else if running != [] then r == running
    else if h in Effective(list)[..Least(n - 1, |Effective(list)|)] then r == [Job(b, h, at, Pending)]
    else r == [] || (h in Effective(list) && |r| == 1 && Has(r[0], b, h) && r[0].status == Pending)
  }

  function Least(a: int, b: int): (r: int) {
    if a < b then a else b
  }

  /** The first n statements of the replacement. */
  function Progress(booking: string, list: seq<int>, start: int, now: int, n: nat): (r: seq<Stmt>)
    requires n <= |Effective(list)| + 1
  {
    if n == 0 then [] else [Clear(booking)] + Upserts(booking, Effective(list)[..n - 1], start, now)
  }

  lemma ProgressLast(b: string, list: seq<int>, start: int, now: int, n: nat)
    requires 0 < n <= |Effective(list)| + 1
    ensures var p := Progress(b, list, start, now, n);
            && p != [] && p[..|p| - 1] == Progress(b, list, start, now, n - 1)
            && (n == 1 ==> p[|p| - 1] == Clear(b))
            && (n > 1 ==> p[|p| - 1] == Upsert(b, Effective(list)[n - 2], RunAt(start, Effective(list)[n - 2], now)))
  {
    if n > 1 {
      var l := Effective(list)[..n - 1];
      assert l[..n - 2] == Effective(list)[..n - 2];
    }
  }

  lemma IgnoreKeeps(r: Table, running: Table, b: string, h: int, list: seq<int>, n: nat, at: int, at': int)
    requires RowsOk(r, running, b, h, list, n, at) && h in Effective(list)
    requires |running| <= 1 && forall i :: 0 <= i < |running| ==> Has(running[i], b, h) && running[i].status == Running
    ensures RowsOk(Do(r, InsertIgnore(b, h, at')), running, b, h, list, n, at)
  {
    KeepSnoc(r, Job(b, h, at', Pending), b);
    if n > 0 && r != [] {
      assert Live(r[0]) && Has(r[0], b, h);
    }
  }

  lemma UpsertKeeps(r: Table, running: Table, b: string, h: int, list: seq<int>, n: nat, at: int)
    requires 1 < n <= |Effective(list)| + 1 && Effective(list)[n - 2] == h
    requires RowsOk(r, running, b, h, list, n - 1, at)
    requires |running| <= 1 && forall i :: 0 <= i < |running| ==> Has(running[i], b, h) && running[i].status == Running
    ensures RowsOk(Do(r, Upsert(b, h, at)), running, b, h, list, n, at)
  {
    assert Effective(list)[..n - 1][n - 2] == h;
    assert h in Effective(list)[..n - 1];
    if r != [] {
      assert Live(r[0]) && Has(r[0], b, h) && |r| == 1 && r[..0] == [];
      assert UpdateAll(r, b, h, at) == [Updated(r[0], b, h, at)];
    }
  }

  lemma OtherUpsertKeeps(r: Table, running: Table, b: string, h: int, list: seq<int>, n: nat, at: int)
    requires 1 < n <= |Effective(list)| + 1 && Effective(list)[n - 2] != h
    requires RowsOk(r, running, b, h, list, n - 1, at)
    ensures RowsOk(r, running, b, h, list, n, at)
  {
    var l := Effective(list);
    assert l[..n - 1] == l[..n - 2] + [l[n - 2]];
  }

  ghost predicate OneRunning(running: Table, b: string, h: int) {
    |running| <= 1 && forall i :: 0 <= i < |running| ==> Has(running[i], b, h) && running[i].status == Running
  }

  /** Before the reschedule has done anything. */
  lemma AtFirst(t: Table, b: string, h: int, list: seq<int>, at: int)
    requires LiveUnique(t)
    ensures OneRunning(Keep(RowsFor(t, b, h), b), b, h)
    ensures RowsOk(RowsFor(t, b, h), Keep(RowsFor(t, b, h), b), b, h, list, 0, at)
  {
    RowsOneLive(t, b, h);
    RowsShape(t, b, h);
    RunningRows(RowsFor(t, b, h), b, h);
  }

  /** A create insert, at any point. */
  lemma EnqueueStep(t: Table, running: Table, b: string, h: int, list: seq<int>, n: nat, at: int, st: Stmt)
    requires RowsOk(RowsFor(t, b, h), running, b, h, list, n, at) && OneRunning(running, b, h)
    requires st.InsertIgnore? && st.booking == b && st.hours in Effective(list)
    ensures RowsOk(RowsFor(Do(t, st), b, h), running, b, h, list, n, at)
  {
    DoOnRows(t, st, b, h);
    if st.hours == h {
      IgnoreKeeps(RowsFor(t, b, h), running, b, h, list, n, at, st.runAt);
    }
  }

  /** The reschedule's nth statement. */
  lemma ReplaceStep(t: Table, running: Table, b: string, h: int, list: seq<int>, n: nat, start: int, now: int, st: Stmt)
    requires 0 < n <= |Effective(list)| + 1 && OneRunning(running, b, h)
    requires RowsOk(RowsFor(t, b, h), running, b, h, list, n - 1, RunAt(start, h, now))
    requires n == 1 ==> st == Clear(b)
    requires n > 1 ==> st == Upsert(b, Effective(list)[n - 2], RunAt(start, Effective(list)[n - 2], now))
    ensures RowsOk(RowsFor(Do(t, st), b, h), running, b, h, list, n, RunAt(start, h, now))
  {
    DoOnRows(t, st, b, h);
    if n > 1 {
      if Effective(list)[n - 2] == h {
        UpsertKeeps(RowsFor(t, b, h), running, b, h, list, n, RunAt(start, h, now));
      } else {
        OtherUpsertKeeps(RowsFor(t, b, h), running, b, h, list, n, RunAt(start, h, now));
      }
    }
  }

  /** The invariant of every interleaving, reminder by reminder. */
  lemma {:induction false} Interleaved(t: Table, b: string, list: seq<int>, start: int, now: int, xs: seq<Stmt>, n: nat,
                                       run: seq<Stmt>, h: int)
    requires LiveUnique(t) && Enqueues(xs, b, list) && n <= |Effective(list)| + 1
    requires Merges(run, xs, Progress(b, list, start, now, n))
    ensures RowsOk(RowsFor(After(t, run), b, h), Keep(RowsFor(t, b, h), b), b, h, list, n, RunAt(start, h, now))
    decreases |run|
  {
    var running, at := Keep(RowsFor(t, b, h), b), RunAt(start, h, now);
    AtFirst(t, b, h, list, at);
    if run != [] {
      var front, last := run[..|run| - 1], run[|run| - 1];
      if xs != [] && xs[|xs| - 1] == last && Merges(front, xs[..|xs| - 1], Progress(b, list, start, now, n)) {
        Interleaved(t, b, list, start, now, xs[..|xs| - 1], n, front, h);
        EnqueueStep(After(t, front), running, b, h, list, n, at, last);
      } else {
        ProgressLast(b, list, start, now, n);
        Interleaved(t, b, list, start, now, xs, n - 1, front, h);
        ReplaceStep(After(t, front), running, b, h, list, n, start, now, last);
      }
    }
  }

  /** However the create path's inserts interleave with a reschedule over the same list, each
      reminder ends as exactly one pending job at the rescheduled time, and reminders no longer
      in the list are gone. A job the worker is running is left alone instead. */
  lemma {:induction false} RescheduleWins(t: Table, b: string, list: seq<int>, start: int, now: int, xs: seq<Stmt>,
                                          run: seq<Stmt>, h: int)
    requires LiveUnique(t) && Enqueues(xs, b, list) && Merges(run, xs, Replace(b, list, start, now))
    ensures (forall j :: j in t && Has(j, b, h) ==> j.status != Running) ==>
              RowsFor(After(t, run), b, h) ==
              if h in Effective(list) then [Job(b, h, RunAt(start, h, now), Pending)] else []
    ensures forall j :: j in t && Has(j, b, h) && j.status == Running ==> RowsFor(After(t, run), b, h) == [j]
  {
    RowsAtEnd(t, b, list, start, now, xs, run, h);
    forall j | j in t && Has(j, b, h) && j.status == Running ensures Keep(RowsFor(t, b, h), b) == [j] {
      RunningKept(t, b, h, j);
    }
    if forall j :: j in t && Has(j, b, h) ==> j.status != Running {
      NothingRunning(t, b, h);
    }
  }

  lemma {:induction false} RowsAtEnd(t: Table, b: string, list: seq<int>, start: int, now: int, xs: seq<Stmt>,
                                     run: seq<Stmt>, h: int)
    requires LiveUnique(t) && Enqueues(xs, b, list) && Merges(run, xs, Replace(b, list, start, now))
    ensures var running := Keep(RowsFor(t, b, h), b);
            RowsFor(After(t, run), b, h) ==
            if running != [] then running
            else if h in Effective(list) then [Job(b, h, RunAt(start, h, now), Pending)]
            else []
  {
    var n := |Effective(list)| + 1;
    assert Effective(list)[..n - 1] == Effective(list);
    Interleaved(t, b, list, start, now, xs, n, run, h);
  }

  lemma NothingRunning(t: Table, b: string, h: int)
    requires forall j :: j in t && Has(j, b, h) ==> j.status != Running
    ensures Keep(RowsFor(t, b, h), b) == []
  {
    if t != [] {
      NothingRunning(t[..|t| - 1], b, h);
      KeepSnoc(RowsFor(t[..|t| - 1], b, h), t[|t| - 1], b);
    }
  }

  lemma {:induction false} RunningKept(t: Table, b: string, h: int, j: Job)
    requires LiveUnique(t) && j in t && Has(j, b, h) && j.status == Running
    ensures Keep(RowsFor(t, b, h), b) == [j]
  {
    RowsOneLive(t, b, h);
    RowsShape(t, b, h);
    RunningRows(RowsFor(t, b, h), b, h);
    RunningIn(t, b, h, j);
  }

  lemma {:induction false} RunningIn(t: Table, b: string, h: int, j: Job)
    requires j in t && Has(j, b, h) && j.status == Running
    ensures j in Keep(RowsFor(t, b, h), b)
  {
    var front, last := t[..|t| - 1], t[|t| - 1];
    KeepSnoc(RowsFor(front, b, h), last, b);
    if j in front {
      RunningIn(front, b, h, j);
    } else {
      assert j == last;
    }
  }

  /** The race touches no other booking's jobs. */
  lemma {:induction false} OthersUntouched(t: Table, b: string, list: seq<int>, start: int, now: int, xs: seq<Stmt>,
                                           run: seq<Stmt>, c: string, h: int)
    requires Enqueues(xs, b, list) && c != b && Merges(run, xs, Replace(b, list, start, now))
    ensures RowsFor(After(t, run), c, h) == RowsFor(t, c, h)
  {
    UpsertsOnly(b, Effective(list), start, now);
    MergedFrom(run, xs, Replace(b, list, start, now), b);
    RunElsewhere(t, run, b, c, h);
  }

  lemma {:induction false} UpsertsOnly(b: string, list: seq<int>, start: int, now: int)
    ensures forall i :: 0 <= i < |Upserts(b, list, start, now)| ==> Upserts(b, list, start, now)[i].booking == b
  {
    if list != [] {
      UpsertsOnly(b, list[..|list| - 1], start, now);
    }
  }

  lemma {:induction false} MergedFrom(run: seq<Stmt>, xs: seq<Stmt>, ys: seq<Stmt>, b: string)
    requires Merges(run, xs, ys)
    requires (forall i :: 0 <= i < |xs| ==> xs[i].booking == b) && (forall i :: 0 <= i < |ys| ==> ys[i].booking == b)
    ensures forall i :: 0 <= i < |run| ==> run[i].booking == b
    decreases |run|
  {
    if run != [] {
      var front, last := run[..|run| - 1], run[|run| - 1];
      if xs != [] && xs[|xs| - 1] == last && Merges(front, xs[..|xs| - 1], ys) {
        MergedFrom(front, xs[..|xs| - 1], ys, b);
      } else {
        MergedFrom(front, xs, ys[..|ys| - 1], b);
      }
      assert forall i :: 0 <= i < |front| ==> front[i] == run[i];
    }
  }

  lemma {:induction false} RunElsewhere(t: Table, run: seq<Stmt>, b: string, c: string, h: int)
    requires c != b && forall i :: 0 <= i < |run| ==> run[i].booking == b
    ensures RowsFor(After(t, run), c, h) == RowsFor(t, c, h)
    decreases |run|
  {
    if run != [] {
      RunElsewhere(t, run[..|run| - 1], b, c, h);
      DoOnRows(After(t, run[..|run| - 1]), run[|run| - 1], c, h);
    }
  }

  /** Why the replacement upserts: with an insert that ignores conflicts in its place, a create
      insert landing after the delete would leave the reminder at the original time. */
  lemma IgnoringWouldKeepOldTime(b: string, h: int, old': int, new': int)
    requires old' != new'
    ensures var raced := Do(Do([], Clear(b)), InsertIgnore(b, h, old'));
            && Do(raced, InsertIgnore(b, h, new')) == [Job(b, h, old', Pending)]
            && Do(raced, Upsert(b, h, new')) == [Job(b, h, new', Pending)]
  {
    var t := [Job(b, h, old', Pending)];
    assert Do(Do([], Clear(b)), InsertIgnore(b, h, old')) == t;
    assert Live(t[0]) && Has(t[0], b, h) && t[..0] == [];
    assert UpdateAll(t[..0], b, h, new') == [];
  }

  // ---------------------------------------------------------------- the handler

  class JobTable {
    var rows: Table

    constructor ()
      ensures rows == [] && LiveUnique(rows)
    {
      rows := [];
    }

    method Execute(st: Stmt)
      modifies this
      ensures rows == Do(old(rows), st)
    {
      rows := Do(rows, st);
    }

    /** enqueueReminder with the clock at now. */
    method EnqueueReminder(booking: string, start: int, hours: int, now: int)
      modifies this
      ensures rows == Do(old(rows), InsertIgnore(booking, hours, RunAt(start, hours, now)))
    {
      var runAt := start - hours * 3600;
      if runAt < now {
        runAt := now;
      }
      Execute(InsertIgnore(booking, hours, runAt));
    }

    /** enqueueBookingReminders; clock holds what it reads before each insert. */
    method EnqueueBookingReminders(booking: string, list: seq<int>, start: int, clock: seq<int>)
      returns (ghost run: seq<Stmt>)
      requires |clock| == |Effective(list)|
      modifies this
      ensures rows == After(old(rows), run) && Enqueues(run, booking, list) && |run| == |Effective(list)|
      ensures forall i :: 0 <= i < |run| ==>
                run[i] == InsertIgnore(booking, Effective(list)[i], RunAt(start, Effective(list)[i], clock[i]))
    {
      var hours := if list == [] then [24] else list;
      run := [];
      for i := 0 to |hours|
        invariant |run| == i && rows == After(old(rows), run)
        invariant forall k :: 0 <= k < i ==> run[k] == InsertIgnore(booking, hours[k], RunAt(start, hours[k], clock[k]))
      {
        EnqueueReminder(booking, start, hours[i], clock[i]);
        ghost var st := InsertIgnore(booking, hours[i], RunAt(start, hours[i], clock[i]));
        AfterSnoc(old(rows), run, st);
        run := run + [st];
      }
    }

    /** replaceReminderJobs, its transaction not interleaved with anything. */
    method ReplaceReminderJobs(booking: string, list: seq<int>, start: int, now: int)
      modifies this
      ensures rows == After(old(rows), Replace(booking, list, start, now))
    {
      var hours := if list == [] then [24] else list;
      AfterProgress(rows, booking, list, start, now, 1);
      Execute(Clear(booking));
      for i := 0 to |hours|
        invariant rows == After(old(rows), Progress(booking, list, start, now, i + 1))
      {
        var runAt := start - hours[i] * 3600;
        if runAt < now {
          runAt := now;
        }
        AfterProgress(old(rows), booking, list, start, now, i + 2);
        Execute(Upsert(booking, hours[i], runAt));
      }
      assert Effective(list)[..|hours|] == Effective(list);
    }
  }

  lemma AfterSnoc(t: Table, run: seq<Stmt>, st: Stmt)
    ensures After(t, run + [st]) == Do(After(t, run), st)
  {
    assert (run + [st])[..|run|] == run;
  }

  lemma AfterProgress(t: Table, b: string, list: seq<int>, start: int, now: int, n: nat)
    requires 0 < n <= |Effective(list)| + 1
    ensures n == 1 ==> After(t, Progress(b, list, start, now, 1)) == Do(t, Clear(b))
    ensures n > 1 ==>
              After(t, Progress(b, list, start, now, n)) ==
              Do(After(t, Progress(b, list, start, now, n - 1)),
                 Upsert(b, Effective(list)[n - 2], RunAt(start, Effective(list)[n - 2], now)))
  {
    ProgressLast(b, list, start, now, n);
  }
}

# A verified model of the scheduler's core

A Dafny model of the parts of Calnode's booking server whose correctness does not show in any one
function: bookings written by concurrent transactions, tenants sharing one connection pool, SQL
text rewritten between dialects, calendar objects printed, edited and read back, two tables that
must agree on where events go, and the jobs that repair what failed the first time. `dafny verify
dfyconfig.toml` checks all of it.

What is modelled, file by file:

- `HostLock`, `BookingProtocol`, `LockOrder`, `Deadlock`, `DeadlockRuns`, `ProtocolLimits`: Create,
  Reschedule, ReassignHost and the cancellations as transactions on PostgreSQL, one statement per
  step, in any interleaving, for any lock-key hash. A statement sees the rows committed before it;
  advisory locks are held to the end of the transaction; any transaction may stop without effect at
  any point. `Deadlock` and `DeadlockRuns` say exactly when transactions can wait in a circle, and
  `ProtocolLimits` exactly when the handler's own seat move double-books.
- `BookingService`: the same operations as code that updates the tables, as they run on SQLite, where
  transactions are serial, with the exact condition of every error. `ProtocolRefines` ties the two
  models of Create together.
- `Rotation`, `Throttle`: the round-robin choice and the hourly cap over whole histories; the cap
  compares stored text, as the query does.
- `CivilTime`, `Timestamps`: stored timestamps are text; when their order is the order of time.
- `Rebind`: the `?` to `$n` rewriter against a grammar of SQL tokens with nested comments.
- `ConnPool`, `PoolHandles`: tenant-bound handles over one pool, as a step system in which
  connections keep what was left on them, and as code whose every action is a step of that system.
- `Text`, `ICal`, `ICalParse`, `ICalRewrite`: the iCalendar printer, reader and rewriter (sections
  3.1 and 3.3.11 of RFC 5545). `ICalFields`, `ICalMeaning` and `ICalEdits` say what they do to the
  named lines of any object.
- `EventOwner`: which connected CalDAV account an event belongs to.
- `Destination`: the write-target tables under connects, picks and disconnects.
- `Reconcile`, `Reminders`: the calendar reconciler and the reminder race.

Conventions. A string is a sequence of octets. Instants are integers. SQL tables are maps or sets of
rows; a `LIMIT 1` without an order picks any row. Clocks, hashes, new ids, remote providers, the URL
parser and the rest of the time library are parameters about which nothing is assumed.

Where a natural statement turned out false of the code, the code is kept, a lemma exhibits inputs on
which it fails, and the exact condition is proved:

- Transactions can wait in a circle: `DeadlockRuns.RescheduleCanDeadlock`, exactly as
  `DeadlockRuns.DeadlocksExactly` says for runs that reschedule given bookings and
  `EverDeadlocksExactly` for all runs whatsoever.
- The handler's seat move can double-book: `ProtocolLimits.SeatMoveCanDoubleBook`, exactly as
  `MoveSeatExactly` says.
- An address can exceed the hourly cap within an hour: `Throttle.OverInOneHour`, exactly as
  `HourlyCapExactly` says.
- Timestamps with fractions can sort against time: `Timestamps.HalfSecondMisordered`, exactly as
  `NanoTextOrder` says.
- A printed object can unfold to other lines: `ICalParse.LineFeedInAddress`, exactly as `UnfoldBuilt`
  says; its organizer line can name another address, exactly as `ICalFields.OrganizerExactly` says;
  and a sequence number can wrap around or restart, both in `ICalRewrite.BumpIsNext`.
- A saved selection can leave no destination or two: `Destination.LateSelectionLosesDestination` and
  `TwoDestinationsSaved`, exactly as `SelectKeepsExactly` says.
- A reconciler pass can clear the flag of an event that is not in place: `Reconcile.FallsOutOfStep`,
  exactly as `MovesInStep` says.

The comment on SetAccountCalendars says that at most one destination is enforced by clearing the
others; the code does not check the submitted list itself, and the model follows the code.

## Model

| member | source | states |
|---|---|---|
| HostLock.BusyMonotone | internal/booking/service.go:339-356 | more saved calendars can only make a host busier |
| HostLock.HostBusyExactly | internal/booking/service.go:339-356 | a host is busy if and only if another live booking takes place at some instant of the time and seats the host or someone whose bookings go to a calendar the host checks, for times of positive length; one direction without that |
| HostLock.SeesSharesKey | internal/booking/hostlock.go:54-127 | two hosts that can block each other, by identity or by a calendar one checks and the other books into, share a lock key, for every pair of hash functions |
| HostLock.SortKeys | internal/booking/hostlock.go:71-84 | the sorted keys are a permutation of the keys |
| HostLock.Compact | internal/booking/hostlock.go:71-84 | repeats dropped: strictly increasing, same elements |
| HostLock.CalendarLockKeys | internal/booking/hostlock.go:91-115 | one key for every calendar that some given host checks or books into, and no others |
| HostLock.LockKeys | internal/booking/hostlock.go:39-86 | the keys taken are those of the non-empty hosts and of their calendars, strictly increasing |
| HostLock.IncreasingUnique | internal/booking/hostlock.go:71-84 | the acquisition order is determined by the set of keys alone |
| BookingProtocol.KeepStep | internal/booking/service.go:44-252 | every statement of every transaction keeps the invariant tying held locks to the hosts found free |
| BookingProtocol.FindingSurvives | internal/booking/service.go:339-356 | a host found free under its locks is still free, on the rows as they then are, after every step of every other transaction, commits and calendar changes included |
| BookingProtocol.NeverDoubleBooked | internal/booking/service.go:44-646 | in every interleaving, for every hash, with calendar settings changing at will, no two live bookings that take place at one instant share a seat holder |
| BookingProtocol.CommitSeesNoConflict | internal/booking/service.go:500-577 | when a Create or Reschedule commits, no seat holder is blocked by another committed booking, by host or through a calendar saved throughout |
| BookingProtocol.SeatsInsertableExactly | internal/booking/service.go:194-206 | the seats are inserted if and only if nobody is named twice or without a name |
| BookingProtocol.MayStop | internal/booking/service.go:44-252 | any transaction may stop at any point and leaves nothing behind |
| BookingProtocol.LoadFollowsCreate | internal/booking/service.go:463-468 | a new booking raises the load of exactly the hosts it counts for, by one |
| BookingProtocol.LoadFollowsCancel | internal/booking/service.go:463-468 | cancelling lowers the load of exactly those |
| ProtocolRefines.CreateDecides | internal/booking/service.go:71-136 | a Create of the protocol that decides on unchanging rows is over only if the request cannot be seated, and about to write only with the primary host and the hosts the service seats |
| LockOrder.CycleNeedsSecondCall | internal/booking/service.go:523-552 | every circle of waiting transactions contains a Reschedule in its second lock call that awaits a key below one it holds |
| LockOrder.SingleCallsNeverCycle | internal/booking/hostlock.go:71-84 | any number of transactions that lock once never wait in a circle |
| LockOrder.SomeoneMoves | internal/booking/hostlock.go:71-84 | among transactions that lock once, one can always take its next step |
| DeadlockRuns.DeadlocksExactly | internal/booking/service.go:500-646 | for every hash, calendar configuration and database: any number of transactions that create anything, reschedule only given live bookings and reassign these only to given hosts can wait in a circle if and only if one of the bookings, under its primary host or one it may be given, is prone: some host list shares a key with a seat holder that is below all keys it shares with the primary, and shares one |
| DeadlockRuns.EverDeadlocksExactly | internal/booking/hostlock.go:39-127 | over all runs whatsoever, calendar changes included and from any rows, a circle can arise if and only if the hash gives two hosts different keys or some calendar a smaller key than a host |
| DeadlockRuns.AnyDeadlockExactly | internal/booking/service.go:44-646 | with the saved calendars as they are and no limit on what is created, rescheduled or reassigned, a circle can arise if and only if some hosts have a key below all those they share with another host, and share one, whatever is stored |
| DeadlockRuns.HostKeysCross | internal/booking/hostlock.go:54-86 | with no saved calendar that is so if and only if two hosts have different keys |
| DeadlockRuns.RescheduleCanDeadlock | internal/booking/service.go:523-552 | for every prone live booking there is a run in which a Reschedule of it and a Create wait for each other |
| DeadlockRuns.LeadChanges | internal/booking/service.go:590-646 | a live booking can be given any host it may be given, by a run that leaves its seats as they were |
| Deadlock.CycleIsProne | internal/booking/service.go:523-552 | in every state a run with fixed calendars reaches, every circle of waiting transactions contains a Reschedule in its second lock call whose booking is prone |
| Deadlock.NotProneNeverCycles | internal/booking/service.go:523-552 | no circle in any run with fixed calendars in which no Reschedule reads a prone booking |
| Deadlock.InOrderNeverCycles | internal/booking/service.go:523-552 | no circle in any run with fixed calendars in which every rescheduled booking has all keys of its other seat holders above those of its primary host |
| Deadlock.InOrderIsNotProne | internal/booking/service.go:523-552 | such a booking does not meet the condition |
| Deadlock.LowSeatIsProne | internal/booking/service.go:523-552 | a seat holder with a key below all of the primary host's meets the condition |
| Deadlock.OneKeyProneExactly | internal/booking/hostlock.go:54-86 | for a primary host with no saved calendar the condition is that some seat key is below its own |
| ProtocolLimits.MoveSeatExactly | internal/handler/reassign.go:143-146 | the handler's seat move keeps the guarantee if and only if the booking is cancelled, its lead holds no seat, the new host holds one already, or the new host sits in no other overlapping booking |
| ProtocolLimits.SeatMoveCanDoubleBook | internal/handler/reassign.go:143-146 | a run after which the handler's seat move double-books a host |
| BookingService.Service.CheckAllFree | internal/booking/service.go:79-89 | true if and only if every host of the list is free |
| BookingService.Service.FreePool | internal/booking/service.go:90-100 | the free hosts of the pool in their order |
| BookingService.FreeOfInOrder | internal/booking/service.go:90-100 | they are the subsequence of the pool at the places of its free hosts |
| BookingService.Service.AddOptional | internal/booking/service.go:124-136 | the fixed hosts first, then exactly the free optional hosts, none of them twice |
| BookingService.Service.SelectHosts | internal/booking/service.go:71-136 | finds hosts if and only if the request can be seated; the primary is the first host, the first free one, or the earliest least-loaded free one |
| BookingService.AttendingFree | internal/booking/service.go:71-136 | everyone a seatable request seats is free |
| BookingService.CreateKeeps | internal/booking/service.go:174-206 | a committed Create keeps the no-double-booking guarantee and the unique index, and leaves no conflict |
| BookingService.CountsGrowByOne | internal/booking/service.go:138-172 | one booking raises either count by at most one |
| BookingService.AtLimitExactly | internal/booking/service.go:142-155 | the cap refuses if and only if it is positive and so many live bookings of the organizer for the event type are not yet over |
| BookingService.AtThrottleExactly | internal/booking/service.go:160-172 | the throttle refuses if and only if it is positive and so many bookings of the organizer are newer than the cutoff, cancelled ones included |
| BookingService.ActiveFollowsCreate | internal/booking/service.go:142-155 | a new booking raises the active count by one if it counts, and else by none |
| BookingService.RecentFollowsCreate | internal/booking/service.go:160-172 | so with the hourly count |
| BookingService.CountsFollowCancel | internal/booking/service.go:138-172 | cancelling lowers the active count by one if the booking counted, and leaves the hourly count |
| BookingService.StartTakenExactly | internal/booking/service.go:187-190 | a live row may be added to an index in order if and only if its host and start are not taken |
| BookingService.InsertableDistinct | internal/booking/service.go:194-206 | the seat rows go in if and only if all are users and nobody is there twice |
| BookingService.FitsExactly | internal/booking/service.go:174-206 | whether the rows can be inserted, said of the tables and the request before the call |
| BookingService.InsertableExactly | internal/booking/service.go:191-206 | the seat rows are accepted if and only if the fixed hosts are distinct users and the free optional hosts are users |
| BookingService.Service.Create | internal/booking/service.go:44-252 | each outcome, success included, if and only if its condition on the tables and the request holds; what is written; that both caps hold afterwards; that failure changes nothing |
| BookingService.CreatesRotateEvenly | internal/booking/service.go:90-118 | after any k committed round-robin Creates with the whole pool free, the seats of the pool add up to k and differ by at most one |
| BookingService.LoadsStayEven | internal/booking/service.go:452-494 | so do the loads the next rotation counts |
| BookingService.MoveKeeps | internal/booking/service.go:554-577 | moving a booking to a time its seat holders are free keeps the guarantees |
| BookingService.Service.Reschedule | internal/booking/service.go:500-583 | succeeds if and only if the booking is live, its seat holders (or its host, if it has none) are free then, and the index allows it; moves only the times |
| BookingService.ReassignKeeps | internal/booking/service.go:626-635 | changing the primary host leaves the seats and the guarantees as they are |
| BookingService.Service.ReassignHost | internal/booking/service.go:590-646 | succeeds if and only if the booking is live and the host is the same or free; writes only host_id |
| BookingService.CancelKeeps | internal/booking/service.go:266-320 | cancelling keeps the guarantees |
| BookingService.Service.ClearNeedsSync | internal/booking/service.go:254-260 | exactly the flags of the booking go |
| BookingService.Service.Cancel | internal/booking/service.go:266-293 | another host's booking is not found; a second cancel is reported; only the status changes and exactly the booking's drift flags go |
| BookingService.Service.CancelByID | internal/booking/service.go:298-321 | the same without the ownership test |
| Rotation.LeastLoadedHost | internal/booking/service.go:484-494 | the scan returns the least-loaded candidate |
| Rotation.LeastIndexIsEarliestLeast | internal/booking/service.go:452-494 | it is the earliest among the least loaded |
| Rotation.PickIsFirstOrLeast | internal/booking/service.go:441-450 | "priority" takes the first free host, every other strategy the earliest least-loaded one |
| Rotation.EvenRotation | internal/booking/service.go:452-494 | for a fixed pool of free hosts, after any k bookings the loads add up to k and differ by at most one |
| Rotation.AssignmentsAreBookMany | internal/booking/service.go:452-494 | counting the rows after each booking gives the same loads as keeping them |
| Rotation.NoHostGetsAhead | internal/booking/service.go:452-494 | in the history of assignments no host is ever two bookings ahead of another |
| Throttle.HourlyCapExactly | internal/booking/service.go:157-172 | for every positive cap, a window of time is capped in every run if and only if it opens in a later second than that of the last cutoff inside it |
| Throttle.HourlyCap | internal/booking/service.go:157-172 | over every run with cancellations, no address has more than the cap created in such a window, with no assumption on how clocks advance between transactions |
| Throttle.UncappedWindow | internal/booking/service.go:69-165 | in every other window some run has exactly one booking too many |
| Throttle.CappedHours | internal/booking/service.go:157-165 | an hour less the gap between the two clock reads and less a second is always capped; without the last second exactly when it opens on a whole second; a full hour never with any gap |
| Throttle.NoCap | internal/booking/service.go:160 | a cap of zero or less takes every booking |
| Throttle.OverInOneHour | internal/booking/service.go:157-165 | for every cap, with one clock read, a run that exceeds it inside one hour because half past a second sorts after a later fraction |
| CivilTime.CivilOfInstant | internal/booking/list.go:77-87 | every instant has a valid civil date and time that gives it back |
| CivilTime.CivilOrder | internal/booking/list.go:77-87 | instants are ordered as their civil fields are, field by field |
| CivilTime.InstantOfCivil | internal/booking/list.go:77-87 | every valid civil date and time is that of its instant |
| CivilTime.DayNumberClosed | internal/booking/list.go:77-87 | the number of a date's day by the Gregorian rule: 365 a year, a day for every fourth year but three of four centuries, and the lengths of the months |
| Timestamps.TextOrder | internal/booking/list.go:77-87 | for whole seconds and four-digit years the byte order of the text (section 5.1 of RFC 3339) is the order of time |
| Timestamps.TextShape | internal/booking/list.go:77-87 | date and time of day stand at their places in the text (section 5.6 of RFC 3339) |
| Timestamps.NanoShape | internal/booking/service.go:49-50 | the nanoseconds follow a point, or nothing does when there are none |
| Timestamps.NanoDigits | internal/booking/service.go:49-50 | they are the nine digits of the fraction less the trailing zeros |
| Timestamps.HostBusyTextIsOverlap | internal/booking/service.go:339-356 | hostBusy's two text comparisons are exactly interval overlap |
| Timestamps.NanoTextOrder | internal/booking/service.go:49-50 | with fractions, an earlier instant sorts first exactly unless both fall in one second and the earlier printed fraction is a prefix of the later |
| Timestamps.HalfSecondMisordered | internal/booking/service.go:49-50 | in every second, half past it sorts after twenty milliseconds later |
| Timestamps.WholeSecondText | internal/booking/service.go:49-50 | whole seconds print without a fraction |
| Timestamps.WholeSecondLast | internal/booking/service.go:49-50 | a whole second sorts after every fraction of it |
| Timestamps.EndsAfterText | internal/booking/service.go:142-151 | an end on a whole second counts as later than now exactly from the start of its own second, but not at that very instant |
| Timestamps.SqlTimeBoundary | internal/booking/list.go:77-87 | a truncated bound compares with whole-second text as the truncated instant does |
| Timestamps.CreatedBeforeText | internal/handler/calendar_reconcile.go:226-243 | a creation time sorts before a truncated cutoff exactly when its second is earlier, or the same and it has a fraction |
| Rebind.EndOfQuoted | internal/db/rebind.go:68-81 | the loop finds where the quoted run ends |
| Rebind.EndOfLineComment | internal/db/rebind.go:85-90 | the loop finds the line break that ends a comment, or the end |
| Rebind.EndOfBlockComment | internal/db/rebind.go:95-113 | the loop finds where the nested comment closes, or the end |
| Rebind.BlockLenIsComment | internal/db/rebind.go:95-113 | the depth counter accepts exactly the nested comments of the grammar |
| Rebind.FirstIsTheToken | internal/db/rebind.go:22-61 | at every point the scanner takes the one token the grammar allows, and always advances |
| Rebind.LexIsTheTokenisation | internal/db/rebind.go:22-61 | every text has exactly one tokenisation and the scanner computes it |
| Rebind.SourceOfLex | internal/db/rebind.go:22-61 | the tokens spell the source |
| Rebind.RenderedIsRender | internal/db/rebind.go:22-61 | the one-pass output is the token-wise output: placeholders numbered from left to right, all else copied |
| Rebind.NoMarkUnchanged | internal/db/rebind.go:22-26 | the fast path returns what the scan would |
| Rebind.RebindQuery | internal/db/rebind.go:22-61 | the scan writes the token-wise output of the query |
| Rebind.RebindIdempotent | internal/db/rebind.go:22-61 | rebinding twice is rebinding once, for every text, unterminated runs included |
| Rebind.RebindRoundTrip | internal/db/rebind.go:22-61 | with no `$` in code, turning the numbers back gives the source exactly |
| ConnPool.LastScopeWins | internal/db/handle.go:93-114 | through any chain of ForWorkspace calls only the last id matters; it poisons exactly when invalid; a handle that does not bind is returned as it is |
| ConnPool.ValidExactly | internal/db/handle.go:66-74 | an id is valid if and only if it is one to sixty-four small letters, digits, underscores and dashes |
| ConnPool.KeepStep | internal/db/handle.go:140-402 | every step of every call keeps connections, bindings and the record in order |
| ConnPool.StatementsRunBound | internal/db/handle.go:140-289 | in every interleaving each statement runs under its own handle's workspace, whatever was left on the connection, and a poisoned handle runs none |
| ConnPool.ReturnedExactlyOnce | internal/db/handle.go:305-402 | each call takes at most one connection, is its only holder, and has returned it exactly once when it is over |
| ConnPool.NothingLeaks | internal/db/handle.go:305-402 | a connection is idle or held by a call under way, never both |
| PoolHandles.BindConn | internal/db/handle.go:140-154 | on success the connection is bound and held; on failure it is back |
| PoolHandles.ExecContext | internal/db/handle.go:210-223 | exactly when it succeeds, what it ran under, and the connection back on every path |
| PoolHandles.QueryContext | internal/db/handle.go:165-186 | an error holds nothing; success holds the bound connection |
| PoolHandles.QueryRowContext | internal/db/handle.go:192-204 | the row holds the connection unless binding failed |
| PoolHandles.Rows.Release | internal/db/handle.go:305-355 | the first Close, Scan or Err returns the connection, later ones change nothing |
| PoolHandles.BeginTransaction | internal/db/handle.go:256-289 | binds inside the transaction only; each error path returns the connection first |
| PoolHandles.Tx.ExecContext | internal/db/handle.go:404-434 | statements of the transaction run under its workspace |
| PoolHandles.Tx.End | internal/db/handle.go:376-402 | Commit or Rollback returns the connection with its session value untouched; a deferred Rollback after it changes nothing |
| Text.SplitLines | internal/caldav/ics.go:76-90 | splitting lines that were each ended by CRLF gives them back |
| Text.SpacesExactly | internal/caldav/ics.go:113-114 | which octets count as white space |
| ICal.EscapeRoundTrip | internal/caldav/events.go:426-436 | unescaping gives the text back up to the spelling of its line breaks |
| ICal.EscapedIsOneLine | internal/caldav/events.go:426-436 | an escaped text is one line |
| ICal.FoldLine | internal/caldav/events.go:440-458 | the loop writes the pieces of the line, each on its own physical line |
| ICal.ChunksShape | internal/caldav/events.go:440-458 | every piece is at most 75 octets and every continuation starts with a space |
| ICal.UnfoldChunks | internal/caldav/ics.go:76-90 | unfolding undoes folding |
| ICal.Unfold | internal/caldav/ics.go:76-90 | the loop joins continuation lines to the line before |
| ICal.UnfoldRender | internal/caldav/ics.go:76-90 | unfolding a whole printed object gives its content lines |
| ICal.BuildICS | internal/caldav/events.go:330-362 | the printer writes exactly the content lines, folded and ended by CRLF |
| ICal.FormatIntExactly | internal/caldav/events.go:357 | a number prints as a minus sign exactly if negative, and its digits |
| ICalFields.PrintedFields | internal/caldav/events.go:330-362 | an unfolded printed object shows exactly the event's values, each under its own name and in order, for any text in the fields |
| ICalFields.PrintedTexts | internal/caldav/events.go:343-349 | unescaping the values under SUMMARY, DESCRIPTION and LOCATION gives these texts back |
| ICalFields.OrganizerExactly | internal/caldav/events.go:350-356 | the organizer line names the address if and only if the organizer's name holds no colon |
| ICalParse.SplitContentLine | internal/caldav/ics.go:94-109 | the loop over parameters gives name, parameters and value |
| ICalParse.SplitSimple | internal/caldav/ics.go:94-109 | a plain property line splits into its name and its value, whatever the value |
| ICalFields.SplitWithParam | internal/caldav/ics.go:94-109 | a parameter between name and value is read under its upper-case key without quotes around it |
| ICalMeaning.TrimQuotesParts | internal/caldav/ics.go:105 | exactly the quotes around are taken off |
| ICalParse.UTCRoundTrip | internal/caldav/ics.go:113-131 | printing an instant and reading it back gives it |
| ICalParse.UTCReadsOnlyPrinted | internal/caldav/ics.go:122-128 | what reads as an instant is exactly how that instant is printed |
| ICalMeaning.TimeExactly | internal/caldav/ics.go:113-145 | which values are dates, UTC instants and local times, without the white space around |
| ICalParse.IcsTimeRoundTrip | internal/caldav/ics.go:113-131 | a printed time reads as the same second, not as a date |
| ICalParse.ParseVEvents | internal/caldav/ics.go:19-72 | the loop computes the events of the unfolded lines |
| ICalMeaning.ParsedIsDescribed | internal/caldav/ics.go:19-72 | an object of any VEVENTs with anything around them reads as one event per VEVENT: cancelled if and only if the last STATUS says so, transparent if and only if the last TRANSP does, from the last readable DTSTART to the last readable DTEND or DURATION after a start, or for a day or no time |
| ICalMeaning.LastGivenIsLast | internal/caldav/ics.go:49-68 | the last value given decides, the default if none is |
| ICalMeaning.SaysExactly | internal/caldav/ics.go:64-67 | a value says a word if and only if it is the word in some letter case with white space around it |
| ICalParse.UnfoldBuilt | internal/caldav/events.go:330-362 | unfolding the printed object gives the lines written if and only if id and address hold no line feed |
| ICalParse.LineFeedInAddress | internal/caldav/events.go:350-357 | an organizer whose address holds one breaks the object, whatever its times |
| ICalParse.BuiltLinesFit | internal/caldav/events.go:330-362 | every physical line of a printed object is at most 75 octets |
| ICalParse.ParseBuilt | internal/caldav/ics.go:19-72 | reading a printed object gives exactly one opaque, live event with its times to the second; the one end time for which it does not is named |
| ICalRewrite.Atoi | internal/caldav/ics.go:196-205 | the loop reads leading digits with 64-bit wrap-around |
| ICalRewrite.BumpIsNext | internal/caldav/events.go:421-423 | the sequence number grows by one if and only if it is neither negative nor the greatest; the greatest wraps to the least |
| ICalRewrite.RewriteEventTimes | internal/caldav/events.go:368-401 | the loop rewrites all lines |
| ICalEdits.RewriteOfAny | internal/caldav/events.go:368-401 | of any object whatsoever the rewriter keeps all lines with other names and their order, gives every start, end and stamp the new value, drops durations, counts up every sequence number, and writes the first one if and only if a VEVENT closes before any |
| ICalEdits.HeadsAreNames | internal/caldav/events.go:376-391 | it acts on exactly these names, in any letter case |
| ICalEdits.EndsVEventExactly | internal/caldav/events.go:392 | an END line closes a VEVENT if and only if its value says so |
| ICalRewrite.RewriteIsRebuild | internal/caldav/events.go:368-401 | rewriting a printed object is printing it with the new times and the next sequence number, so every other line is the same octet for octet |
| ICalRewrite.RewriteMany | internal/caldav/events.go:368-401 | the same after any number of rewrites |
| ICalRewrite.SequenceGrowsByMoves | internal/caldav/events.go:421-423 | after k rewrites the sequence number has grown by exactly k |
| ICalRewrite.ParseAfterMoves | internal/caldav/ics.go:19-72 | after any rewrites the object reads as one event at the last times |
| EventOwner.RankOf | internal/caldav/events.go:217-227 | the inner loop ranks one account |
| EventOwner.RankInIsRank | internal/caldav/events.go:217-227 | the rank is whether a collection holds the event, whether it is the recorded calendar, and the depth of the deepest one |
| EventOwner.PickEventOwner | internal/caldav/events.go:207-243 | an account if and only if it alone has the best rank, none if no account holds the event, a tie if two share the best rank, an error if the id is no URL |
| EventOwner.AnswerExactly | internal/caldav/events.go:207-243 | the answer is account i if and only if, among the accounts that list the recorded calendar (all of them if none does), it alone lists the longest collection above the event on the same scheme, host and port; none if and only if no collection is above the event |
| EventOwner.PickDetermined | internal/caldav/events.go:207-243 | the answer is determined by the ranks |
| EventOwner.OrderIrrelevant | internal/caldav/events.go:207-243 | listing the accounts in another order gives the same answer, be it the same account, none, a tie or an error |
| EventOwner.TieMeansSameCollection | internal/caldav/events.go:265-277 | a tie means that two accounts list the very same collection |
| EventOwner.CreatedEventOwner | internal/caldav/events.go:26-39 | for an id joined from a collection URL, whatever PickEventOwner may answer is the creator, or a tie if and only if another account lists the same collection |
| Destination.Store.ResolveFlags | internal/connstore/connstore.go:58-81 | a known account keeps its flags; a new one is checked and is the destination if and only if the user has none |
| Destination.Store.SaveConnection | internal/caldav/caldav.go:289-321 | replaces the account's row under a new id and keeps the invariant |
| Destination.Store.SetDestination | internal/calendar/calendar.go:290-326 | unknown accounts are refused; otherwise the flag moves and picks elsewhere are cleared |
| Destination.AnyDestination | internal/calendar/calselect.go:143-149 | whether the selection claims the destination |
| Destination.InsertRows | internal/calendar/calselect.go:176-193 | all rows are inserted if and only if the ids are distinct |
| Destination.Store.SaveSelection | internal/calendar/calselect.go:137-195 | the transaction's new state, and exactly when it keeps the invariant |
| Destination.Store.SetAccountCalendars | internal/calendar/calselect.go:112-195 | when each error is returned, and that an error changes nothing |
| Destination.Store.DisconnectOne | internal/calendar/calendar.go:336-383 | the account and its calendars go and the oldest other account takes over |
| Destination.Store.Disconnect | internal/calendar/calendar.go:234-247 | everything of the user goes |
| Destination.Store.DestinationCalendarID | internal/connstore/connstore.go:98-114 | the picked calendar of the account, if any |
| Destination.Store.WriteTarget | internal/caldav/caldav.go:194-229 | a user with a connection always has a write target, and this is it |
| Destination.Oldest | internal/calendar/calendar.go:372-376 | the user's row with the least created_at |
| Destination.SelectRows | internal/calendar/calselect.go:137-195 | what a selection leaves saved, row by row |
| Destination.SelectKeepsExactly | internal/calendar/calselect.go:112-195 | a selection keeps the invariant if and only if its account is still connected (or nothing is saved) and it names at most one destination |
| Destination.LateSelectionLosesDestination | internal/calendar/calselect.go:113-170 | an account disconnected between the check and the transaction leaves the user with no destination |
| Destination.TwoDestinationsSaved | internal/calendar/calselect.go:176-193 | two destinations in one selection are both saved |
| Destination.RunKeeps | internal/calendar/calendar.go:234-383 | over all runs: exactly one destination account per connected user, at most one destination calendar and in that account, every saved calendar in a connected account |
| Destination.OthersKeepRows | internal/calendar/calendar.go:290-383 | whatever one user connects, picks, saves or disconnects, every other user keeps all rows of both tables |
| Destination.OthersKeepTarget | internal/calendar/calendar.go:290-383 | so every other user's target stays |
| Destination.OneTarget | internal/connstore/connstore.go:83-114 | a user with a connection has exactly one target |
| Destination.ChosenIsTarget | internal/calendar/calendar.go:290-326 | the chosen account becomes the target and keeps its own picks |
| Destination.SelectedIsTarget | internal/calendar/calselect.go:150-170 | a calendar submitted as destination becomes the target, whichever account was it before |
| Destination.OtherTargetStays | internal/calendar/calselect.go:137-195 | a selection that claims nothing leaves another account's target alone |
| Destination.TargetSurvives | internal/caldav/caldav.go:289-321 | a picked target survives any sequence of connects and refreshes of any accounts |
| Destination.ReconnectStartsAfresh | internal/calendar/calendar.go:361-370 | reconnecting after a disconnect inherits no calendar, and the destination only if there is no other account |
| Destination.OldestTakesOver | internal/calendar/calendar.go:372-381 | after the destination goes, the oldest remaining account is the target with its own calendar |
| Reconcile.Reconciler.ReconcileCancellations | internal/handler/calendar_reconcile.go:174-218 | which ids are cleared and which events are deleted, for every outcome of the calls |
| Reconcile.Reconciler.ReconcileCreations | internal/handler/calendar_reconcile.go:223-322 | which seats get a new event at the booking's time, which booking mirrors it, and that nothing else changes |
| Reconcile.MissingExactly | internal/handler/calendar_reconcile.go:224-244 | the query selects a seat if and only if its booking is confirmed, it has no event, and the stored texts say that the booking is not over and was made more than five minutes ago |
| Reconcile.Reconciler.ReconcileReschedules | internal/handler/calendar_reconcile.go:109-169 | which flags are cleared and which events are moved, for every outcome |
| Reconcile.Reconciler.ReconcilePass | internal/handler/calendar_reconcile.go:92-102 | the three loops in their order |
| Reconcile.Reconciler.MoveCalendarEvents | internal/handler/booking_handler.go:1929-1969 | each event is moved and its flag cleared, or its seat flagged |
| Reconcile.RescheduleKeepsStep | internal/handler/booking_handler.go:1929-1969 | a reschedule leaves unflagged events in step if and only if each event the providers report as moved exists |
| Reconcile.MovesInStep | internal/handler/calendar_reconcile.go:152-168 | the reschedule loop leaves unflagged events in step if and only if each unreachable one was in place already and each one reported as moved exists |
| Reconcile.FallsOutOfStep | internal/caldav/events.go:49-60 | whichever of the two outcomes a provider gives, a state in step that the loop leaves out of step |
| Reconcile.PassHeals | internal/handler/calendar_reconcile.go:92-322 | a successful pass leaves no event on a cancelled booking; an upcoming confirmed seat past the grace period with a destination has its event at the booking's time if and only if its event had not vanished while flagged |
| Reconcile.SecondPassIsQuiet | internal/handler/calendar_reconcile.go:92-322 | a later pass, whatever its outcomes, calls providers only for bookings that were still in their grace period; at the same time it calls none |
| Reminders.DoOnRows | internal/handler/booking_handler.go:2124-2280 | every statement acts on each reminder's rows on their own |
| Reminders.LeadTime | internal/handler/booking_handler.go:2124-2129 | a reminder goes out so many times sixty minutes of sixty seconds before the start, or now if that has passed |
| Reminders.Interleaved | internal/handler/booking_handler.go:2183-2280 | the rows of a reminder after any part of any interleaving |
| Reminders.RescheduleWins | internal/handler/booking_handler.go:2124-2280 | in every interleaving of create inserts with a reschedule each reminder ends as exactly one pending job at the rescheduled time and no other remains; a running job is left alone |
| Reminders.OthersUntouched | internal/handler/booking_handler.go:2212-2226 | the race touches no other booking's jobs |
| Reminders.IgnoringWouldKeepOldTime | internal/handler/booking_handler.go:2228-2277 | with an insert that ignores conflicts in place of the upsert the reminder would stay at the original time |
| Reminders.JobTable.EnqueueBookingReminders | internal/handler/booking_handler.go:2149-2178 | one insert per listed reminder, one at 24 hours for an empty list |
| Reminders.JobTable.ReplaceReminderJobs | internal/handler/booking_handler.go:2183-2280 | one delete and one upsert per reminder |

## Left out

- HTTP handlers, JSON, templates, the embed widget and the frontend: no state of their own to reason about.
- Google, Microsoft, CalDAV, Zoom, payment, mail and language-model calls: each is an arbitrary outcome where one matters.
- Cryptography, manage tokens and OAuth: opaque; CancelByToken is CancelByID once its token has been looked up.
- Slot generation, the worker loop, idempotency keys and the key vault: not part of this model.
- Time zones, recurrence and all-day arithmetic of the iCalendar reader: parameters of the reader about which nothing is assumed.
- Migrations, dialect selection, role checks and row-level security policies: database administration.
- List, Counts and WhereClause: query fragments that one reading settles.
- providerForEvent and CanAutoGenerate: read-only lookups that one branch settles.
- BookingProtocol: bookings without seats are not in the initial state, so Reschedule's fallback to the primary host only occurs in BookingService; the partial unique index is a refusal, which any transaction may meet at any point.
- BookingProtocol.NeverDoubleBooked: speaks of seats, since ReassignHost writes only host_id and its new host is not seen by hostBusy. Start and end are whole seconds, so that hostBusy's text comparison is interval overlap (Timestamps.HostBusyTextIsOverlap); the request parser also accepts fractions of a second, which the model does not cover.
- BookingService: attendee answers, locations and payment columns are not in the rows.
- Throttle.HourlyCapExactly: for clock gaps of at least a second less than an hour and windows that start an hour after the epoch or later; HourlyCap has neither bound. Years have four digits.
- Text: case mapping and white space are those of ASCII.
- ICalParse.ParseBuilt: times with four-digit years, which is what the printed form has room for.
- ICalRewrite.RewriteEventTimes: that the result reads as the moved event is proved for printed objects and their rewrites; of a foreign object it is proved what becomes of each line, so the continuation of a folded DTSTART stays and a DTSTART inside a VTIMEZONE is replaced. The clock is read once per rewrite; a printed object has one DTSTAMP, so no more reads occur.
- PoolHandles: handles that do not bind use the pool directly and are not modelled; nor are prepared statements, which a binding handle refuses.
- ConnPool: inside a transaction no caller statement changes app.workspace_id itself.
- Destination: no account has a NULL email; created_at is its rank in the stored order; the encrypted credentials are not in the rows.
- Reconcile.Reconciler.ReconcileCreations: the meeting link and the event's texts are not in the rows.
- Reconcile.Reconciler.ReconcileReschedules: stored times always parse; a corrupt row, whose flag is cleared without a call, has otherwise the effect of an unreachable event.
- DeadlockRuns.DeadlocksExactly: calendar settings stay as they are during the run; EverDeadlocksExactly has no such assumption.
- Reminders.RescheduleWins: no worker claims a job during the race; a job already running at its start is covered.

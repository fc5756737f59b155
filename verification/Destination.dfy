/** Where bookings are written: the connected accounts (calendar_connections) and the
    calendars saved inside them (connection_calendars) must agree on one target per user.
    internal/calendar/calendar.go, internal/calendar/calselect.go,
    internal/connstore/connstore.go, internal/caldav/caldav.go. */
module Destination {
  import opened Text

  datatype Account = Account(user: string, provider: string, email: string)

  /** A calendar_connections row; the table is keyed by its primary key, the row id. */
  datatype Conn = Conn(account: Account, calendar: string, check: bool, dest: bool, created: int)

  /** connection_calendars is keyed by its UNIQUE columns. */
  datatype CalKey = CalKey(account: Account, calendar: string)

  datatype Cal = Cal(name: string, check: bool, dest: bool)

  type Conns = map<string, Conn>

  type Cals = map<CalKey, Cal>

  datatype State = State(conns: Conns, cals: Cals)

  /** One calendar of a submitted selection. */
  datatype Selection = Selection(id: string, name: string, check: bool, dest: bool)

  datatype Error = NoRows | UnknownCalendar | CalendarList | Constraint

  datatype Outcome = Done | Failed(error: Error)

  /** What the provider says about the submitted ids; NotAsked when it does not validate. */
  datatype Verdict = NotAsked | Accepted | Refused | CannotList

  // ---------------------------------------------------------------- the statements

  predicate Connected(conns: Conns, a: Account) {
    exists id :: id in conns && conns[id].account == a
  }

  predicate HasDestination(conns: Conns, user: string) {
    exists id :: id in conns && conns[id].account.user == user && conns[id].dest
  }

  function ClearDest(conns: Conns, user: string): (r: Conns) {
    map id | id in conns :: if conns[id].account.user == user then conns[id].(dest := false) else conns[id]
  }

  function MarkDest(conns: Conns, a: Account): (r: Conns) {
    map id | id in conns :: if conns[id].account == a then conns[id].(dest := true) else conns[id]
  }

  function DropAccount(conns: Conns, a: Account): (r: Conns) {
    map id | id in conns && conns[id].account != a :: conns[id]
  }

  function DropUser(conns: Conns, user: string): (r: Conns) {
    map id | id in conns && conns[id].account.user != user :: conns[id]
  }

  function ClearCals(cals: Cals, user: string): (r: Cals) {
    map k | k in cals :: if k.account.user == user then cals[k].(dest := false) else cals[k]
  }

  function ClearOtherCals(cals: Cals, a: Account): (r: Cals) {
    map k | k in cals :: if k.account.user == a.user && k.account != a then cals[k].(dest := false) else cals[k]
  }

  function DropAccountCals(cals: Cals, a: Account): (r: Cals) {
    map k | k in cals && k.account != a :: cals[k]
  }

  function DropUserCals(cals: Cals, user: string): (r: Cals) {
    map k | k in cals && k.account.user != user :: cals[k]
  }

  predicate IsOldest(conns: Conns, user: string, id: string) {
    && id in conns && conns[id].account.user == user
    && forall j :: j in conns && conns[j].account.user == user ==> conns[id].created <= conns[j].created
  }

  // ---------------------------------------------------------------- the five updates

  /** Row by row, what the selection loop inserts. */
  function WithRows(cals: Cals, a: Account, sels: seq<Selection>): (r: Cals) {
    if sels == [] then cals
    else
      var c := sels[|sels| - 1];
      WithRows(cals, a, sels[..|sels| - 1])[CalKey(a, c.id) := Cal(c.name, c.check, c.dest)]
  }

  predicate DistinctIds(sels: seq<Selection>) {
    forall i, j :: 0 <= i < j < |sels| ==> sels[i].id != sels[j].id
  }

  predicate ClaimsDest(sels: seq<Selection>) {
    exists i :: 0 <= i < |sels| && sels[i].dest
  }

  predicate AtMostOneDest(sels: seq<Selection>) {
    forall i, j :: 0 <= i < j < |sels| ==> !(sels[i].dest && sels[j].dest)
  }

  /** The connect or refresh of one account under a new row id: an existing row keeps its flags,
      a first row becomes the destination when the user has none. */
  ghost predicate Refreshes(s: State, id: string, a: Account, calendar: string, now: int, s': State) {
    var rest := DropAccount(s.conns, a);
    && id !in rest && s'.cals == s.cals
    && exists check, dest :: s'.conns == rest[id := Conn(a, calendar, check, dest, now)]
         && (if Connected(s.conns, a)
             then exists j :: j in s.conns && s.conns[j].account == a &&
                              s.conns[j].check == check && s.conns[j].dest == dest
             else check && (dest <==> !HasDestination(s.conns, a.user)))
  }

  function Choose(s: State, a: Account): (r: State) {
    State(MarkDest(ClearDest(s.conns, a.user), a), ClearOtherCals(s.cals, a))
  }

  function Select(s: State, a: Account, sels: seq<Selection>): (r: State) {
    if ClaimsDest(sels) then
      State(MarkDest(ClearDest(s.conns, a.user), a),
            WithRows(DropAccountCals(ClearCals(s.cals, a.user), a), a, sels))
    else State(s.conns, WithRows(DropAccountCals(s.cals, a), a, sels))
  }

  predicate HasRows(conns: Conns, user: string) {
    exists id :: id in conns && conns[id].account.user == user
  }

  /** Removing one account, and promoting the oldest remaining one when it was the destination. */
  ghost predicate Removes(s: State, a: Account, s': State) {
    var rest := DropAccount(s.conns, a);
    && s'.cals == DropAccountCals(s.cals, a)
    && exists j :: j in s.conns && s.conns[j].account == a && Promotes(rest, a.user, s.conns[j].dest, s'.conns)
  }

  ghost predicate Promotes(rest: Conns, user: string, wasDest: bool, conns: Conns) {
    if wasDest && HasRows(rest, user)
    then exists next :: IsOldest(rest, user, next) && conns == rest[next := rest[next].(dest := true)]
    else conns == rest
  }

  function RemovesAll(s: State, user: string): (r: State) {
    State(DropUser(s.conns, user), DropUserCals(s.cals, user))
  }

  // ---------------------------------------------------------------- the invariant

  ghost predicate SameAccount(conns: Conns, i: string, j: string) {
    i in conns && j in conns && conns[i].account == conns[j].account
  }

  ghost predicate OneRowPerAccount(conns: Conns) {
    forall i, j :: SameAccount(conns, i, j) ==> i == j
  }

  ghost predicate BothDest(conns: Conns, i: string, j: string) {
    i in conns && j in conns && conns[i].dest && conns[j].dest && conns[i].account.user == conns[j].account.user
  }

  ghost predicate OneDestAccount(conns: Conns) {
    && (forall u :: HasRows(conns, u) ==> HasDestination(conns, u))
    && (forall i, j :: BothDest(conns, i, j) ==> i == j)
  }

  ghost predicate DestAccount(conns: Conns, a: Account) {
    exists id :: id in conns && conns[id].account == a && conns[id].dest
  }

  ghost predicate OneDestCalendar(cals: Cals) {
    forall k, l :: k in cals && l in cals && cals[k].dest && cals[l].dest && k.account.user == l.account.user ==> k == l
  }

  ghost predicate CalendarsOwned(s: State) {
    && (forall k :: k in s.cals ==> Connected(s.conns, k.account))
    && (forall k :: k in s.cals && s.cals[k].dest ==> DestAccount(s.conns, k.account))
  }

  /** A user with a connection has exactly one destination account; at most one saved calendar
      is a destination and it lies in that account; saved calendars belong to connected accounts. */
  ghost predicate Inv(s: State) {
    OneRowPerAccount(s.conns) && OneDestAccount(s.conns) && OneDestCalendar(s.cals) && CalendarsOwned(s)
  }

  // ---------------------------------------------------------------- every update keeps it

  function Moved(c: Conn, a: Account): (r: Conn) {
    if c.account.user == a.user then c.(dest := c.account == a) else c
  }

  /** r is conns with the user's destination flag on account a alone. */
  ghost predicate MovedTo(conns: Conns, a: Account, r: Conns) {
    r.Keys == conns.Keys && forall i :: i in conns ==> r[i] == Moved(conns[i], a)
  }

  lemma MovedAccounts(conns: Conns, a: Account, r: Conns, b: Account)
    requires MovedTo(conns, a, r)
    ensures Connected(conns, b) <==> Connected(r, b)
    ensures b.user != a.user ==> (DestAccount(conns, b) <==> DestAccount(r, b))
  {
    if i :| i in conns && conns[i].account == b {
      assert r[i].account == b;
    }
    if i :| i in conns && conns[i].account == b && conns[i].dest && b.user != a.user {
      assert r[i].dest;
    }
  }

  lemma MarkMovesDest(conns: Conns, a: Account, r: Conns)
    requires OneRowPerAccount(conns) && OneDestAccount(conns) && Connected(conns, a) && MovedTo(conns, a, r)
    ensures OneRowPerAccount(r) && OneDestAccount(r) && DestAccount(r, a)
  {
    var id :| id in conns && conns[id].account == a;
    assert r[id].account == a && r[id].dest;
    forall u | HasRows(r, u) ensures HasDestination(r, u) {
      var i :| i in r && r[i].account.user == u;
      if u != a.user {
        assert conns[i].account.user == u && HasRows(conns, u);
        var j :| j in conns && conns[j].account.user == u && conns[j].dest;
        assert r[j].dest;
      }
    }
    forall i, j | BothDest(r, i, j) ensures i == j {
      assert r[i].account.user != a.user ==> BothDest(conns, i, j);
      assert r[i].account.user == a.user ==> SameAccount(conns, i, j);
    }
    forall i, j | SameAccount(r, i, j) ensures i == j {
      assert SameAccount(conns, i, j);
    }
  }

  lemma MarkMoves(conns: Conns, a: Account)
    ensures MovedTo(conns, a, MarkDest(ClearDest(conns, a.user), a))
  {
  }

  lemma ClearOthersKeepsOne(cals: Cals, a: Account)
    requires OneDestCalendar(cals)
    ensures OneDestCalendar(ClearOtherCals(cals, a))
  {
  }

  lemma ChooseOwned(s: State, a: Account, k: CalKey)
    requires Inv(s) && Connected(s.conns, a) && k in ClearOtherCals(s.cals, a)
    ensures Connected(Choose(s, a).conns, k.account)
    ensures ClearOtherCals(s.cals, a)[k].dest ==> k.account == a || DestAccount(Choose(s, a).conns, k.account)
  {
    MarkMoves(s.conns, a);
    MovedAccounts(s.conns, a, Choose(s, a).conns, k.account);
  }

  lemma ChooseKeeps(s: State, a: Account)
    requires Inv(s) && Connected(s.conns, a)
    ensures Inv(Choose(s, a)) && DestAccount(Choose(s, a).conns, a)
  {
    MarkMoves(s.conns, a);
    MarkMovesDest(s.conns, a, Choose(s, a).conns);
    ClearOthersKeepsOne(s.cals, a);
    forall k | k in ClearOtherCals(s.cals, a)
      ensures Connected(Choose(s, a).conns, k.account)
      ensures ClearOtherCals(s.cals, a)[k].dest ==> DestAccount(Choose(s, a).conns, k.account)
    {
      ChooseOwned(s, a, k);
    }
  }

  lemma WithRowsAt(cals: Cals, a: Account, sels: seq<Selection>, k: CalKey)
    requires DistinctIds(sels) && forall l :: l in cals ==> l.account != a
    ensures k in WithRows(cals, a, sels) <==>
              k in cals || (k.account == a && exists i :: 0 <= i < |sels| && sels[i].id == k.calendar)
    ensures k in cals ==> WithRows(cals, a, sels)[k] == cals[k]
    ensures forall i :: 0 <= i < |sels| && k == CalKey(a, sels[i].id) ==>
              && k in WithRows(cals, a, sels)
              && WithRows(cals, a, sels)[k] == Cal(sels[i].name, sels[i].check, sels[i].dest)
  {
    if sels != [] {
      var front, n := sels[..|sels| - 1], |sels| - 1;
      WithRowsAt(cals, a, front, k);
      assert forall i :: 0 <= i < n ==> front[i] == sels[i];
      if k.account == a && k in WithRows(cals, a, front) {
        var i :| 0 <= i < |front| && front[i].id == k.calendar;
        assert sels[i].id == k.calendar;
      }
      if k == CalKey(a, sels[n].id) {
        assert sels[n].id == k.calendar;
      }
    }
  }

  /** SetAccountCalendars is safe exactly when the account is still connected when its
      transaction runs (or nothing is saved) and the selection names at most one destination. */
  lemma SelectKeepsExactly(s: State, a: Account, sels: seq<Selection>)
    requires Inv(s) && DistinctIds(sels)
    ensures Inv(Select(s, a, sels)) <==> (sels == [] || Connected(s.conns, a)) && AtMostOneDest(sels)
  {
    var r := Select(s, a, sels);
    SelectRows(s, a, sels);
    if (sels == [] || Connected(s.conns, a)) && AtMostOneDest(sels) {
      SelectKeeps(s, a, sels);
    } else if !AtMostOneDest(sels) {
      var i, j :| 0 <= i < j < |sels| && sels[i].dest && sels[j].dest;
      var k, l := CalKey(a, sels[i].id), CalKey(a, sels[j].id);
      assert r.cals[k].dest && r.cals[l].dest && k != l;
    } else {
      assert CalKey(a, sels[0].id) in r.cals;
      if ClaimsDest(sels) {
        MovedAccounts(s.conns, a, r.conns, a);
      }
      assert !Connected(r.conns, a);
    }
  }

  function Cleared(c: Cal, clear: bool): (r: Cal) {
    if clear then c.(dest := false) else c
  }

  /** What a selection leaves saved: the submitted rows for the account, the other rows as they
      were, except that a claimed destination clears the user's earlier one. */
  lemma SelectRows(s: State, a: Account, sels: seq<Selection>)
    requires DistinctIds(sels)
    ensures forall i :: 0 <= i < |sels| ==>
              && CalKey(a, sels[i].id) in Select(s, a, sels).cals
              && Select(s, a, sels).cals[CalKey(a, sels[i].id)] == Cal(sels[i].name, sels[i].check, sels[i].dest)
    ensures forall k :: k in Select(s, a, sels).cals && k.account == a ==>
              exists i :: 0 <= i < |sels| && sels[i].id == k.calendar
    ensures forall k: CalKey :: k.account != a ==>
              && (k in Select(s, a, sels).cals <==> k in s.cals)
              && (k in s.cals ==>
                    Select(s, a, sels).cals[k] == Cleared(s.cals[k], ClaimsDest(sels) && k.account.user == a.user))
  {
    var base := if ClaimsDest(sels) then DropAccountCals(ClearCals(s.cals, a.user), a) else DropAccountCals(s.cals, a);
    forall i | 0 <= i < |sels|
      ensures CalKey(a, sels[i].id) in Select(s, a, sels).cals
      ensures Select(s, a, sels).cals[CalKey(a, sels[i].id)] == Cal(sels[i].name, sels[i].check, sels[i].dest)
    {
      WithRowsAt(base, a, sels, CalKey(a, sels[i].id));
    }
    forall k | k in Select(s, a, sels).cals && k.account == a
      ensures exists i :: 0 <= i < |sels| && sels[i].id == k.calendar
    {
      WithRowsAt(base, a, sels, k);
    }
    forall k: CalKey | k.account != a
      ensures k in Select(s, a, sels).cals <==> k in s.cals
      ensures k in s.cals ==>
              Select(s, a, sels).cals[k] == Cleared(s.cals[k], ClaimsDest(sels) && k.account.user == a.user)
    {
      WithRowsAt(base, a, sels, k);
    }
  }

  lemma SelectKeeps(s: State, a: Account, sels: seq<Selection>)
    requires Inv(s) && DistinctIds(sels) && AtMostOneDest(sels) && (sels == [] || Connected(s.conns, a))
    ensures Inv(Select(s, a, sels))
  {
    var r := Select(s, a, sels);
    SelectRows(s, a, sels);
    if ClaimsDest(sels) {
      MarkMovesDest(s.conns, a, r.conns);
    }
    SelectOneDest(s, a, sels, r.cals);
    forall k | k in r.cals
      ensures Connected(r.conns, k.account)
      ensures r.cals[k].dest ==> DestAccount(r.conns, k.account)
    {
      if k.account == a {
        var i :| 0 <= i < |sels| && sels[i].id == k.calendar;
        assert k == CalKey(a, sels[i].id);
      }
      if ClaimsDest(sels) {
        MovedAccounts(s.conns, a, r.conns, k.account);
      }
    }
  }

  lemma SelectOneDest(s: State, a: Account, sels: seq<Selection>, cals: Cals)
    requires Inv(s) && DistinctIds(sels) && AtMostOneDest(sels) && (sels == [] || Connected(s.conns, a))
    requires cals == Select(s, a, sels).cals
    ensures OneDestCalendar(cals)
  {
    SelectRows(s, a, sels);
    forall k, l | k in cals && l in cals && cals[k].dest && cals[l].dest && k.account.user == l.account.user
      ensures k == l
    {
      if k.account == a {
        var i :| 0 <= i < |sels| && sels[i].id == k.calendar;
        assert k == CalKey(a, sels[i].id) && sels[i].dest;
      }
      if l.account == a {
        var j :| 0 <= j < |sels| && sels[j].id == l.calendar;
        assert l == CalKey(a, sels[j].id) && sels[j].dest;
      }
    }
  }

  lemma RefreshKeeps(s: State, id: string, a: Account, calendar: string, now: int, s': State)
    requires Inv(s) && Refreshes(s, id, a, calendar, now, s')
    ensures Inv(s')
    ensures forall b :: DestAccount(s.conns, b) ==> DestAccount(s'.conns, b)
    ensures forall b :: Connected(s.conns, b) ==> Connected(s'.conns, b)
  {
    var rest := DropAccount(s.conns, a);
    assert s'.conns[id].account == a;
    forall b | Connected(s.conns, b) ensures Connected(s'.conns, b) {
      var j :| j in s.conns && s.conns[j].account == b;
      assert b != a ==> s'.conns[j] == s.conns[j];
    }
    forall b | DestAccount(s.conns, b) ensures DestAccount(s'.conns, b) {
      var j :| j in s.conns && s.conns[j].account == b && s.conns[j].dest;
      assert b != a ==> s'.conns[j] == s.conns[j];
      if b == a {
        assert Connected(s.conns, a);
        var o :| o in s.conns && s.conns[o].account == a && s.conns[o].dest == s'.conns[id].dest;
        assert SameAccount(s.conns, j, o);
      }
    }
    forall u | HasRows(s'.conns, u) ensures HasDestination(s'.conns, u) {
      var i :| i in s'.conns && s'.conns[i].account.user == u;
      if HasDestination(s.conns, u) {
        var j :| j in s.conns && s.conns[j].account.user == u && s.conns[j].dest;
        assert DestAccount(s'.conns, s.conns[j].account);
      } else {
        assert !HasRows(s.conns, u);
        assert i == id && !Connected(s.conns, a);
      }
    }
    RefreshOneDest(s, id, a, calendar, now, s');
    forall i, j | SameAccount(s'.conns, i, j) ensures i == j {
      assert i != id && j != id ==> SameAccount(s.conns, i, j);
    }
  }

  lemma RefreshOneDest(s: State, id: string, a: Account, calendar: string, now: int, s': State)
    requires Inv(s) && Refreshes(s, id, a, calendar, now, s')
    ensures forall i, j :: BothDest(s'.conns, i, j) ==> i == j
  {
    var rest := DropAccount(s.conns, a);
    forall j | BothDest(s'.conns, id, j) ensures j == id {
      assert j != id ==> s.conns[j] == s'.conns[j];
      if Connected(s.conns, a) {
        var o :| o in s.conns && s.conns[o].account == a && s.conns[o].dest == s'.conns[id].dest;
        assert j != id ==> BothDest(s.conns, o, j);
      } else {
        assert j != id ==> HasDestination(s.conns, a.user);
      }
    }
    forall i, j | BothDest(s'.conns, i, j) ensures i == j {
      if i != id && j != id {
        assert BothDest(s.conns, i, j);
      } else {
        assert BothDest(s'.conns, j, i);
      }
    }
  }

  lemma RemoveKeeps(s: State, a: Account, s': State)
    requires Inv(s) && Removes(s, a, s')
    ensures Inv(s') && !Connected(s'.conns, a)
  {
    var rest := DropAccount(s.conns, a);
    var j :| j in s.conns && s.conns[j].account == a && Promotes(rest, a.user, s.conns[j].dest, s'.conns);
    RemoveConnected(s, a, s', j);
    RemoveDest(s, a, s', j);
    forall k | k in s'.cals
      ensures Connected(s'.conns, k.account)
      ensures s'.cals[k].dest ==> DestAccount(s'.conns, k.account)
    {
      assert k in s.cals && k.account != a;
    }
  }

  lemma RemoveConnected(s: State, a: Account, s': State, j: string)
    requires Inv(s) && j in s.conns && s.conns[j].account == a
    requires Promotes(DropAccount(s.conns, a), a.user, s.conns[j].dest, s'.conns)
    ensures OneRowPerAccount(s'.conns)
    ensures forall b :: Connected(s'.conns, b) <==> Connected(s.conns, b) && b != a
    ensures forall b :: b != a && DestAccount(s.conns, b) ==> DestAccount(s'.conns, b)
  {
    forall i, k | SameAccount(s'.conns, i, k) ensures i == k {
      assert SameAccount(s.conns, i, k);
    }
    forall b ensures Connected(s'.conns, b) <==> Connected(s.conns, b) && b != a {
      if Connected(s.conns, b) && b != a {
        var i :| i in s.conns && s.conns[i].account == b;
        assert i in s'.conns && s'.conns[i].account == b;
      }
    }
    forall b | b != a && DestAccount(s.conns, b) ensures DestAccount(s'.conns, b) {
      var i :| i in s.conns && s.conns[i].account == b && s.conns[i].dest;
      assert i in s'.conns && s'.conns[i].account == b && s'.conns[i].dest;
    }
  }

  lemma RemoveDest(s: State, a: Account, s': State, j: string)
    requires Inv(s) && j in s.conns && s.conns[j].account == a
    requires Promotes(DropAccount(s.conns, a), a.user, s.conns[j].dest, s'.conns)
    ensures OneDestAccount(s'.conns)
  {
    var rest := DropAccount(s.conns, a);
    forall u | HasRows(s'.conns, u) ensures HasDestination(s'.conns, u) {
      var i :| i in s'.conns && s'.conns[i].account.user == u;
      assert s.conns[i].account.user == u && HasRows(s.conns, u);
      var d :| d in s.conns && s.conns[d].account.user == u && s.conns[d].dest;
      if s.conns[d].account != a {
        assert s'.conns[d].dest;
      } else {
        assert SameAccount(s.conns, d, j) && rest[i].account.user == u;
        assert HasRows(rest, u);
        var next :| IsOldest(rest, u, next) && s'.conns == rest[next := rest[next].(dest := true)];
        assert s'.conns[next].dest;
      }
    }
    forall i, k | BothDest(s'.conns, i, k) ensures i == k {
      if s.conns[i].dest && s.conns[k].dest {
        assert BothDest(s.conns, i, k);
      } else if s.conns[i].dest {
        assert BothDest(s.conns, i, j);
      } else if s.conns[k].dest {
        assert BothDest(s.conns, k, j);
      }
    }
  }

  lemma RemoveAllKeeps(s: State, user: string)
    requires Inv(s)
    ensures Inv(RemovesAll(s, user)) && !HasRows(RemovesAll(s, user).conns, user)
  {
    var r := RemovesAll(s, user);
    forall u | HasRows(r.conns, u) ensures HasDestination(r.conns, u) {
      var i :| i in r.conns && r.conns[i].account.user == u;
      assert s.conns[i].account.user == u && HasRows(s.conns, u);
      var j :| j in s.conns && s.conns[j].account.user == u && s.conns[j].dest;
      assert r.conns[j].dest;
    }
    forall k | k in r.cals
      ensures Connected(r.conns, k.account)
      ensures r.cals[k].dest ==> DestAccount(r.conns, k.account)
    {
      var j :| j in s.conns && s.conns[j].account == k.account;
      assert j in r.conns;
      if r.cals[k].dest {
        var d :| d in s.conns && s.conns[d].account == k.account && s.conns[d].dest;
        assert d in r.conns;
      }
    }
    forall i, j | BothDest(r.conns, i, j) ensures i == j {
      assert BothDest(s.conns, i, j);
    }
    forall i, j | SameAccount(r.conns, i, j) ensures i == j {
      assert SameAccount(s.conns, i, j);
    }
  }

  // ---------------------------------------------------------------- every run

  datatype Op =
    | Refresh(id: string, a: Account, calendar: string, now: int)
    | SetDest(a: Account)
    | SetCals(a: Account, sels: seq<Selection>)
    | DropOne(a: Account)
    | DropAll(user: string)

  /** One committed transaction, or a failed one, which changes nothing. */
  ghost predicate Next(s: State, op: Op, s': State) {
    || s' == s
    || match op
       case Refresh(id, a, calendar, now) => Refreshes(s, id, a, calendar, now, s')
       case SetDest(a) => Connected(s.conns, a) && s' == Choose(s, a)
       case SetCals(a, sels) => DistinctIds(sels) && s' == Select(s, a, sels)
       case DropOne(a) => Removes(s, a, s')
       case DropAll(user) => s' == RemovesAll(s, user)
  }

  ghost predicate IsRun(states: seq<State>, ops: seq<Op>) {
    && |states| == |ops| + 1
    && forall i :: 0 <= i < |ops| ==> Next(states[i], ops[i], states[i + 1])
  }

  /** The check of the account comes before the transaction; this says it still holds there. */
  ghost predicate Sound(s: State, op: Op) {
    op.SetCals? ==> (op.sels == [] || Connected(s.conns, op.a)) && AtMostOneDest(op.sels)
  }

  lemma NextKeeps(s: State, op: Op, s': State)
    requires Inv(s) && Next(s, op, s') && Sound(s, op)
    ensures Inv(s')
  {
    if s' != s {
      match op
      case Refresh(id, a, calendar, now) => RefreshKeeps(s, id, a, calendar, now, s');
      case SetDest(a) => ChooseKeeps(s, a);
      case SetCals(a, sels) => SelectKeeps(s, a, sels);
      case DropOne(a) => RemoveKeeps(s, a, s');
      case DropAll(user) => RemoveAllKeeps(s, user);
    }
  }

  /** Over all runs from the empty tables, every state has the invariant. */
  lemma {:induction false} RunKeeps(states: seq<State>, ops: seq<Op>, n: nat)
    requires IsRun(states, ops) && states[0] == State(map[], map[]) && n < |states|
    requires forall i :: 0 <= i < |ops| ==> Sound(states[i], ops[i])
    ensures Inv(states[n])
    decreases n
  {
    if n > 0 {
      RunKeeps(states, ops, n - 1);
      NextKeeps(states[n - 1], ops[n - 1], states[n]);
    }
  }

  // ---------------------------------------------------------------- the write target

  /** The calendar picked inside the account, when one with a non-empty id is. */
  ghost predicate Picked(s: State, a: Account, calendar: string) {
    CalKey(a, calendar) in s.cals && s.cals[CalKey(a, calendar)].dest && calendar != ""
  }

  /** Bookings of user u are written to this calendar of this account. */
  ghost predicate IsTarget(s: State, a: Account, calendar: string) {
    && DestAccount(s.conns, a)
    && (Picked(s, a, calendar)
        || ((forall c :: !Picked(s, a, c))
            && exists id :: id in s.conns && s.conns[id].account == a &&
                            s.conns[id].dest && s.conns[id].calendar == calendar))
  }

  // ---------------------------------------------------------------- nobody else's rows

  /** User u has the same rows in both tables before and after. */
  ghost predicate SameRows(s: State, s': State, u: string) {
    && (forall id :: id in s.conns && s.conns[id].account.user == u ==> id in s'.conns && s'.conns[id] == s.conns[id])
    && (forall id :: id in s'.conns && s'.conns[id].account.user == u ==> id in s.conns && s'.conns[id] == s.conns[id])
    && (forall k :: k in s.cals && k.account.user == u ==> k in s'.cals && s'.cals[k] == s.cals[k])
    && (forall k :: k in s'.cals && k.account.user == u ==> k in s.cals)
  }

  function UserOf(op: Op): (u: string) {
    if op.DropAll? then op.user else op.a.user
  }

  lemma SelectTouchesOne(s: State, a: Account, sels: seq<Selection>, u: string)
    requires DistinctIds(sels) && u != a.user
    ensures SameRows(s, Select(s, a, sels), u)
  {
    SelectRows(s, a, sels);
  }

  lemma RemoveTouchesOne(s: State, a: Account, s': State, u: string)
    requires Removes(s, a, s') && u != a.user
    ensures SameRows(s, s', u)
  {
  }

  /** Whatever one user does, every other user keeps all rows. */
  lemma OthersKeepRows(s: State, op: Op, s': State, u: string)
    requires Next(s, op, s') && u != UserOf(op)
    ensures SameRows(s, s', u)
  {
    if s' != s {
      match op
      case SetCals(a, sels) => SelectTouchesOne(s, a, sels, u);
      case DropOne(a) => RemoveTouchesOne(s, a, s', u);
      case _ =>
    }
  }

  /** So every other user's bookings go where they went. */
  lemma OthersKeepTarget(s: State, op: Op, s': State, b: Account, calendar: string)
    requires Next(s, op, s') && b.user != UserOf(op)
    ensures IsTarget(s', b, calendar) <==> IsTarget(s, b, calendar)
  {
    OthersKeepRows(s, op, s', b.user);
    SameRowsSameTarget(s, s', b, calendar);
  }

  lemma SameRowsSameTarget(s: State, s': State, b: Account, calendar: string)
    requires SameRows(s, s', b.user)
    ensures IsTarget(s', b, calendar) <==> IsTarget(s, b, calendar)
  {
    assert forall c :: Picked(s, b, c) <==> Picked(s', b, c);
    assert forall id :: (id in s.conns && s.conns[id].account == b) <==> (id in s'.conns && s'.conns[id].account == b);
  }

  /** A user with a connection has exactly one target. */
  lemma OneTarget(s: State, user: string)
    requires Inv(s) && HasRows(s.conns, user)
    ensures exists a: Account, c :: a.user == user && IsTarget(s, a, c)
    ensures forall a: Account, b: Account, c, d ::
              a.user == user && b.user == user && IsTarget(s, a, c) && IsTarget(s, b, d) ==> a == b && c == d
  {
    var id :| id in s.conns && s.conns[id].account.user == user && s.conns[id].dest;
    var a := s.conns[id].account;
    assert DestAccount(s.conns, a);
    if c :| Picked(s, a, c) {
      assert IsTarget(s, a, c);
    } else {
      assert IsTarget(s, a, s.conns[id].calendar);
    }
    forall b: Account, d | b.user == user && IsTarget(s, b, d)
      ensures b == a && forall e :: IsTarget(s, b, e) ==> d == e
    {
      var j :| j in s.conns && s.conns[j].account == b && s.conns[j].dest;
      assert BothDest(s.conns, id, j);
      forall e | IsTarget(s, b, e) ensures d == e {
        SameTarget(s, b, d, e);
      }
    }
  }

  lemma SameTarget(s: State, a: Account, c: string, d: string)
    requires Inv(s) && IsTarget(s, a, c) && IsTarget(s, a, d)
    ensures c == d
  {
    if Picked(s, a, c) {
      assert Picked(s, a, d);
      assert CalKey(a, c) == CalKey(a, d);
    } else {
      var i :| i in s.conns && s.conns[i].account == a && s.conns[i].dest && s.conns[i].calendar == c;
      var j :| j in s.conns && s.conns[j].account == a && s.conns[j].dest && s.conns[j].calendar == d;
      assert SameAccount(s.conns, i, j);
    }
  }

  /** Choosing an account makes it the target, with the calendar picked inside it if any. */
  lemma ChosenIsTarget(s: State, a: Account)
    requires Inv(s) && Connected(s.conns, a)
    ensures exists c :: IsTarget(Choose(s, a), a, c)
    ensures forall c :: Picked(Choose(s, a), a, c) <==> Picked(s, a, c)
  {
    var r := Choose(s, a);
    ChooseKeeps(s, a);
    var id :| id in r.conns && r.conns[id].account == a && r.conns[id].dest;
    if c :| Picked(r, a, c) {
      assert IsTarget(r, a, c);
    } else {
      assert IsTarget(r, a, r.conns[id].calendar);
    }
  }

  /** A calendar submitted as the destination becomes the target, whichever account was it before. */
  lemma SelectedIsTarget(s: State, a: Account, sels: seq<Selection>, i: nat)
    requires Inv(s) && Connected(s.conns, a) && DistinctIds(sels) && AtMostOneDest(sels)
    requires i < |sels| && sels[i].dest && sels[i].id != ""
    ensures IsTarget(Select(s, a, sels), a, sels[i].id)
  {
    SelectRows(s, a, sels);
    assert ClaimsDest(sels);
    MarkMovesDest(s.conns, a, Select(s, a, sels).conns);
  }

  /** A selection without a destination leaves the target of every other account alone. */
  lemma OtherTargetStays(s: State, a: Account, sels: seq<Selection>, b: Account, c: string)
    requires Inv(s) && DistinctIds(sels) && !ClaimsDest(sels) && b != a && IsTarget(s, b, c)
    ensures IsTarget(Select(s, a, sels), b, c)
  {
    SelectRows(s, a, sels);
    assert forall d :: Picked(s, b, d) <==> Picked(Select(s, a, sels), b, d);
  }

  ghost predicate OnlyRefreshes(ops: seq<Op>) {
    forall i :: 0 <= i < |ops| ==> ops[i].Refresh?
  }

  /** A picked target survives any sequence of connects and refreshes, of any accounts. Without
      a pick the account still stays the target. */
  lemma {:induction false} TargetSurvives(states: seq<State>, ops: seq<Op>, a: Account, n: nat)
    requires IsRun(states, ops) && OnlyRefreshes(ops) && Inv(states[0]) && n < |states|
    requires DestAccount(states[0].conns, a)
    ensures Inv(states[n]) && DestAccount(states[n].conns, a) && states[n].cals == states[0].cals
    ensures forall c :: Picked(states[0], a, c) ==> IsTarget(states[n], a, c)
    decreases n
  {
    if n > 0 {
      TargetSurvives(states, ops, a, n - 1);
      var op := ops[n - 1];
      if states[n] != states[n - 1] {
        RefreshKeeps(states[n - 1], op.id, op.a, op.calendar, op.now, states[n]);
      }
    }
  }

  /** After a disconnect the account is not a target, and connecting it again inherits nothing:
      no saved calendar, and the destination only when the user has no other account. */
  lemma ReconnectStartsAfresh(s: State, a: Account, s': State, id: string, calendar: string, now: int, s'': State)
    requires Inv(s) && Removes(s, a, s') && Refreshes(s', id, a, calendar, now, s'')
    ensures forall k :: k in s''.cals ==> k.account != a
    ensures forall c :: !IsTarget(s', a, c)
    ensures DestAccount(s''.conns, a) <==> !HasRows(s'.conns, a.user)
  {
    RemoveKeeps(s, a, s');
    if HasRows(s'.conns, a.user) {
      assert HasDestination(s'.conns, a.user);
    } else {
      assert !HasDestination(s'.conns, a.user);
    }
    assert s''.conns[id].account == a;
  }

  /** When the destination account goes, the oldest remaining account becomes the target, with
      the calendar it was connected with. */
  lemma OldestTakesOver(s: State, a: Account, s': State)
    requires Inv(s) && Removes(s, a, s') && DestAccount(s.conns, a) && HasRows(s'.conns, a.user)
    ensures exists next :: IsOldest(DropAccount(s.conns, a), a.user, next)
              && IsTarget(s', s.conns[next].account, s.conns[next].calendar)
  {
    var rest := DropAccount(s.conns, a);
    var j :| j in s.conns && s.conns[j].account == a && Promotes(rest, a.user, s.conns[j].dest, s'.conns);
    var d :| d in s.conns && s.conns[d].account == a && s.conns[d].dest;
    assert SameAccount(s.conns, j, d);
    var i :| i in s'.conns && s'.conns[i].account.user == a.user;
    assert rest[i].account.user == a.user;
    var next :| IsOldest(rest, a.user, next) && s'.conns == rest[next := rest[next].(dest := true)];
    var b := s.conns[next].account;
    assert s'.conns[next].dest && s'.conns[next].account == b;
    forall c ensures !Picked(s', b, c) {
      if CalKey(b, c) in s.cals && s.cals[CalKey(b, c)].dest {
        var e :| e in s.conns && s.conns[e].account == b && s.conns[e].dest;
        assert BothDest(s.conns, e, d);
      }
    }
  }

  // ---------------------------------------------------------------- where a selection is not safe

  /** An account disconnected between the check and the transaction leaves the user with no
      destination at all, whatever other accounts are connected. */
  lemma LateSelectionLosesDestination(s: State, a: Account, sels: seq<Selection>)
    requires Inv(s) && !Connected(s.conns, a) && ClaimsDest(sels)
    ensures !HasDestination(Select(s, a, sels).conns, a.user)
  {
    var r := Select(s, a, sels);
    forall i | i in r.conns && r.conns[i].account.user == a.user ensures !r.conns[i].dest {
      assert s.conns[i].account != a;
    }
  }

  /** Two destinations in one selection are both saved. */
  lemma TwoDestinationsSaved(a: Account)
    ensures var s := State(map["row" := Conn(a, "primary", true, true, 0)], map[]);
            var sels := [Selection("work", "", true, true), Selection("home", "", true, true)];
            Inv(s) && Connected(s.conns, a) && DistinctIds(sels) && !Inv(Select(s, a, sels))
  {
    var s := State(map["row" := Conn(a, "primary", true, true, 0)], map[]);
    var sels := [Selection("work", "", true, true), Selection("home", "", true, true)];
    assert s.conns["row"].account == a && s.conns["row"].dest;
    assert Inv(s) by {
      forall u | HasRows(s.conns, u) ensures HasDestination(s.conns, u) {
        assert u == a.user;
      }
    }
    assert sels[0].dest && sels[1].dest && sels[0].id[0] != sels[1].id[0];
    SelectKeepsExactly(s, a, sels);
  }

  // ---------------------------------------------------------------- the service

  /** The two tables. A transaction works on its own view of them; Commit publishes the view,
      and a rollback is a return before it. */
  class Store {
    var conns: Conns
    var cals: Cals

    constructor ()
      ensures Tables() == State(map[], map[]) && Inv(Tables())
    {
      conns, cals := map[], map[];
    }

    ghost function Tables(): (s: State)
      reads this
    {
      State(conns, cals)
    }

    /** ResolveFlags, inside the caller's transaction. */
    method ResolveFlags(a: Account) returns (check: bool, dest: bool, existing: bool)
      ensures existing <==> Connected(conns, a)
      ensures existing ==>
              exists j :: j in conns && conns[j].account == a && conns[j].check == check && conns[j].dest == dest
      ensures !existing ==> check && (dest <==> !HasDestination(conns, a.user))
    {
      if j :| j in conns && conns[j].account == a {
        return conns[j].check, conns[j].dest, true;
      }
      return true, !HasDestination(conns, a.user), false;
    }

    /** saveConnection: delete the account's row and insert it again under a new id. */
    method SaveConnection(id: string, a: Account, calendar: string, now: int) returns (r: Outcome)
      modifies this
      ensures r == Done <==> id !in DropAccount(old(conns), a)
      ensures r == Done ==> Refreshes(old(Tables()), id, a, calendar, now, Tables())
      ensures r != Done ==> r == Failed(Constraint) && Tables() == old(Tables())
      ensures old(Inv(Tables())) ==> Inv(Tables())
    {
      var check, dest, _ := ResolveFlags(a);
      var view := DropAccount(conns, a);
      if id in view {
        return Failed(Constraint);
      }
      view := view[id := Conn(a, calendar, check, dest, now)];
      ghost var before := Tables();
      conns := view;
      assert Refreshes(before, id, a, calendar, now, Tables());
      if Inv(before) {
        RefreshKeeps(before, id, a, calendar, now, Tables());
      }
      return Done;
    }

    method SetDestination(a: Account) returns (r: Outcome)
      modifies this
      ensures r == Done <==> Connected(old(conns), a)
      ensures r == Done ==> Tables() == Choose(old(Tables()), a)
      ensures r != Done ==> r == Failed(NoRows) && Tables() == old(Tables())
      ensures old(Inv(Tables())) ==> Inv(Tables())
    {
      if !Connected(conns, a) {
        return Failed(NoRows);
      }
      ghost var before := Tables();
      var view := ClearDest(conns, a.user);
      view := MarkDest(view, a);
      var calView := ClearOtherCals(cals, a);
      conns, cals := view, calView;
      if Inv(before) {
        ChooseKeeps(before, a);
      }
      return Done;
    }

    /** The transaction of SetAccountCalendars: the flags first, then one insert per calendar. */
    method SaveSelection(a: Account, sels: seq<Selection>) returns (r: Outcome)
      modifies this
      ensures r == Done <==> DistinctIds(sels)
      ensures r == Done ==> Tables() == Select(old(Tables()), a, sels)
      ensures r != Done ==> r == Failed(Constraint) && Tables() == old(Tables())
      ensures old(Inv(Tables())) && DistinctIds(sels) ==>
                (Inv(Tables()) <==> (sels == [] || Connected(old(conns), a)) && AtMostOneDest(sels))
    {
      ghost var before := Tables();
      var claims := AnyDestination(sels);
      var view, calView := conns, cals;
      if claims {
        calView := ClearCals(calView, a.user);
        view := ClearDest(view, a.user);
        view := MarkDest(view, a);
      }
      calView := DropAccountCals(calView, a);
      var inserted := InsertRows(calView, a, sels);
      if inserted.None? {
        return Failed(Constraint);
      }
      conns, cals := view, inserted.value;
      if Inv(before) {
        SelectKeepsExactly(before, a, sels);
      }
      return Done;
    }

    /** SetAccountCalendars: the account and the ids are checked before the transaction opens. */
    method SetAccountCalendars(a: Account, sels: seq<Selection>, verdict: Verdict) returns (r: Outcome)
      modifies this
      ensures r == Failed(NoRows) <==> !Connected(old(conns), a)
      ensures r == Failed(UnknownCalendar) <==> Connected(old(conns), a) && verdict == Refused
      ensures r == Failed(CalendarList) <==> Connected(old(conns), a) && verdict == CannotList
      ensures r == Done ==> DistinctIds(sels) && Tables() == Select(old(Tables()), a, sels)
      ensures r != Done ==> Tables() == old(Tables())
      ensures old(Inv(Tables())) && AtMostOneDest(sels) ==> Inv(Tables())
    {
      if !Connected(conns, a) {
        return Failed(NoRows);
      }
      match verdict {
        case Refused => return Failed(UnknownCalendar);
        case CannotList => return Failed(CalendarList);
        case _ =>
      }
      r := SaveSelection(a, sels);
    }

    /** DisconnectOne: the account and its calendars go, and the oldest other account is promoted. */
    method DisconnectOne(a: Account) returns (r: Outcome)
      modifies this
      ensures r == Done <==> Connected(old(conns), a)
      ensures r == Done ==> Removes(old(Tables()), a, Tables())
      ensures r != Done ==> r == Failed(NoRows) && Tables() == old(Tables())
      ensures old(Inv(Tables())) ==> Inv(Tables())
    {
      if j :| j in conns && conns[j].account == a {
        ghost var before := Tables();
        var wasDest := conns[j].dest;
        var view := DropAccount(conns, a);
        var calView := DropAccountCals(cals, a);
        ghost var rest := view;
        if wasDest && HasRows(view, a.user) {
          var next := Oldest(view, a.user);
          view := view[next := view[next].(dest := true)];
        }
        assert Promotes(rest, a.user, wasDest, view);
        conns, cals := view, calView;
        assert Removes(before, a, Tables());
        if Inv(before) {
          RemoveKeeps(before, a, Tables());
        }
        return Done;
      }
      return Failed(NoRows);
    }

    /** Disconnect: everything of the user goes. */
    method Disconnect(user: string)
      modifies this
      ensures Tables() == RemovesAll(old(Tables()), user)
      ensures old(Inv(Tables())) ==> Inv(Tables())
    {
      if Inv(Tables()) {
        RemoveAllKeeps(Tables(), user);
      }
      conns, cals := DropUser(conns, user), DropUserCals(cals, user);
    }

    /** DestinationCalendarID: the calendar picked inside one account. */
    method DestinationCalendarID(a: Account) returns (c: Option<string>)
      ensures c.Some? ==> Picked(Tables(), a, c.value)
      ensures c.None? && OneDestCalendar(cals) ==> forall d :: !Picked(Tables(), a, d)
    {
      if k :| k in cals && k.account == a && cals[k].dest {
        if k.calendar == "" {
          assert OneDestCalendar(cals) ==> forall d :: Picked(Tables(), a, d) ==> CalKey(a, d) == k;
          return None;
        }
        return Some(k.calendar);
      }
      return None;
    }

    /** The write target: providerForDestination picks the provider of the destination row, and
        that provider's loadConn resolves the account and the calendar. */
    method WriteTarget(user: string) returns (t: Option<CalKey>)
      requires Inv(Tables())
      ensures t.None? <==> !HasRows(conns, user)
      ensures t.Some? ==> t.value.account.user == user && IsTarget(Tables(), t.value.account, t.value.calendar)
    {
      assert HasRows(conns, user) ==> HasDestination(conns, user);
      if i :| i in conns && conns[i].account.user == user && conns[i].dest {
        var provider := conns[i].account.provider;
        var id :| id in conns && conns[id].account.user == user &&
                  conns[id].account.provider == provider && conns[id].dest;
        var a := conns[id].account;
        var sub := DestinationCalendarID(a);
        return Some(CalKey(a, if sub.Some? then sub.value else conns[id].calendar));
      }
      return None;
    }
  }

  /** Whether the selection claims the destination. */
  method AnyDestination(sels: seq<Selection>) returns (claims: bool)
    ensures claims <==> ClaimsDest(sels)
  {
    for i := 0 to |sels|
      invariant forall j :: 0 <= j < i ==> !sels[j].dest
    {
      if sels[i].dest {
        return true;
      }
    }
    return false;
  }

  /** An id is there already exactly when an earlier calendar of the selection has it. */
  lemma RowThere(base: Cals, a: Account, sels: seq<Selection>, i: nat)
    requires i < |sels| && DistinctIds(sels[..i]) && forall k :: k in base ==> k.account != a
    ensures DistinctIds(sels[..i + 1]) <==> CalKey(a, sels[i].id) !in WithRows(base, a, sels[..i])
    ensures DistinctIds(sels) ==> DistinctIds(sels[..i + 1])
  {
    var key, front := CalKey(a, sels[i].id), sels[..i];
    WithRowsAt(base, a, front, key);
    assert forall j :: 0 <= j < i ==> front[j] == sels[j];
    assert forall j :: 0 <= j <= i ==> sels[..i + 1][j] == sels[j];
    assert key in WithRows(base, a, front) <==> exists j :: 0 <= j < i && sels[j].id == sels[i].id;
  }

  /** One INSERT per calendar; the unique columns refuse an id that was there already. */
  method InsertRows(base: Cals, a: Account, sels: seq<Selection>) returns (r: Option<Cals>)
    requires forall k :: k in base ==> k.account != a
    ensures r.Some? <==> DistinctIds(sels)
    ensures r.Some? ==> r.value == WithRows(base, a, sels)
  {
    var cals := base;
    for i := 0 to |sels|
      invariant DistinctIds(sels[..i]) && cals == WithRows(base, a, sels[..i])
    {
      RowThere(base, a, sels, i);
      if CalKey(a, sels[i].id) in cals {
        return None;
      }
      assert sels[..i + 1][..i] == sels[..i];
      cals := cals[CalKey(a, sels[i].id) := Cal(sels[i].name, sels[i].check, sels[i].dest)];
    }
    assert sels[..|sels|] == sels;
    return Some(cals);
  }

  /** SELECT id … WHERE user_id = ? ORDER BY created_at LIMIT 1. */
  method Oldest(conns: Conns, user: string) returns (id: string)
    requires HasRows(conns, user)
    ensures IsOldest(conns, user, id)
  {
    id :| id in conns && conns[id].account.user == user;
    var left := conns.Keys;
    while left != {}
      invariant left <= conns.Keys && id in conns && conns[id].account.user == user
      invariant forall j :: j in conns && j !in left && conns[j].account.user == user ==>
                conns[id].created <= conns[j].created
      decreases |left|
    {
      var j :| j in left;
      left := left - {j};
      if conns[j].account.user == user && conns[j].created < conns[id].created {
        id := j;
      }
    }
  }
}

/** Tenant-bound handles over one shared connection pool (internal/db/handle.go). The pool keeps
    whatever session setting a connection was left with; a handle binds its own workspace
    before each statement, or once inside each transaction. */
module ConnPool {
  import opened Text

  // ---------------------------------------------------------------- handles

  /** binds: a multi-tenant PostgreSQL handle; poisoned: built from an invalid workspace id. */
  datatype Handle = Handle(binds: bool, workspace: string, poisoned: bool)

  predicate IdChar(c: char) {
    'a' <= c <= 'z' || '0' <= c <= '9' || c == '_' || c == '-'
  }

  /** The pattern [a-z0-9_-]{1,64}. */
  predicate ValidWorkspaceID(id: string) {
    1 <= |id| <= 64 && forall i :: 0 <= i < |id| ==> IdChar(id[i])
  }

  const LETTERS := "abcdefghijklmnopqrstuvwxyz"
  const DIGITS := "0123456789"

  predicate Listed(c: char) {
    c in LETTERS || c in DIGITS || c == '_' || c == '-'
  }

  /** Up to sixty-four small letters, digits, underscores and dashes, and at least one. */
  lemma ValidExactly(id: string)
    ensures ValidWorkspaceID(id) <==> 0 < |id| < 65 && forall i :: 0 <= i < |id| ==> Listed(id[i])
  {
    forall i | 0 <= i < |id| ensures IdChar(id[i]) <==> Listed(id[i]) {
      IsLetter(id[i]);
      IsDigit(id[i]);
    }
  }

  lemma IsLetter(c: char)
    ensures 'a' <= c <= 'z' <==> c in LETTERS
  {
    if 'a' <= c <= 'z' {
      assert LETTERS[c as int - 'a' as int] == c;
    }
  }

  lemma IsDigit(c: char)
    ensures '0' <= c <= '9' <==> c in DIGITS
  {
    if '0' <= c <= '9' {
      assert DIGITS[c as int - '0' as int] == c;
    }
  }

  function ForWorkspace(h: Handle, id: string): (r: Handle) {
    if !h.binds then h
    else if !ValidWorkspaceID(id) then h.(poisoned := true)
    else h.(workspace := id, poisoned := false)
  }

  function Scoped(h: Handle, ids: seq<string>): (r: Handle) {
    if ids == [] then h else ForWorkspace(Scoped(h, ids[..|ids| - 1]), ids[|ids| - 1])
  }

  /** Through any chain of ForWorkspace calls only the last id matters: it is the workspace of a
      usable handle, and the handle is poisoned exactly when that id is not a workspace id. A
      handle that does not bind is returned as it is. */
  lemma {:induction false} LastScopeWins(h: Handle, ids: seq<string>)
    requires ids != []
    ensures !h.binds ==> Scoped(h, ids) == h
    ensures h.binds ==> (Scoped(h, ids).poisoned <==> !ValidWorkspaceID(ids[|ids| - 1]))
    ensures h.binds && !Scoped(h, ids).poisoned ==> Scoped(h, ids) == Handle(true, ids[|ids| - 1], false)
    decreases |ids|
  {
    ScopedBinds(h, ids[..|ids| - 1]);
  }

  lemma {:induction false} ScopedBinds(h: Handle, ids: seq<string>)
    ensures Scoped(h, ids).binds == h.binds && (!h.binds ==> Scoped(h, ids) == h)
  {
    if ids != [] {
      ScopedBinds(h, ids[..|ids| - 1]);
    }
  }

  // ---------------------------------------------------------------- the pool as a step system

  type Conn = nat

  /** One statement call or one transaction. */
  type CallId = nat

  datatype Kind = Exec | Query | QueryRow | Begin

  /** Where a call is. Taken: a connection is out of the pool. Ready: it is bound. Open: the
      statement ran and the connection is not back yet. Begun: the transaction is open, not bound.
      InTx: bound for the transaction. Closed: the call holds nothing. */
  datatype Phase =
    | Taken(h: Handle, kind: Kind, c: Conn)
    | Ready(h: Handle, kind: Kind, c: Conn)
    | Open(h: Handle, c: Conn)
    | Begun(h: Handle, c: Conn)
    | InTx(h: Handle, c: Conn)
    | Closed

  /** Ran records a caller's statement and the value of app.workspace_id it ran under. */
  datatype Event =
    | Took(call: CallId, c: Conn)
    | Ran(call: CallId, h: Handle, setting: string)
    | Returned(call: CallId, c: Conn)

  /** session: the session value on each connection; local: the transaction-local value. */
  datatype State = State(idle: set<Conn>, session: map<Conn, string>, local: map<Conn, string>,
                         calls: map<CallId, Phase>, log: seq<Event>)

  datatype Step =
    | Dial(c: Conn, left: string)
    | Leave(c: Conn, left: string)
    | Refuse(call: CallId, h: Handle)
    | Take(call: CallId, h: Handle, kind: Kind, c: Conn)
    | Bind(call: CallId)
    | BindFails(call: CallId, left: string)
    | Run(call: CallId, left: string)
    | Close(call: CallId)
    | BeginFails(call: CallId)
    | BeginTx(call: CallId)
    | BindLocal(call: CallId)
    | BindLocalFails(call: CallId)
    | RunTx(call: CallId)
    | EndTx(call: CallId)

  /** The value a statement on c sees: SET LOCAL hides the session value. */
  function Setting(s: State, c: Conn): (v: string)
    requires c in s.session
  {
    if c in s.local then s.local[c] else s.session[c]
  }

  predicate Holds(p: Phase, c: Conn) {
    !p.Closed? && p.c == c
  }

  predicate Holding(s: State, call: CallId) {
    call in s.calls && !s.calls[call].Closed? && s.calls[call].c in s.session
  }

  predicate Enabled(s: State, step: Step) {
    match step
    case Dial(c, _) => c !in s.session
    case Leave(c, _) => c in s.idle
    case Refuse(call, _) => call !in s.calls
    case Take(call, h, _, c) => call !in s.calls && !h.poisoned && c in s.idle
    case Bind(call) => Holding(s, call) && s.calls[call].Taken? && s.calls[call].kind != Begin
    case BindFails(call, _) => Holding(s, call) && s.calls[call].Taken? && s.calls[call].kind != Begin
    case Run(call, _) => Holding(s, call) && s.calls[call].Ready?
    case Close(call) => Holding(s, call) && s.calls[call].Open?
    case BeginFails(call) => Holding(s, call) && s.calls[call].Taken? && s.calls[call].kind == Begin
    case BeginTx(call) => Holding(s, call) && s.calls[call].Taken? && s.calls[call].kind == Begin
    case BindLocal(call) => Holding(s, call) && s.calls[call].Begun?
    case BindLocalFails(call) => Holding(s, call) && s.calls[call].Begun?
    case RunTx(call) => Holding(s, call) && s.calls[call].InTx?
    case EndTx(call) => Holding(s, call) && s.calls[call].InTx?
  }

  /** conn.Close: the connection goes back with the session value it has. */
  function GiveBack(s: State, call: CallId): (r: State)
    requires Holding(s, call)
  {
    var c := s.calls[call].c;
    s.(idle := s.idle + {c}, calls := s.calls[call := Closed], log := s.log + [Returned(call, c)])
  }

  function Apply(s: State, step: Step): (r: State)
    requires Enabled(s, step)
  {
    match step
    // a new connection, or someone using an idle one around the handles
    case Dial(c, left) => s.(idle := s.idle + {c}, session := s.session[c := left])
    case Leave(c, left) => s.(session := s.session[c := left])
    case Refuse(call, _) => s.(calls := s.calls[call := Closed])
    case Take(call, h, kind, c) =>
      s.(idle := s.idle - {c}, calls := s.calls[call := Taken(h, kind, c)], log := s.log + [Took(call, c)])
    // one statement: set_config for the session, the statement, the connection back
    case Bind(call) =>
      var p := s.calls[call];
      s.(session := s.session[p.c := p.h.workspace], calls := s.calls[call := Ready(p.h, p.kind, p.c)])
    case BindFails(call, left) => GiveBack(s.(session := s.session[s.calls[call].c := left]), call)
    case Run(call, left) =>
      var p := s.calls[call];
      s.(session := s.session[p.c := left], calls := s.calls[call := Open(p.h, p.c)],
         log := s.log + [Ran(call, p.h, Setting(s, p.c))])
    case Close(call) => GiveBack(s, call)
    // one transaction: set_config for the transaction only
    case BeginFails(call) => GiveBack(s, call)
    case BeginTx(call) => s.(calls := s.calls[call := Begun(s.calls[call].h, s.calls[call].c)])
    case BindLocal(call) =>
      var p := s.calls[call];
      s.(local := s.local[p.c := p.h.workspace], calls := s.calls[call := InTx(p.h, p.c)])
    case BindLocalFails(call) => GiveBack(s, call)
    case RunTx(call) => s.(log := s.log + [Ran(call, s.calls[call].h, Setting(s, s.calls[call].c))])
    case EndTx(call) => GiveBack(s.(local := s.local - {s.calls[call].c}), call)
  }

  predicate IsRun(s: State, run: seq<Step>)
    decreases |run|, 0
  {
    run == [] || (IsRun(s, run[..|run| - 1]) && Enabled(After(s, run[..|run| - 1]), run[|run| - 1]))
  }

  function After(s: State, run: seq<Step>): (r: State)
    requires IsRun(s, run)
    decreases |run|, 1
  {
    if run == [] then s else Apply(After(s, run[..|run| - 1]), run[|run| - 1])
  }

  /** A pool that nobody has used yet; its connections carry anything. */
  ghost predicate Initial(s: State) {
    s.idle == s.session.Keys && s.local == map[] && s.calls == map[] && s.log == []
  }

  // ---------------------------------------------------------------- the record of takes and returns

  /** Who has taken c and not returned it. */
  ghost function Owner(log: seq<Event>, c: Conn): (o: Option<CallId>) {
    if log == [] then None
    else
      match log[|log| - 1]
      case Took(x, d) => if d == c then Some(x) else Owner(log[..|log| - 1], c)
      case Returned(x, d) => if d == c then None else Owner(log[..|log| - 1], c)
      case Ran(_, _, _) => Owner(log[..|log| - 1], c)
  }

  /** Every take is of a free connection, every return is by the call that took it. */
  ghost predicate Alternates(log: seq<Event>) {
    log == [] ||
    (var front := log[..|log| - 1];
     Alternates(front) &&
     match log[|log| - 1]
     case Took(x, c) => Owner(front, c) == None
     case Returned(x, c) => Owner(front, c) == Some(x)
     case Ran(_, h, setting) => !h.poisoned && setting == h.workspace)
  }

  function Takes(log: seq<Event>, call: CallId): (n: nat) {
    if log == [] then 0
    else Takes(log[..|log| - 1], call) + if log[|log| - 1].Took? && log[|log| - 1].call == call then 1 else 0
  }

  function Returns(log: seq<Event>, call: CallId): (n: nat) {
    if log == [] then 0
    else Returns(log[..|log| - 1], call) + if log[|log| - 1].Returned? && log[|log| - 1].call == call then 1 else 0
  }

  // ---------------------------------------------------------------- the invariant

  /** What a call in phase p on its own connection relies on. */
  ghost predicate PhaseOk(s: State, p: Phase) {
    !p.Closed? ==>
      && p.c in s.session && p.c !in s.idle && !p.h.poisoned
      && (p.c in s.local <==> p.InTx?)
      && (p.Ready? ==> s.session[p.c] == p.h.workspace)
      && (p.InTx? ==> s.local[p.c] == p.h.workspace)
  }

  ghost predicate HeldBy(s: State, x: CallId, c: Conn) {
    x in s.calls && Holds(s.calls[x], c)
  }

  ghost predicate UnderWay(s: State, x: CallId) {
    x in s.calls && !s.calls[x].Closed?
  }

  /** The connections: each is idle or held by exactly one call, bound as the call needs it. */
  ghost predicate ConnsOk(s: State) {
    && s.idle <= s.session.Keys && s.local.Keys <= s.session.Keys && s.local.Keys !! s.idle
    && (forall x :: x in s.calls ==> PhaseOk(s, s.calls[x]))
    && (forall x, y, c :: HeldBy(s, x, c) && HeldBy(s, y, c) ==> x == y)
    && (forall c :: c in s.session && c !in s.idle ==> exists x :: HeldBy(s, x, c))
  }

  ghost predicate Counted(s: State, call: CallId) {
    && Takes(s.log, call) == Returns(s.log, call) + (if UnderWay(s, call) then 1 else 0)
    && Takes(s.log, call) <= (if call in s.calls then 1 else 0)
  }

  /** The record says who holds what. */
  ghost predicate LogOk(s: State) {
    && Alternates(s.log)
    && (forall x: CallId, c: Conn :: HeldBy(s, x, c) <==> Owner(s.log, c) == Some(x))
    && (forall x :: Counted(s, x))
  }

  ghost predicate Inv(s: State) {
    ConnsOk(s) && LogOk(s)
  }

  // ---------------------------------------------------------------- every step keeps the record

  /** Nobody takes or returns anything; at most a statement is recorded. */
  lemma LogQuiet(s: State, s': State, e: Event)
    requires LogOk(s)
    requires s'.log == s.log || (s'.log == s.log + [e] && e.Ran? && !e.h.poisoned && e.setting == e.h.workspace)
    requires forall x, c :: HeldBy(s', x, c) <==> HeldBy(s, x, c)
    requires forall x :: (x in s.calls ==> x in s'.calls) && (UnderWay(s', x) <==> UnderWay(s, x))
    ensures LogOk(s')
  {
    forall x ensures Counted(s', x) {
      assert Counted(s, x);
    }
    forall c ensures Owner(s'.log, c) == Owner(s.log, c) {
    }
  }

  lemma LogTake(s: State, s': State, call: CallId, c: Conn)
    requires LogOk(s) && call !in s.calls && (forall x :: !HeldBy(s, x, c)) && s'.log == s.log + [Took(call, c)]
    requires forall x, d :: HeldBy(s', x, d) <==> HeldBy(s, x, d) || (x == call && d == c)
    requires forall x :: (x in s'.calls <==> x in s.calls || x == call) &&
                         (UnderWay(s', x) <==> UnderWay(s, x) || x == call)
    ensures LogOk(s')
  {
    assert forall x: CallId :: Owner(s.log, c) != Some(x);
    assert Owner(s.log, c) == None;
    forall x ensures Counted(s', x) {
      assert Counted(s, x);
    }
    forall d ensures Owner(s'.log, d) == if d == c then Some(call) else Owner(s.log, d) {
    }
  }

  lemma LogReturn(s: State, s': State, call: CallId, c: Conn)
    requires LogOk(s) && HeldBy(s, call, c) && s'.log == s.log + [Returned(call, c)]
    requires forall x, d :: HeldBy(s', x, d) <==> HeldBy(s, x, d) && x != call
    requires forall x :: (x in s'.calls <==> x in s.calls) && (UnderWay(s', x) <==> UnderWay(s, x) && x != call)
    requires forall d :: HeldBy(s, call, d) ==> d == c
    ensures LogOk(s')
  {
    forall x ensures Counted(s', x) {
      assert Counted(s, x);
    }
    forall d ensures Owner(s'.log, d) == if d == c then None else Owner(s.log, d) {
    }
    forall x: CallId, d: Conn ensures HeldBy(s', x, d) <==> Owner(s'.log, d) == Some(x) {
      assert HeldBy(s, x, d) <==> Owner(s.log, d) == Some(x);
    }
  }

  // ---------------------------------------------------------------- every step keeps the connections

  /** The settings of every connection but c are as they were. */
  ghost predicate OnlyAt(s: State, s': State, c: Conn) {
    && s'.session.Keys == s.session.Keys
    && (forall d :: d != c && d in s.session ==> s'.session[d] == s.session[d])
    && (forall d :: d != c ==> (d in s'.local <==> d in s.local))
    && (forall d :: d != c && d in s.local ==> s'.local[d] == s.local[d])
  }

  /** A call moves to phase p on the connection it already holds. */
  lemma ConnsMove(s: State, s': State, call: CallId, p: Phase)
    requires ConnsOk(s) && UnderWay(s, call) && !p.Closed? && p.c == s.calls[call].c
    requires s'.calls == s.calls[call := p] && s'.idle == s.idle && OnlyAt(s, s', p.c) && PhaseOk(s', p)
    ensures ConnsOk(s')
    ensures forall x, c :: HeldBy(s', x, c) <==> HeldBy(s, x, c)
  {
    forall x, c ensures HeldBy(s', x, c) <==> HeldBy(s, x, c) {
    }
    assert HeldBy(s, call, p.c);
    forall x | x in s'.calls ensures PhaseOk(s', s'.calls[x]) {
      if x != call && !s.calls[x].Closed? {
        assert PhaseOk(s, s.calls[x]) && HeldBy(s, x, s.calls[x].c);
      }
    }
    forall c | c in s'.session && c !in s'.idle ensures exists x :: HeldBy(s', x, c) {
      var x :| HeldBy(s, x, c);
      assert HeldBy(s', x, c);
    }
  }

  /** A call gives its connection back, having changed at most that connection's settings. */
  lemma ConnsGiveBack(s: State, s': State, call: CallId)
    requires ConnsOk(s) && UnderWay(s, call)
    requires var c := s.calls[call].c;
             s'.idle == s.idle + {c} && s'.calls == s.calls[call := Closed] && OnlyAt(s, s', c) && c !in s'.local
    ensures ConnsOk(s')
    ensures forall x, c :: HeldBy(s', x, c) <==> HeldBy(s, x, c) && x != call
  {
    var c := s.calls[call].c;
    forall x, d ensures HeldBy(s', x, d) <==> HeldBy(s, x, d) && x != call {
    }
    assert HeldBy(s, call, c) && PhaseOk(s, s.calls[call]);
    forall x | x in s'.calls ensures PhaseOk(s', s'.calls[x]) {
      if x != call && !s.calls[x].Closed? {
        assert PhaseOk(s, s.calls[x]) && HeldBy(s, x, s.calls[x].c);
      }
    }
    forall d | d in s'.session && d !in s'.idle ensures exists x :: HeldBy(s', x, d) {
      var x :| HeldBy(s, x, d);
      assert HeldBy(s', x, d);
    }
  }

  lemma KeepGiveBack(s: State, s': State, call: CallId)
    requires Inv(s) && UnderWay(s, call)
    requires var c := s.calls[call].c;
             && s'.idle == s.idle + {c} && s'.calls == s.calls[call := Closed] && OnlyAt(s, s', c) && c !in s'.local
             && s'.log == s.log + [Returned(call, c)]
    ensures Inv(s')
  {
    ConnsGiveBack(s, s', call);
    LogReturn(s, s', call, s.calls[call].c);
  }

  lemma KeepMove(s: State, s': State, call: CallId, p: Phase, e: Event)
    requires Inv(s) && UnderWay(s, call) && !p.Closed? && p.c == s.calls[call].c
    requires s'.calls == s.calls[call := p] && s'.idle == s.idle && OnlyAt(s, s', p.c) && PhaseOk(s', p)
    requires s'.log == s.log || (s'.log == s.log + [e] && e.Ran? && !e.h.poisoned && e.setting == e.h.workspace)
    ensures Inv(s')
  {
    ConnsMove(s, s', call, p);
    LogQuiet(s, s', e);
  }

  /** A step of the pool itself: new or idle connections only. */
  lemma KeepIdle(s: State, step: Step)
    requires Inv(s) && Enabled(s, step) && (step.Dial? || step.Leave?)
    ensures Inv(Apply(s, step))
  {
    var s' := Apply(s, step);
    forall x, c ensures HeldBy(s', x, c) <==> HeldBy(s, x, c) {
    }
    forall x | x in s'.calls ensures PhaseOk(s', s'.calls[x]) {
      assert PhaseOk(s, s.calls[x]);
    }
    forall c | c in s'.session && c !in s'.idle ensures exists x :: HeldBy(s', x, c) {
      var x :| HeldBy(s, x, c);
      assert HeldBy(s', x, c);
    }
    LogQuiet(s, s', Took(0, 0));
  }

  lemma KeepTake(s: State, call: CallId, h: Handle, kind: Kind, c: Conn)
    requires Inv(s) && Enabled(s, Take(call, h, kind, c))
    ensures Inv(Apply(s, Take(call, h, kind, c)))
  {
    var s' := Apply(s, Take(call, h, kind, c));
    forall x, d ensures HeldBy(s', x, d) <==> HeldBy(s, x, d) || (x == call && d == c) {
    }
    forall x ensures !HeldBy(s, x, c) {
      assert x in s.calls ==> PhaseOk(s, s.calls[x]);
    }
    forall x | x in s'.calls ensures PhaseOk(s', s'.calls[x]) {
      assert x != call ==> PhaseOk(s, s.calls[x]);
    }
    forall d | d in s'.session && d !in s'.idle ensures exists x :: HeldBy(s', x, d) {
      if d == c {
        assert HeldBy(s', call, d);
      } else {
        var x :| HeldBy(s, x, d);
        assert HeldBy(s', x, d);
      }
    }
    LogTake(s, s', call, c);
  }

  lemma KeepRefuse(s: State, call: CallId, h: Handle)
    requires Inv(s) && Enabled(s, Refuse(call, h))
    ensures Inv(Apply(s, Refuse(call, h)))
  {
    var s' := Apply(s, Refuse(call, h));
    forall x, c ensures HeldBy(s', x, c) <==> HeldBy(s, x, c) {
    }
    forall x | x in s'.calls ensures PhaseOk(s', s'.calls[x]) {
      assert x != call ==> PhaseOk(s, s.calls[x]);
    }
    forall c | c in s'.session && c !in s'.idle ensures exists x :: HeldBy(s', x, c) {
      var x :| HeldBy(s, x, c);
      assert HeldBy(s', x, c);
    }
    LogQuiet(s, s', Took(0, 0));
  }

  lemma KeepBind(s: State, call: CallId)
    requires Inv(s) && Enabled(s, Bind(call))
    ensures Inv(Apply(s, Bind(call)))
  {
    var p := s.calls[call];
    assert PhaseOk(s, p);
    KeepMove(s, Apply(s, Bind(call)), call, Ready(p.h, p.kind, p.c), Took(0, 0));
  }

  lemma KeepRunStep(s: State, call: CallId, left: string)
    requires Inv(s) && Enabled(s, Run(call, left))
    ensures Inv(Apply(s, Run(call, left)))
  {
    var p := s.calls[call];
    assert PhaseOk(s, p);
    KeepMove(s, Apply(s, Run(call, left)), call, Open(p.h, p.c), Ran(call, p.h, p.h.workspace));
  }

  lemma KeepBeginTx(s: State, call: CallId)
    requires Inv(s) && Enabled(s, BeginTx(call))
    ensures Inv(Apply(s, BeginTx(call)))
  {
    var p := s.calls[call];
    assert PhaseOk(s, p);
    KeepMove(s, Apply(s, BeginTx(call)), call, Begun(p.h, p.c), Took(0, 0));
  }

  lemma KeepBindLocal(s: State, call: CallId)
    requires Inv(s) && Enabled(s, BindLocal(call))
    ensures Inv(Apply(s, BindLocal(call)))
  {
    var p := s.calls[call];
    assert PhaseOk(s, p);
    KeepMove(s, Apply(s, BindLocal(call)), call, InTx(p.h, p.c), Took(0, 0));
  }

  lemma KeepRunTx(s: State, call: CallId)
    requires Inv(s) && Enabled(s, RunTx(call))
    ensures Inv(Apply(s, RunTx(call)))
  {
    var p := s.calls[call];
    assert PhaseOk(s, p) && s.calls == s.calls[call := p];
    KeepMove(s, Apply(s, RunTx(call)), call, p, Ran(call, p.h, p.h.workspace));
  }

  lemma KeepEnd(s: State, step: Step)
    requires Inv(s) && Enabled(s, step)
    requires step.BindFails? || step.Close? || step.BeginFails? || step.BindLocalFails? || step.EndTx?
    ensures Inv(Apply(s, step))
  {
    assert PhaseOk(s, s.calls[step.call]);
    KeepGiveBack(s, Apply(s, step), step.call);
  }

  lemma KeepStep(s: State, step: Step)
    requires Inv(s) && Enabled(s, step)
    ensures Inv(Apply(s, step))
  {
    match step
    case Dial(_, _) => KeepIdle(s, step);
    case Leave(_, _) => KeepIdle(s, step);
    case Refuse(call, h) => KeepRefuse(s, call, h);
    case Take(call, h, kind, c) => KeepTake(s, call, h, kind, c);
    case Bind(call) => KeepBind(s, call);
    case Run(call, left) => KeepRunStep(s, call, left);
    case BeginTx(call) => KeepBeginTx(s, call);
    case BindLocal(call) => KeepBindLocal(s, call);
    case RunTx(call) => KeepRunTx(s, call);
    case _ => KeepEnd(s, step);
  }

  lemma {:induction false} KeepRun(s: State, run: seq<Step>)
    requires Initial(s) && IsRun(s, run)
    ensures Inv(After(s, run))
    decreases |run|
  {
    if run != [] {
      KeepRun(s, run[..|run| - 1]);
      KeepStep(After(s, run[..|run| - 1]), run[|run| - 1]);
    }
  }

  /** A state some interleaving of steps leads to. */
  ghost predicate Reachable(s: State) {
    exists start, run :: Leads(start, run, s)
  }

  ghost predicate Leads(start: State, run: seq<Step>, s: State) {
    Initial(start) && IsRun(start, run) && s == After(start, run)
  }

  lemma ReachableStep(s: State, step: Step)
    requires Reachable(s) && Enabled(s, step)
    ensures Reachable(Apply(s, step))
  {
    var start, run :| Leads(start, run, s);
    assert (run + [step])[..|run|] == run;
    assert Leads(start, run + [step], Apply(s, step));
  }

  lemma ReachableInv(s: State)
    requires Reachable(s)
    ensures Inv(s)
  {
    var start, run :| Leads(start, run, s);
    KeepRun(start, run);
  }

  // ---------------------------------------------------------------- what follows for every interleaving

  lemma {:induction false} RanBound(log: seq<Event>, i: nat)
    requires Alternates(log) && i < |log| && log[i].Ran?
    ensures !log[i].h.poisoned && log[i].setting == log[i].h.workspace
    decreases |log|
  {
    if i < |log| - 1 {
      RanBound(log[..|log| - 1], i);
    }
  }

  /** Every statement any call ran saw the workspace of its own handle, whatever was left on its
      connection, and no poisoned handle ran one. */
  lemma {:induction false} StatementsRunBound(s: State, run: seq<Step>, i: nat)
    requires Initial(s) && IsRun(s, run) && i < |After(s, run).log| && After(s, run).log[i].Ran?
    ensures After(s, run).log[i].setting == After(s, run).log[i].h.workspace
    ensures !After(s, run).log[i].h.poisoned
  {
    KeepRun(s, run);
    RanBound(After(s, run).log, i);
  }

  /** Each call takes at most one connection, and has returned it exactly once when it is over;
      while it is under way it is the only holder. */
  lemma {:induction false} ReturnedExactlyOnce(s: State, run: seq<Step>, call: CallId)
    requires Initial(s) && IsRun(s, run)
    ensures var e := After(s, run);
            && Returns(e.log, call) <= Takes(e.log, call) <= 1
            && (call in e.calls && e.calls[call].Closed? ==> Returns(e.log, call) == Takes(e.log, call))
            && (call in e.calls && !e.calls[call].Closed? ==> Owner(e.log, e.calls[call].c) == Some(call))
  {
    KeepRun(s, run);
    var e := After(s, run);
    assert Counted(e, call);
    assert UnderWay(e, call) ==> HeldBy(e, call, e.calls[call].c);
  }

  /** Conservation: a connection is idle or held by a call under way, never both; with every
      call over the whole pool is idle. */
  lemma {:induction false} NothingLeaks(s: State, run: seq<Step>, c: Conn)
    requires Initial(s) && IsRun(s, run) && c in After(s, run).session
    ensures var e := After(s, run);
            c !in e.idle <==> exists call :: HeldBy(e, call, c)
    ensures var e := After(s, run);
            (forall call :: !UnderWay(e, call)) ==> c in e.idle
  {
    KeepRun(s, run);
    var e := After(s, run);
    if call :| HeldBy(e, call, c) {
      assert PhaseOk(e, e.calls[call]) && UnderWay(e, call);
    }
  }
}

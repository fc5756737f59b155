/** The statement methods of a tenant-bound handle, and the Rows, Row and Tx they return, as
    imperative code over the pool (internal/db/handle.go). Every method only takes steps of the
    step system in ConnPool, so what is proved there of every interleaving holds of this code. */
module PoolHandles {
  import opened Text
  import opened ConnPool

  /** What the pool and the server answer to one call: the connection handed out, whether the
      bind, the begin and the statement succeed, and what the statement or a failed bind leaves
      in the session. */
  datatype Env = Env(conn: Option<Conn>, beginOk: bool, bindOk: bool, runOk: bool, left: string)

  class Pool {
    var s: State

    constructor (s: State)
      requires Initial(s)
      ensures Valid() && this.s == s
    {
      this.s := s;
      assert Leads(s, [], s);
    }

    /** The pool is in a state the step system reaches. */
    ghost predicate Valid()
      reads this
    {
      Reachable(s)
    }

    lemma IdleKnown()
      requires Valid()
      ensures s.idle <= s.session.Keys
    {
      ReachableInv(s);
    }

    lemma CallBound(call: CallId)
      requires Valid() && call in s.calls
      ensures PhaseOk(s, s.calls[call])
    {
      ReachableInv(s);
    }

    method Do(step: Step)
      requires Valid() && Enabled(s, step)
      modifies this
      ensures Valid() && s == Apply(old(s), step)
    {
      ReachableStep(s, step);
      s := Apply(s, step);
    }

    /** Refuse a call: nothing is taken. */
    method Decline(call: CallId, h: Handle)
      requires Valid() && call !in s.calls
      modifies this
      ensures Valid() && s == old(s).(calls := old(s.calls)[call := Closed])
    {
      Do(Refuse(call, h));
    }

    /** sql.DB.Conn: a connection out of the pool. */
    method TakeConn(call: CallId, h: Handle, kind: Kind, c: Conn)
      requires Valid() && call !in s.calls && !h.poisoned && c in s.idle
      modifies this
      ensures Valid() && c in old(s.session)
      ensures s == old(s).(idle := old(s.idle) - {c}, calls := old(s.calls)[call := Taken(h, kind, c)],
                           log := old(s.log) + [Took(call, c)])
    {
      IdleKnown();
      Do(Take(call, h, kind, c));
    }
  }

  // ---------------------------------------------------------------- taking and binding

  ghost predicate Callable(p: Pool, h: Handle, call: CallId, env: Env)
    reads p
  {
    p.Valid() && h.binds && call !in p.s.calls && (env.conn.Some? ==> env.conn.value in p.s.idle)
  }

  /** bindConn, after the check for a poisoned handle. On failure nothing is held. */
  method BindConn(p: Pool, h: Handle, kind: Kind, call: CallId, env: Env) returns (conn: Option<Conn>)
    requires Callable(p, h, call, env) && !h.poisoned && kind != Begin
    modifies p
    ensures p.Valid() && (conn.Some? <==> env.conn.Some? && env.bindOk)
    ensures conn.Some? ==>
              && conn == env.conn && p.s.idle == old(p.s.idle) - {conn.value}
              && p.s.calls == old(p.s.calls)[call := Ready(h, kind, conn.value)]
              && p.s.log == old(p.s.log) + [Took(call, conn.value)]
    ensures conn.None? ==>
              && p.s.idle == old(p.s.idle) && p.s.calls == old(p.s.calls)[call := Closed]
              && p.s.log == old(p.s.log) + if env.conn.None? then []
                                           else [Took(call, env.conn.value), Returned(call, env.conn.value)]
  {
    if env.conn.None? {
      p.Decline(call, h);
      return None;
    }
    var c := env.conn.value;
    p.TakeConn(call, h, kind, c);
    var ok := SetSession(p, h, kind, call, c, env);
    if !ok {
      assert old(p.s.idle) - {c} + {c} == old(p.s.idle);
      return None;
    }
    return Some(c);
  }

  /** set_config for the session, on the connection just taken; a failure gives it back. */
  method SetSession(p: Pool, h: Handle, kind: Kind, call: CallId, c: Conn, env: Env) returns (ok: bool)
    requires p.Valid() && call in p.s.calls && p.s.calls[call] == Taken(h, kind, c) && kind != Begin
    modifies p
    ensures p.Valid() && ok == env.bindOk
    ensures ok ==>
              && p.s.idle == old(p.s.idle) && p.s.calls == old(p.s.calls)[call := Ready(h, kind, c)]
              && p.s.log == old(p.s.log)
    ensures !ok ==>
              && p.s.idle == old(p.s.idle) + {c} && p.s.calls == old(p.s.calls)[call := Closed]
              && p.s.log == old(p.s.log) + [Returned(call, c)]
  {
    p.CallBound(call);
    if env.bindOk {
      p.Do(Bind(call));
    } else {
      p.Do(BindFails(call, env.left));
    }
    ok := env.bindOk;
  }

  /** Running the statement on the connection bound for it. */
  method RunBound(p: Pool, h: Handle, kind: Kind, call: CallId, c: Conn, left: string)
    requires p.Valid() && call in p.s.calls && p.s.calls[call] == Ready(h, kind, c)
    modifies p
    ensures p.Valid() && p.s.idle == old(p.s.idle) && p.s.calls == old(p.s.calls)[call := Open(h, c)]
    ensures p.s.log == old(p.s.log) + [Ran(call, h, h.workspace)]
  {
    p.CallBound(call);
    p.Do(Run(call, left));
  }

  method CloseConn(p: Pool, call: CallId, ghost h: Handle, c: Conn)
    requires p.Valid() && call in p.s.calls && p.s.calls[call] == Open(h, c)
    modifies p
    ensures p.Valid() && p.s.idle == old(p.s.idle) + {c} && p.s.calls == old(p.s.calls)[call := Closed]
    ensures p.s.log == old(p.s.log) + [Returned(call, c)]
  {
    p.CallBound(call);
    p.Do(Close(call));
  }

  // ---------------------------------------------------------------- Exec

  /** ExecContext: the connection is back when it returns, on every path. */
  method ExecContext(p: Pool, h: Handle, call: CallId, env: Env) returns (ok: bool)
    requires Callable(p, h, call, env)
    modifies p
    ensures p.Valid() && p.s.idle == old(p.s.idle) && p.s.calls == old(p.s.calls)[call := Closed]
    ensures ok <==> !h.poisoned && env.conn.Some? && env.bindOk && env.runOk
    ensures p.s.log == old(p.s.log) + StatementLog(h, call, env)
  {
    if h.poisoned {
      p.Decline(call, h);
      return false;
    }
    var conn := BindConn(p, h, Exec, call, env);
    if conn.None? {
      return false;
    }
    RunBound(p, h, Exec, call, conn.value, env.left);
    CloseConn(p, call, h, conn.value);
    ok := env.runOk;
  }

  /** What one statement call records in all, its connection returned. */
  ghost function StatementLog(h: Handle, call: CallId, env: Env): (log: seq<Event>) {
    if h.poisoned || env.conn.None? then []
    else if !env.bindOk then [Took(call, env.conn.value), Returned(call, env.conn.value)]
    else [Took(call, env.conn.value), Ran(call, h, h.workspace), Returned(call, env.conn.value)]
  }

  // ---------------------------------------------------------------- Query and QueryRow

  /** A result that owns the connection its statement ran on until it is released. */
  class Rows {
    var conn: Option<Conn>
    const call: CallId
    ghost const h: Handle

    constructor (call: CallId, conn: Option<Conn>, ghost h: Handle)
      ensures this.call == call && this.conn == conn && this.h == h
    {
      this.call, this.conn, this.h := call, conn, h;
    }

    ghost predicate Valid(p: Pool)
      reads this, p
    {
      p.Valid() && (conn.Some? ==> call in p.s.calls && p.s.calls[call] == Open(h, conn.value))
    }

    /** Rows.Close, and the release behind Row.Scan and Row.Err: the first one returns the
        connection, the others do nothing. */
    method Release(p: Pool)
      requires Valid(p)
      modifies this, p
      ensures Valid(p) && conn == None
      ensures old(conn).None? ==> p.s == old(p.s)
      ensures old(conn).Some? ==>
                && p.s.idle == old(p.s.idle) + {old(conn).value}
                && p.s.calls == old(p.s.calls)[call := Closed]
                && p.s.log == old(p.s.log) + [Returned(call, old(conn).value)]
    {
      if conn.Some? {
        CloseConn(p, call, h, conn.value);
        conn := None;
      }
    }
  }

  /** QueryContext: an error holds nothing; success holds the connection until Close. */
  method QueryContext(p: Pool, h: Handle, call: CallId, env: Env) returns (rows: Rows?)
    requires Callable(p, h, call, env)
    modifies p
    ensures p.Valid() && (rows != null <==> !h.poisoned && env.conn.Some? && env.bindOk && env.runOk)
    ensures rows == null ==> p.s.idle == old(p.s.idle) && p.s.log == old(p.s.log) + StatementLog(h, call, env)
    ensures rows != null ==>
              && fresh(rows) && rows.Valid(p) && rows.conn == env.conn && rows.call == call
              && p.s.idle == old(p.s.idle) - {env.conn.value}
              && p.s.log == old(p.s.log) + [Took(call, env.conn.value), Ran(call, h, h.workspace)]
  {
    if h.poisoned {
      p.Decline(call, h);
      return null;
    }
    var conn := BindConn(p, h, Query, call, env);
    if conn.None? {
      return null;
    }
    RunBound(p, h, Query, call, conn.value, env.left);
    if !env.runOk {
      CloseConn(p, call, h, conn.value);
      return null;
    }
    rows := new Rows(call, conn, h);
  }

  /** QueryRowContext: the row always comes back; it holds a connection unless binding failed,
      and its first Scan or Err returns it. */
  method QueryRowContext(p: Pool, h: Handle, call: CallId, env: Env) returns (row: Rows)
    requires Callable(p, h, call, env)
    modifies p
    ensures fresh(row) && row.Valid(p) && row.call == call
    ensures row.conn == if !h.poisoned && env.bindOk then env.conn else None
    ensures row.conn.None? ==> p.s.idle == old(p.s.idle) && p.s.log == old(p.s.log) + StatementLog(h, call, env)
    ensures row.conn.Some? ==>
              && p.s.idle == old(p.s.idle) - {env.conn.value}
              && p.s.log == old(p.s.log) + [Took(call, env.conn.value), Ran(call, h, h.workspace)]
  {
    if h.poisoned {
      p.Decline(call, h);
      row := new Rows(call, None, h);
      return;
    }
    var conn := BindConn(p, h, QueryRow, call, env);
    if conn.Some? {
      RunBound(p, h, QueryRow, call, conn.value, env.left);
    }
    row := new Rows(call, conn, h);
  }

  // ---------------------------------------------------------------- transactions

  class Tx {
    var conn: Option<Conn>
    const call: CallId
    const workspace: string
    ghost const h: Handle

    constructor (call: CallId, conn: Option<Conn>, workspace: string, ghost h: Handle)
      ensures this.call == call && this.conn == conn && this.workspace == workspace && this.h == h
    {
      this.call, this.conn, this.workspace, this.h := call, conn, workspace, h;
    }

    ghost predicate Valid(p: Pool)
      reads this, p
    {
      && p.Valid() && workspace == h.workspace
      && (conn.Some? ==> call in p.s.calls && p.s.calls[call] == InTx(h, conn.value))
    }

    /** A statement of the transaction; after the end it is refused. */
    method ExecContext(p: Pool) returns (ok: bool)
      requires Valid(p)
      modifies p
      ensures Valid(p) && (ok <==> conn.Some?) && p.s.idle == old(p.s.idle) && p.s.calls == old(p.s.calls)
      ensures p.s.log == old(p.s.log) + if ok then [Ran(call, h, workspace)] else []
    {
      if conn.None? {
        return false;
      }
      p.CallBound(call);
      p.Do(RunTx(call));
      return true;
    }

    /** Commit or Rollback: the first ends the transaction and returns the connection with its
        session value untouched; a deferred Rollback after it changes nothing. */
    method End(p: Pool) returns (ok: bool)
      requires Valid(p)
      modifies this, p
      ensures Valid(p) && conn == None && (ok <==> old(conn).Some?)
      ensures !ok ==> p.s == old(p.s)
      ensures ok ==>
                && p.s.idle == old(p.s.idle) + {old(conn).value} && p.s.session == old(p.s.session)
                && p.s.local == old(p.s.local) - {old(conn).value}
                && p.s.calls == old(p.s.calls)[call := Closed]
                && p.s.log == old(p.s.log) + [Returned(call, old(conn).value)]
    {
      if conn.None? {
        return false;
      }
      p.CallBound(call);
      p.Do(EndTx(call));
      conn := None;
      return true;
    }
  }

  /** BeginTx: on each error path the connection is back before the error is returned. */
  method BeginTransaction(p: Pool, h: Handle, call: CallId, env: Env) returns (tx: Tx?)
    requires Callable(p, h, call, env)
    modifies p
    ensures p.Valid() && (tx != null <==> !h.poisoned && env.conn.Some? && env.beginOk && env.bindOk)
    ensures p.s.session == old(p.s.session)
    ensures tx == null ==>
              && p.s.idle == old(p.s.idle) && p.s.calls == old(p.s.calls)[call := Closed]
              && p.s.log == old(p.s.log) + if h.poisoned || env.conn.None? then []
                                           else [Took(call, env.conn.value), Returned(call, env.conn.value)]
    ensures tx != null ==>
              && fresh(tx) && tx.Valid(p) && tx.conn == env.conn && tx.call == call && tx.h == h
              && p.s.idle == old(p.s.idle) - {env.conn.value} && p.s.log == old(p.s.log) + [Took(call, env.conn.value)]
  {
    if h.poisoned || env.conn.None? {
      p.Decline(call, h);
      return null;
    }
    var c := env.conn.value;
    p.TakeConn(call, h, Begin, c);
    var ok := BeginBound(p, h, call, c, env);
    if !ok {
      assert old(p.s.idle) - {c} + {c} == old(p.s.idle);
      return null;
    }
    tx := new Tx(call, Some(c), h.workspace, h);
  }

  /** Begin on the connection just taken and set_config for the transaction; a failure of
      either unwinds and gives the connection back. */
  method BeginBound(p: Pool, h: Handle, call: CallId, c: Conn, env: Env) returns (ok: bool)
    requires p.Valid() && call in p.s.calls && p.s.calls[call] == Taken(h, Begin, c)
    modifies p
    ensures p.Valid() && p.s.session == old(p.s.session) && (ok <==> env.beginOk && env.bindOk)
    ensures ok ==>
              && p.s.idle == old(p.s.idle) && p.s.calls == old(p.s.calls)[call := InTx(h, c)]
              && p.s.log == old(p.s.log)
    ensures !ok ==>
              && p.s.idle == old(p.s.idle) + {c} && p.s.calls == old(p.s.calls)[call := Closed]
              && p.s.log == old(p.s.log) + [Returned(call, c)]
  {
    p.CallBound(call);
    if !env.beginOk {
      p.Do(BeginFails(call));
      return false;
    }
    p.Do(ConnPool.Step.BeginTx(call));
    if env.bindOk {
      p.Do(BindLocal(call));
    } else {
      p.Do(BindLocalFails(call));
    }
    ok := env.bindOk;
  }
}

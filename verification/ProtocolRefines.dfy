/** The two models of Create agree: a transaction of the concurrent protocol that decides on
    unchanging rows seats exactly whom the serial service seats (internal/booking/service.go). */
module ProtocolRefines {
  import opened HostLock
  import opened BookingProtocol
  import opened BookingService
  import Rotation

  /** The hosts that must all be free before the others are looked at. */
  function MustBeFree(p: Params): (r: seq<HostId>) {
    if p.roundRobin then p.required else p.hostIds
  }

  /** The optional hosts looked at so far. */
  function SoFar(p: Params, n: nat): (r: Params)
    requires n <= |p.optional|
  {
    p.(optional := p.optional[..n])
  }

  /** What a Create has found, at each of its host loops, on these rows. */
  ghost predicate Deciding(db: Db, cals: set<CalendarRow>, tx: Tx) {
    && tx.op.Create? && tx.op.p.hostIds != [] && tx.start == tx.op.p.start && tx.end == tx.op.p.end
    && var p := tx.op.p;
       match tx.pc
       case Checking(Fixed, rest) =>
         && tx.attending + rest == MustBeFree(p) && tx.free == []
         && AllFree(db, cals, tx.attending, p.start, p.end, "")
       case Checking(Pool, rest) =>
         && p.roundRobin && tx.attending == p.required && AllFree(db, cals, p.required, p.start, p.end, "")
         && |rest| <= |p.hostIds| && rest == p.hostIds[|p.hostIds| - |rest|..]
         && tx.free == FreeOf(db, cals, p, p.hostIds[..|p.hostIds| - |rest|])
       case Checking(Optional, rest) =>
         && Seatable(db, cals, p) && IsChosen(db, cals, p, tx.chosen)
         && |rest| <= |p.optional| && rest == p.optional[|p.optional| - |rest|..]
         && Attends(db, cals, SoFar(p, |p.optional| - |rest|), tx.chosen, tx.attending)
       case Writing =>
         Seatable(db, cals, p) && IsChosen(db, cals, p, tx.chosen) && Attends(db, cals, p, tx.chosen, tx.attending)
       case _ => false
  }

  lemma StartsDeciding(db: Db, cals: set<CalendarRow>, tx: Tx)
    requires tx.pc.Locking? && tx.op.Create? && tx.op.p.hostIds != [] && tx.attending == [] && tx.free == []
    requires tx.start == tx.op.p.start && tx.end == tx.op.p.end
    ensures Deciding(db, cals, AfterLocks(tx))
  {
    assert [] + MustBeFree(tx.op.p) == MustBeFree(tx.op.p);
  }

  /** One of the fixed hosts: a busy one ends the transaction. */
  lemma FixedCheck(k: Keys, s: State, t: TxId)
    requires Enabled(k, s, Check(t)) && Deciding(s.db, s.cals, s.txs[t]) && s.txs[t].pc.stage == Fixed
    ensures Decides(s, Apply(k, s, Check(t)), t)
  {
    var tx := s.txs[t];
    var h := tx.pc.rest[0];
    assert tx.attending + tx.pc.rest == (tx.attending + [h]) + tx.pc.rest[1..];
    assert MustBeFree(tx.op.p)[|tx.attending|] == h;
  }

  /** After the step t is still deciding, or it is over and the request cannot be seated. */
  ghost predicate Decides(s: State, s': State, t: TxId)
    requires t in s.txs && s.txs[t].op.Create?
  {
    && s'.db == s.db && s'.cals == s.cals
    && if t in s'.txs then s'.txs[t].op == s.txs[t].op && Deciding(s.db, s.cals, s'.txs[t])
       else !Seatable(s.db, s.cals, s.txs[t].op.p)
  }

  lemma PoolCheck(k: Keys, s: State, t: TxId)
    requires Enabled(k, s, Check(t)) && Deciding(s.db, s.cals, s.txs[t]) && s.txs[t].pc.stage == Pool
    ensures Decides(s, Apply(k, s, Check(t)), t)
  {
    var tx := s.txs[t];
    var p, n := tx.op.p, |tx.op.p.hostIds| - |tx.pc.rest|;
    assert p.hostIds[n..][0] == p.hostIds[n] && p.hostIds[n..][1..] == p.hostIds[n + 1..];
    assert p.hostIds[..n + 1][..n] == p.hostIds[..n] && p.hostIds[..n + 1][n] == p.hostIds[n];
  }

  lemma OptionalCheck(k: Keys, s: State, t: TxId)
    requires Enabled(k, s, Check(t)) && Deciding(s.db, s.cals, s.txs[t]) && s.txs[t].pc.stage == Optional
    ensures Decides(s, Apply(k, s, Check(t)), t)
  {
    var tx := s.txs[t];
    var p, n := tx.op.p, |tx.op.p.optional| - |tx.pc.rest|;
    assert p.optional[n..][0] == p.optional[n] && p.optional[n..][1..] == p.optional[n + 1..];
    OneMoreOptional(s.db, s.cals, p, n, tx.chosen, tx.attending);
  }

  lemma OneMoreOptional(db: Db, cals: set<CalendarRow>, p: Params, n: nat, chosen: HostId, attending: seq<HostId>)
    requires n < |p.optional| && Attends(db, cals, SoFar(p, n), chosen, attending)
    ensures var h := p.optional[n];
            Attends(db, cals, SoFar(p, n + 1), chosen,
                    if h in attending || !Free(db, cals, p, h) then attending else attending + [h])
  {
    var h := p.optional[n];
    var more := if h in attending || !Free(db, cals, p, h) then attending else attending + [h];
    var fixed := FixedHosts(p, chosen);
    forall x ensures x in more <==> x in fixed || (x in p.optional[..n + 1] && Free(db, cals, p, x)) {
      assert p.optional[..n + 1] == p.optional[..n] + [h];
      assert x in more <==> x in attending || (x == h && Free(db, cals, p, h));
    }
    AppendsFixed(fixed, attending, more);
  }

  /** Appending someone new keeps the fixed hosts in front and nobody twice behind them. */
  lemma AppendsFixed(fixed: seq<HostId>, attending: seq<HostId>, more: seq<HostId>)
    requires |fixed| <= |attending| && attending[..|fixed|] == fixed
    requires forall i, j :: |fixed| <= j < |attending| && 0 <= i < j ==> attending[i] != attending[j]
    requires more == attending || exists h :: h !in attending && more == attending + [h]
    ensures |fixed| <= |more| && more[..|fixed|] == fixed
    ensures forall i, j :: |fixed| <= j < |more| && 0 <= i < j ==> more[i] != more[j]
  {
    if more != attending {
      assert more[..|fixed|] == attending[..|fixed|];
      assert forall i :: 0 <= i < |attending| ==> more[i] in attending;
    }
  }

  /** The fixed hosts are all free. */
  lemma FixedAdvance(k: Keys, s: State, t: TxId)
    requires Enabled(k, s, Advance(t)) && Deciding(s.db, s.cals, s.txs[t]) && s.txs[t].pc.stage == Fixed
    ensures Decides(s, Apply(k, s, Advance(t)), t)
  {
    var tx := s.txs[t];
    var p := tx.op.p;
    assert tx.attending + [] == tx.attending;
    if p.roundRobin {
      assert p.hostIds[..0] == [] && p.hostIds[0..] == p.hostIds;
    } else {
      NobodyOptional(s.db, s.cals, p, p.hostIds[0]);
      assert p.optional[0..] == p.optional;
    }
  }

  lemma PoolSeatable(db: Db, cals: set<CalendarRow>, p: Params)
    requires p.roundRobin && AllFree(db, cals, p.required, p.start, p.end, "")
    ensures Seatable(db, cals, p) <==> FreeOf(db, cals, p, p.hostIds) != []
  {
    var free := FreeOf(db, cals, p, p.hostIds);
    if free != [] {
      FreeOfElements(db, cals, p, p.hostIds, free[0]);
    }
    if i :| 0 <= i < |p.hostIds| && Free(db, cals, p, p.hostIds[i]) {
      FreeOfElements(db, cals, p, p.hostIds, p.hostIds[i]);
    }
  }

  lemma PoolChosen(db: Db, cals: set<CalendarRow>, p: Params, free: seq<HostId>)
    requires p.roundRobin && free == FreeOf(db, cals, p, p.hostIds) && free != []
    ensures IsChosen(db, cals, p, Rotation.PickRotationHost(LoadMap(db, p, free), p.priority, free))
  {
    Rotation.PickIsFirstOrLeast(LoadMap(db, p, free), p.priority, free);
  }

  lemma NobodyOptional(db: Db, cals: set<CalendarRow>, p: Params, chosen: HostId)
    ensures Attends(db, cals, SoFar(p, 0), chosen, FixedHosts(p, chosen))
  {
    var fixed := FixedHosts(p, chosen);
    assert fixed[..|fixed|] == fixed && p.optional[..0] == [];
  }

  /** The rotation picks among the free hosts of the pool, if there are any. */
  lemma PoolAdvance(k: Keys, s: State, t: TxId)
    requires Enabled(k, s, Advance(t)) && Deciding(s.db, s.cals, s.txs[t]) && s.txs[t].pc.stage == Pool
    ensures Decides(s, Apply(k, s, Advance(t)), t)
  {
    var tx := s.txs[t];
    var p := tx.op.p;
    assert p.hostIds[..|p.hostIds|] == p.hostIds;
    PoolSeatable(s.db, s.cals, p);
    if tx.free != [] {
      PoolChosen(s.db, s.cals, p, tx.free);
      NobodyOptional(s.db, s.cals, p, Rotation.PickRotationHost(LoadMap(s.db, p, tx.free), p.priority, tx.free));
      assert p.optional[0..] == p.optional;
    }
  }

  lemma OptionalAdvance(k: Keys, s: State, t: TxId)
    requires Enabled(k, s, Advance(t)) && Deciding(s.db, s.cals, s.txs[t]) && s.txs[t].pc.stage == Optional
    ensures Decides(s, Apply(k, s, Advance(t)), t)
  {
    var p := s.txs[t].op.p;
    assert p.optional[..|p.optional|] == p.optional && SoFar(p, |p.optional|) == p;
  }

  ghost predicate OwnSteps(run: seq<Step>, t: TxId) {
    forall i :: 0 <= i < |run| ==> run[i] == Check(t) || run[i] == Advance(t)
  }

  lemma DecideStep(k: Keys, s: State, t: TxId, step: Step)
    requires t in s.txs && Deciding(s.db, s.cals, s.txs[t]) && Enabled(k, s, step)
    requires step == Check(t) || step == Advance(t)
    ensures Decides(s, Apply(k, s, step), t)
  {
    var stage := s.txs[t].pc.stage;
    if step.Check? {
      match stage
      case Fixed => FixedCheck(k, s, t);
      case Pool => PoolCheck(k, s, t);
      case Optional => OptionalCheck(k, s, t);
    } else {
      match stage
      case Fixed => FixedAdvance(k, s, t);
      case Pool => PoolAdvance(k, s, t);
      case Optional => OptionalAdvance(k, s, t);
    }
  }

  lemma OverIsOver(k: Keys, s: State, run: seq<Step>, t: TxId)
    requires t !in s.txs && IsRun(k, s, run) && OwnSteps(run, t)
    ensures run == []
  {
  }

  /** However far the host loops get on unchanging rows, a Create is over only if the request cannot
      be seated, and about to write only with the primary host and the hosts the service seats. */
  lemma {:induction false} CreateDecides(k: Keys, s: State, run: seq<Step>, t: TxId)
    requires t in s.txs && Deciding(s.db, s.cals, s.txs[t]) && IsRun(k, s, run) && OwnSteps(run, t)
    ensures Decides(s, After(k, s, run), t)
    decreases |run|
  {
    if run != [] {
      DecideStep(k, s, t, run[0]);
      var s' := Apply(k, s, run[0]);
      if t in s'.txs {
        CreateDecides(k, s', run[1..], t);
      } else {
        OverIsOver(k, s', run[1..], t);
      }
    }
  }
}

/** No account and no bank balance is ever negative, if no script mentions a negative amount. */
module Solvency {
  import opened Sums
  import opened RwLock
  import opened SequentialBank
  import opened Machine
  import opened Control
  import opened Locking
  import opened Debts
  import opened Local
  import opened Books
  import opened Serial
  import opened Order
  import opened Sweeps
  import opened Money
  import opened Linearization

  predicate DecentScripts(s: State) {
    forall n, i | n in s.script && 0 <= i < |s.script[n]| :: Decent(s.script[n][i])
  }

  // ---------- the log is decent ----------

  lemma {:induction false} LoggedInLogOf(log: seq<Line>, i: nat)
    requires i < |log| && log[i].AtmLine?
    ensures log[i].cmd in LogOf(log, log[i].atm)
  {
    var k := |log| - 1;
    if i < k { LoggedInLogOf(log[..k], i); }
  }

  lemma {:induction false} FeeInFeeLines(log: seq<Line>, i: nat)
    requires i < |log| && log[i].FeeLine?
    ensures log[i] in FeeLines(log)
  {
    var k := |log| - 1;
    if i < k { FeeInFeeLines(log[..k], i); }
  }

  lemma {:induction false} ChargesDecent(rounds: seq<Round>, line: Line)
    requires forall i | 0 <= i < |rounds| :: GoodRound(rounds[i])
    requires line in AllCharges(rounds)
    ensures DecentLine(line)
  {
    var k := |rounds| - 1;
    if line in AllCharges(rounds[..k]) {
      ChargesDecent(rounds[..k], line);
    } else {
      assert line in Charges(rounds[k].rate, rounds[k].rows);
    }
  }

  lemma CurrentDecent(th: Thread, line: Line)
    requires th.job.FeeRound? || th.pc.Rest? || th.pc.Halted?
    requires RateFits(th) && line in Current(th)
    ensures DecentLine(line)
  {
  }

  lemma FeeLineDecent(s: State, i: nat)
    requires FullInv(s) && i < |s.d.log| && s.d.log[i].FeeLine?
    ensures DecentLine(s.d.log[i])
  {
    var line := s.d.log[i];
    FeeInFeeLines(s.d.log, i);
    assert Accounted(s.d.log, s.d.rounds, Current(s.threads[Collector]));
    if line in AllCharges(s.d.rounds) {
      ChargesDecent(s.d.rounds, line);
    } else {
      assert Shape(Collector, s.threads[Collector]);
      CurrentDecent(s.threads[Collector], line);
    }
  }

  lemma AtmLineDecent(s: State, i: nat)
    requires OrderInv(s) && DecentScripts(s) && i < |s.d.log| && s.d.log[i].AtmLine?
    ensures DecentLine(s.d.log[i])
  {
    var n := s.d.log[i].atm;
    assert Ordered(s, n);
    LoggedInLogOf(s.d.log, i);
    var j :| 0 <= j < |LogOf(s.d.log, n)| && LogOf(s.d.log, n)[j] == s.d.log[i].cmd;
    assert s.script[n][j] == s.d.log[i].cmd;
  }

  lemma LedgerSolvent(s: State)
    requires FullInv(s) && DecentScripts(s)
    ensures Solvent(Replay(s.d.log))
  {
    forall i | 0 <= i < |s.d.log| ensures DecentLine(s.d.log[i]) {
      if s.d.log[i].FeeLine? { FeeLineDecent(s, i); } else { AtmLineDecent(s, i); }
    }
    ReplaySolvent(s.d.log);
  }

  lemma InHandDecent(s: State, t: Tid)
    requires LocksInv(s) && OrderInv(s) && DecentScripts(s) && t in s.threads
    requires InHand(s.threads[t].pc) && s.threads[t].job.Cmd?
    ensures Decent(s.threads[t].job.c)
  {
    assert Shape(t, s.threads[t]);
    assert Ordered(s, t.n);
    var k := |LogOf(s.d.log, t.n)|;
    assert s.script[t.n][k] == Outstanding(s.threads[t])[0];
  }

  // ---------- the real balances ----------

  /** A thread that owes on an account leaves at least nothing on it. */
  lemma OwnDebtCovered(d: Data, b: Ledger, tid: Tid, th: Thread, r: Ref, logged: int)
    requires Shape(tid, th) && Believes(d, b, th) && OwesAt(th, r) != 0
    requires th.job.Cmd? ==> Decent(th.job.c)
    requires th.held.b != Out ==> th.v.a != th.v.b
    requires logged >= 0 && At(d, r).bal == logged + OwesAt(th, r) && RateFits(th)
    ensures At(d, r).bal >= 0
  {
    if th.job.FeeRound? {
      FeeBounds(logged, th.job.rate);
    }
  }

  lemma DebtInHand(tid: Tid, th: Thread)
    requires Shape(tid, th) && DebtOf(th) != NO_DEBT
    ensures InHand(th.pc)
    ensures th.job.FeeRound? ==> tid == Collector
  {
  }

  lemma BookedCovered(s: State, k: int)
    requires FullInv(s) && DecentScripts(s) && k in s.d.open && k in Replay(s.d.log).accts
    ensures At(s.d, s.d.open[k]).bal >= 0
  {
    var b, r := Replay(s.d.log), s.d.open[k];
    LedgerSolvent(s);
    assert AcctBooked(s.d, b, s.threads, k);
    if t :| t in s.threads && OwesAt(s.threads[t], r) != 0 {
      var th := s.threads[t];
      assert Shape(t, th) && Believes(s.d, b, th);
      DebtNeedsLock(t, th, r);
      OwnAcctDebt(s, t, r);
      DebtInHand(t, th);
      if th.job.Cmd? { InHandDecent(s, t); }
      OwnDebtCovered(s.d, b, t, th, r, b.accts[k].bal);
    } else {
      SumZero(AcctDebts(s.threads, r));
    }
  }

  lemma AddedHasOpener(threads: map<Tid, Thread>, k: int)
    requires KeyDebt(threads, k) > 0
    ensures exists t :: t in threads && OwesKey(threads[t], k) == 1
  {
    if forall t | t in threads :: OwesKey(threads[t], k) != 1 {
      var m := map t | t in threads :: -OwesKey(threads[t], k);
      SumNegate(KeyDebts(threads, k), m);
      SumNonNegative(m);
    }
  }

  lemma SumNegate<K(!new)>(m: map<K, int>, n: map<K, int>)
    requires m.Keys == n.Keys && forall k | k in m :: n[k] == -m[k]
    ensures Sum(n) == -Sum(m)
    decreases |m|
  {
    if m != map[] {
      var k :| k in m;
      SumPick(m, k);
      SumPick(n, k);
      SumNegate(m - {k}, n - {k});
    } else {
      assert n == map[];
    }
  }

  /** A new account holds its opening amount until its line is logged. */
  lemma OpenerHolds(d: Data, b: Ledger, tid: Tid, th: Thread, k: int)
    requires Shape(tid, th) && Believes(d, b, th) && OwesKey(th, k) == 1 && k in d.open
    ensures InHand(th.pc) && th.job.Cmd? && th.job.c.Open? && At(d, d.open[k]).bal == th.job.c.amount
  {
  }

  lemma OpenerCovers(s: State, t: Tid, k: int)
    requires FullInv(s) && DecentScripts(s) && t in s.threads && OwesKey(s.threads[t], k) == 1 && k in s.d.open
    ensures At(s.d, s.d.open[k]).bal >= 0
  {
    assert Shape(t, s.threads[t]) && Believes(s.d, Replay(s.d.log), s.threads[t]);
    OpenerHolds(s.d, Replay(s.d.log), t, s.threads[t], k);
    InHandDecent(s, t);
  }

  lemma NewcomerCovered(s: State, k: int)
    requires FullInv(s) && DecentScripts(s) && k in s.d.open && k !in Replay(s.d.log).accts
    ensures At(s.d, s.d.open[k]).bal >= 0
  {
    assert KeyBooked(s.d, Replay(s.d.log), s.threads, k);
    AddedHasOpener(s.threads, k);
    var t :| t in s.threads && OwesKey(s.threads[t], k) == 1;
    OpenerCovers(s, t, k);
  }

  lemma PendingFeeCovered(d: Data, b: Ledger, th: Thread)
    requires Shape(Collector, th) && Believes(d, b, th) && RateFits(th) && DebtOf(th).vault != 0
    requires th.v.rows != [] && th.v.rows[|th.v.rows| - 1].bal >= 0
    ensures DebtOf(th).vault >= 0
  {
    FeeBounds(th.v.rows[|th.v.rows| - 1].bal, th.job.rate);
  }

  lemma VaultCovered(s: State)
    requires FullInv(s) && DecentScripts(s)
    ensures s.d.vault >= 0
  {
    var th, b := s.threads[Collector], Replay(s.d.log);
    LedgerSolvent(s);
    OwnVaultDebt(s);
    assert VaultBooked(s.d, b, s.threads);
    if DebtOf(th).vault != 0 {
      assert Shape(Collector, th) && Believes(s.d, b, th);
      ChargedIsCovered(s);
      PendingFeeCovered(s.d, b, th);
    }
  }

  /** The balance a pending fee was computed from is a logged one. */
  lemma ChargedIsCovered(s: State)
    requires FullInv(s) && DecentScripts(s) && DebtOf(s.threads[Collector]).vault != 0
    ensures s.threads[Collector].v.rows != []
    ensures s.threads[Collector].v.rows[|s.threads[Collector].v.rows| - 1].bal >= 0
  {
    var th, b := s.threads[Collector], Replay(s.d.log);
    assert Shape(Collector, th) && Believes(s.d, b, th);
    LockedIsLogged(s, Collector, th.v.key, th.v.a);
    LedgerSolvent(s);
  }

  lemma OpenCovered(s: State, k: int)
    requires FullInv(s) && DecentScripts(s) && k in s.d.open
    ensures At(s.d, s.d.open[k]).bal >= 0
  {
    if k in Replay(s.d.log).accts { BookedCovered(s, k); } else { NewcomerCovered(s, k); }
  }

  // ---------- accounts off the map ----------

  predicate OnMap(d: Data, r: Ref) {
    exists k :: k in d.open && d.open[k] == r
  }

  /** An account not yet put on the map, or taken off it, is not negative either. */
  ghost predicate OffMapCovered(d: Data) {
    forall r: Ref | r < |d.heap| && !OnMap(d, r) :: d.heap[r].bal >= 0
  }

  lemma AllocatesForOpen(d: Data, tid: Tid, th: Thread)
    requires Shape(tid, th) && th.pc.Do?
    ensures (var e := EffectOf(d, tid, th.pc.s, th.job, th.v);
             e.Alloc? ==> th.job.Cmd? && th.job.c.Open? && e.acct.bal == th.job.c.amount && InHand(th.pc))
  {
  }

  /** The effect of a step leaves accounts off the map covered. */
  lemma EffectCovered(d: Data, e: Effect)
    requires OffMapCovered(d) && (e.Alloc? ==> e.acct.bal >= 0)
    requires e.Drop? && e.id in d.open ==> At(d, d.open[e.id]).bal >= 0
    requires e.SetBal? ==> OnMap(d, e.r)
    ensures OffMapCovered(Apply(d, e))
  {
    var d' := Apply(d, e);
    forall r: Ref | r < |d'.heap| && !OnMap(d', r) ensures d'.heap[r].bal >= 0 {
      if OnMap(d, r) {
        var k :| k in d.open && d.open[k] == r;
        assert k in d'.open ==> OnMap(d', r);
      } else if e.PutOpen? && e.r == r {
        assert e.id in d.open || (e.id in d'.open && d'.open[e.id] == r);
      }
    }
  }

  lemma DoCovered(s: State, t: Tid)
    requires FullInv(s) && DecentScripts(s) && OffMapCovered(s.d) && t in s.threads && s.threads[t].pc.Do?
    ensures OffMapCovered(Apply(s.d, EffectAt(s, t)))
  {
    var th, e := s.threads[t], EffectAt(s, t);
    assert Shape(t, th) && Believes(s.d, Replay(s.d.log), th);
    AllocatesForOpen(s.d, t, th);
    if e.Alloc? { InHandDecent(s, t); }
    if e.Drop? && e.id in s.d.open { OpenCovered(s, e.id); }
    if e.SetBal? {
      HeapIds(s.d, s.threads);
      WrittenIsOpen(s.d, Replay(s.d.log), t, th);
      assert OnMap(s.d, e.r);
    }
    EffectCovered(s.d, e);
  }

  lemma SameMapCovered(d: Data, d': Data)
    requires OffMapCovered(d) && d'.heap == d.heap && d'.open == d.open
    ensures OffMapCovered(d')
  {
    forall r: Ref | r < |d'.heap| && !OnMap(d', r) ensures d'.heap[r].bal >= 0 {
      assert OnMap(d, r) ==> OnMap(d', r);
    }
  }

  lemma NextOffMap(s: State, t: Tid, rate: int, s': State)
    requires FullInv(s) && DecentScripts(s) && OffMapCovered(s.d) && t in s.threads && Next(s, t, rate) == Some(s')
    ensures OffMapCovered(s'.d)
  {
    match s.threads[t].pc
    case Do(_) =>
      DoCovered(s, t);
      NextIsDo(s, t, rate, s');
    case Rest =>
      NextIsStart(s, t, rate, s');
      SameMapCovered(s.d, s'.d);
    case Lock(_) => NextIsCall(s, t, rate, s');
    case Halted =>
  }

  lemma StepOffMap(s: State, s': State)
    requires FullInv(s) && DecentScripts(s) && OffMapCovered(s.d) && Step(s, s')
    ensures OffMapCovered(s'.d)
  {
    if StopStep(s, s') {
      SameMapCovered(s.d, s'.d);
    } else {
      var t :| ThreadStep(s, t, s');
      var rate :| 1 <= rate <= MAX_FEE && Next(s, t, rate) == Some(s');
      NextOffMap(s, t, rate, s');
    }
  }

  lemma SameScript(s: State, s': State)
    requires Step(s, s')
    ensures s'.script == s.script
  {
  }

  lemma {:induction false} RunOffMap(run: seq<State>, i: nat)
    requires IsRun(run) && i < |run| && DecentScripts(run[i])
    ensures OffMapCovered(run[i].d)
  {
    if i > 0 {
      assert Step(run[i - 1], run[i - 1 + 1]);
      RunKeeps(run, i - 1);
      SameScript(run[i - 1], run[i]);
      RunOffMap(run, i - 1);
      StepOffMap(run[i - 1], run[i]);
    }
  }

  /** With nonnegative opening balances and amounts, no account, open, closed or on its way between, and
      no bank balance is ever negative in any interleaving. */
  lemma NeverNegative(s: State)
    requires Reachable(s) && DecentScripts(s)
    ensures forall r: Ref | r < |s.d.heap| :: s.d.heap[r].bal >= 0
    ensures s.d.vault >= 0
  {
    ReachableFull(s);
    var run :| IsRun(run) && run[|run| - 1] == s;
    RunOffMap(run, |run| - 1);
    forall r: Ref | r < |s.d.heap| ensures s.d.heap[r].bal >= 0 {
      if OnMap(s.d, r) {
        var k :| k in s.d.open && s.d.open[k] == r;
        OpenCovered(s, k);
      }
    }
    VaultCovered(s);
  }
}

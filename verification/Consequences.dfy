/** The promises of the concurrent bank, read off its invariants. */
module Consequences {
  import opened Sums
  import opened RwLock
  import opened SequentialBank
  import opened Machine
  import opened Control
  import opened Locking
  import opened Local
  import opened Steps
  import opened Books
  import opened Serial
  import opened Sweeps
  import opened Money
  import opened Order
  import opened Linearization
  import opened Solvency
  import Passbooks

  // ---------- locks ----------

  /** The list's lock and every account's lock keep the readers-writer protocol, whichever of the two
      copies of the code a thread runs; the transfer lock and the log lock have at most one owner. */
  lemma LocksAreCorrect(s: State, r: Ref)
    requires Reachable(s)
    ensures Inv(s.l.list, ListRoles(s.threads))
    ensures Inv(LockAt(s.l, r), AcctRoles(s.threads, r))
    ensures MutexInv(s.l.transfer, TransferHolders(s.threads)) && MutexInv(s.l.log, LogHolders(s.threads))
  {
    ReachableFull(s);
    assert AcctLockInv(s, r);
  }

  /** Whoever may write an account or the account list is alone with it. */
  lemma WritersAreAlone(s: State, t: Tid, u: Tid, r: Ref)
    requires Reachable(s) && t in s.threads && u in s.threads && t != u
    ensures s.threads[t].held.list == Writing ==> s.threads[u].held.list != Writing && s.threads[u].held.list != In
    ensures AcctRole(s.threads[t], r) == Writing ==>
              AcctRole(s.threads[u], r) != Writing && AcctRole(s.threads[u], r) != In
  {
    ReachableFull(s);
    if s.threads[t].held.list == Writing { ListExclusion(s, t, u); }
    if AcctRole(s.threads[t], r) == Writing { AcctExclusion(s, t, u, r); }
  }

  /** What a statement touches is locked in its mode: a balance check and the print read accounts together with
      other readers, everything else has its accounts alone; who opens, closes or prints has the list alone. */
  predicate Locked(th: Thread)
    requires th.pc.Do?
  {
    && (!th.pc.s.Unwant? ==>
          th.held.list == (if th.job.PrintRound? || (th.job.Cmd? && (th.job.c.Open? || th.job.c.Close?)) then Writing
                           else In))
    && (!(th.pc.s.Find? || th.pc.s.Append? || th.pc.s.ShowVault? || th.pc.s.Unwant?) ==>
          && th.held.a == (if th.job.PrintRound? || (th.job.Cmd? && th.job.c.Balance?) then In else Writing)
          && (th.job.Cmd? && th.job.c.Transfer? ==> th.held.b == Writing && th.held.transfer && th.v.a != th.v.b))
    && (th.pc.s.Append? ==> th.held.log)
  }

  lemma StatementLocked(tid: Tid, th: Thread)
    requires Shape(tid, th) && th.pc.Do? && (th.held.b != Out ==> th.v.a != th.v.b)
    ensures Locked(th)
  {
  }

  lemma AccessesAreLocked(s: State, t: Tid)
    requires Reachable(s) && t in s.threads && s.threads[t].pc.Do?
    ensures Locked(s.threads[t])
  {
    ReachableFull(s);
    assert Shape(t, s.threads[t]);
    StatementLocked(t, s.threads[t]);
  }

  // ---------- prints and fee rounds ----------

  /** Every status print is a snapshot: it shows exactly the accounts, balances and bank total of the
      sequential bank after the lines logged so far, and the fee lines among those are whole rounds. */
  lemma PrintsAreSnapshots(s: State, i: nat)
    requires Reachable(s) && i < |s.d.shots|
    ensures (var shot := s.d.shots[i];
             && shot.at <= |s.d.log| && shot.rounds <= |s.d.rounds|
             && Pictures(Replay(s.d.log[..shot.at]), shot)
             && FeeLines(s.d.log[..shot.at]) == AllCharges(s.d.rounds[..shot.rounds]))
  {
    ReachableFull(s);
    assert GoodShot(s.d, s.d.shots[i]);
  }

  /** Every finished fee round charged each account that was open when it began exactly once, nobody
      else, and all at one rate; and the log holds these charges, round by round, and nothing else but
      those of the round under way. */
  lemma RoundsAreFair(s: State, i: nat)
    requires Reachable(s) && i < |s.d.rounds|
    ensures (var round := s.d.rounds[i];
             1 <= round.rate <= MAX_FEE && Rising(round.rows) && Ids(round.rows) == round.keys)
    ensures AllCharges(s.d.rounds) <= FeeLines(s.d.log)
  {
    ReachableFull(s);
    assert GoodRound(s.d.rounds[i]);
    assert Accounted(s.d.log, s.d.rounds, Current(s.threads[Collector]));
  }

  /** During a sweep the set of open accounts stays the one the sweep began with, and the accounts up to
      its position are those it has visited. */
  lemma KeysStandStill(s: State, t: Tid)
    requires Reachable(s) && t in s.threads && s.threads[t].pc == Do(Find) && !s.threads[t].job.Cmd?
    requires s.threads[t].v.rows != []
    ensures s.threads[t].v.keys == s.d.open.Keys
    ensures Ids(s.threads[t].v.rows) == set k | k in s.d.open && k <= s.threads[t].v.key
  {
    ReachableFull(s);
    var th := s.threads[t];
    assert Shape(t, th) && Believes(s.d, Replay(s.d.log), th);
    SweptIds(s.d, th.v);
  }

  lemma SweptIds(d: Data, v: Locals)
    requires Visited(d, v) && v.rows != []
    ensures Ids(v.rows) == set k | k in d.open && k <= v.key
  {
    forall k | k in d.open && k <= v.key ensures k in Ids(v.rows) {
      if k == v.key { assert v.rows[|v.rows| - 1].id == k; }
    }
  }

  // ---------- money ----------

  /** At every instant the money in the open accounts and the bank is what the log brought in and paid
      out, plus what is in flight. */
  lemma MoneyIsConserved(s: State)
    requires Reachable(s)
    ensures RealWorth(s.d) == TotalFlow(s.d.log) + Sum(InFlights(s.d, s.threads))
  {
    ReachableFull(s);
  }

  // ---------- the books of the customers ----------

  /** In every reachable state every answer in the log follows from the books of the accounts before it. */
  lemma AnswersFollowBooks(s: State, n: nat)
    requires Reachable(s) && n < |s.d.log| && s.d.log[n].AtmLine?
    ensures (var c, v, past := s.d.log[n].cmd, s.d.log[n].verdict, s.d.log[..n];
             && (Passbooks.Refusal(v) <==> !Passbooks.Granted(past, c))
             && (Passbooks.Refusal(v) ==> Passbooks.Excused(past, c, v))
             && (!Passbooks.Refusal(v) ==> Passbooks.Reports(past, s.d.log[..n + 1], c, v)))
  {
    ReachableFull(s);
    Passbooks.AnswersFollow(s.d.log, n);
  }

  lemma RealIsKept(d: Data, k: int)
    requires Passbooks.Kept(Real(d), d.log, k)
    ensures k in d.open <==> Passbooks.IsOpen(d.log, k)
    ensures k in d.open ==>
              && At(d, d.open[k]).pw == Passbooks.Password(d.log, k)
              && At(d, d.open[k]).bal == Passbooks.BalanceOf(d.log, k)
  {
  }

  /** When the ATMs have stopped, and between fee rounds, the open accounts are those whose books are open, each
      with the password of its opening and the balance of its entries. */
  lemma AccountsFollowBooks(s: State, k: int)
    requires Reachable(s) && AtmsDone(s) && Collector in s.threads && !HasList(s.threads[Collector].pc)
    ensures k in s.d.open <==> Passbooks.IsOpen(s.d.log, k)
    ensures k in s.d.open ==>
              && At(s.d, s.d.open[k]).pw == Passbooks.Password(s.d.log, k)
              && At(s.d, s.d.open[k]).bal == Passbooks.BalanceOf(s.d.log, k)
  {
    ReachableFull(s);
    HaltedState(s);
    Passbooks.BooksAreKept(s.d.log, k);
    RealIsKept(s.d, k);
  }

  // ---------- accounts ----------

  lemma CheckFinds(d: Data, b: Ledger, tid: Tid, th: Thread)
    requires Shape(tid, th) && Believes(d, b, th) && Ready(d, b, th) && th.pc == Do(Check) && th.job.Cmd?
    ensures !At(d, th.v.a).deleted && (th.job.c.Transfer? ==> !At(d, th.v.b).deleted)
  {
  }

  /** A lookup under the list's lock never meets an account marked deleted, neither when an account is to be
      opened nor later: the branches of the code that report one are dead. */
  lemma LookupsFindLive(s: State, t: Tid)
    requires Reachable(s) && t in s.threads && s.threads[t].pc.Do? && s.threads[t].job.Cmd?
    ensures s.threads[t].pc == Do(Find) && s.threads[t].job.c.id in s.d.open ==>
              !At(s.d, s.d.open[s.threads[t].job.c.id]).deleted
    ensures s.threads[t].pc == Do(Check) ==>
              && !At(s.d, s.threads[t].v.a).deleted
              && (s.threads[t].job.c.Transfer? ==> !At(s.d, s.threads[t].v.b).deleted)
  {
    ReachableFull(s);
    StepReady(s, t);
    var th := s.threads[t];
    assert Shape(t, th) && Believes(s.d, Replay(s.d.log), th);
    if th.pc == Do(Check) { CheckFinds(s.d, Replay(s.d.log), t, th); }
    if th.pc == Do(Find) && th.job.c.id in s.d.open { OpenIsNotDeleted(s, t, th.job.c.id); }
  }

  /** An account is put on the map only where there is none, under its own id. */
  lemma InsertFindsRoom(s: State, t: Tid)
    requires Reachable(s) && t in s.threads && s.threads[t].pc == Do(Insert)
    ensures At(s.d, s.threads[t].v.a).id !in s.d.open
  {
    ReachableFull(s);
    assert Shape(t, s.threads[t]) && Believes(s.d, Replay(s.d.log), s.threads[t]);
  }

  lemma KeysAreIds(s: State)
    requires Reachable(s)
    ensures forall k | k in s.d.open :: s.d.open[k] < |s.d.heap| && s.d.heap[s.d.open[k]].id == k
  {
    ReachableFull(s);
    HeapIds(s.d, s.threads);
  }

  /** The two maps share no account object, and neither holds one twice. */
  predicate Disjoint(d: Data) {
    && (forall j, k | j in d.open && k in d.closed :: d.open[j] != d.closed[k])
    && (forall j, k | j in d.open && k in d.open && d.open[j] == d.open[k] :: j == k)
    && (forall j, k | j in d.closed && k in d.closed && d.closed[j] == d.closed[k] :: j == k)
  }

  lemma MarkedApart(d: Data, threads: map<Tid, Thread>)
    requires HeapInv(d, threads)
    requires forall t | t in threads :: threads[t].pc != Do(Mark) && threads[t].pc != Do(Erase)
    ensures Disjoint(d)
  {
    forall k | k in d.open ensures d.open[k] < |d.heap| && d.heap[d.open[k]].id == k && !d.heap[d.open[k]].deleted {
      assert OpenOk(d, threads, k);
    }
    forall k | k in d.closed
      ensures d.closed[k] < |d.heap| && d.heap[d.closed[k]].id == k && d.heap[d.closed[k]].deleted {
      assert ClosedOk(d, threads, k);
    }
  }

  lemma OnlyAtmsClose(tid: Tid, th: Thread)
    requires Shape(tid, th) && (tid.Atm? ==> th.pc == Halted)
    ensures th.pc != Do(Mark) && th.pc != Do(Erase)
  {
  }

  /** Once the ATMs have stopped, freeing the accounts of both maps frees nothing twice. */
  lemma TeardownIsSafe(s: State)
    requires Reachable(s) && AtmsDone(s)
    ensures Disjoint(s.d)
  {
    ReachableFull(s);
    forall t | t in s.threads ensures s.threads[t].pc != Do(Mark) && s.threads[t].pc != Do(Erase) {
      assert Shape(t, s.threads[t]);
      OnlyAtmsClose(t, s.threads[t]);
    }
    MarkedApart(s.d, s.threads);
  }

  // ---------- the rounding of real fee rounds ----------

  /** The balances that were charged. */
  predicate RowsCovered(s: State) {
    && (forall i | 0 <= i < |s.d.rounds| :: NoneNegative(s.d.rounds[i].rows))
    && (Collector in s.threads && InRound(s.threads[Collector].pc) ==> NoneNegative(s.threads[Collector].v.rows))
  }

  lemma LoadsOpen(d: Data, b: Ledger, th: Thread)
    requires Shape(Collector, th) && Believes(d, b, th) && th.pc == Do(FeeLoad)
    ensures th.v.key in d.open && d.open[th.v.key] == th.v.a
  {
  }

  lemma OneMoreCovered(rows: seq<Row>, row: Row)
    requires NoneNegative(rows) && row.bal >= 0
    ensures NoneNegative(rows + [row])
  {
  }

  lemma LoadedCovered(s: State)
    requires FullInv(s) && DecentScripts(s) && s.threads[Collector].pc == Do(FeeLoad)
    ensures Seen(s.d, s.threads[Collector].v.a).bal >= 0
  {
    var th := s.threads[Collector];
    assert Shape(Collector, th) && Believes(s.d, Replay(s.d.log), th);
    LoadsOpen(s.d, Replay(s.d.log), th);
    OpenCovered(s, th.v.key);
  }

  lemma CollectorLoads(s: State)
    requires FullInv(s) && DecentScripts(s) && s.threads[Collector].pc == Do(FeeLoad)
    requires NoneNegative(s.threads[Collector].v.rows)
    ensures NoneNegative(s.threads[Collector].v.rows + [Seen(s.d, s.threads[Collector].v.a)])
  {
    LoadedCovered(s);
    OneMoreCovered(s.threads[Collector].v.rows, Seen(s.d, s.threads[Collector].v.a));
  }

  lemma RowsUntouched(s: State, rate: int, s': State)
    requires Collector in s.threads && Shape(Collector, s.threads[Collector])
    requires s.threads[Collector].pc != Do(FeeLoad) && Next(s, Collector, rate) == Some(s')
    ensures InRound(s'.threads[Collector].pc) ==>
              || s'.threads[Collector].v.rows == []
              || (InRound(s.threads[Collector].pc)
                  && s'.threads[Collector].v.rows == s.threads[Collector].v.rows)
  {
  }

  lemma EndsOwnRound(d: Data, tid: Tid, th: Thread)
    requires Shape(tid, th) && th.pc.Do?
    ensures (var e := EffectOf(d, tid, th.pc.s, th.job, th.v);
             e.EndRound? ==> tid == Collector && InRound(th.pc) && e.round.rows == th.v.rows)
  {
  }

  lemma RoundsGrow(s: State, t: Tid, rate: int, s': State)
    requires t in s.threads && Shape(t, s.threads[t]) && Next(s, t, rate) == Some(s')
    ensures s'.script == s.script
    ensures s'.d.rounds == s.d.rounds
         || (t == Collector && InRound(s.threads[t].pc)
             && exists round: Round :: s'.d.rounds == s.d.rounds + [round] && round.rows == s.threads[t].v.rows)
  {
    match s.threads[t].pc
    case Do(_) =>
      EndsOwnRound(s.d, t, s.threads[t]);
      NextIsDo(s, t, rate, s');
      var e := EffectAt(s, t);
      if e.EndRound? { assert s'.d.rounds == s.d.rounds + [e.round]; }
    case Rest => NextIsStart(s, t, rate, s');
    case Lock(_) => NextIsCall(s, t, rate, s');
    case Halted =>
  }

  /** The collector's own rows after its step. */
  lemma CollectorCovered(s: State, rate: int, s': State)
    requires FullInv(s) && DecentScripts(s) && RowsCovered(s) && Next(s, Collector, rate) == Some(s')
    ensures Collector in s'.threads
    ensures InRound(s'.threads[Collector].pc) ==> NoneNegative(s'.threads[Collector].v.rows)
  {
    assert Shape(Collector, s.threads[Collector]);
    if s.threads[Collector].pc == Do(FeeLoad) { CollectorLoads(s); } else { RowsUntouched(s, rate, s'); }
  }

  lemma RoundsCovered(s: State, t: Tid, rate: int, s': State)
    requires RowsCovered(s) && t in s.threads && Shape(t, s.threads[t]) && Next(s, t, rate) == Some(s')
    ensures forall i | 0 <= i < |s'.d.rounds| :: NoneNegative(s'.d.rounds[i].rows)
  {
    RoundsGrow(s, t, rate, s');
  }

  lemma OthersCovered(s: State, t: Tid, rate: int, s': State)
    requires RowsCovered(s) && t != Collector && t in s.threads && Shape(t, s.threads[t])
    requires Next(s, t, rate) == Some(s')
    ensures RowsCovered(s')
  {
    RoundsCovered(s, t, rate, s');
    NextThreads(s, t, rate, s');
  }

  lemma NextCovered(s: State, t: Tid, rate: int, s': State)
    requires FullInv(s) && DecentScripts(s) && RowsCovered(s) && t in s.threads && Next(s, t, rate) == Some(s')
    ensures RowsCovered(s')
  {
    assert Shape(t, s.threads[t]);
    if t == Collector {
      CollectorCovered(s, rate, s');
      RoundsCovered(s, t, rate, s');
    } else {
      OthersCovered(s, t, rate, s');
    }
  }

  lemma StepCovered(s: State, s': State)
    requires FullInv(s) && RowsCovered(s) && DecentScripts(s) && Step(s, s')
    ensures RowsCovered(s')
  {
    if !StopStep(s, s') {
      var t :| ThreadStep(s, t, s');
      var rate :| 1 <= rate <= MAX_FEE && Next(s, t, rate) == Some(s');
      NextCovered(s, t, rate, s');
    }
  }

  lemma {:induction false} RunCovered(run: seq<State>, i: nat)
    requires IsRun(run) && i < |run| && DecentScripts(run[i])
    ensures RowsCovered(run[i])
  {
    if i > 0 {
      RunKeeps(run, i - 1);
      SameScript(run[i - 1], run[i]);
      RunCovered(run, i - 1);
      StepCovered(run[i - 1], run[i]);
    }
  }

  /** A finished fee round over n accounts holding S at rate r gains within 50 n hundredths of r S, and
      never more than S. */
  lemma RoundGain(s: State, i: nat)
    requires Reachable(s) && DecentScripts(s) && i < |s.d.rounds|
    ensures (var round := s.d.rounds[i];
             var gain, held, n := Gained(round.rate, round.rows), Charged(round.rows), |round.keys|;
             -50 * n <= 100 * gain - round.rate * held <= 50 * n && 0 <= gain <= held)
  {
    ReachableFull(s);
    var run :| IsRun(run) && run[|run| - 1] == s;
    RunCovered(run, |run| - 1);
    var round := s.d.rounds[i];
    assert GoodRound(round) && NoneNegative(round.rows);
    GainBound(round.rate, round.rows);
    RisingIds(round.rows);
  }
}

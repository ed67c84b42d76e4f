/** What holds in every reachable state of the concurrent bank. */
module Linearization {
  import opened Sums
  import opened RwLock
  import opened SequentialBank
  import opened Machine
  import opened Control
  import opened Debts
  import opened Local
  import opened Books
  import opened Serial
  import opened Order
  import opened Sweeps
  import opened Money

  ghost predicate FullInv(s: State) {
    MainInv(s) && OrderInv(s) && SweepInv(s) && MoneyInv(s) && Staffed(s)
  }

  lemma StopKeeps(s: State, s': State)
    requires FullInv(s) && StopStep(s, s')
    ensures FullInv(s')
  {
    StopKeepsMain(s, s');
    StopOrder(s, s');
    StopStaffed(s, s');
    QuietSweep(s, s');
    assert s'.threads == s.threads[Collector := s'.threads[Collector]];
    QuietMoney(s, Collector, s');
  }

  lemma StepKeeps(s: State, s': State)
    requires FullInv(s) && Step(s, s')
    ensures FullInv(s')
  {
    if StopStep(s, s') {
      StopKeeps(s, s');
    } else {
      StepKeepsMain(s, s');
      var t :| ThreadStep(s, t, s');
      var rate :| 1 <= rate <= MAX_FEE && Next(s, t, rate) == Some(s');
      NextOrder(s, t, rate, s');
      NextStaffed(s, t, rate, s');
      NextSweep(s, t, rate, s');
      NextMoney(s, t, rate, s');
    }
  }

  lemma InitFull(s: State)
    requires Init(s)
    ensures FullInv(s)
  {
    InitMain(s);
    InitOrder(s);
    InitStaffed(s);
    InitSweep(s);
    InitMoney(s);
  }

  lemma {:induction false} RunKeeps(run: seq<State>, i: nat)
    requires IsRun(run) && i < |run|
    ensures FullInv(run[i])
  {
    if i == 0 {
      InitFull(run[0]);
    } else {
      RunKeeps(run, i - 1);
      StepKeeps(run[i - 1], run[i]);
    }
  }

  /** The invariants hold in every state of every run, for any number of threads and any scripts. */
  lemma ReachableFull(s: State)
    requires Reachable(s)
    ensures FullInv(s)
  {
    var run :| IsRun(run) && run[|run| - 1] == s;
    RunKeeps(run, |run| - 1);
  }

  // ---------- the log is a linearization ----------

  predicate TookOff(th: Thread, k: int) {
    OwesKey(th, k) == -1
  }

  /** The account behind a key: on the map, or with the thread that has just taken it off. */
  ghost function AccountOf(d: Data, threads: map<Tid, Thread>, k: int): Account {
    if k in d.open then At(d, d.open[k])
    else if exists t :: t in threads && TookOff(threads[t], k) then
      var t :| t in threads && TookOff(threads[t], k); At(d, threads[t].v.a)
    else NOBODY
  }

  ghost function KeysInHand(threads: map<Tid, Thread>): set<int> {
    set t | t in threads && threads[t].job.Cmd? :: threads[t].job.c.id
  }

  /** The real state with every effect undone that the log does not show yet: accounts put on the map
      are taken off, accounts taken off are put back, and unlogged amounts are returned. */
  ghost function Undone(d: Data, threads: map<Tid, Thread>): Ledger {
    Ledger(
      map k | k in d.open.Keys + KeysInHand(threads) && Ind(k in d.open) - KeyDebt(threads, k) == 1
        :: Acct(AccountOf(d, threads, k).pw,
                AccountOf(d, threads, k).bal - (if k in d.open then AcctDebt(threads, d.open[k]) else 0)),
      d.vault - VaultDebt(threads))
  }

  /** An account taken off the map and not logged is still in the ledger as it was. */
  predicate CloserOk(d: Data, b: Ledger, th: Thread, k: int) {
    k in b.accts && b.accts[k] == Acct(At(d, th.v.a).pw, At(d, th.v.a).bal)
  }

  ghost predicate Closers(d: Data, b: Ledger, threads: map<Tid, Thread>) {
    forall t, k | t in threads && TookOff(threads[t], k) :: CloserOk(d, b, threads[t], k)
  }

  lemma RemovedHasCloser(threads: map<Tid, Thread>, k: int)
    requires KeyDebt(threads, k) < 0
    ensures exists t :: t in threads && TookOff(threads[t], k)
    ensures k in KeysInHand(threads)
  {
    if forall t | t in threads :: !TookOff(threads[t], k) {
      SumNonNegative(KeyDebts(threads, k));
    }
    var t :| t in threads && TookOff(threads[t], k);
  }

  lemma UndoneKeys(d: Data, b: Ledger, threads: map<Tid, Thread>, k: int)
    requires KeyBooked(d, b, threads, k)
    ensures k in Undone(d, threads).accts <==> k in b.accts
  {
    if k in b.accts && k !in d.open { RemovedHasCloser(threads, k); }
  }

  lemma UndoneAcct(d: Data, b: Ledger, threads: map<Tid, Thread>, k: int)
    requires KeyBooked(d, b, threads, k) && Closers(d, b, threads) && k in b.accts
    requires k in d.open ==> AcctBooked(d, b, threads, k)
    ensures k in Undone(d, threads).accts && Undone(d, threads).accts[k] == b.accts[k]
  {
    UndoneKeys(d, b, threads, k);
    if k !in d.open { RemovedHasCloser(threads, k); }
  }

  lemma UndoneIs(d: Data, b: Ledger, threads: map<Tid, Thread>)
    requires Booked(d, b, threads) && Closers(d, b, threads)
    ensures Undone(d, threads) == b
  {
    var u := Undone(d, threads);
    forall k ensures k in u.accts <==> k in b.accts {
      assert KeyBooked(d, b, threads, k);
      UndoneKeys(d, b, threads, k);
    }
    forall k | k in b.accts ensures u.accts[k] == b.accts[k] {
      assert KeyBooked(d, b, threads, k);
      if k in d.open { assert AcctBooked(d, b, threads, k); }
      UndoneAcct(d, b, threads, k);
    }
    assert u.accts == b.accts;
  }

  lemma HasCloser(s: State, t: Tid, k: int)
    requires MainInv(s) && t in s.threads && TookOff(s.threads[t], k)
    ensures CloserOk(s.d, Replay(s.d.log), s.threads[t], k)
  {
    assert Shape(t, s.threads[t]) && Believes(s.d, Replay(s.d.log), s.threads[t]);
    CloserBelieves(s.d, Replay(s.d.log), t, s.threads[t], k);
  }

  lemma HasClosers(s: State)
    requires MainInv(s)
    ensures Closers(s.d, Replay(s.d.log), s.threads)
  {
    var b := Replay(s.d.log);
    forall t, k | t in s.threads && TookOff(s.threads[t], k)
      ensures CloserOk(s.d, b, s.threads[t], k) {
      HasCloser(s, t, k);
    }
  }

  lemma CloserBelieves(d: Data, b: Ledger, tid: Tid, th: Thread, k: int)
    requires Shape(tid, th) && Believes(d, b, th) && TookOff(th, k)
    ensures CloserOk(d, b, th, k)
  {
  }

  /** In every reachable state the log is a linearization of what has happened: replayed in order on the
      sequential bank, each line reports what that bank answers; each ATM's lines are its commands in
      script order; and the bank so reached is the real one with the unlogged effects undone. */
  lemma LogLinearizes(s: State)
    requires Reachable(s)
    ensures Faithful(s.d.log)
    ensures forall n | n in s.script ::
              Atm(n) in s.threads && LogOf(s.d.log, n) + Outstanding(s.threads[Atm(n)]) == s.script[n]
    ensures Undone(s.d, s.threads) == Replay(s.d.log)
  {
    ReachableFull(s);
    forall n | n in s.script
      ensures Atm(n) in s.threads && LogOf(s.d.log, n) + Outstanding(s.threads[Atm(n)]) == s.script[n] {
      assert Ordered(s, n);
    }
    HasClosers(s);
    UndoneIs(s.d, Replay(s.d.log), s.threads);
  }

  /** The real accounts and bank balance as they stand. */
  function Real(d: Data): Ledger {
    Ledger(map k | k in d.open :: Acct(At(d, d.open[k]).pw, At(d, d.open[k]).bal), d.vault)
  }

  /** When nobody owes the log anything, the real state is the replayed log. */
  lemma SettledIs(d: Data, b: Ledger, threads: map<Tid, Thread>)
    requires Booked(d, b, threads) && forall t | t in threads :: DebtOf(threads[t]) == NO_DEBT
    ensures Real(d) == b
  {
    SumZero(VaultDebts(threads));
    forall k ensures k in d.open <==> k in b.accts {
      SumZero(KeyDebts(threads, k));
      assert KeyBooked(d, b, threads, k);
    }
    forall k | k in d.open ensures Real(d).accts[k] == b.accts[k] {
      SumZero(AcctDebts(threads, d.open[k]));
      assert AcctBooked(d, b, threads, k);
    }
    assert Real(d).accts == b.accts;
  }

  lemma HaltedState(s: State)
    requires FullInv(s) && AtmsDone(s) && !HasList(s.threads[Collector].pc)
    ensures forall n | n in s.script :: LogOf(s.d.log, n) == s.script[n]
    ensures Real(s.d) == Replay(s.d.log)
  {
    forall n | n in s.script ensures LogOf(s.d.log, n) == s.script[n] {
      assert Ordered(s, n);
      assert Outstanding(s.threads[Atm(n)]) == [];
    }
    forall t | t in s.threads ensures DebtOf(s.threads[t]) == NO_DEBT { assert Shape(t, s.threads[t]); }
    SettledIs(s.d, Replay(s.d.log), s.threads);
  }

  /** When every ATM has stopped, its whole script is in the log, and between fee rounds the accounts are
      exactly what the sequential bank makes of the log. */
  lemma FinalState(s: State)
    requires Reachable(s) && AtmsDone(s)
    requires Collector in s.threads && !HasList(s.threads[Collector].pc)
    ensures forall n | n in s.script :: LogOf(s.d.log, n) == s.script[n]
    ensures Real(s.d) == Replay(s.d.log)
  {
    ReachableFull(s);
    HaltedState(s);
  }
}

/** Deadlock freedom: whenever a thread is under way, some thread under way can step.

    Plain lock ordering does not give this, because leaving a readers-writer lock takes the counter's
    mutex again.  What gives it: threads wait for the log last; only the owner of the transfer lock waits
    for an account while it has another; and a thread that waits for the write mutex in the entry window
    of a readers-writer lock waits for a writer, never for a reader that it keeps from leaving. */
module Waiting {
  import opened RwLock
  import opened SequentialBank
  import opened Machine
  import opened Control
  import opened Locking
  import opened Local
  import opened Books
  import opened Serial

  predicate UnderWay(th: Thread) {
    th.pc.Do? || th.pc.Lock?
  }

  predicate CanStep(s: State, t: Tid) {
    t in s.threads && Next(s, t, 1).Some?
  }

  predicate Runs(s: State, t: Tid) {
    CanStep(s, t) && UnderWay(s.threads[t])
  }

  ghost predicate SomeoneRuns(s: State) {
    exists t :: Runs(s, t)
  }

  /** No thread that waits for its second account is transferring from an account to itself. */
  predicate NoSelfTransfer(s: State) {
    forall t | t in s.threads && s.threads[t].pc == Lock(SeizeB) && IsTransfer(s.threads[t].job) ::
      s.threads[t].job.c.id != s.threads[t].job.c.target
  }

  // ---------- where threads are when they hold what ----------

  lemma WindowPc(tid: Tid, th: Thread, r: Ref)
    requires Shape(tid, th) && Window(AcctRole(th, r))
    ensures th.pc == Lock(AcctIn) || th.pc == Lock(AcctOut)
    ensures th.v.a == r && AcctRole(th, r) == th.held.a
  {
  }

  lemma ReaderPc(tid: Tid, th: Thread, r: Ref)
    requires Shape(tid, th) && AcctRole(th, r) == In
    ensures th.pc.Do? || th.pc == Lock(LogTake) || th.pc == Lock(LogGive)
         || (th.pc == Lock(AcctOut) && th.v.a == r && th.held.a == In)
  {
  }

  lemma WriterPc(tid: Tid, th: Thread, r: Ref)
    requires Shape(tid, th) && AcctRole(th, r) == Writing
    ensures th.pc.Do? || th.pc == Lock(LogTake) || th.pc == Lock(LogGive) || th.pc == Lock(SeizeB)
         || (th.pc == Lock(YieldA) && th.held.a == Writing) || (th.pc == Lock(YieldB) && th.held.b == Writing)
  {
  }

  lemma ListWindowPc(tid: Tid, th: Thread)
    requires Shape(tid, th) && Window(th.held.list)
    ensures th.pc == Lock(ListIn) || th.pc == Lock(ListOut)
  {
  }

  // ---------- the log ----------

  lemma StatementRuns(s: State, t: Tid)
    requires t in s.threads && s.threads[t].pc.Do?
    ensures Runs(s, t)
  {
  }

  lemma GivesLog(s: State, t: Tid)
    requires t in s.threads && s.threads[t].pc == Lock(LogGive)
    ensures Runs(s, t)
  {
  }

  lemma TakesLog(s: State, t: Tid)
    requires t in s.threads && s.threads[t].pc == Lock(LogTake) && !s.l.log
    ensures Runs(s, t)
  {
  }

  lemma LogMoves(s: State)
    requires LocksInv(s) && s.l.log
    ensures SomeoneRuns(s)
  {
    var t :| t in LogHolders(s.threads);
    assert Shape(t, s.threads[t]);
    if s.threads[t].pc.Do? { StatementRuns(s, t); } else { GivesLog(s, t); }
  }

  lemma LoggerMoves(s: State, t: Tid)
    requires LocksInv(s) && t in s.threads
    requires s.threads[t].pc.Do? || s.threads[t].pc == Lock(LogTake) || s.threads[t].pc == Lock(LogGive)
    ensures SomeoneRuns(s)
  {
    if s.threads[t].pc.Do? {
      StatementRuns(s, t);
    } else if s.threads[t].pc == Lock(LogGive) {
      GivesLog(s, t);
    } else if s.l.log {
      LogMoves(s);
    } else {
      TakesLog(s, t);
    }
  }

  // ---------- accounts ----------

  /** A thread in the entry or exit window of an account's lock steps, unless it waits for a writer. */
  lemma WindowMoves(s: State, w: Tid, r: Ref)
    requires LocksInv(s) && w in s.threads && Window(AcctRole(s.threads[w], r))
    ensures Runs(s, w)
         || (AcctRole(s.threads[w], r) == EnterTest && Enter(LockAt(s.l, r), EnterTest).None?)
  {
    var th := s.threads[w];
    assert Shape(w, th);
    WindowPc(w, th, r);
  }

  lemma TakenCounter(s: State, r: Ref)
    requires LocksInv(s) && LockAt(s.l, r).rm
    ensures exists w :: w in s.threads && Window(AcctRole(s.threads[w], r))
  {
    assert AcctLockInv(s, r);
    var w :| w in AcctRoles(s.threads, r) && Window(AcctRoles(s.threads, r)[w]);
  }

  lemma WaitsForWriter(s: State, w: Tid, r: Ref)
    requires LocksInv(s) && w in s.threads && AcctRole(s.threads[w], r) == EnterTest
    requires Enter(LockAt(s.l, r), EnterTest).None?
    ensures exists u :: u in s.threads && AcctRole(s.threads[u], r) == Writing
    ensures forall u | u in s.threads :: AcctRole(s.threads[u], r) != In
  {
    assert AcctLockInv(s, r);
    var roles := AcctRoles(s.threads, r);
    EntryWaitsForWriter(LockAt(s.l, r), roles, w);
    var u :| u in roles && roles[u].Writing?;
    forall u | u in s.threads ensures AcctRole(s.threads[u], r) != In { assert !Inside(roles[u]); }
  }

  /** A reader of an account moves, or whoever keeps it from leaving does. */
  lemma ReaderMoves(s: State, t: Tid, r: Ref)
    requires LocksInv(s) && t in s.threads && AcctRole(s.threads[t], r) == In
    ensures SomeoneRuns(s)
  {
    assert Shape(t, s.threads[t]);
    ReaderPc(t, s.threads[t], r);
    if s.threads[t].pc == Lock(AcctOut) {
      if LockAt(s.l, r).rm {
        TakenCounter(s, r);
        var w :| w in s.threads && Window(AcctRole(s.threads[w], r));
        WindowMoves(s, w, r);
        if !Runs(s, w) { WaitsForWriter(s, w, r); }
      } else {
        assert Runs(s, t);
      }
    } else {
      LoggerMoves(s, t);
    }
  }

  lemma SettledWriterMoves(s: State, t: Tid, r: Ref)
    requires LocksInv(s) && t in s.threads && AcctRole(s.threads[t], r) == Writing
    requires s.threads[t].pc != Lock(SeizeB)
    ensures SomeoneRuns(s)
  {
    assert Shape(t, s.threads[t]);
    WriterPc(t, s.threads[t], r);
    if s.threads[t].pc == Lock(YieldA) || s.threads[t].pc == Lock(YieldB) {
      assert Runs(s, t);
    } else {
      LoggerMoves(s, t);
    }
  }

  /** What keeps an account's write mutex taken. */
  lemma TakenWriteMutex(s: State, r: Ref)
    requires LocksInv(s) && LockAt(s.l, r).wm
    ensures exists u :: u in s.threads && Claims(LockAt(s.l, r), AcctRole(s.threads[u], r))
  {
    assert AcctLockInv(s, r);
    var u :| u in AcctRoles(s.threads, r) && Claims(LockAt(s.l, r), AcctRoles(s.threads, r)[u]);
  }

  lemma ReadingClaimMoves(s: State, u: Tid, r: Ref)
    requires LocksInv(s) && u in s.threads
    requires Claims(LockAt(s.l, r), AcctRole(s.threads[u], r)) && AcctRole(s.threads[u], r) != Writing
    ensures SomeoneRuns(s)
  {
    if AcctRole(s.threads[u], r) == In { ReaderMoves(s, u, r); } else { WindowMoves(s, u, r); }
  }

  /** A transfer at its second lock has found both its accounts and holds the first. */
  lemma AtSecondLock(d: Data, b: Ledger, tid: Tid, th: Thread)
    requires Shape(tid, th) && Believes(d, b, th) && th.pc == Lock(SeizeB)
    ensures th.job.Cmd? && th.job.c.Transfer? && th.held.a == Writing && th.held.b == Out
    ensures th.job.c.id in d.open && d.open[th.job.c.id] == th.v.a
    ensures th.job.c.target in d.open && d.open[th.job.c.target] == th.v.b
  {
  }

  /** At its second lock a transfer has one account exactly when it names one. */
  lemma SameAccountIffSelf(s: State, t: Tid)
    requires MainInv(s) && t in s.threads && s.threads[t].pc == Lock(SeizeB)
    ensures s.threads[t].job.Cmd? && s.threads[t].job.c.Transfer?
    ensures s.threads[t].held.a == Writing && s.threads[t].held.b == Out
    ensures s.threads[t].v.a == s.threads[t].v.b <==> s.threads[t].job.c.id == s.threads[t].job.c.target
  {
    assert Shape(t, s.threads[t]) && Believes(s.d, Replay(s.d.log), s.threads[t]);
    AtSecondLock(s.d, Replay(s.d.log), t, s.threads[t]);
    HeapInjective(s.d, s.threads);
  }

  lemma TwoRefs(s: State, t: Tid)
    requires MainInv(s) && NoSelfTransfer(s) && t in s.threads && s.threads[t].pc == Lock(SeizeB)
    ensures s.threads[t].v.a != s.threads[t].v.b
    ensures AcctRole(s.threads[t], s.threads[t].v.b) == Out
  {
    SameAccountIffSelf(s, t);
  }

  lemma SeizerRuns(s: State, t: Tid)
    requires t in s.threads && Shape(t, s.threads[t]) && s.threads[t].pc == Lock(SeizeB)
    requires !LockAt(s.l, s.threads[t].v.b).wm
    ensures Runs(s, t)
  {
  }

  lemma OneSeizer(s: State, t: Tid, u: Tid)
    requires LocksInv(s) && t in s.threads && u in s.threads && s.threads[t].pc == Lock(SeizeB)
    requires AcctRole(s.threads[t], s.threads[t].v.b) == Out && AcctRole(s.threads[u], s.threads[t].v.b) == Writing
    ensures s.threads[u].pc != Lock(SeizeB)
  {
    assert Shape(t, s.threads[t]) && Shape(u, s.threads[u]);
    assert t in TransferHolders(s.threads);
    assert s.threads[u].pc == Lock(SeizeB) ==> u in TransferHolders(s.threads);
  }

  /** Only the owner of the transfer lock waits for an account while it has another. */
  lemma ClaimOnSecondMoves(s: State, t: Tid, u: Tid)
    requires LocksInv(s) && t in s.threads && u in s.threads && s.threads[t].pc == Lock(SeizeB)
    requires AcctRole(s.threads[t], s.threads[t].v.b) == Out
    requires Claims(LockAt(s.l, s.threads[t].v.b), AcctRole(s.threads[u], s.threads[t].v.b))
    ensures SomeoneRuns(s)
  {
    var r := s.threads[t].v.b;
    if AcctRole(s.threads[u], r) != Writing {
      ReadingClaimMoves(s, u, r);
    } else {
      OneSeizer(s, t, u);
      SettledWriterMoves(s, u, r);
    }
  }

  lemma SecondSeizerMoves(s: State, t: Tid)
    requires MainInv(s) && NoSelfTransfer(s) && t in s.threads && s.threads[t].pc == Lock(SeizeB)
    ensures SomeoneRuns(s)
  {
    var r := s.threads[t].v.b;
    TwoRefs(s, t);
    if LockAt(s.l, r).wm {
      TakenWriteMutex(s, r);
      var u :| u in s.threads && Claims(LockAt(s.l, r), AcctRole(s.threads[u], r));
      ClaimOnSecondMoves(s, t, u);
    } else {
      SeizerRuns(s, t);
    }
  }

  lemma WriterMoves(s: State, t: Tid, r: Ref)
    requires MainInv(s) && NoSelfTransfer(s) && t in s.threads && AcctRole(s.threads[t], r) == Writing
    ensures SomeoneRuns(s)
  {
    if s.threads[t].pc == Lock(SeizeB) { SecondSeizerMoves(s, t); } else { SettledWriterMoves(s, t, r); }
  }

  /** A busy account does not block for ever. */
  lemma AcctMoves(s: State, r: Ref)
    requires MainInv(s) && NoSelfTransfer(s) && (LockAt(s.l, r).rm || LockAt(s.l, r).wm)
    ensures SomeoneRuns(s)
  {
    if LockAt(s.l, r).wm {
      TakenWriteMutex(s, r);
      var u :| u in s.threads && Claims(LockAt(s.l, r), AcctRole(s.threads[u], r));
      if AcctRole(s.threads[u], r) == Writing { WriterMoves(s, u, r); } else { ReadingClaimMoves(s, u, r); }
    } else {
      TakenCounter(s, r);
      var w :| w in s.threads && Window(AcctRole(s.threads[w], r));
      WindowMoves(s, w, r);
    }
  }

  /** A thread at its first account routine finds the account's mutexes free, or steps unhindered. */
  lemma FirstAcctMoves(s: State, t: Tid)
    requires LocksInv(s) && t in s.threads && s.threads[t].pc.Lock?
    requires s.threads[t].pc.k in {AcctIn, AcctOut, SeizeA, YieldA, YieldB}
    ensures (var rw := LockAt(s.l, s.threads[t].v.a); rw.rm || rw.wm || Runs(s, t))
  {
    assert Shape(t, s.threads[t]);
  }

  /** A thread at any account routine. */
  lemma AtAcctMoves(s: State, t: Tid)
    requires MainInv(s) && NoSelfTransfer(s) && t in s.threads && s.threads[t].pc.Lock?
    requires s.threads[t].pc.k in {AcctIn, AcctOut, SeizeA, SeizeB, YieldA, YieldB}
    ensures SomeoneRuns(s)
  {
    if s.threads[t].pc.k == SeizeB {
      SecondSeizerMoves(s, t);
    } else {
      FirstAcctMoves(s, t);
      if !Runs(s, t) { AcctMoves(s, s.threads[t].v.a); }
    }
  }

  // ---------- the transfer lock ----------

  /** Any thread inside the list's lock that is not waiting for the transfer lock or for its way out. */
  lemma WorkingMoves(s: State, t: Tid)
    requires MainInv(s) && NoSelfTransfer(s) && t in s.threads && HasList(s.threads[t].pc)
    requires s.threads[t].pc != Lock(TransferTake)
    ensures SomeoneRuns(s)
  {
    var th := s.threads[t];
    assert Shape(t, th);
    if th.pc.Do? || th.pc == Lock(LogTake) || th.pc == Lock(LogGive) {
      LoggerMoves(s, t);
    } else if th.pc.k in {AcctIn, AcctOut, SeizeA, SeizeB, YieldA, YieldB} {
      AtAcctMoves(s, t);
    } else {
      assert Runs(s, t);
    }
  }

  lemma TransferLockMoves(s: State)
    requires MainInv(s) && NoSelfTransfer(s) && s.l.transfer
    ensures SomeoneRuns(s)
  {
    var u :| u in TransferHolders(s.threads);
    assert Shape(u, s.threads[u]);
    WorkingMoves(s, u);
  }

  lemma TakesTransferLock(s: State, t: Tid)
    requires t in s.threads && s.threads[t].pc == Lock(TransferTake) && !s.l.transfer
    ensures Runs(s, t)
  {
  }

  lemma InsideMoves(s: State, t: Tid)
    requires MainInv(s) && NoSelfTransfer(s) && t in s.threads && HasList(s.threads[t].pc)
    ensures SomeoneRuns(s)
  {
    if s.threads[t].pc != Lock(TransferTake) {
      WorkingMoves(s, t);
    } else if s.l.transfer {
      TransferLockMoves(s);
    } else {
      TakesTransferLock(s, t);
    }
  }

  // ---------- the account list ----------

  lemma ListWindowMoves(s: State, w: Tid)
    requires LocksInv(s) && w in s.threads && Window(s.threads[w].held.list)
    ensures Runs(s, w) || (s.threads[w].held.list == EnterTest && Enter(s.l.list, EnterTest).None?)
  {
    assert Shape(w, s.threads[w]);
    ListWindowPc(w, s.threads[w]);
  }

  lemma ListWaitsForWriter(s: State, w: Tid)
    requires LocksInv(s) && w in s.threads && s.threads[w].held.list == EnterTest
    requires Enter(s.l.list, EnterTest).None?
    ensures exists u :: u in s.threads && s.threads[u].held.list == Writing
    ensures forall u | u in s.threads :: s.threads[u].held.list != In
  {
    var roles := ListRoles(s.threads);
    assert roles[w] == EnterTest;
    EntryWaitsForWriter(s.l.list, roles, w);
    var u :| u in roles && roles[u].Writing?;
    assert s.threads[u].held.list == Writing;
    forall u | u in s.threads ensures s.threads[u].held.list != In { assert !Inside(roles[u]); }
  }

  lemma ListWriterMoves(s: State, t: Tid)
    requires MainInv(s) && NoSelfTransfer(s) && t in s.threads && s.threads[t].held.list == Writing
    ensures SomeoneRuns(s)
  {
    assert Shape(t, s.threads[t]);
    InsideMoves(s, t);
  }

  lemma ListCounterMoves(s: State)
    requires MainInv(s) && NoSelfTransfer(s) && s.l.list.rm
    ensures SomeoneRuns(s)
  {
    var roles := ListRoles(s.threads);
    var w :| w in roles && Window(roles[w]);
    ListWindowMoves(s, w);
    if !Runs(s, w) {
      ListWaitsForWriter(s, w);
      var u :| u in s.threads && s.threads[u].held.list == Writing;
      ListWriterMoves(s, u);
    }
  }

  lemma ListReaderMoves(s: State, t: Tid)
    requires MainInv(s) && NoSelfTransfer(s) && t in s.threads && s.threads[t].held.list == In
    ensures SomeoneRuns(s)
  {
    assert Shape(t, s.threads[t]);
    if s.threads[t].pc == Lock(ListOut) {
      if s.l.list.rm { ListCounterMoves(s); } else { assert Runs(s, t); }
    } else {
      InsideMoves(s, t);
    }
  }

  lemma ListClaimMoves(s: State, u: Tid)
    requires MainInv(s) && NoSelfTransfer(s) && u in s.threads && Claims(s.l.list, s.threads[u].held.list)
    ensures SomeoneRuns(s)
  {
    var role := s.threads[u].held.list;
    if role == Writing { ListWriterMoves(s, u); }
    else if role == In { ListReaderMoves(s, u); }
    else { ListWindowMoves(s, u); }
  }

  lemma ListWriteMutexMoves(s: State)
    requires MainInv(s) && NoSelfTransfer(s) && s.l.list.wm
    ensures SomeoneRuns(s)
  {
    var roles := ListRoles(s.threads);
    var u :| u in roles && Claims(s.l.list, roles[u]);
    assert roles[u] == s.threads[u].held.list;
    ListClaimMoves(s, u);
  }

  // ---------- the whole ----------

  /** Deadlock freedom: if any thread is under way and not waiting at the printer's gate, where threads
      hold nothing, then some thread under way can step. */
  lemma NoDeadlock(s: State, t: Tid)
    requires MainInv(s) && NoSelfTransfer(s) && t in s.threads && UnderWay(s.threads[t])
    requires s.threads[t].pc != Lock(GateTake)
    ensures SomeoneRuns(s)
  {
    var th := s.threads[t];
    assert Shape(t, th);
    if HasList(th.pc) {
      InsideMoves(s, t);
    } else if s.l.list.rm {
      ListCounterMoves(s);
    } else if s.l.list.wm {
      ListWriteMutexMoves(s);
    } else {
      assert Runs(s, t);
    }
  }

  // ---------- transfers from an account to itself ----------

  predicate SelfStuck(s: State, t: Tid) {
    t in s.threads && s.threads[t].pc == Lock(SeizeB) && s.threads[t].v.a == s.threads[t].v.b
  }

  /** It waits for the write mutex that it holds itself. */
  lemma SelfStuckWaits(s: State, t: Tid, rate: int)
    requires MainInv(s) && SelfStuck(s, t)
    ensures Next(s, t, rate).None?
  {
    assert Shape(t, s.threads[t]);
    WriterTakes(s, t, s.threads[t].v.a);
  }

  lemma OthersStay(s: State, u: Tid, rate: int, s': State)
    requires u in s.threads && Next(s, u, rate) == Some(s')
    ensures s'.threads.Keys == s.threads.Keys && forall t | t in s.threads && t != u :: s'.threads[t] == s.threads[t]
  {
  }

  lemma SelfStuckPasses(s: State, t: Tid, u: Tid, rate: int, s': State)
    requires MainInv(s) && SelfStuck(s, t) && u in s.threads && Next(s, u, rate) == Some(s')
    ensures SelfStuck(s', t) && s'.threads[t] == s.threads[t]
  {
    if u == t { SelfStuckWaits(s, t, rate); } else { OthersStay(s, u, rate, s'); }
  }

  lemma SelfStuckStays(s: State, t: Tid, s': State)
    requires MainInv(s) && SelfStuck(s, t) && Step(s, s')
    ensures SelfStuck(s', t) && s'.threads[t] == s.threads[t]
  {
    if !StopStep(s, s') {
      var u :| ThreadStep(s, u, s');
      var rate :| 1 <= rate <= MAX_FEE && Next(s, u, rate) == Some(s');
      SelfStuckPasses(s, t, u, rate, s');
    }
  }

  lemma SelfStuckStep(s: State, t: Tid, s': State)
    requires MainInv(s) && SelfStuck(s, t) && Step(s, s')
    ensures MainInv(s') && SelfStuck(s', t) && s'.threads[t] == s.threads[t]
  {
    SelfStuckStays(s, t, s');
    StepKeepsMain(s, s');
  }

  /** A transfer from an open account to itself, once it waits for its second lock, never gets it: its
      ATM is stuck, with the transfer lock and the account list, in every state of every continuation. */
  lemma {:induction false} SelfTransferStuck(path: seq<State>, j: nat, t: Tid)
    requires IsPath(path) && j < |path| && MainInv(path[0]) && SelfStuck(path[0], t)
    ensures MainInv(path[j]) && SelfStuck(path[j], t) && path[j].threads[t] == path[0].threads[t]
  {
    if j > 0 {
      SelfTransferStuck(path, j - 1, t);
      assert Step(path[j - 1], path[j - 1 + 1]);
      SelfStuckStep(path[j - 1], t, path[j]);
    }
  }

  lemma NobodyStuck(s: State)
    requires MainInv(s) && forall t :: !SelfStuck(s, t)
    ensures NoSelfTransfer(s)
  {
    forall t | t in s.threads && s.threads[t].pc == Lock(SeizeB) && IsTransfer(s.threads[t].job)
      ensures s.threads[t].job.c.id != s.threads[t].job.c.target {
      SameAccountIffSelf(s, t);
      assert !SelfStuck(s, t);
    }
  }

  /** In every reachable state with a thread under way and not at the gate, some thread under way can step,
      or a transfer from an account to itself is stuck: nothing else can bring the bank to a halt. */
  lemma OnlySelfTransfersBlock(s: State, t: Tid)
    requires Reachable(s) && t in s.threads && UnderWay(s.threads[t]) && s.threads[t].pc != Lock(GateTake)
    ensures SomeoneRuns(s) || exists u :: SelfStuck(s, u)
  {
    ReachableMain(s);
    if forall u :: !SelfStuck(s, u) {
      NobodyStuck(s);
      NoDeadlock(s, t);
    }
  }
}

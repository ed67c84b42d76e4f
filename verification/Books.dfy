/** The main invariant: the shared data is the sequential bank after the log, plus what the threads have
    done and not logged. */
module Books {
  import opened RwLock
  import opened SequentialBank
  import opened Machine
  import opened Control
  import opened Locking
  import opened Debts
  import opened Local
  import opened Steps

  function Ind(p: bool): int { if p then 1 else 0 }

  ghost predicate KeyBooked(d: Data, b: Ledger, threads: map<Tid, Thread>, k: int) {
    Ind(k in d.open) == Ind(k in b.accts) + KeyDebt(threads, k)
  }

  ghost predicate AcctBooked(d: Data, b: Ledger, threads: map<Tid, Thread>, k: int)
    requires k in d.open && k in b.accts
  {
    && At(d, d.open[k]).pw == b.accts[k].pw
    && At(d, d.open[k]).bal == b.accts[k].bal + AcctDebt(threads, d.open[k])
  }

  ghost predicate VaultBooked(d: Data, b: Ledger, threads: map<Tid, Thread>) {
    d.vault == b.vault + VaultDebt(threads)
  }

  /** The data against the ledger `b`. */
  ghost predicate Booked(d: Data, b: Ledger, threads: map<Tid, Thread>) {
    && (forall k :: KeyBooked(d, b, threads, k))
    && (forall k | k in d.open && k in b.accts :: AcctBooked(d, b, threads, k))
    && VaultBooked(d, b, threads)
  }

  ghost predicate Beliefs(s: State) {
    forall t | t in s.threads :: Believes(s.d, Replay(s.d.log), s.threads[t])
  }

  ghost predicate MainInv(s: State) {
    && LocksInv(s)
    && Collector in s.threads
    && HeapInv(s.d, s.threads)
    && Beliefs(s)
    && Booked(s.d, Replay(s.d.log), s.threads)
    && Faithful(s.d.log)
  }

  // ---------- what the invariant gives the thread that steps ----------

  /** Nobody inside the list's lock meets an account marked deleted, except the thread that marked it. */
  lemma EraserWrites(tid: Tid, th: Thread, r: Ref)
    requires Shape(tid, th) && Erasing(th, r)
    ensures th.held.list == Writing
  {
  }

  lemma OpenIsNotDeleted(s: State, t: Tid, k: int)
    requires LocksInv(s) && HeapInv(s.d, s.threads) && t in s.threads && k in s.d.open
    requires s.threads[t].held.list == In || s.threads[t].held.list == Writing
    requires s.threads[t].pc != Do(Erase)
    ensures !At(s.d, s.d.open[k]).deleted
  {
    assert OpenOk(s.d, s.threads, k);
    if s.d.heap[s.d.open[k]].deleted {
      var u :| u in s.threads && Erasing(s.threads[u], s.d.open[k]);
      assert Shape(u, s.threads[u]);
      EraserWrites(u, s.threads[u], s.d.open[k]);
      ListExclusion(s, u, t);
    }
  }

  /** An account on the map that this thread has locked without owing anything has its logged balance. */
  lemma LockedIsLogged(s: State, t: Tid, k: int, r: Ref)
    requires LocksInv(s) && Booked(s.d, Replay(s.d.log), s.threads) && t in s.threads
    requires s.threads[t].held.list == In || s.threads[t].held.list == Writing
    requires OwesKey(s.threads[t], k) == 0
    requires Live(s.d, k, r)
    ensures k in Replay(s.d.log).accts
    ensures At(s.d, r).pw == Replay(s.d.log).accts[k].pw
    ensures AcctRole(s.threads[t], r) == In || AcctRole(s.threads[t], r) == Writing ==>
              At(s.d, r).bal == Replay(s.d.log).accts[k].bal + OwesAt(s.threads[t], r)
  {
    var b := Replay(s.d.log);
    OwnKeyDebt(s, t, k);
    assert KeyBooked(s.d, b, s.threads, k);
    assert AcctBooked(s.d, b, s.threads, k);
    if AcctRole(s.threads[t], r) == In || AcctRole(s.threads[t], r) == Writing {
      OwnAcctDebt(s, t, r);
    }
  }

  lemma CheckReady(s: State, t: Tid)
    requires MainInv(s) && t in s.threads && s.threads[t].pc == Do(Check) && s.threads[t].job.Cmd?
    ensures Ready(s.d, Replay(s.d.log), s.threads[t])
  {
    var th := s.threads[t];
    assert Shape(t, th);
    assert Believes(s.d, Replay(s.d.log), th);
    OpenIsNotDeleted(s, t, th.job.c.id);
    if th.job.c.Transfer? { OpenIsNotDeleted(s, t, th.job.c.target); }
  }

  lemma Erases(d: Data, b: Ledger, tid: Tid, th: Thread)
    requires Shape(tid, th) && Believes(d, b, th) && th.pc == Do(Erase) && th.job.Cmd?
    ensures th.held.list == Writing && AcctRole(th, th.v.a) == Writing
    ensures th.job.c.id in d.open && d.open[th.job.c.id] == th.v.a
    ensures OwesKey(th, th.job.c.id) == 0 && OwesAt(th, th.v.a) == 0
  {
  }

  lemma EraseReady(s: State, t: Tid)
    requires MainInv(s) && t in s.threads && s.threads[t].pc == Do(Erase) && s.threads[t].job.Cmd?
    ensures Ready(s.d, Replay(s.d.log), s.threads[t])
  {
    var th := s.threads[t];
    assert Shape(t, th) && Believes(s.d, Replay(s.d.log), th);
    Erases(s.d, Replay(s.d.log), t, th);
    assert OpenOk(s.d, s.threads, th.job.c.id);
    LockedIsLogged(s, t, th.job.c.id, th.v.a);
  }

  lemma CmdStepReady(s: State, t: Tid)
    requires MainInv(s) && t in s.threads && s.threads[t].pc.Do? && s.threads[t].job.Cmd?
    ensures Ready(s.d, Replay(s.d.log), s.threads[t])
  {
    var th := s.threads[t];
    if th.pc.s.Check? {
      CheckReady(s, t);
    } else if th.pc.s.Erase? {
      EraseReady(s, t);
    } else {
      assert Shape(t, th);
      assert Believes(s.d, Replay(s.d.log), th);
      if th.pc.s.Find? && th.job.c.id in s.d.open { OpenIsNotDeleted(s, t, th.job.c.id); }
      assert th.pc.s.Store2? ==> th.held.b != Out;
    }
  }

  lemma SweepStepReady(s: State, t: Tid)
    requires MainInv(s) && t in s.threads && s.threads[t].pc.Do? && !s.threads[t].job.Cmd?
    ensures Ready(s.d, Replay(s.d.log), s.threads[t])
  {
    var th := s.threads[t];
    assert Shape(t, th);
    assert Believes(s.d, Replay(s.d.log), th);
    if th.pc.s.FeeLoad? || th.pc.s.Show? { assert OpenOk(s.d, s.threads, th.v.key); }
  }

  lemma StepReady(s: State, t: Tid)
    requires MainInv(s) && t in s.threads
    ensures Ready(s.d, Replay(s.d.log), s.threads[t])
  {
    var th := s.threads[t];
    assert Shape(t, th);
    assert Believes(s.d, Replay(s.d.log), th);
    if th.pc.Do? {
      if th.job.Cmd? { CmdStepReady(s, t); } else { SweepStepReady(s, t); }
    }
  }

  // ---------- debts of one data step ----------

  function Gain(s: DataPc, job: Job, v: Locals): int {
    if s.Store1? then Delta(job, v.fee) else Amount(job)
  }

  function AcctEffect(e: Effect, gain: int, r: Ref): int {
    if e.SetBal? && e.r == r then gain else 0
  }

  function KeyEffect(e: Effect, k: int): int {
    if e.PutOpen? && e.id == k then 1 else if e.Drop? && e.id == k then -1 else 0
  }

  /** Unlogged effects become debts, and logging pays them. */
  lemma DoAcctDebt(d: Data, tid: Tid, th: Thread, v': Locals, pc': PC, r: Ref)
    requires Shape(tid, th) && th.pc.Do?
    requires th.pc.s.Store2? ==> th.v.a != th.v.b
    requires DataStep(d, th.pc.s, th.job, th.v) == (v', pc')
    ensures var e := EffectOf(d, tid, th.pc.s, th.job, th.v);
            OwesAt(th.(v := v', pc := pc'), r) - OwesAt(th, r)
            == (if e.Log? then -OwesAt(th, r) else AcctEffect(e, Gain(th.pc.s, th.job, th.v), r))
  {
  }

  lemma DoKeyDebt(d: Data, tid: Tid, th: Thread, v': Locals, pc': PC, k: int)
    requires Shape(tid, th) && th.pc.Do?
    requires th.pc.s.Insert? ==> At(d, th.v.a).id == th.job.c.id
    requires DataStep(d, th.pc.s, th.job, th.v) == (v', pc')
    ensures var e := EffectOf(d, tid, th.pc.s, th.job, th.v);
            OwesKey(th.(v := v', pc := pc'), k) - OwesKey(th, k)
            == (if e.Log? then -OwesKey(th, k) else KeyEffect(e, k))
  {
  }

  lemma DoVaultDebt(d: Data, tid: Tid, th: Thread, v': Locals, pc': PC)
    requires Shape(tid, th) && th.pc.Do?
    requires DataStep(d, th.pc.s, th.job, th.v) == (v', pc')
    ensures var e := EffectOf(d, tid, th.pc.s, th.job, th.v);
            DebtOf(th.(v := v', pc := pc')).vault - DebtOf(th).vault
            == (if e.Log? then -DebtOf(th).vault else if e.SetVault? then th.v.fee else 0)
  {
  }

  lemma CallDebts(tid: Tid, th: Thread, h': Held, r: Ref, k: int)
    requires Shape(tid, th) && th.pc.Lock?
    ensures var th' := th.(held := h', pc := PcAfter(th.pc.k, h', th.job, th.v.found));
      OwesAt(th', r) == OwesAt(th, r) && OwesKey(th', k) == OwesKey(th, k) && DebtOf(th').vault == DebtOf(th).vault
  {
  }

  // ---------- appending a line ----------

  /** The line a command writes is what the sequential bank answers, and posting it to the ledger has just
      the effect that the command owed. */
  predicate Settles(b: Ledger, b': Ledger, d: Data, th: Thread, k: int) {
    && Ind(k in b'.accts) == Ind(k in b.accts) + OwesKey(th, k)
    && (k in d.open && k in b.accts ==>
          && k in b'.accts && b'.accts[k].pw == b.accts[k].pw
          && b'.accts[k].bal == b.accts[k].bal + OwesAt(th, d.open[k]))
    && (k in b'.accts && k !in b.accts ==>
          && k in d.open && b'.accts[k] == Acct(At(d, d.open[k]).pw, At(d, d.open[k]).bal))
    && b'.vault == b.vault + DebtOf(th).vault
  }

  /** The part of the ledger that a logging thread can see. */
  predicate SeesLogged(d: Data, b: Ledger, th: Thread, k: int, r: Ref, locked: bool) {
    && (OwesKey(th, k) == 0 ==> (k in b.accts <==> k in d.open))
    && (OwesKey(th, k) == 1 ==> k !in b.accts)
    && (OwesKey(th, k) == 0 && Live(d, k, r) ==>
          At(d, r).pw == b.accts[k].pw && (locked ==> At(d, r).bal == b.accts[k].bal + OwesAt(th, r)))
  }

  /** Different keys have different accounts. */
  predicate Injective(d: Data) {
    forall j, k | j in d.open && k in d.open && d.open[j] == d.open[k] :: j == k
  }

  lemma CmdAnswers(d: Data, b: Ledger, tid: Tid, th: Thread)
    requires Shape(tid, th) && th.pc == Do(Append) && th.job.Cmd?
    requires Logging(d, b, th.job.c, th.v)
    requires SeesLogged(d, b, th, th.job.c.id, th.v.a, th.v.found)
    requires th.job.c.Transfer? ==> SeesLogged(d, b, th, th.job.c.target, th.v.b, th.v.found)
    requires th.job.c.Transfer? && th.v.found ==> th.v.a != th.v.b
    ensures Judge(b, th.job.c) == Answer(d, th.v, th.job.c)
  {
  }

  lemma CmdSettles(d: Data, b: Ledger, tid: Tid, th: Thread, k: int)
    requires Shape(tid, th) && th.pc == Do(Append) && th.job.Cmd? && Injective(d)
    requires Logging(d, b, th.job.c, th.v)
    requires SeesLogged(d, b, th, th.job.c.id, th.v.a, th.v.found)
    requires th.job.c.Transfer? ==> SeesLogged(d, b, th, th.job.c.target, th.v.b, th.v.found)
    requires th.job.c.Transfer? && th.v.found ==> th.v.a != th.v.b
    requires Judge(b, th.job.c) == Answer(d, th.v, th.job.c)
    requires OwesKey(th, k) == 0 ==> (k in b.accts <==> k in d.open)
    ensures Settles(b, Perform(b, th.job.c), d, th, k)
  {
  }

  lemma FeeSettles(d: Data, b: Ledger, tid: Tid, th: Thread, k: int)
    requires Shape(tid, th) && th.pc == Do(Append) && th.job.FeeRound? && Injective(d)
    requires Charging(d, th.job.rate, th.v, th.v.fee) && At(d, th.v.a).id == th.v.key
    requires SeesLogged(d, b, th, th.v.key, th.v.a, true)
    requires k in b.accts <==> k in d.open
    ensures Truthful(b, LineOf(d, tid, th.job, th.v))
    ensures Settles(b, Post(b, LineOf(d, tid, th.job, th.v)), d, th, k)
  {
  }

  lemma HeapInjective(d: Data, threads: map<Tid, Thread>)
    requires HeapInv(d, threads)
    ensures Injective(d) && RefsOk(d)
  {
    forall k | k in d.open ensures d.open[k] < |d.heap| && d.heap[d.open[k]].id == k {
      assert OpenOk(d, threads, k);
    }
  }

  lemma Sees(s: State, t: Tid, k: int, r: Ref)
    requires MainInv(s) && t in s.threads
    requires s.threads[t].held.list == In || s.threads[t].held.list == Writing
    ensures var th := s.threads[t];
            var b := Replay(s.d.log);
      && (OwesKey(th, k) == 0 ==> (k in b.accts <==> k in s.d.open))
      && SeesLogged(s.d, b, th, k, r, AcctRole(th, r) == In || AcctRole(th, r) == Writing)
  {
    OwnKeyDebt(s, t, k);
    assert KeyBooked(s.d, Replay(s.d.log), s.threads, k);
    if OwesKey(s.threads[t], k) == 0 && Live(s.d, k, r) { LockedIsLogged(s, t, k, r); }
  }

  /** The line about to be appended is truthful, and posting it settles the thread's debt. */
  lemma CmdAppendSettles(s: State, t: Tid, k: int)
    requires MainInv(s) && t in s.threads && s.threads[t].pc == Do(Append) && s.threads[t].job.Cmd?
    ensures var th := s.threads[t];
            var b := Replay(s.d.log);
            var line := LineOf(s.d, t, th.job, th.v);
            Truthful(b, line) && Settles(b, Post(b, line), s.d, th, k)
  {
    var th := s.threads[t];
    var b := Replay(s.d.log);
    assert Shape(t, th) && Believes(s.d, b, th);
    HeapInjective(s.d, s.threads);
    Sees(s, t, k, 0);
    Sees(s, t, th.job.c.id, th.v.a);
    if th.job.c.Transfer? {
      Sees(s, t, th.job.c.target, th.v.b);
      assert th.v.found ==> th.held.b != Out;
    }
    CmdAnswers(s.d, b, t, th);
    CmdSettles(s.d, b, t, th, k);
  }

  lemma FeeAppendSettles(s: State, t: Tid, k: int)
    requires MainInv(s) && t in s.threads && s.threads[t].pc == Do(Append) && !s.threads[t].job.Cmd?
    ensures var th := s.threads[t];
            var b := Replay(s.d.log);
            var line := LineOf(s.d, t, th.job, th.v);
            Truthful(b, line) && Settles(b, Post(b, line), s.d, th, k)
  {
    var th := s.threads[t];
    var b := Replay(s.d.log);
    assert Shape(t, th) && Believes(s.d, b, th);
    assert OpenOk(s.d, s.threads, th.v.key);
    Sees(s, t, k, 0);
    Sees(s, t, th.v.key, th.v.a);
    FeeSettles(s.d, b, t, th, k);
  }

  lemma AppendSettles(s: State, t: Tid, k: int)
    requires MainInv(s) && t in s.threads && s.threads[t].pc == Do(Append)
    ensures var th := s.threads[t];
            var b := Replay(s.d.log);
            var line := LineOf(s.d, t, th.job, th.v);
            Truthful(b, line) && Settles(b, Post(b, line), s.d, th, k)
  {
    if s.threads[t].job.Cmd? { CmdAppendSettles(s, t, k); } else { FeeAppendSettles(s, t, k); }
  }

  // ---------- effects, apart from who makes them ----------

  /** The effects of data steps start from the real data: no update is lost, no key is overwritten. */
  predicate Sound(d: Data, e: Effect, gain: int, fee: int) {
    match e
    case SetBal(r, v) => r < |d.heap| && v == d.heap[r].bal + gain
    case SetVault(v) => v == d.vault + fee
    case PutOpen(id, r) => id !in d.open && r < |d.heap| && d.heap[r].id == id && !d.heap[r].deleted
    case PutClosed(id, r) => r < |d.heap| && d.heap[r].id == id
    case SetDeleted(r) => r < |d.heap|
    case Drop(id) => id in d.open
    case _ => true
  }

  lemma DoSound(d: Data, b: Ledger, tid: Tid, th: Thread)
    requires Shape(tid, th) && th.pc.Do? && RefsOk(d) && Believes(d, b, th)
    ensures Sound(d, EffectOf(d, tid, th.pc.s, th.job, th.v), Gain(th.pc.s, th.job, th.v), th.v.fee)
  {
  }

  /** How the marks on accounts follow the program counter of the closing thread. */
  predicate MarksFollow(d: Data, e: Effect, th: Thread, th': Thread) {
    && (th.pc == Do(Erase) ==> e.Drop? && (e.id in d.open ==> d.open[e.id] == th.v.a))
    && (e.SetDeleted? ==> Erasing(th', e.r))
    && (th.pc == Do(Mark) ==> e == SetDeleted(th.v.a))
    && (e.PutClosed? ==> Marking(th', e.r))
  }

  lemma DoMarks(d: Data, b: Ledger, tid: Tid, th: Thread, v': Locals, pc': PC)
    requires Shape(tid, th) && th.pc.Do? && Believes(d, b, th)
    requires DataStep(d, th.pc.s, th.job, th.v) == (v', pc')
    ensures MarksFollow(d, EffectOf(d, tid, th.pc.s, th.job, th.v), th, th.(v := v', pc := pc'))
  {
  }

  lemma OpenKept(d: Data, threads: map<Tid, Thread>, t: Tid, th': Thread, e: Effect, gain: int, fee: int, k: int)
    requires HeapInv(d, threads) && t in threads && Sound(d, e, gain, fee)
    requires MarksFollow(d, e, threads[t], th') && k in Apply(d, e).open
    ensures OpenOk(Apply(d, e), threads[t := th'], k)
  {
    var threads' := threads[t := th'];
    if k in d.open {
      assert OpenOk(d, threads, k);
      var r := d.open[k];
      if e == SetDeleted(r) {
        assert t in threads' && Erasing(threads'[t], r);
      } else if d.heap[r].deleted {
        var u :| u in threads && Erasing(threads[u], r);
        assert e.Drop? && e.id in d.open ==> OpenOk(d, threads, e.id);
        assert u != t;
        assert u in threads' && Erasing(threads'[u], r);
      }
    }
  }

  lemma ClosedKept(d: Data, threads: map<Tid, Thread>, t: Tid, th': Thread, e: Effect, gain: int, fee: int, k: int)
    requires HeapInv(d, threads) && t in threads && Sound(d, e, gain, fee)
    requires MarksFollow(d, e, threads[t], th') && k in Apply(d, e).closed
    ensures ClosedOk(Apply(d, e), threads[t := th'], k)
  {
    var threads' := threads[t := th'];
    if k in d.closed {
      assert ClosedOk(d, threads, k);
      var r := d.closed[k];
      if !d.heap[r].deleted && e != SetDeleted(r) {
        var u :| u in threads && Marking(threads[u], r);
        assert u in threads' && Marking(threads'[u], r);
      }
    } else {
      assert t in threads' && Marking(threads'[t], e.r);
    }
  }

  lemma KeyKept(d: Data, b: Ledger, threads: map<Tid, Thread>, t: Tid, th': Thread, e: Effect,
                gain: int, fee: int, k: int)
    requires t in threads && KeyBooked(d, b, threads, k) && Sound(d, e, gain, fee)
    requires OwesKey(th', k) - OwesKey(threads[t], k) == (if e.Log? then -OwesKey(threads[t], k) else KeyEffect(e, k))
    requires e.Log? ==> Settles(b, Post(b, e.line), d, threads[t], k)
    ensures KeyBooked(Apply(d, e), Posted(b, e), threads[t := th'], k)
  {
    KeyDebtUpdate(threads, t, th', k);
  }

  lemma VaultKept(d: Data, b: Ledger, threads: map<Tid, Thread>, t: Tid, th': Thread, e: Effect, gain: int)
    requires t in threads && VaultBooked(d, b, threads) && Sound(d, e, gain, threads[t].v.fee)
    requires DebtOf(th').vault - DebtOf(threads[t]).vault
          == (if e.Log? then -DebtOf(threads[t]).vault else if e.SetVault? then threads[t].v.fee else 0)
    requires e.Log? ==> Settles(b, Post(b, e.line), d, threads[t], 0)
    ensures VaultBooked(Apply(d, e), Posted(b, e), threads[t := th'])
  {
    VaultDebtUpdate(threads, t, th');
  }

  /** An account that was on the map and in the ledger. */
  lemma AcctKept(d: Data, b: Ledger, threads: map<Tid, Thread>, t: Tid, th': Thread, e: Effect,
                 gain: int, fee: int, k: int)
    requires t in threads && k in d.open && k in b.accts && AcctBooked(d, b, threads, k) && Sound(d, e, gain, fee)
    requires d.open[k] < |d.heap|
    requires k in Apply(d, e).open && k in Posted(b, e).accts
    requires OwesAt(th', d.open[k]) - OwesAt(threads[t], d.open[k])
          == (if e.Log? then -OwesAt(threads[t], d.open[k]) else AcctEffect(e, gain, d.open[k]))
    requires e.Log? ==> Settles(b, Post(b, e.line), d, threads[t], k)
    ensures AcctBooked(Apply(d, e), Posted(b, e), threads[t := th'], k)
  {
    AcctDebtUpdate(threads, t, th', d.open[k]);
  }

  /** An account that the ledger learns of: its opening is being logged, and nobody owes anything on it. */
  lemma AcctLearnt(d: Data, b: Ledger, threads: map<Tid, Thread>, t: Tid, th': Thread, line: Line, k: int)
    requires t in threads && k !in b.accts && k in d.open && k in Post(b, line).accts
    requires AcctDebt(threads, d.open[k]) == OwesAt(threads[t], d.open[k])
    requires OwesAt(th', d.open[k]) == 0
    requires Settles(b, Post(b, line), d, threads[t], k)
    ensures AcctBooked(Apply(d, Log(line)), Post(b, line), threads[t := th'], k)
  {
    AcctDebtUpdate(threads, t, th', d.open[k]);
  }
}

/** Every reachable state of the concurrent bank satisfies the main invariant, and what that says: the log
    is a linearization of the whole run. */
module Serial {
  import opened RwLock
  import opened SequentialBank
  import opened Machine
  import opened Control
  import opened Locking
  import opened Debts
  import opened Local
  import opened Steps
  import opened Books

  function EffectAt(s: State, t: Tid): Effect
    requires t in s.threads && s.threads[t].pc.Do?
  {
    EffectOf(s.d, t, s.threads[t].pc.s, s.threads[t].job, s.threads[t].v)
  }

  function AfterDo(s: State, t: Tid): Thread
    requires t in s.threads && s.threads[t].pc.Do?
  {
    var th := s.threads[t];
    var (v', pc') := DataStep(s.d, th.pc.s, th.job, th.v);
    th.(v := v', pc := pc')
  }

  lemma NextIsDo(s: State, t: Tid, rate: int, s': State)
    requires t in s.threads && s.threads[t].pc.Do? && Next(s, t, rate) == Some(s')
    ensures s' == s.(threads := s.threads[t := AfterDo(s, t)], d := Apply(s.d, EffectAt(s, t)))
  {
  }

  lemma LedgerAfter(d: Data, e: Effect)
    ensures Replay(Apply(d, e).log) == Posted(Replay(d.log), e)
    ensures Faithful(d.log) && (e.Log? ==> Truthful(Replay(d.log), e.line)) ==> Faithful(Apply(d, e).log)
  {
    if e.Log? { ReplayAppend(d.log, e.line); } else { assert Apply(d, e).log == d.log; }
  }

  lemma OthersRely(s: State, b: Ledger, t: Tid, u: Tid)
    requires LocksInv(s) && t in s.threads && u in s.threads && t != u && s.threads[t].pc.Do?
    ensures Rely(s.d, b, Apply(s.d, EffectAt(s, t)), Posted(b, EffectAt(s, t)), u, s.threads[u])
  {
    assert Shape(t, s.threads[t]);
    DoLicensed(s.d, t, s.threads[t]);
    DoInside(s.d, t, s.threads[t]);
    LicensedIsRelied(s, EffectAt(s, t), b, t, u);
  }

  lemma OwnBelief(s: State, t: Tid)
    requires MainInv(s) && t in s.threads && s.threads[t].pc.Do?
    ensures Believes(Apply(s.d, EffectAt(s, t)), Posted(Replay(s.d.log), EffectAt(s, t)), AfterDo(s, t))
  {
    var th, b := s.threads[t], Replay(s.d.log);
    assert Shape(t, th) && Believes(s.d, b, th);
    HeapInjective(s.d, s.threads);
    var (v', pc') := DataStep(s.d, th.pc.s, th.job, th.v);
    StepReady(s, t);
    DoKeepsBelief(s.d, b, t, th, v', pc');
  }

  lemma OthersBelief(s: State, t: Tid, u: Tid)
    requires MainInv(s) && t in s.threads && u in s.threads && t != u && s.threads[t].pc.Do?
    ensures Believes(Apply(s.d, EffectAt(s, t)), Posted(Replay(s.d.log), EffectAt(s, t)), s.threads[u])
  {
    var b, e := Replay(s.d.log), EffectAt(s, t);
    assert Shape(u, s.threads[u]) && Believes(s.d, b, s.threads[u]);
    HeapInjective(s.d, s.threads);
    OthersRely(s, b, t, u);
    Stable(s.d, b, Apply(s.d, e), Posted(b, e), u, s.threads[u]);
  }

  lemma DoBeliefs(s: State, t: Tid, u: Tid)
    requires MainInv(s) && t in s.threads && u in s.threads && s.threads[t].pc.Do?
    ensures var th' := if u == t then AfterDo(s, t) else s.threads[u];
            Believes(Apply(s.d, EffectAt(s, t)), Posted(Replay(s.d.log), EffectAt(s, t)), th')
  {
    if u == t { OwnBelief(s, t); } else { OthersBelief(s, t, u); }
  }

  lemma DoInside(d: Data, tid: Tid, th: Thread)
    requires Shape(tid, th) && th.pc.Do?
    ensures var e := EffectOf(d, tid, th.pc.s, th.job, th.v);
            e.SetBal? || e.Log? ==> th.held.list == In || th.held.list == Writing
  {
  }

  lemma DoHeap(s: State, t: Tid)
    requires MainInv(s) && t in s.threads && s.threads[t].pc.Do?
    ensures HeapInv(Apply(s.d, EffectAt(s, t)), s.threads[t := AfterDo(s, t)])
  {
    var th, b := s.threads[t], Replay(s.d.log);
    assert Shape(t, th) && Believes(s.d, b, th);
    HeapInjective(s.d, s.threads);
    var (v', pc') := DataStep(s.d, th.pc.s, th.job, th.v);
    DoSound(s.d, b, t, th);
    DoMarks(s.d, b, t, th, v', pc');
    HeapKept(s.d, s.threads, t, AfterDo(s, t), EffectAt(s, t), Gain(th.pc.s, th.job, th.v), th.v.fee);
  }

  lemma HeapKept(d: Data, threads: map<Tid, Thread>, t: Tid, th': Thread, e: Effect, gain: int, fee: int)
    requires HeapInv(d, threads) && t in threads && Sound(d, e, gain, fee)
    requires MarksFollow(d, e, threads[t], th')
    ensures HeapInv(Apply(d, e), threads[t := th'])
  {
    forall k | k in Apply(d, e).open ensures OpenOk(Apply(d, e), threads[t := th'], k) {
      OpenKept(d, threads, t, th', e, gain, fee, k);
    }
    forall k | k in Apply(d, e).closed ensures ClosedOk(Apply(d, e), threads[t := th'], k) {
      ClosedKept(d, threads, t, th', e, gain, fee, k);
    }
  }

  /** The facts about one step that the bookkeeping lemmas ask for. */
  lemma DoFacts(s: State, t: Tid, r: Ref, k: int)
    requires MainInv(s) && t in s.threads && s.threads[t].pc.Do?
    ensures var th, th', e := s.threads[t], AfterDo(s, t), EffectAt(s, t);
            var gain := Gain(th.pc.s, th.job, th.v);
      && Sound(s.d, e, gain, th.v.fee)
      && OwesAt(th', r) - OwesAt(th, r) == (if e.Log? then -OwesAt(th, r) else AcctEffect(e, gain, r))
      && OwesKey(th', k) - OwesKey(th, k) == (if e.Log? then -OwesKey(th, k) else KeyEffect(e, k))
      && DebtOf(th').vault - DebtOf(th).vault
         == (if e.Log? then -DebtOf(th).vault else if e.SetVault? then th.v.fee else 0)
  {
    var th, b := s.threads[t], Replay(s.d.log);
    assert Shape(t, th) && Believes(s.d, b, th);
    HeapInjective(s.d, s.threads);
    assert th.pc.s.Store2? ==> th.held.b != Out;
    var (v', pc') := DataStep(s.d, th.pc.s, th.job, th.v);
    DoSound(s.d, b, t, th);
    DoAcctDebt(s.d, t, th, v', pc', r);
    DoKeyDebt(s.d, t, th, v', pc', k);
    DoVaultDebt(s.d, t, th, v', pc');
  }

  lemma DoLogs(s: State, t: Tid, k: int)
    requires MainInv(s) && t in s.threads && s.threads[t].pc.Do? && EffectAt(s, t).Log?
    ensures var b, line := Replay(s.d.log), EffectAt(s, t).line;
            Truthful(b, line) && Settles(b, Post(b, line), s.d, s.threads[t], k)
    ensures s.threads[t].held.list == In || s.threads[t].held.list == Writing
  {
    assert Shape(t, s.threads[t]);
    AppendSettles(s, t, k);
  }

  lemma DoKeyBooked(s: State, t: Tid, k: int)
    requires MainInv(s) && t in s.threads && s.threads[t].pc.Do?
    ensures KeyBooked(Apply(s.d, EffectAt(s, t)), Posted(Replay(s.d.log), EffectAt(s, t)),
                      s.threads[t := AfterDo(s, t)], k)
  {
    var th := s.threads[t];
    assert KeyBooked(s.d, Replay(s.d.log), s.threads, k);
    DoFacts(s, t, 0, k);
    if EffectAt(s, t).Log? { DoLogs(s, t, k); }
    KeyKept(s.d, Replay(s.d.log), s.threads, t, AfterDo(s, t), EffectAt(s, t),
            Gain(th.pc.s, th.job, th.v), th.v.fee, k);
  }

  lemma DoVaultBooked(s: State, t: Tid)
    requires MainInv(s) && t in s.threads && s.threads[t].pc.Do?
    ensures VaultBooked(Apply(s.d, EffectAt(s, t)), Posted(Replay(s.d.log), EffectAt(s, t)),
                        s.threads[t := AfterDo(s, t)])
  {
    var th := s.threads[t];
    DoFacts(s, t, 0, 0);
    if EffectAt(s, t).Log? { DoLogs(s, t, 0); }
    VaultKept(s.d, Replay(s.d.log), s.threads, t, AfterDo(s, t), EffectAt(s, t), Gain(th.pc.s, th.job, th.v));
  }

  /** An opening reaches the ledger only with its line. */
  lemma InsertsNew(d: Data, b: Ledger, tid: Tid, th: Thread)
    requires Shape(tid, th) && th.pc.Do? && Believes(d, b, th)
    ensures var e := EffectOf(d, tid, th.pc.s, th.job, th.v);
            e.PutOpen? ==> e.id !in d.open && OwesKey(th, e.id) == 0 && (th.held.list == Writing || th.held.list == In)
  {
  }

  lemma PutOpenNotBooked(s: State, t: Tid)
    requires MainInv(s) && t in s.threads && s.threads[t].pc.Do? && EffectAt(s, t).PutOpen?
    ensures EffectAt(s, t).id !in Replay(s.d.log).accts
  {
    var th := s.threads[t];
    assert Shape(t, th) && Believes(s.d, Replay(s.d.log), th);
    InsertsNew(s.d, Replay(s.d.log), t, th);
    OwnKeyDebt(s, t, EffectAt(s, t).id);
    assert KeyBooked(s.d, Replay(s.d.log), s.threads, EffectAt(s, t).id);
  }

  lemma OldAcctBooked(s: State, t: Tid, k: int)
    requires MainInv(s) && t in s.threads && s.threads[t].pc.Do?
    requires k in s.d.open && k in Replay(s.d.log).accts
    requires k in Apply(s.d, EffectAt(s, t)).open && k in Posted(Replay(s.d.log), EffectAt(s, t)).accts
    ensures AcctBooked(Apply(s.d, EffectAt(s, t)), Posted(Replay(s.d.log), EffectAt(s, t)),
                       s.threads[t := AfterDo(s, t)], k)
  {
    var th, b, e := s.threads[t], Replay(s.d.log), EffectAt(s, t);
    if e.Log? { DoLogs(s, t, k); }
    assert AcctBooked(s.d, b, s.threads, k) && OpenOk(s.d, s.threads, k);
    DoFacts(s, t, s.d.open[k], k);
    AcctKept(s.d, b, s.threads, t, AfterDo(s, t), e, Gain(th.pc.s, th.job, th.v), th.v.fee, k);
  }

  /** An account that a logged line has just put into the ledger. */
  lemma NewAcctBooked(s: State, t: Tid, k: int)
    requires MainInv(s) && t in s.threads && s.threads[t].pc.Do? && EffectAt(s, t).Log?
    requires k in s.d.open && k !in Replay(s.d.log).accts
    requires k in Apply(s.d, EffectAt(s, t)).open && k in Posted(Replay(s.d.log), EffectAt(s, t)).accts
    ensures AcctBooked(Apply(s.d, EffectAt(s, t)), Posted(Replay(s.d.log), EffectAt(s, t)),
                       s.threads[t := AfterDo(s, t)], k)
  {
    var e := EffectAt(s, t);
    DoLogs(s, t, k);
    DoFacts(s, t, s.d.open[k], k);
    NewcomerDebt(s, t, k);
    AcctLearnt(s.d, Replay(s.d.log), s.threads, t, AfterDo(s, t), e.line, k);
  }

  lemma WasOpen(d: Data, b: Ledger, e: Effect, k: int)
    requires k in Apply(d, e).open && k in Posted(b, e).accts && (e.PutOpen? ==> e.id !in b.accts)
    ensures k in d.open && (k in b.accts || e.Log?)
  {
  }

  lemma DoAcctBooked(s: State, t: Tid, k: int)
    requires MainInv(s) && t in s.threads && s.threads[t].pc.Do?
    requires k in Apply(s.d, EffectAt(s, t)).open && k in Posted(Replay(s.d.log), EffectAt(s, t)).accts
    ensures AcctBooked(Apply(s.d, EffectAt(s, t)), Posted(Replay(s.d.log), EffectAt(s, t)),
                       s.threads[t := AfterDo(s, t)], k)
  {
    if EffectAt(s, t).PutOpen? { PutOpenNotBooked(s, t); }
    WasOpen(s.d, Replay(s.d.log), EffectAt(s, t), k);
    if k in Replay(s.d.log).accts { OldAcctBooked(s, t, k); } else { NewAcctBooked(s, t, k); }
  }

  lemma NewcomerDebt(s: State, t: Tid, k: int)
    requires MainInv(s) && t in s.threads && s.threads[t].pc.Do? && EffectAt(s, t).Log?
    requires k in s.d.open && k !in Replay(s.d.log).accts && k in Post(Replay(s.d.log), EffectAt(s, t).line).accts
    ensures AcctDebt(s.threads, s.d.open[k]) == OwesAt(s.threads[t], s.d.open[k])
  {
    var th := s.threads[t];
    DoLogs(s, t, k);
    assert Shape(t, th) && Believes(s.d, Replay(s.d.log), th);
    assert AcctRole(th, s.d.open[k]) == Writing;
    OwnAcctDebt(s, t, s.d.open[k]);
  }

  lemma DoBooked(s: State, t: Tid)
    requires MainInv(s) && t in s.threads && s.threads[t].pc.Do?
    ensures Booked(Apply(s.d, EffectAt(s, t)), Posted(Replay(s.d.log), EffectAt(s, t)), s.threads[t := AfterDo(s, t)])
  {
    var d', b' := Apply(s.d, EffectAt(s, t)), Posted(Replay(s.d.log), EffectAt(s, t));
    var threads' := s.threads[t := AfterDo(s, t)];
    DoVaultBooked(s, t);
    forall k ensures KeyBooked(d', b', threads', k) { DoKeyBooked(s, t, k); }
    forall k | k in d'.open && k in b'.accts ensures AcctBooked(d', b', threads', k) { DoAcctBooked(s, t, k); }
  }

  lemma DoFaithful(s: State, t: Tid)
    requires MainInv(s) && t in s.threads && s.threads[t].pc.Do?
    ensures Faithful(Apply(s.d, EffectAt(s, t)).log)
    ensures Replay(Apply(s.d, EffectAt(s, t)).log) == Posted(Replay(s.d.log), EffectAt(s, t))
  {
    if EffectAt(s, t).Log? { DoLogs(s, t, 0); }
    LedgerAfter(s.d, EffectAt(s, t));
  }

  lemma DoKeepsBeliefs(s: State, t: Tid)
    requires MainInv(s) && t in s.threads && s.threads[t].pc.Do?
    ensures var threads' := s.threads[t := AfterDo(s, t)];
            forall u | u in threads' ::
              Believes(Apply(s.d, EffectAt(s, t)), Posted(Replay(s.d.log), EffectAt(s, t)), threads'[u])
  {
    var threads' := s.threads[t := AfterDo(s, t)];
    forall u | u in threads'
      ensures Believes(Apply(s.d, EffectAt(s, t)), Posted(Replay(s.d.log), EffectAt(s, t)), threads'[u]) {
      DoBeliefs(s, t, u);
    }
  }

  lemma DoKeepsMain(s: State, t: Tid, rate: int, s': State)
    requires MainInv(s) && t in s.threads && s.threads[t].pc.Do? && Next(s, t, rate) == Some(s')
    ensures MainInv(s')
  {
    NextKeepsLocks(s, t, rate, s');
    NextIsDo(s, t, rate, s');
    DoHeap(s, t);
    DoBooked(s, t);
    DoFaithful(s, t);
    DoKeepsBeliefs(s, t);
  }

  // ---------- lock steps and starts ----------

  /** The data and all debts stand still: the books do. */
  lemma SameBooks(d: Data, d': Data, b: Ledger, threads: map<Tid, Thread>, t: Tid, th': Thread)
    requires t in threads && Booked(d, b, threads)
    requires d'.open == d.open && d'.heap == d.heap && d'.vault == d.vault
    requires forall r: Ref :: OwesAt(th', r) == OwesAt(threads[t], r)
    requires forall k :: OwesKey(th', k) == OwesKey(threads[t], k)
    requires DebtOf(th').vault == DebtOf(threads[t]).vault
    ensures Booked(d', b, threads[t := th'])
  {
    var threads' := threads[t := th'];
    VaultDebtUpdate(threads, t, th');
    forall k ensures KeyBooked(d', b, threads', k) {
      KeyDebtUpdate(threads, t, th', k);
      assert KeyBooked(d, b, threads, k);
    }
    forall k | k in d'.open && k in b.accts ensures AcctBooked(d', b, threads', k) {
      AcctDebtUpdate(threads, t, th', d.open[k]);
      assert AcctBooked(d, b, threads, k);
    }
  }

  lemma SameHeap(d: Data, d': Data, threads: map<Tid, Thread>, t: Tid, th': Thread)
    requires HeapInv(d, threads) && t in threads
    requires d'.open == d.open && d'.heap == d.heap && d'.closed == d.closed
    requires threads[t].pc != Do(Erase) && threads[t].pc != Do(Mark)
    ensures HeapInv(d', threads[t := th'])
  {
    HeapKept(d, threads, t, th', Nothing, 0, 0);
    assert Apply(d, Nothing) == d;
  }

  lemma FlagsNotBelieved(d: Data, d': Data, b: Ledger, tid: Tid, th: Thread)
    requires Shape(tid, th) && RefsOk(d) && Believes(d, b, th)
    requires d' == d.(wants := d'.wants, progress := d'.progress)
    ensures Believes(d', b, th)
  {
    Stable(d, b, d', b, tid, th);
  }

  /** Beliefs do not read the flags. */
  lemma FlagsUnseen(s: State, d': Data, u: Tid)
    requires MainInv(s) && u in s.threads
    requires d' == s.d.(wants := d'.wants, progress := d'.progress)
    ensures Believes(d', Replay(s.d.log), s.threads[u])
  {
    assert Shape(u, s.threads[u]) && Believes(s.d, Replay(s.d.log), s.threads[u]);
    HeapInjective(s.d, s.threads);
    FlagsNotBelieved(s.d, d', Replay(s.d.log), u, s.threads[u]);
  }

  /** A step that touches neither the data, save the flags, nor any debt. */
  lemma QuietStep(s: State, t: Tid, s': State)
    requires MainInv(s) && t in s.threads && LocksInv(s')
    requires t in s'.threads && s'.threads == s.threads[t := s'.threads[t]]
    requires s'.d == s.d.(wants := s'.d.wants, progress := s'.d.progress)
    requires s.threads[t].pc != Do(Erase) && s.threads[t].pc != Do(Mark)
    requires Believes(s'.d, Replay(s.d.log), s'.threads[t])
    requires forall r: Ref, k :: SameDebt(s.threads[t], s'.threads[t], r, k)
    ensures MainInv(s')
  {
    assert SameDebt(s.threads[t], s'.threads[t], 0, 0);
    forall r: Ref ensures OwesAt(s'.threads[t], r) == OwesAt(s.threads[t], r) {
      assert SameDebt(s.threads[t], s'.threads[t], r, 0);
    }
    forall k ensures OwesKey(s'.threads[t], k) == OwesKey(s.threads[t], k) {
      assert SameDebt(s.threads[t], s'.threads[t], 0, k);
    }
    SameBooks(s.d, s'.d, Replay(s.d.log), s.threads, t, s'.threads[t]);
    SameHeap(s.d, s'.d, s.threads, t, s'.threads[t]);
    QuietBeliefs(s, t, s');
  }

  lemma QuietBeliefs(s: State, t: Tid, s': State)
    requires MainInv(s) && t in s.threads
    requires t in s'.threads && s'.threads == s.threads[t := s'.threads[t]]
    requires s'.d == s.d.(wants := s'.d.wants, progress := s'.d.progress)
    requires Believes(s'.d, Replay(s.d.log), s'.threads[t])
    ensures Beliefs(s')
  {
    forall u | u in s'.threads ensures Believes(s'.d, Replay(s.d.log), s'.threads[u]) {
      if u != t { FlagsUnseen(s, s'.d, u); }
    }
  }

  predicate SameDebt(th: Thread, th': Thread, r: Ref, k: int) {
    OwesAt(th', r) == OwesAt(th, r) && OwesKey(th', k) == OwesKey(th, k) && DebtOf(th').vault == DebtOf(th).vault
  }

  lemma NextIsCall(s: State, t: Tid, rate: int, s': State)
    requires t in s.threads && s.threads[t].pc.Lock? && Next(s, t, rate) == Some(s')
    ensures s'.d == s.d && s'.script == s.script
    ensures exists h' :: s'.threads ==
              s.threads[t := s.threads[t].(
                held := h', pc := PcAfter(s.threads[t].pc.k, h', s.threads[t].job, s.threads[t].v.found))]
  {
  }

  lemma CallKeepsMain(s: State, t: Tid, rate: int, s': State)
    requires MainInv(s) && t in s.threads && s.threads[t].pc.Lock? && Next(s, t, rate) == Some(s')
    ensures MainInv(s')
  {
    var th, b := s.threads[t], Replay(s.d.log);
    assert Shape(t, th) && Believes(s.d, b, th);
    NextKeepsLocks(s, t, rate, s');
    NextIsCall(s, t, rate, s');
    var h' :| s'.threads == s.threads[t := th.(held := h', pc := PcAfter(th.pc.k, h', th.job, th.v.found))];
    CallKeepsBelief(s.d, b, t, th, h');
    forall r: Ref, k ensures SameDebt(th, s'.threads[t], r, k) { CallDebts(t, th, h', r, k); }
    QuietStep(s, t, s');
  }

  lemma StartDebts(d: Data, tid: Tid, th: Thread, rate: int)
    requires th.pc.Rest?
    ensures DebtOf(th) == NO_DEBT && DebtOf(Start(d, tid, th, rate)) == NO_DEBT
  {
  }

  lemma NextIsStart(s: State, t: Tid, rate: int, s': State)
    requires t in s.threads && s.threads[t].pc.Rest? && Next(s, t, rate) == Some(s')
    ensures s'.threads == s.threads[t := Start(s.d, t, s.threads[t], rate)] && s'.script == s.script
    ensures s'.d == Apply(s.d, StartEffect(Start(s.d, t, s.threads[t], rate))) == s.d.(wants := s'.d.wants)
  {
  }

  lemma StartIsQuiet(s: State, t: Tid, rate: int, s': State)
    requires t in s.threads && s.threads[t].pc.Rest? && Next(s, t, rate) == Some(s')
    ensures t in s'.threads && s'.threads == s.threads[t := s'.threads[t]]
    ensures s'.d == s.d.(wants := s'.d.wants, progress := s'.d.progress)
    ensures Believes(s'.d, Replay(s.d.log), s'.threads[t])
    ensures forall r: Ref, k :: SameDebt(s.threads[t], s'.threads[t], r, k)
  {
    NextIsStart(s, t, rate, s');
    StartBelieves(s.d, Replay(s.d.log), t, s.threads[t], rate);
    StartDebts(s.d, t, s.threads[t], rate);
  }

  lemma StartKeepsMain(s: State, t: Tid, rate: int, s': State)
    requires MainInv(s) && t in s.threads && s.threads[t].pc.Rest? && Next(s, t, rate) == Some(s')
    ensures MainInv(s')
  {
    NextKeepsLocks(s, t, rate, s');
    StartIsQuiet(s, t, rate, s');
    QuietStep(s, t, s');
  }

  lemma StopKeepsMain(s: State, s': State)
    requires MainInv(s) && StopStep(s, s')
    ensures MainInv(s')
  {
    forall r: Ref ensures AcctLockInv(s', r) { assert AcctLockInv(s, r); }
    FlagsUnseen(s, s'.d, Collector);
    assert s'.threads == s.threads[Collector := s'.threads[Collector]];
    assert Shape(Collector, s.threads[Collector]);
    assert LocksInv(s');
    QuietStep(s, Collector, s');
  }

  lemma InitMain(s: State)
    requires Init(s)
    ensures MainInv(s)
  {
    InitLocks(s);
    InitDebts(s, 0, 0);
    forall k ensures KeyBooked(s.d, EMPTY, s.threads, k) { InitDebts(s, 0, k); }
  }

  lemma StepKeepsMain(s: State, s': State)
    requires MainInv(s) && Step(s, s')
    ensures MainInv(s')
  {
    if StopStep(s, s') {
      StopKeepsMain(s, s');
    } else {
      var t :| ThreadStep(s, t, s');
      var rate :| 1 <= rate <= MAX_FEE && Next(s, t, rate) == Some(s');
      match s.threads[t].pc
      case Halted =>
      case Rest => StartKeepsMain(s, t, rate, s');
      case Do(_) => DoKeepsMain(s, t, rate, s');
      case Lock(_) => CallKeepsMain(s, t, rate, s');
    }
  }

  lemma {:induction false} RunKeepsMain(run: seq<State>, i: nat)
    requires IsRun(run) && i < |run|
    ensures MainInv(run[i])
  {
    if i == 0 {
      InitMain(run[0]);
    } else {
      RunKeepsMain(run, i - 1);
      StepKeepsMain(run[i - 1], run[i]);
    }
  }

  /** The main invariant holds in every state of every run, for any number of threads and any scripts. */
  lemma ReachableMain(s: State)
    requires Reachable(s)
    ensures MainInv(s)
  {
    var run :| IsRun(run) && run[|run| - 1] == s;
    RunKeepsMain(run, |run| - 1);
  }
}

/** Conservation of money at every instant of every run. */
module Money {
  import opened Sums
  import opened RwLock
  import opened SequentialBank
  import opened Machine
  import opened Control
  import opened Debts
  import opened Local
  import opened Books
  import opened Serial

  ghost function RealBalances(d: Data): map<int, int> {
    map k | k in d.open :: At(d, d.open[k]).bal
  }

  lemma BalancesAre(d: Data, m: map<int, int>)
    requires m.Keys == d.open.Keys && forall k | k in d.open :: m[k] == At(d, d.open[k]).bal
    ensures RealBalances(d) == m
  {
    var n := RealBalances(d);
    assert n.Keys == m.Keys;
    assert forall k | k in n :: n[k] == m[k];
    assert n == m;
  }

  /** What the open accounts and the bank really hold. */
  ghost function RealWorth(d: Data): int {
    Sum(RealBalances(d)) + d.vault
  }

  /** The money that a thread has brought in, paid out or taken half-way, and not logged: an unlogged
      deposit counts, a transfer counts only between its two writes, and so does a fee. */
  function InFlight(d: Data, th: Thread): int {
    var debt := DebtOf(th);
    debt.a + debt.b + debt.vault
    + match debt.key
      case Same => 0
      case Added => At(d, th.v.a).bal
      case Removed => -At(d, th.v.a).bal
  }

  ghost function InFlights(d: Data, threads: map<Tid, Thread>): map<Tid, int> {
    map t | t in threads :: InFlight(d, threads[t])
  }

  /** The money there is, is the money that came and went through the log, plus what is in flight. */
  ghost predicate MoneyInv(s: State) {
    RealWorth(s.d) == TotalFlow(s.d.log) + Sum(InFlights(s.d, s.threads))
  }

  // ---------- the real money ----------

  function WorthEffect(d: Data, e: Effect, gain: int, fee: int): int {
    match e
    case SetBal(_, _) => gain
    case SetVault(_) => fee
    case PutOpen(_, r) => At(d, r).bal
    case Drop(id) => if id in d.open then -At(d, d.open[id]).bal else 0
    case _ => 0
  }

  lemma SetBalWorth(d: Data, r: Ref, v: int)
    requires Injective(d) && RefsOk(d) && r < |d.heap|
    requires d.heap[r].id in d.open && d.open[d.heap[r].id] == r
    ensures RealWorth(Apply(d, SetBal(r, v))) == RealWorth(d) + v - d.heap[r].bal
  {
    var k := d.heap[r].id;
    SumUpdate(RealBalances(d), k, v);
    BalancesAre(Apply(d, SetBal(r, v)), RealBalances(d)[k := v]);
  }

  lemma PutOpenWorth(d: Data, id: int, r: Ref)
    requires id !in d.open
    ensures RealWorth(Apply(d, PutOpen(id, r))) == RealWorth(d) + At(d, r).bal
  {
    SumUpdate(RealBalances(d), id, At(d, r).bal);
    BalancesAre(Apply(d, PutOpen(id, r)), RealBalances(d)[id := At(d, r).bal]);
  }

  lemma DropWorth(d: Data, id: int)
    requires id in d.open
    ensures RealWorth(Apply(d, Drop(id))) == RealWorth(d) - At(d, d.open[id]).bal
  {
    SumPick(RealBalances(d), id);
    BalancesAre(Apply(d, Drop(id)), RealBalances(d) - {id});
  }

  lemma SameWorth(d: Data, e: Effect)
    requires RefsOk(d) && !(e.SetBal? || e.SetVault? || e.PutOpen? || e.Drop?)
    ensures RealWorth(Apply(d, e)) == RealWorth(d)
  {
    BalancesAre(Apply(d, e), RealBalances(d));
  }

  lemma WorthAfter(d: Data, e: Effect, gain: int, fee: int)
    requires Sound(d, e, gain, fee) && Injective(d) && RefsOk(d)
    requires e.SetBal? ==> d.heap[e.r].id in d.open && d.open[d.heap[e.r].id] == e.r
    ensures RealWorth(Apply(d, e)) == RealWorth(d) + WorthEffect(d, e, gain, fee)
  {
    match e
    case SetBal(r, v) => SetBalWorth(d, r, v);
    case PutOpen(id, r) => PutOpenWorth(d, id, r);
    case Drop(id) => DropWorth(d, id);
    case SetVault(_) => BalancesAre(Apply(d, e), RealBalances(d));
    case _ => SameWorth(d, e);
  }

  // ---------- the money in flight ----------

  /** The writes of a balance ... */
  lemma StoresInFlight(d: Data, b: Ledger, tid: Tid, th: Thread, v': Locals, pc': PC)
    requires Shape(tid, th) && th.pc.Do? && Believes(d, b, th) && RefsOk(d)
    requires th.pc.s.Store1? || th.pc.s.Store2? || th.pc.s.VaultStore?
    requires DataStep(d, th.pc.s, th.job, th.v) == (v', pc')
    ensures (var e := EffectOf(d, tid, th.pc.s, th.job, th.v);
             InFlight(Apply(d, e), th.(v := v', pc := pc'))
             == InFlight(d, th) + WorthEffect(d, e, Gain(th.pc.s, th.job, th.v), th.v.fee))
  {
  }

  /** ... and of the map. */
  lemma MapInFlight(d: Data, b: Ledger, tid: Tid, th: Thread, v': Locals, pc': PC)
    requires Shape(tid, th) && th.pc.Do? && Believes(d, b, th) && RefsOk(d)
    requires th.pc.s.Insert? || th.pc.s.Erase?
    requires DataStep(d, th.pc.s, th.job, th.v) == (v', pc')
    ensures (var e := EffectOf(d, tid, th.pc.s, th.job, th.v);
             InFlight(Apply(d, e), th.(v := v', pc := pc'))
             == InFlight(d, th) + WorthEffect(d, e, Gain(th.pc.s, th.job, th.v), th.v.fee))
  {
  }

  lemma DoInFlight(d: Data, b: Ledger, tid: Tid, th: Thread, v': Locals, pc': PC)
    requires Shape(tid, th) && th.pc.Do? && !th.pc.s.Append? && Believes(d, b, th) && RefsOk(d)
    requires DataStep(d, th.pc.s, th.job, th.v) == (v', pc')
    ensures (var e := EffectOf(d, tid, th.pc.s, th.job, th.v);
             InFlight(Apply(d, e), th.(v := v', pc := pc'))
             == InFlight(d, th) + WorthEffect(d, e, Gain(th.pc.s, th.job, th.v), th.v.fee))
  {
    var s := th.pc.s;
    if s.Store1? || s.Store2? || s.VaultStore? {
      StoresInFlight(d, b, tid, th, v', pc');
    } else if s.Insert? || s.Erase? {
      MapInFlight(d, b, tid, th, v', pc');
    } else {
      ReadsInFlight(d, tid, th, v', pc');
    }
  }

  lemma ReadsInFlight(d: Data, tid: Tid, th: Thread, v': Locals, pc': PC)
    requires Shape(tid, th) && th.pc.Do? && DataStep(d, th.pc.s, th.job, th.v) == (v', pc')
    requires !(th.pc.s.Store1? || th.pc.s.Store2? || th.pc.s.VaultStore?)
    requires !(th.pc.s.Insert? || th.pc.s.Erase? || th.pc.s.Append?)
    ensures DebtOf(th.(v := v', pc := pc')).key == DebtOf(th).key == Same
    ensures InFlight(d, th.(v := v', pc := pc')) == InFlight(d, th)
    ensures WorthEffect(d, EffectOf(d, tid, th.pc.s, th.job, th.v), Gain(th.pc.s, th.job, th.v), th.v.fee) == 0
  {
  }

  lemma LineFlow(d: Data, b: Ledger, tid: Tid, th: Thread)
    requires Shape(tid, th) && th.pc == Do(Append) && Believes(d, b, th)
    ensures Flow(LineOf(d, tid, th.job, th.v)) == InFlight(d, th)
  {
  }

  /** While another thread writes the account list, no step changes a balance. */
  lemma HeapUnderWriter(s: State, t: Tid, u: Tid)
    requires MainInv(s) && t in s.threads && u in s.threads && u != t && s.threads[t].pc.Do?
    requires s.threads[u].held.list == Writing
    ensures Apply(s.d, EffectAt(s, t)).heap == s.d.heap
  {
    assert Shape(t, s.threads[t]);
    DoLicensed(s.d, t, s.threads[t]);
    DoInside(s.d, t, s.threads[t]);
    LicensedIsRelied(s, EffectAt(s, t), Replay(s.d.log), t, u);
  }

  lemma OthersInFlight(s: State, t: Tid, u: Tid)
    requires MainInv(s) && t in s.threads && u in s.threads && u != t && s.threads[t].pc.Do?
    ensures InFlight(Apply(s.d, EffectAt(s, t)), s.threads[u]) == InFlight(s.d, s.threads[u])
  {
    if DebtOf(s.threads[u]).key != Same {
      assert Shape(u, s.threads[u]);
      DebtNeedsList(u, s.threads[u]);
      HeapUnderWriter(s, t, u);
    }
  }

  lemma SumAfter(d: Data, d': Data, threads: map<Tid, Thread>, t: Tid, th': Thread)
    requires t in threads
    requires forall u | u in threads && u != t :: InFlight(d', threads[u]) == InFlight(d, threads[u])
    ensures Sum(InFlights(d', threads[t := th']))
         == Sum(InFlights(d, threads)) + InFlight(d', th') - InFlight(d, threads[t])
  {
    SumUpdate(InFlights(d, threads), t, InFlight(d', th'));
    assert InFlights(d', threads[t := th']) == InFlights(d, threads)[t := InFlight(d', th')];
  }

  /** An account that is written to is on the map. */
  lemma WrittenIsOpen(d: Data, b: Ledger, tid: Tid, th: Thread)
    requires Shape(tid, th) && th.pc.Do? && Believes(d, b, th)
    requires forall k | k in d.open :: d.open[k] < |d.heap| && d.heap[d.open[k]].id == k
    ensures var e := EffectOf(d, tid, th.pc.s, th.job, th.v);
            e.SetBal? ==> e.r < |d.heap| && d.heap[e.r].id in d.open && d.open[d.heap[e.r].id] == e.r
  {
  }

  lemma HeapIds(d: Data, threads: map<Tid, Thread>)
    requires HeapInv(d, threads)
    ensures forall k | k in d.open :: d.open[k] < |d.heap| && d.heap[d.open[k]].id == k
    ensures Injective(d) && RefsOk(d)
  {
    forall k | k in d.open ensures d.open[k] < |d.heap| && d.heap[d.open[k]].id == k {
      assert OpenOk(d, threads, k);
    }
  }

  lemma DoWorth(s: State, t: Tid)
    requires MainInv(s) && t in s.threads && s.threads[t].pc.Do?
    ensures RealWorth(Apply(s.d, EffectAt(s, t)))
         == RealWorth(s.d) + WorthEffect(s.d, EffectAt(s, t), Gain(s.threads[t].pc.s, s.threads[t].job, s.threads[t].v),
                                            s.threads[t].v.fee)
  {
    var th, b := s.threads[t], Replay(s.d.log);
    assert Shape(t, th) && Believes(s.d, b, th);
    HeapIds(s.d, s.threads);
    DoSound(s.d, b, t, th);
    WrittenIsOpen(s.d, b, t, th);
    WorthAfter(s.d, EffectAt(s, t), Gain(th.pc.s, th.job, th.v), th.v.fee);
  }

  lemma FlowAfter(d: Data, e: Effect)
    ensures TotalFlow(Apply(d, e).log) == TotalFlow(d.log) + (if e.Log? then Flow(e.line) else 0)
  {
    if e.Log? { TotalFlowAppend(d.log, e.line); }
  }

  lemma DoMoney(s: State, t: Tid, rate: int, s': State)
    requires MainInv(s) && MoneyInv(s) && t in s.threads && s.threads[t].pc.Do? && Next(s, t, rate) == Some(s')
    ensures MoneyInv(s')
  {
    var th, b := s.threads[t], Replay(s.d.log);
    assert Shape(t, th) && Believes(s.d, b, th);
    NextIsDo(s, t, rate, s');
    DoWorth(s, t);
    forall u | u in s.threads && u != t
      ensures InFlight(Apply(s.d, EffectAt(s, t)), s.threads[u]) == InFlight(s.d, s.threads[u]) {
      OthersInFlight(s, t, u);
    }
    SumAfter(s.d, s'.d, s.threads, t, AfterDo(s, t));
    FlowAfter(s.d, EffectAt(s, t));
    OwnInFlight(s, t);
  }

  /** A logged line takes its flow out of what is in flight. */
  lemma LogInFlight(d: Data, b: Ledger, tid: Tid, th: Thread, v': Locals, pc': PC)
    requires Shape(tid, th) && th.pc == Do(Append) && Believes(d, b, th)
    requires DataStep(d, Append, th.job, th.v) == (v', pc')
    ensures (var e := EffectOf(d, tid, Append, th.job, th.v);
             && e.Log? && Flow(e.line) == InFlight(d, th)
             && WorthEffect(d, e, Gain(Append, th.job, th.v), th.v.fee) == 0
             && InFlight(Apply(d, e), th.(v := v', pc := pc')) == 0)
  {
    LineFlow(d, b, tid, th);
    assert DebtOf(th.(v := v', pc := pc')) == NO_DEBT;
  }

  lemma OwnInFlight(s: State, t: Tid)
    requires MainInv(s) && t in s.threads && s.threads[t].pc.Do?
    ensures (var th, e := s.threads[t], EffectAt(s, t);
             InFlight(Apply(s.d, e), AfterDo(s, t)) - InFlight(s.d, th)
             == WorthEffect(s.d, e, Gain(th.pc.s, th.job, th.v), th.v.fee) - (if e.Log? then Flow(e.line) else 0))
  {
    var th, b := s.threads[t], Replay(s.d.log);
    if th.pc.s.Append? {
      assert Shape(t, th) && Believes(s.d, b, th);
      var (v', pc') := DataStep(s.d, th.pc.s, th.job, th.v);
      LogInFlight(s.d, b, t, th, v', pc');
    } else {
      OwnDoInFlight(s, t);
    }
  }

  lemma OwnDoInFlight(s: State, t: Tid)
    requires MainInv(s) && t in s.threads && s.threads[t].pc.Do? && !s.threads[t].pc.s.Append?
    ensures (var th, e := s.threads[t], EffectAt(s, t);
             !e.Log? && InFlight(Apply(s.d, e), AfterDo(s, t)) - InFlight(s.d, th)
             == WorthEffect(s.d, e, Gain(th.pc.s, th.job, th.v), th.v.fee))
  {
    var th, b := s.threads[t], Replay(s.d.log);
    assert Shape(t, th) && Believes(s.d, b, th);
    HeapIds(s.d, s.threads);
    var (v', pc') := DataStep(s.d, th.pc.s, th.job, th.v);
    DoInFlight(s.d, b, t, th, v', pc');
  }

  lemma FlagsWorth(d: Data, d': Data, threads: map<Tid, Thread>)
    requires d' == d.(wants := d'.wants, progress := d'.progress)
    ensures RealWorth(d') == RealWorth(d) && InFlights(d', threads) == InFlights(d, threads)
  {
    BalancesAre(d', RealBalances(d));
    assert InFlights(d', threads) == InFlights(d, threads);
  }

  /** Steps that change neither the money nor a debt. */
  lemma QuietMoney(s: State, t: Tid, s': State)
    requires MoneyInv(s) && t in s.threads && t in s'.threads
    requires s'.threads == s.threads[t := s'.threads[t]]
    requires s'.d == s.d.(wants := s'.d.wants, progress := s'.d.progress)
    requires InFlight(s.d, s'.threads[t]) == InFlight(s.d, s.threads[t])
    ensures MoneyInv(s')
  {
    SumAfter(s.d, s.d, s.threads, t, s'.threads[t]);
    FlagsWorth(s.d, s'.d, s'.threads);
  }

  lemma CallInFlight(d: Data, tid: Tid, th: Thread, h': Held)
    requires Shape(tid, th) && th.pc.Lock?
    ensures InFlight(d, th.(held := h', pc := PcAfter(th.pc.k, h', th.job, th.v.found))) == InFlight(d, th)
  {
  }

  lemma NextMoney(s: State, t: Tid, rate: int, s': State)
    requires MainInv(s) && MoneyInv(s) && t in s.threads && Next(s, t, rate) == Some(s')
    ensures MoneyInv(s')
  {
    var th := s.threads[t];
    assert Shape(t, th);
    match th.pc
    case Halted =>
    case Rest =>
      NextIsStart(s, t, rate, s');
      StartDebts(s.d, t, th, rate);
      QuietMoney(s, t, s');
    case Lock(k) =>
      NextIsCall(s, t, rate, s');
      var h' :| s'.threads == s.threads[t := th.(held := h', pc := PcAfter(k, h', th.job, th.v.found))];
      CallInFlight(s.d, t, th, h');
      QuietMoney(s, t, s');
    case Do(_) => DoMoney(s, t, rate, s');
  }

  lemma InitMoney(s: State)
    requires Init(s)
    ensures MoneyInv(s)
  {
    assert RealBalances(s.d) == map[];
    SumZero(InFlights(s.d, s.threads));
  }
}

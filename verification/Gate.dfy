/** The gate before the account list: while a writer of the list wants it, at most one ATM gets in ahead. */
module Gate {
  import opened RwLock
  import opened SequentialBank
  import opened Machine
  import opened Control
  import opened Locking
  import opened Serial
  import opened Order
  import opened Linearization
  import opened Waiting

  // ---------- the flag ----------

  /** A writer of the list that has announced itself and not yet taken that back. */
  predicate Announced(th: Thread) {
    UnderWay(th) && WritesList(th.job) && th.pc != Lock(GateGive)
  }

  ghost predicate FlagInv(s: State) {
    s.d.wants ==> exists t :: t in s.threads && Announced(s.threads[t])
  }

  lemma DoFlag(d: Data, tid: Tid, th: Thread, v': Locals, pc': PC)
    requires Shape(tid, th) && th.pc.Do? && DataStep(d, th.pc.s, th.job, th.v) == (v', pc')
    ensures (var d' := Apply(d, EffectOf(d, tid, th.pc.s, th.job, th.v));
             && (Announced(th) ==> Announced(th.(v := v', pc := pc')) || !d'.wants)
             && (d'.wants ==> d.wants))
  {
  }

  lemma CallFlag(tid: Tid, th: Thread, h': Held)
    requires Shape(tid, th) && th.pc.Lock? && Announced(th)
    ensures Announced(th.(held := h', pc := PcAfter(th.pc.k, h', th.job, th.v.found)))
  {
  }

  lemma StartFlag(d: Data, tid: Tid, th: Thread, rate: int)
    requires th.pc.Rest?
    ensures (var th' := Start(d, tid, th, rate);
             Apply(d, StartEffect(th')).wants ==> d.wants || Announced(th'))
  {
  }

  lemma FlagFollows(s: State, t: Tid, s': State)
    requires FlagInv(s) && t in s.threads && t in s'.threads && s'.threads == s.threads[t := s'.threads[t]]
    requires s'.d.wants ==> s.d.wants || Announced(s'.threads[t])
    requires s'.d.wants && Announced(s.threads[t]) ==> Announced(s'.threads[t])
    ensures FlagInv(s')
  {
    if s'.d.wants && !Announced(s'.threads[t]) {
      var u :| u in s.threads && Announced(s.threads[u]);
      assert u in s'.threads && Announced(s'.threads[u]);
    }
  }

  lemma NextFlag(s: State, t: Tid, rate: int, s': State)
    requires Shapes(s) && FlagInv(s) && t in s.threads && Next(s, t, rate) == Some(s')
    ensures FlagInv(s')
  {
    var th := s.threads[t];
    assert Shape(t, th);
    NextThreads(s, t, rate, s');
    match th.pc
    case Halted =>
    case Rest =>
      NextIsStart(s, t, rate, s');
      StartFlag(s.d, t, th, rate);
      FlagFollows(s, t, s');
    case Lock(_) =>
      NextIsCall(s, t, rate, s');
      var h' :| s'.threads == s.threads[t := th.(held := h', pc := PcAfter(th.pc.k, h', th.job, th.v.found))];
      if Announced(th) { CallFlag(t, th, h'); }
      FlagFollows(s, t, s');
    case Do(_) =>
      var (v', pc') := DataStep(s.d, th.pc.s, th.job, th.v);
      DoFlag(s.d, t, th, v', pc');
      NextIsDo(s, t, rate, s');
      FlagFollows(s, t, s');
  }

  lemma StepFlag(s: State, s': State)
    requires Shapes(s) && FlagInv(s) && Step(s, s')
    ensures FlagInv(s')
  {
    if !StopStep(s, s') {
      var t :| ThreadStep(s, t, s');
      var rate :| 1 <= rate <= MAX_FEE && Next(s, t, rate) == Some(s');
      NextFlag(s, t, rate, s');
    }
  }

  lemma {:induction false} RunFlag(run: seq<State>, i: nat)
    requires IsRun(run) && i < |run|
    ensures Shapes(run[i]) && FlagInv(run[i])
  {
    RunShapes(run, i);
    if i > 0 {
      RunFlag(run, i - 1);
      assert Step(run[i - 1], run[i - 1 + 1]);
      StepFlag(run[i - 1], run[i]);
    }
  }

  lemma RunShapes(run: seq<State>, i: nat)
    requires IsRun(run) && i < |run|
    ensures Shapes(run[i])
  {
    RunKeeps(run, i);
  }

  /** The flag is set only for a writer of the list that is still about. */
  lemma FlagMeansWriter(s: State)
    requires Reachable(s) && s.d.wants
    ensures exists t :: t in s.threads && Announced(s.threads[t])
  {
    var run :| IsRun(run) && run[|run| - 1] == s;
    RunFlag(run, |run| - 1);
  }

  lemma {:induction false} PathFull(path: seq<State>, j: nat)
    requires IsPath(path) && j < |path| && FullInv(path[0])
    ensures FullInv(path[j])
  {
    if j > 0 {
      PathFull(path, j - 1);
      assert Step(path[j - 1], path[j - 1 + 1]);
      StepKeeps(path[j - 1], path[j]);
    }
  }

  lemma PathShapes(path: seq<State>, j: nat)
    requires IsPath(path) && j < |path| && Reachable(path[0])
    ensures Shapes(path[j])
  {
    ReachableFull(path[0]);
    PathFull(path, j);
  }

  lemma WriterSetsFlag(s: State, t: Tid, rate: int, s': State)
    requires t in s.threads && s.threads[t].pc.Rest? && Next(s, t, rate) == Some(s')
    ensures t in s'.threads && (Announced(s'.threads[t]) ==> s'.d.wants)
  {
  }

  lemma OnlyUnwantClears(s: State, t: Tid, rate: int, s': State)
    requires t in s.threads && s.d.wants && Next(s, t, rate) == Some(s') && s.threads[t].pc != Do(Unwant)
    requires Shape(t, s.threads[t])
    ensures s'.d.wants
  {
  }

  /** If the thread has announced itself, the flag is set. */
  predicate Wish(s: State, t: Tid) {
    t in s.threads && (Announced(s.threads[t]) ==> s.d.wants)
  }

  /** No thread is about to take an announcement back. */
  predicate Standing(s: State) {
    forall u | u in s.threads :: s.threads[u].pc != Do(Unwant)
  }

  lemma WishNext(s: State, t: Tid, u: Tid, rate: int, s': State)
    requires u in s.threads && Shape(u, s.threads[u]) && Wish(s, t) && Standing(s) && Next(s, u, rate) == Some(s')
    ensures Wish(s', t)
  {
    NextThreads(s, u, rate, s');
    if s.d.wants {
      OnlyUnwantClears(s, u, rate, s');
    } else if u == t && s.threads[t].pc.Rest? {
      WriterSetsFlag(s, t, rate, s');
    } else if u == t {
      NotAnnouncedLater(s, t, rate, s');
    }
  }

  lemma WishStep(s: State, t: Tid, s': State)
    requires Shapes(s) && Wish(s, t) && Standing(s) && Step(s, s')
    ensures Wish(s', t)
  {
    if !StopStep(s, s') {
      var u :| ThreadStep(s, u, s');
      var rate :| 1 <= rate <= MAX_FEE && Next(s, u, rate) == Some(s');
      WishNext(s, t, u, rate, s');
    }
  }

  lemma NotAnnouncedLater(s: State, t: Tid, rate: int, s': State)
    requires t in s.threads && Shape(t, s.threads[t]) && !Announced(s.threads[t]) && !s.threads[t].pc.Rest?
    requires Next(s, t, rate) == Some(s')
    ensures t in s'.threads && !Announced(s'.threads[t])
  {
  }

  /** A step from a shaped state in which nobody takes an announcement back. */
  ghost predicate Undisturbed(s: State, s': State) {
    Shapes(s) && Standing(s) && Step(s, s')
  }

  lemma {:induction false} WishFrom(path: seq<State>, j: nat, t: Tid)
    requires j < |path| && Wish(path[0], t)
    requires forall i | 1 <= i < |path| :: Undisturbed(path[i - 1], path[i])
    ensures Wish(path[j], t)
  {
    if j > 0 {
      WishFrom(path, j - 1, t);
      WishStep(path[j - 1], t, path[j]);
    }
  }

  /** From a writer's announcement on the flag is set, for as long as nobody takes back an announcement. */
  lemma WishStands(path: seq<State>, j: nat, t: Tid)
    requires IsPath(path) && j < |path| && Reachable(path[0]) && Wish(path[0], t)
    requires forall i | 0 <= i < |path| :: Standing(path[i])
    ensures Wish(path[j], t)
  {
    forall i | 1 <= i < |path| ensures Undisturbed(path[i - 1], path[i]) {
      PathShapes(path, i - 1);
      assert Standing(path[i - 1]) && Step(path[i - 1], path[i - 1 + 1]);
    }
    WishFrom(path, j, t);
  }

  // ---------- overtaking ----------

  /** The thread is not among the readers of the list, nor past the gate on its way there. */
  predicate Outside(th: Thread) {
    !UnderWay(th) || th.pc == Lock(GateTake) || WritesList(th.job)
  }

  lemma OutsideHasNothing(tid: Tid, th: Thread)
    requires Shape(tid, th) && Outside(th)
    ensures th.held.list == Out || th.held.list == Writing
  {
  }

  /** While the flag is set, an ATM gets past only through the gate, which it shuts. */
  lemma OutsideStep(s: State, t: Tid, rate: int, s': State)
    requires t in s.threads && t.Atm? && Shape(t, s.threads[t]) && Outside(s.threads[t]) && s.d.wants
    requires Next(s, t, rate) == Some(s')
    ensures t in s'.threads && (Outside(s'.threads[t]) || (!s.l.gate && s'.l.gate))
  {
  }

  /** Of these two at most one has got past, and then the gate is shut. */
  predicate OnePast(s: State, t: Tid, u: Tid) {
    && t in s.threads && u in s.threads
    && (Outside(s.threads[t]) || Outside(s.threads[u]))
    && ((Outside(s.threads[t]) && Outside(s.threads[u])) || s.l.gate)
  }

  lemma OnePastNext(s: State, t: Tid, u: Tid, w: Tid, rate: int, s': State)
    requires Shapes(s) && OnePast(s, t, u) && s.d.wants && t.Atm? && u.Atm? && t != u
    requires w in s.threads && Next(s, w, rate) == Some(s') && (s.l.gate ==> s'.l.gate)
    ensures OnePast(s', t, u)
  {
    assert Shape(w, s.threads[w]);
    NextThreads(s, w, rate, s');
    if (w == t || w == u) && Outside(s.threads[w]) { OutsideStep(s, w, rate, s'); }
  }

  lemma OnePastStep(s: State, t: Tid, u: Tid, s': State)
    requires Shapes(s) && OnePast(s, t, u) && s.d.wants && t.Atm? && u.Atm? && t != u
    requires Step(s, s') && (s.l.gate ==> s'.l.gate)
    ensures OnePast(s', t, u)
  {
    if !StopStep(s, s') {
      var w :| ThreadStep(s, w, s');
      var rate :| 1 <= rate <= MAX_FEE && Next(s, w, rate) == Some(s');
      OnePastNext(s, t, u, w, rate, s');
    }
  }

  /** The flag stays set and nobody opens the gate. */
  ghost predicate Wanted(path: seq<State>) {
    && (forall i | 0 <= i < |path| :: path[i].d.wants)
    && (forall i, j | 0 <= i < j < |path| && path[i].l.gate :: path[j].l.gate)
  }

  lemma {:induction false} OnePastOnPath(path: seq<State>, j: nat, t: Tid, u: Tid)
    requires IsPath(path) && j < |path| && Wanted(path) && Reachable(path[0])
    requires OnePast(path[0], t, u) && t.Atm? && u.Atm? && t != u
    ensures OnePast(path[j], t, u)
  {
    if j > 0 {
      OnePastOnPath(path, j - 1, t, u);
      assert Step(path[j - 1], path[j - 1 + 1]);
      PathShapes(path, j - 1);
      OnePastStep(path[j - 1], t, u, path[j]);
    }
  }

  /** While a writer's wish for the list stands and the gate is not given back, of all ATMs outside at most one
      gets to the list ahead of it, and none if the gate is shut. */
  lemma AtMostOneOvertakes(path: seq<State>, j: nat, t: Tid, u: Tid)
    requires IsPath(path) && j < |path| && Wanted(path) && Reachable(path[0])
    requires t in path[0].threads && u in path[0].threads && t.Atm? && u.Atm? && t != u
    requires Outside(path[0].threads[t]) && Outside(path[0].threads[u])
    ensures t in path[j].threads && u in path[j].threads
    ensures Outside(path[j].threads[t]) || Outside(path[j].threads[u])
  {
    OnePastOnPath(path, j, t, u);
  }

  lemma ShutStep(s: State, t: Tid, s': State)
    requires Shapes(s) && t in s.threads && t.Atm? && Outside(s.threads[t]) && s.d.wants && s.l.gate && Step(s, s')
    ensures t in s'.threads && Outside(s'.threads[t])
  {
    if !StopStep(s, s') {
      var w :| ThreadStep(s, w, s');
      var rate :| 1 <= rate <= MAX_FEE && Next(s, w, rate) == Some(s');
      assert Shape(w, s.threads[w]);
      NextThreads(s, w, rate, s');
      if w == t { OutsideStep(s, t, rate, s'); }
    }
  }

  /** Behind the shut gate nobody gets to the list. */
  lemma {:induction false} NoneOvertakes(path: seq<State>, j: nat, t: Tid)
    requires IsPath(path) && j < |path| && Wanted(path) && Reachable(path[0]) && path[0].l.gate
    requires t in path[0].threads && t.Atm? && Outside(path[0].threads[t])
    ensures t in path[j].threads && Outside(path[j].threads[t])
    ensures path[j].threads[t].held.list == Out || path[j].threads[t].held.list == Writing
  {
    if j > 0 {
      NoneOvertakes(path, j - 1, t);
      assert Step(path[j - 1], path[j - 1 + 1]);
      PathShapes(path, j - 1);
      ShutStep(path[j - 1], t, path[j]);
    }
    PathShapes(path, j);
    assert Shape(t, path[j].threads[t]);
    OutsideHasNothing(t, path[j].threads[t]);
  }

  lemma NotToGate(s: State, t: Tid, rate: int, s': State)
    requires t in s.threads && Shape(t, s.threads[t]) && !s.d.wants && Next(s, t, rate) == Some(s')
    ensures t in s'.threads && s'.threads[t].pc != Lock(GateTake)
  {
    var th := s.threads[t];
    match th.pc
    case Halted =>
    case Rest => NextIsStart(s, t, rate, s');
    case Do(_) =>
      DoNotToGate(s.d, th.pc.s, th.job, th.v);
      NextIsDo(s, t, rate, s');
    case Lock(_) => NextIsCall(s, t, rate, s');
  }

  lemma DoNotToGate(d: Data, s: DataPc, job: Job, v: Locals)
    requires DoFits(s, job, v.found, v.res)
    ensures DataStep(d, s, job, v).1 != Lock(GateTake)
  {
  }

  lemma UndelayedNext(s: State, t: Tid, w: Tid, rate: int, s': State)
    requires t in s.threads && s.threads[t].pc != Lock(GateTake) && !s.d.wants
    requires w in s.threads && Shape(w, s.threads[w]) && Next(s, w, rate) == Some(s')
    ensures t in s'.threads && s'.threads[t].pc != Lock(GateTake)
  {
    NextThreads(s, w, rate, s');
    if w == t { NotToGate(s, t, rate, s'); }
  }

  lemma UndelayedStep(s: State, t: Tid, s': State)
    requires Shapes(s) && t in s.threads && s.threads[t].pc != Lock(GateTake) && !s.d.wants && Step(s, s')
    ensures t in s'.threads && s'.threads[t].pc != Lock(GateTake)
  {
    if !StopStep(s, s') {
      var w :| ThreadStep(s, w, s');
      var rate :| 1 <= rate <= MAX_FEE && Next(s, w, rate) == Some(s');
      UndelayedNext(s, t, w, rate, s');
    }
  }

  /** While no writer of the list is about, nobody comes to wait at the gate. */
  lemma {:induction false} NobodyDelayed(path: seq<State>, j: nat, t: Tid)
    requires IsPath(path) && j < |path| && Reachable(path[0])
    requires forall i, u | 0 <= i < |path| && u in path[i].threads :: !Announced(path[i].threads[u])
    requires t in path[0].threads && path[0].threads[t].pc != Lock(GateTake)
    ensures Reachable(path[j]) && t in path[j].threads && path[j].threads[t].pc != Lock(GateTake)
  {
    if j > 0 {
      NobodyDelayed(path, j - 1, t);
      assert Step(path[j - 1], path[j - 1 + 1]);
      ReachesOn(path[j - 1], path[j]);
      if path[j - 1].d.wants { FlagMeansWriter(path[j - 1]); }
      PathShapes(path, j - 1);
      UndelayedStep(path[j - 1], t, path[j]);
    }
  }

  lemma ReachesOn(s: State, s': State)
    requires Reachable(s) && Step(s, s')
    ensures Reachable(s')
  {
    var run :| IsRun(run) && run[|run| - 1] == s;
    var more := run + [s'];
    forall i | 0 <= i < |more| - 1 ensures Step(more[i], more[i + 1]) {
      if i < |run| - 1 { assert Step(run[i], run[i + 1]); }
    }
    assert IsRun(more) && more[|more| - 1] == s';
  }
}

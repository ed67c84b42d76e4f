/** A thread's own step takes it from one belief to the next. */
module Steps {
  import opened SequentialBank
  import opened Machine
  import opened Control
  import opened Local

  /** What the invariants give a command before its data step, beyond its own belief: accounts on the map
      are not marked deleted, and the account about to go has its logged balance. */
  predicate CmdReady(d: Data, b: Ledger, c: Command, s: DataPc, v: Locals) {
    match s
    case Find => c.Open? && c.id in d.open ==> !At(d, d.open[c.id]).deleted
    case Check => !At(d, v.a).deleted && (c.Transfer? ==> !At(d, v.b).deleted)
    case Erase => v.a < |d.heap| && d.heap[v.a].id == c.id && c.id in b.accts
                  && b.accts[c.id] == Acct(d.heap[v.a].pw, d.heap[v.a].bal)
    case _ => true
  }

  lemma CmdFinds(d: Data, b: Ledger, tid: Tid, c: Command, v: Locals)
    requires DoFits(Find, Cmd(c), v.found, v.res) && RefsOk(d)
    requires CmdReady(d, b, c, Find, v)
    ensures var (v', pc') := DataStep(d, Find, Cmd(c), v);
            CmdLocal(Apply(d, EffectOf(d, tid, Find, Cmd(c), v)), b, c, pc', v')
  {
  }

  lemma CmdReads(d: Data, b: Ledger, tid: Tid, c: Command, s: DataPc, v: Locals)
    requires s.Check? || s.Test? || s.Load1? || s.Load2?
    requires DoFits(s, Cmd(c), v.found, v.res) && RefsOk(d)
    requires CmdLocal(d, b, c, Do(s), v) && CmdReady(d, b, c, s, v)
    ensures EffectOf(d, tid, s, Cmd(c), v) == Nothing
    ensures var (v', pc') := DataStep(d, s, Cmd(c), v); CmdLocal(d, b, c, pc', v')
  {
  }

  lemma CmdWrites(d: Data, b: Ledger, tid: Tid, c: Command, s: DataPc, v: Locals)
    requires !(s.Find? || s.Check? || s.Test? || s.Load1? || s.Load2?)
    requires DoFits(s, Cmd(c), v.found, v.res) && RefsOk(d)
    requires s.Store2? ==> v.a != v.b
    requires CmdLocal(d, b, c, Do(s), v) && CmdReady(d, b, c, s, v)
    ensures var e := EffectOf(d, tid, s, Cmd(c), v);
            var (v', pc') := DataStep(d, s, Cmd(c), v);
            CmdLocal(Apply(d, e), Posted(b, e), c, pc', v')
  {
  }

  lemma CmdCalls(d: Data, b: Ledger, c: Command, k: LockPc, h: Held, v: Locals)
    requires CallFits(k, Cmd(c), v.found, v.res)
    requires CmdLocal(d, b, c, Lock(k), v)
    ensures CmdLocal(d, b, c, PcAfter(k, h, Cmd(c), v.found), v)
  {
  }

  // ---------- sweeps ----------

  lemma NextKey(d: Data, v: Locals)
    requires Visited(d, v) && Ahead(d, v) != {}
    ensures var k := Least(Ahead(d, v));
            Visiting(d, v.(keys := d.open.Keys, found := true, key := k, a := d.open[k]))
  {
    var k := Least(Ahead(d, v));
    forall j | j in d.open && j < k ensures j in Ids(v.rows) {
      assert j !in Ahead(d, v);
      assert v.rows != [] && j <= v.key;
      if j == v.key { assert v.rows[|v.rows| - 1].id == j; }
    }
  }

  lemma NoKeyLeft(d: Data, v: Locals)
    requires Visited(d, v) && Ahead(d, v) == {}
    ensures Complete(d, v)
  {
    forall k | k in d.open ensures k in Ids(v.rows) {
      assert k !in Ahead(d, v);
      assert v.rows != [] && k <= v.key;
      if k == v.key { assert v.rows[|v.rows| - 1].id == k; }
    }
    forall k | k in Ids(v.rows) ensures k in d.open {}
  }

  lemma Visit(d: Data, v: Locals)
    requires Visiting(d, v) && At(d, v.a).id == v.key
    ensures Visited(d, v.(rows := v.rows + [Seen(d, v.a)]))
  {
    var rows' := v.rows + [Seen(d, v.a)];
    forall k | k in d.open && k < v.key ensures k in Ids(rows') {
      var i :| 0 <= i < |v.rows| && v.rows[i].id == k;
      assert rows'[i].id == k;
    }
  }

  predicate SweepReady(d: Data, s: DataPc, v: Locals) {
    s.FeeLoad? || s.Show? ==> At(d, v.a).id == v.key
  }

  lemma FeeFinds(d: Data, tid: Tid, rate: int, v: Locals)
    requires Visited(d, v)
    ensures var (v', pc') := DataStep(d, Find, FeeRound(rate), v);
            FeeLocal(Apply(d, EffectOf(d, tid, Find, FeeRound(rate), v)), rate, pc', v')
  {
    if Ahead(d, v) != {} { NextKey(d, v); }
  }

  lemma FeeDoes(d: Data, tid: Tid, rate: int, s: DataPc, v: Locals)
    requires s != Find && DoFits(s, FeeRound(rate), v.found, v.res) && RefsOk(d)
    requires FeeLocal(d, rate, Do(s), v) && SweepReady(d, s, v)
    ensures var (v', pc') := DataStep(d, s, FeeRound(rate), v);
            FeeLocal(Apply(d, EffectOf(d, tid, s, FeeRound(rate), v)), rate, pc', v')
  {
    if s.FeeLoad? { Visit(d, v); }
  }

  lemma FeeCalls(d: Data, rate: int, k: LockPc, h: Held, v: Locals)
    requires CallFits(k, FeeRound(rate), v.found, v.res)
    requires FeeLocal(d, rate, Lock(k), v)
    ensures FeeLocal(d, rate, PcAfter(k, h, FeeRound(rate), v.found), v)
  {
  }

  lemma PrintDoes(d: Data, tid: Tid, s: DataPc, v: Locals)
    requires DoFits(s, PrintRound, v.found, v.res) && RefsOk(d)
    requires PrintLocal(d, Do(s), v) && SweepReady(d, s, v)
    ensures var (v', pc') := DataStep(d, s, PrintRound, v);
            PrintLocal(Apply(d, EffectOf(d, tid, s, PrintRound, v)), pc', v')
  {
    if s.Find? {
      if Ahead(d, v) != {} { NextKey(d, v); } else { NoKeyLeft(d, v); }
    }
    if s.Show? { Visit(d, v); }
  }

  lemma PrintCalls(d: Data, k: LockPc, h: Held, v: Locals)
    requires CallFits(k, PrintRound, v.found, v.res)
    requires PrintLocal(d, Lock(k), v)
    ensures PrintLocal(d, PcAfter(k, h, PrintRound, v.found), v)
  {
  }

  // ---------- any job ----------

  predicate Ready(d: Data, b: Ledger, th: Thread) {
    th.pc.Do? ==>
      && (th.job.Cmd? ==> CmdReady(d, b, th.job.c, th.pc.s, th.v))
      && SweepReady(d, th.pc.s, th.v)
      && (th.pc.s.Store2? ==> th.v.a != th.v.b)
  }

  lemma CmdDoes(d: Data, b: Ledger, tid: Tid, c: Command, s: DataPc, v: Locals)
    requires DoFits(s, Cmd(c), v.found, v.res) && RefsOk(d)
    requires CmdLocal(d, b, c, Do(s), v) && CmdReady(d, b, c, s, v) && (s.Store2? ==> v.a != v.b)
    ensures var (v', pc') := DataStep(d, s, Cmd(c), v);
            var e := EffectOf(d, tid, s, Cmd(c), v);
            CmdLocal(Apply(d, e), Posted(b, e), c, pc', v')
  {
    if s.Find? { CmdFinds(d, b, tid, c, v); }
    else if s.Check? || s.Test? || s.Load1? || s.Load2? { CmdReads(d, b, tid, c, s, v); }
    else { CmdWrites(d, b, tid, c, s, v); }
  }

  lemma DoKeepsBelief(d: Data, b: Ledger, tid: Tid, th: Thread, v': Locals, pc': PC)
    requires Shape(tid, th) && th.pc.Do? && RefsOk(d)
    requires Believes(d, b, th) && Ready(d, b, th)
    requires DataStep(d, th.pc.s, th.job, th.v) == (v', pc')
    ensures var e := EffectOf(d, tid, th.pc.s, th.job, th.v);
            Believes(Apply(d, e), Posted(b, e), th.(v := v', pc := pc'))
  {
    match th.job
    case Cmd(c) => CmdDoes(d, b, tid, c, th.pc.s, th.v);
    case FeeRound(rate) =>
      if th.pc.s.Find? { FeeFinds(d, tid, rate, th.v); } else { FeeDoes(d, tid, rate, th.pc.s, th.v); }
    case PrintRound => PrintDoes(d, tid, th.pc.s, th.v);
  }

  lemma CallKeepsBelief(d: Data, b: Ledger, tid: Tid, th: Thread, h': Held)
    requires Shape(tid, th) && th.pc.Lock? && Believes(d, b, th)
    ensures Believes(d, b, th.(held := h', pc := PcAfter(th.pc.k, h', th.job, th.v.found)))
  {
    match th.job
    case Cmd(c) => CmdCalls(d, b, c, th.pc.k, h', th.v);
    case FeeRound(rate) => FeeCalls(d, rate, th.pc.k, h', th.v);
    case PrintRound => PrintCalls(d, th.pc.k, h', th.v);
  }

  lemma StartBelieves(d: Data, b: Ledger, tid: Tid, th: Thread, rate: int)
    ensures Believes(Apply(d, StartEffect(Start(d, tid, th, rate))), b, Start(d, tid, th, rate))
  {
  }
}

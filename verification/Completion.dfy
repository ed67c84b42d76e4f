/** From every reachable state, some schedule brings everything to an end: all scripts are carried out and
    logged, and all threads stop. */
module Completion {
  import opened Sums
  import opened RwLock
  import opened SequentialBank
  import opened Machine
  import opened Control
  import opened Locking
  import opened Local
  import opened Books
  import opened Serial
  import opened Order
  import opened Linearization
  import opened Waiting

  // ---------- how far a job is from its end ----------

  /** Micro-steps left inside a readers-writer lock. */
  function EntryLeft(role: Role): nat {
    match role
    case Out => 5
    case EnterRead => 4
    case EnterStore(_) => 3
    case EnterTest => 2
    case _ => 1
  }

  function ExitLeft(role: Role): nat {
    match role
    case In => 5
    case LeaveRead => 4
    case LeaveStore(_) => 3
    case LeaveTest => 2
    case _ => 1
  }

  const ROUND := 200

  /** An upper bound on the steps left in a command. */
  function CmdLeft(pc: PC, h: Held): nat {
    match pc
    case Halted => 0
    case Rest => 1
    case Lock(k) => (
      match k
      case GateTake => 100
      case ListIn => 90 + EntryLeft(h.list)
      case ListSeize => 90
      case TransferTake => 80
      case SeizeA => 78
      case SeizeB => 77
      case AcctIn => 70 + EntryLeft(h.a)
      case LogTake => 50
      case LogGive => 48
      case AcctOut => 41 + ExitLeft(h.a)
      case YieldA => 41
      case YieldB => 40
      case TransferGive => 39
      case ListOut => 20 + ExitLeft(h.list)
      case ListYield => 19
      case GateGive => 17)
    case Do(s) =>
      match s
      case Find => 79
      case Check => 60
      case Test => 59
      case Load1 => 58
      case Store1 => 57
      case Load2 => 56
      case Store2 => 55
      case Insert => 54
      case Retire => 53
      case Mark => 52
      case Erase => 51
      case Append => 49
      case Unwant => 18
      case _ => 60
  }

  /** An upper bound on the steps left in a sweep until it moves on to its next account. */
  function SweepPcLeft(pc: PC, h: Held): nat {
    match pc
    case Halted => 0
    case Rest => 1
    case Lock(k) => (
      match k
      case ListIn => 90 + EntryLeft(h.list)
      case ListSeize => 90
      case SeizeA => 78
      case AcctIn => 70 + EntryLeft(h.a)
      case LogTake => 146
      case LogGive => 144
      case YieldA => 143
      case AcctOut => 100 + ExitLeft(h.a)
      case ListOut => 20 + ExitLeft(h.list)
      case ListYield => 19
      case GateGive => 17
      case _ => 20)
    case Do(s) =>
      match s
      case Find => 79
      case FeeLoad => 60
      case Show => 60
      case VaultLoad => 150
      case VaultStore => 149
      case Load1 => 148
      case Store1 => 147
      case Append => 145
      case ShowVault => 30
      case Unwant => 18
      case _ => 60
  }

  /** Accounts that a sweep has not visited. */
  function Unvisited(d: Data, v: Locals): set<int> {
    d.open.Keys - Ids(v.rows)
  }

  function SweepLeft(d: Data, th: Thread): nat {
    SweepPcLeft(th.pc, th.held)
    + if UnderWay(th) && th.pc != Lock(ListOut) then ROUND * |Unvisited(d, th.v)| else 0
  }

  function AtmLeft(tid: Tid, th: Thread): nat {
    if tid.Atm? then CmdLeft(th.pc, th.held) + ROUND * |th.todo| else 0
  }

  ghost function AtmsLeft(threads: map<Tid, Thread>): map<Tid, int> {
    map t | t in threads :: AtmLeft(t, threads[t])
  }

  ghost function AllAtmsLeft(s: State): int {
    Sum(AtmsLeft(s.threads))
  }

  /** The printer rests while somebody may be waiting at its gate. */
  predicate GateForgotten(s: State) {
    s.l.gate && Printer in s.threads && s.threads[Printer].pc.Rest?
  }

  function SweepsLeft(s: State): nat
    requires Collector in s.threads && Printer in s.threads
  {
    SweepLeft(s.d, s.threads[Collector]) + SweepLeft(s.d, s.threads[Printer])
  }

  function Bit(p: bool): nat { if p then 1 else 0 }

  // ---------- own steps bring a job nearer to its end ----------

  predicate AroundLock(k: LockPc) { k.ListIn? || k.ListOut? || k.AcctIn? || k.AcctOut? }

  lemma CmdCrossNearer(l: Locks, k: LockPc, h: Held, a: Ref, b: Ref, l': Locks, h': Held,
                       c: Command, found: bool, res: Res)
    requires CallFits(k, Cmd(c), found, res) && HeldFits(Lock(k), Cmd(c), found, h) && AroundLock(k)
    requires LockStep(l, k, h, a, b) == Some((l', h'))
    ensures CmdLeft(PcAfter(k, h', Cmd(c), found), h') < CmdLeft(Lock(k), h)
  {
  }

  lemma CmdLogNearer(l: Locks, k: LockPc, h: Held, a: Ref, b: Ref, l': Locks, h': Held,
                     c: Command, found: bool, res: Res)
    requires CallFits(k, Cmd(c), found, res) && HeldFits(Lock(k), Cmd(c), found, h) && (k.LogTake? || k.LogGive?)
    requires LockStep(l, k, h, a, b) == Some((l', h'))
    ensures CmdLeft(PcAfter(k, h', Cmd(c), found), h') < CmdLeft(Lock(k), h)
  {
  }

  lemma CmdMutexNearer(l: Locks, k: LockPc, h: Held, a: Ref, b: Ref, l': Locks, h': Held,
                       c: Command, found: bool, res: Res)
    requires CallFits(k, Cmd(c), found, res) && HeldFits(Lock(k), Cmd(c), found, h)
    requires !AroundLock(k) && !k.LogTake? && !k.LogGive?
    requires LockStep(l, k, h, a, b) == Some((l', h'))
    ensures CmdLeft(PcAfter(k, h', Cmd(c), found), h') < CmdLeft(Lock(k), h)
  {
  }

  lemma CmdCallNearer(l: Locks, k: LockPc, h: Held, a: Ref, b: Ref, l': Locks, h': Held,
                      c: Command, found: bool, res: Res)
    requires CallFits(k, Cmd(c), found, res) && HeldFits(Lock(k), Cmd(c), found, h)
    requires LockStep(l, k, h, a, b) == Some((l', h'))
    ensures CmdLeft(PcAfter(k, h', Cmd(c), found), h') < CmdLeft(Lock(k), h)
  {
    if AroundLock(k) { CmdCrossNearer(l, k, h, a, b, l', h', c, found, res); }
    else if k.LogTake? || k.LogGive? { CmdLogNearer(l, k, h, a, b, l', h', c, found, res); }
    else { CmdMutexNearer(l, k, h, a, b, l', h', c, found, res); }
  }

  lemma CmdDoNearer(d: Data, s: DataPc, c: Command, v: Locals, h: Held, v': Locals, pc': PC)
    requires DoFits(s, Cmd(c), v.found, v.res) && HeldFits(Do(s), Cmd(c), v.found, h)
    requires DataStep(d, s, Cmd(c), v) == (v', pc')
    ensures CmdLeft(pc', h) < CmdLeft(Do(s), h)
  {
  }

  lemma SweepCallNearer(l: Locks, k: LockPc, h: Held, a: Ref, b: Ref, l': Locks, h': Held,
                        job: Job, found: bool, res: Res)
    requires !job.Cmd? && CallFits(k, job, found, res) && HeldFits(Lock(k), job, found, h)
    requires LockStep(l, k, h, a, b) == Some((l', h'))
    ensures SweepPcLeft(PcAfter(k, h', job, found), h') < SweepPcLeft(Lock(k), h)
    ensures k == ListOut ==> PcAfter(k, h', job, found) == Lock(ListOut) || PcAfter(k, h', job, found) == Rest
  {
  }

  lemma SweepDoNearer(d: Data, s: DataPc, job: Job, v: Locals, h: Held, v': Locals, pc': PC)
    requires !job.Cmd? && DoFits(s, job, v.found, v.res) && HeldFits(Do(s), job, v.found, h)
    requires DataStep(d, s, job, v) == (v', pc')
    ensures !(s.FeeLoad? || s.Show?) ==> v'.rows == v.rows && SweepPcLeft(pc', h) < SweepPcLeft(Do(s), h)
    ensures s.FeeLoad? || s.Show? ==>
      v'.rows == v.rows + [Seen(d, v.a)] && SweepPcLeft(pc', h) < SweepPcLeft(Do(s), h) + ROUND
  {
  }

  lemma VisitLeavesFewer(d: Data, v: Locals)
    requires Visiting(d, v) && At(d, v.a).id == v.key
    ensures |Unvisited(d, v.(rows := v.rows + [Seen(d, v.a)]))| == |Unvisited(d, v)| - 1
  {
    var rows' := v.rows + [Seen(d, v.a)];
    forall k ensures k in Ids(rows') <==> k in Ids(v.rows) || k == v.key {
      if k == v.key { assert rows'[|v.rows|].id == k; }
      if k in Ids(v.rows) {
        var i :| 0 <= i < |v.rows| && v.rows[i].id == k;
        assert rows'[i].id == k;
      }
    }
    assert v.key !in Ids(v.rows);
    assert d.open.Keys - Ids(rows') == (d.open.Keys - Ids(v.rows)) - {v.key};
  }

  lemma AtmNearer(s: State, t: Tid, rate: int, s': State)
    requires t in s.threads && t.Atm? && Shape(t, s.threads[t]) && Next(s, t, rate) == Some(s')
    ensures AtmLeft(t, s'.threads[t]) < AtmLeft(t, s.threads[t])
  {
    var th := s.threads[t];
    match th.pc
    case Halted =>
    case Rest => NextIsStart(s, t, rate, s');
    case Do(st) =>
      var (v', pc') := DataStep(s.d, st, th.job, th.v);
      CmdDoNearer(s.d, st, th.job.c, th.v, th.held, v', pc');
    case Lock(k) =>
      var (l', h') := LockStep(s.l, k, th.held, th.v.a, th.v.b).value;
      CmdCallNearer(s.l, k, th.held, th.v.a, th.v.b, l', h', th.job.c, th.v.found, th.v.res);
  }

  lemma SweepEffect(d: Data, tid: Tid, s: DataPc, job: Job, v: Locals)
    requires !job.Cmd? && DoFits(s, job, v.found, v.res)
    ensures Apply(d, EffectOf(d, tid, s, job, v)).open == d.open
  {
  }

  /** A sweep, once under way, comes nearer to its end with every step of its own. */
  lemma SweepDoLeft(d: Data, tid: Tid, th: Thread, v': Locals, pc': PC)
    requires Shape(tid, th) && th.pc.Do? && !th.job.Cmd? && DataStep(d, th.pc.s, th.job, th.v) == (v', pc')
    requires th.pc.s.FeeLoad? || th.pc.s.Show? ==> Visiting(d, th.v) && At(d, th.v.a).id == th.v.key
    ensures SweepLeft(d, th.(v := v', pc := pc')) < SweepLeft(d, th)
  {
    SweepDoNearer(d, th.pc.s, th.job, th.v, th.held, v', pc');
    if th.pc.s.FeeLoad? || th.pc.s.Show? {
      VisitLeavesFewer(d, th.v);
      assert Unvisited(d, v') == Unvisited(d, th.v.(rows := th.v.rows + [Seen(d, th.v.a)]));
    }
  }

  lemma SweepCallLeft(d: Data, l: Locks, tid: Tid, th: Thread, l': Locks, h': Held)
    requires Shape(tid, th) && th.pc.Lock? && !th.job.Cmd?
    requires LockStep(l, th.pc.k, th.held, th.v.a, th.v.b) == Some((l', h'))
    ensures SweepLeft(d, th.(held := h', pc := PcAfter(th.pc.k, h', th.job, th.v.found))) < SweepLeft(d, th)
  {
    SweepCallNearer(l, th.pc.k, th.held, th.v.a, th.v.b, l', h', th.job, th.v.found, th.v.res);
  }

  lemma SameKeysLeft(d: Data, d': Data, th: Thread)
    requires d'.open == d.open
    ensures SweepLeft(d', th) == SweepLeft(d, th)
  {
    assert Unvisited(d', th.v) == Unvisited(d, th.v);
  }

  lemma SweeperNearer(s: State, t: Tid, rate: int, s': State)
    requires MainInv(s) && t in s.threads && !t.Atm? && UnderWay(s.threads[t]) && Next(s, t, rate) == Some(s')
    requires t in s'.threads
    ensures SweepLeft(s'.d, s'.threads[t]) < SweepLeft(s.d, s.threads[t])
    ensures s'.d.open == s.d.open
  {
    var th := s.threads[t];
    assert Shape(t, th) && Believes(s.d, Replay(s.d.log), th);
    if th.pc.Do? {
      NextIsDo(s, t, rate, s');
      var (v', pc') := DataStep(s.d, th.pc.s, th.job, th.v);
      StepReady(s, t);
      SweepDoLeft(s.d, t, th, v', pc');
      SweepEffect(s.d, t, th.pc.s, th.job, th.v);
    } else {
      var (l', h') := LockStep(s.l, th.pc.k, th.held, th.v.a, th.v.b).value;
      SweepCallLeft(s.d, s.l, t, th, l', h');
    }
    SameKeysLeft(s.d, s'.d, s'.threads[t]);
  }

  // ---------- the whole system comes nearer ----------

  /** In this order: the ATMs' work; whether `progress` is set; whether the gate is shut; whether the
      printer has forgotten it; the work of the two sweepers' current rounds. */
  datatype Measure = Measure(atms: nat, progress: nat, gate: nat, forgotten: nat, sweeps: nat)

  ghost function MeasureOf(s: State): Measure
    requires Staffed(s)
  {
    Measure(if AllAtmsLeft(s) < 0 then 0 else AllAtmsLeft(s),
            Bit(s.d.progress), Bit(s.l.gate), Bit(GateForgotten(s)), SweepsLeft(s))
  }

  predicate Less(m: Measure, n: Measure) {
    || m.atms < n.atms
    || (m.atms == n.atms
        && (|| m.progress < n.progress
            || (m.progress == n.progress
                && (|| m.gate < n.gate
                    || (m.gate == n.gate
                        && (|| m.forgotten < n.forgotten
                            || (m.forgotten == n.forgotten && m.sweeps < n.sweeps)))))))
  }

  ghost predicate Nearer(s': State, s: State)
    requires Staffed(s) && Staffed(s')
  {
    Less(MeasureOf(s'), MeasureOf(s))
  }

  lemma AtmsLeftUpdate(threads: map<Tid, Thread>, t: Tid, th': Thread)
    requires t in threads
    ensures Sum(AtmsLeft(threads[t := th'])) == Sum(AtmsLeft(threads)) + AtmLeft(t, th') - AtmLeft(t, threads[t])
    ensures Sum(AtmsLeft(threads)) >= 0
  {
    SumUpdate(AtmsLeft(threads), t, AtmLeft(t, th'));
    assert AtmsLeft(threads[t := th']) == AtmsLeft(threads)[t := AtmLeft(t, th')];
    SumNonNegative(AtmsLeft(threads));
  }

  lemma AtmStepNearer(s: State, t: Tid, rate: int, s': State)
    requires Staffed(s) && Staffed(s') && t in s.threads && t.Atm? && Shape(t, s.threads[t])
    requires Next(s, t, rate) == Some(s')
    ensures Nearer(s', s)
  {
    NextThreads(s, t, rate, s');
    AtmNearer(s, t, rate, s');
    AtmsLeftUpdate(s.threads, t, s'.threads[t]);
    SumNonNegative(AtmsLeft(s'.threads));
  }

  /** The printer leaves the gate open when it comes to rest. */
  lemma GateAfterSweeper(s: State, t: Tid, rate: int, s': State)
    requires t in s.threads && !t.Atm? && Shape(t, s.threads[t]) && UnderWay(s.threads[t])
    requires Next(s, t, rate) == Some(s')
    ensures s'.l.gate ==> s.l.gate
    ensures t == Printer && s'.threads[t].pc.Rest? ==> !s'.l.gate
  {
  }

  lemma SweeperStepNearer(s: State, t: Tid, rate: int, s': State)
    requires MainInv(s) && Staffed(s) && Staffed(s') && t in s.threads && !t.Atm? && UnderWay(s.threads[t])
    requires Next(s, t, rate) == Some(s')
    ensures Nearer(s', s)
  {
    assert Shape(t, s.threads[t]);
    NextThreads(s, t, rate, s');
    AtmsLeftUpdate(s.threads, t, s'.threads[t]);
    SweeperNearer(s, t, rate, s');
    GateAfterSweeper(s, t, rate, s');
    SameKeysLeft(s.d, s'.d, s.threads[Collector]);
    SameKeysLeft(s.d, s'.d, s.threads[Printer]);
  }

  /** A thread that rests: an ATM picks its next command, the printer goes to open the gate, and without
      progress the collector and the printer stop. */
  lemma StartNearer(s: State, t: Tid, rate: int, s': State)
    requires Staffed(s) && Staffed(s') && t in s.threads && !t.Atm? && s.threads[t].pc.Rest?
    requires Next(s, t, rate) == Some(s')
    requires !s.d.progress || (t == Printer && s.l.gate)
    ensures Nearer(s', s)
  {
    NextThreads(s, t, rate, s');
    AtmsLeftUpdate(s.threads, t, s'.threads[t]);
    NextIsStart(s, t, rate, s');
    SameKeysLeft(s.d, s'.d, s.threads[Collector]);
    SameKeysLeft(s.d, s'.d, s.threads[Printer]);
    assert s'.l == s.l;
  }

  lemma StopNearer(s: State, s': State)
    requires Staffed(s) && Staffed(s') && StopStep(s, s') && s.d.progress
    ensures Nearer(s', s)
  {
    AtmsLeftUpdate(s.threads, Collector, s.threads[Collector]);
  }

  ghost predicate AllHalted(s: State) {
    forall t | t in s.threads :: s.threads[t].pc == Halted
  }

  /** What the completion argument knows of a state. */
  ghost predicate Healthy(s: State) {
    FullInv(s) && NoSelfScripts(s)
  }

  predicate NoSelfScripts(s: State) {
    forall n, i | n in s.script && 0 <= i < |s.script[n]| && s.script[n][i].Transfer? ::
      s.script[n][i].id != s.script[n][i].target
  }

  lemma NoSelfInHand(s: State)
    requires LocksInv(s) && OrderInv(s) && NoSelfScripts(s)
    ensures NoSelfTransfer(s)
  {
    forall t | t in s.threads && s.threads[t].pc == Lock(SeizeB) && IsTransfer(s.threads[t].job)
      ensures s.threads[t].job.c.id != s.threads[t].job.c.target {
      assert Shape(t, s.threads[t]);
      assert Ordered(s, t.n);
      var k := |LogOf(s.d.log, t.n)|;
      assert s.script[t.n][k] == Outstanding(s.threads[t])[0];
    }
  }

  /** The step of a thread that is under way, or of an ATM. */
  lemma ThreadGoes(s: State, t: Tid) returns (s': State)
    requires FullInv(s) && CanStep(s, t) && (UnderWay(s.threads[t]) || t.Atm?)
    ensures Step(s, s') && FullInv(s') && Nearer(s', s) && s'.script == s.script && Next(s, t, 1) == Some(s')
  {
    s' := Next(s, t, 1).value;
    assert ThreadStep(s, t, s');
    StepKeeps(s, s');
    NextThreads(s, t, 1, s');
    assert Shape(t, s.threads[t]);
    if t.Atm? { AtmStepNearer(s, t, 1, s'); } else { SweeperStepNearer(s, t, 1, s'); }
  }

  lemma StepOf(s: State, t: Tid) returns (s': State)
    requires Healthy(s) && CanStep(s, t) && (UnderWay(s.threads[t]) || t.Atm?)
    ensures Step(s, s') && Healthy(s') && Nearer(s', s)
  {
    s' := ThreadGoes(s, t);
  }

  lemma StartOf(s: State, t: Tid) returns (s': State)
    requires Healthy(s) && t in s.threads && !t.Atm? && s.threads[t].pc.Rest?
    requires !s.d.progress || (t == Printer && s.l.gate)
    ensures Step(s, s') && Healthy(s') && Nearer(s', s)
  {
    s' := Next(s, t, 1).value;
    assert ThreadStep(s, t, s');
    StepKeeps(s, s');
    NextThreads(s, t, 1, s');
    StartNearer(s, t, 1, s');
  }

  lemma StopOf(s: State) returns (s': State)
    requires Healthy(s) && AtmsDone(s) && s.d.progress
    ensures Step(s, s') && Healthy(s') && Nearer(s', s)
  {
    s' := s.(d := s.d.(progress := false));
    StepKeeps(s, s');
    StopNearer(s, s');
  }

  predicate Waits(s: State, t: Tid) {
    t in s.threads && UnderWay(s.threads[t]) && s.threads[t].pc != Lock(GateTake)
  }

  /** An ATM that is not done while nobody works: it can go on, or the printer can go and let it in. */
  lemma IdleStep(s: State, t: Tid) returns (s': State)
    requires Healthy(s) && t in s.threads && t.Atm? && s.threads[t].pc != Halted
    requires forall u :: !Waits(s, u)
    ensures Step(s, s') && Healthy(s') && Nearer(s', s)
  {
    if s.threads[t].pc.Rest? || !s.l.gate {
      assert !Waits(s, t);
      s' := StepOf(s, t);
    } else {
      assert !AtmsDone(s) && !Waits(s, Printer);
      assert Shape(Printer, s.threads[Printer]);
      s' := StartOf(s, Printer);
    }
  }

  /** Everybody rests or has stopped, and the ATMs are done. */
  lemma ClosingStep(s: State) returns (s': State)
    requires Healthy(s) && !AllHalted(s) && AtmsDone(s)
    requires forall u :: !Waits(s, u)
    ensures Step(s, s') && Healthy(s') && Nearer(s', s)
  {
    if s.d.progress {
      s' := StopOf(s);
    } else {
      var t :| t in s.threads && s.threads[t].pc != Halted;
      assert !Waits(s, t) && Shape(t, s.threads[t]);
      s' := StartOf(s, t);
    }
  }

  lemma WorkingStep(s: State, t: Tid) returns (s': State)
    requires Healthy(s) && Waits(s, t)
    ensures Step(s, s') && Healthy(s') && Nearer(s', s)
  {
    NoSelfInHand(s);
    NoDeadlock(s, t);
    var u :| Runs(s, u);
    s' := StepOf(s, u);
  }

  /** In every state where somebody has not stopped, some step brings the end nearer. */
  lemma SomeStep(s: State) returns (s': State)
    requires Healthy(s) && !AllHalted(s)
    ensures Step(s, s') && Healthy(s') && Nearer(s', s)
  {
    if t :| Waits(s, t) {
      s' := WorkingStep(s, t);
    } else if t :| t in s.threads && t.Atm? && s.threads[t].pc != Halted {
      s' := IdleStep(s, t);
    } else {
      s' := ClosingStep(s);
    }
  }

  lemma PathFrom(s: State, rest: seq<State>)
    requires IsPath(rest) && Step(s, rest[0])
    ensures IsPath([s] + rest) && ([s] + rest)[0] == s && ([s] + rest)[|rest|] == rest[|rest| - 1]
  {
    var path := [s] + rest;
    forall i | 0 <= i < |path| - 1 ensures Step(path[i], path[i + 1]) {
      if i > 0 { assert Step(rest[i - 1], rest[i]); }
    }
  }

  lemma Prepend(s: State, rest: seq<State>) returns (path: seq<State>)
    requires IsPath(rest) && Step(s, rest[0])
    ensures IsPath(path) && path[0] == s && path[|path| - 1] == rest[|rest| - 1]
  {
    PathFrom(s, rest);
    path := [s] + rest;
  }

  ghost predicate Finishes(path: seq<State>, s: State) {
    IsPath(path) && path[0] == s && Healthy(path[|path| - 1]) && AllHalted(path[|path| - 1])
  }

  lemma FinishesAtOnce(s: State) returns (path: seq<State>)
    requires Healthy(s) && AllHalted(s)
    ensures Finishes(path, s)
  {
    path := [s];
  }

  lemma FinishesFromNext(s: State, s': State, rest: seq<State>) returns (path: seq<State>)
    requires Finishes(rest, s') && Step(s, s')
    ensures Finishes(path, s)
  {
    path := Prepend(s, rest);
  }

  /** Following such steps comes to an end. */
  lemma {:induction false} Finish(s: State, m: Measure) returns (path: seq<State>)
    requires Healthy(s) && m == MeasureOf(s)
    ensures Finishes(path, s)
    decreases m.atms, m.progress, m.gate, m.forgotten, m.sweeps
  {
    if AllHalted(s) {
      path := FinishesAtOnce(s);
    } else {
      var s' := SomeStep(s);
      path := Finish(s', MeasureOf(s'));
      path := FinishesFromNext(s, s', path);
    }
  }

  /** From every reachable state of scripts without transfers from an account to itself, some schedule
      lets every thread finish; and then every script is in the log, every line of it is what the
      sequential bank answers, and the accounts are what that bank makes of the log. */
  lemma EverythingCanFinish(s: State) returns (path: seq<State>)
    requires Reachable(s) && NoSelfScripts(s)
    ensures IsPath(path) && path[0] == s
    ensures (var end := path[|path| - 1];
             && AllHalted(end) && Faithful(end.d.log) && Real(end.d) == Replay(end.d.log)
             && forall n | n in end.script :: LogOf(end.d.log, n) == end.script[n])
  {
    ReachableFull(s);
    path := Finish(s, MeasureOf(s));
    HaltedState(path[|path| - 1]);
  }

  // ---------- a transfer at its second lock ----------

  /** Two threads at the second lock of a transfer would both own the transfer lock. */
  lemma OneAtSecondLock(s: State, t: Tid, u: Tid)
    requires LocksInv(s) && t in s.threads && u in s.threads
    requires s.threads[t].pc == Lock(SeizeB) && s.threads[u].pc == Lock(SeizeB)
    ensures t == u
  {
    assert Shape(t, s.threads[t]) && Shape(u, s.threads[u]);
    assert t in TransferHolders(s.threads) && u in TransferHolders(s.threads);
  }

  /** Waiting for the second of two accounts. */
  predicate WaitsForOther(s: State, t: Tid) {
    && t in s.threads && s.threads[t].pc == Lock(SeizeB) && IsTransfer(s.threads[t].job)
    && s.threads[t].job.c.id != s.threads[t].job.c.target
  }

  lemma AloneAtSecondLock(s: State, t: Tid)
    requires LocksInv(s) && WaitsForOther(s, t)
    ensures NoSelfTransfer(s)
  {
    forall u | u in s.threads && s.threads[u].pc == Lock(SeizeB) && IsTransfer(s.threads[u].job)
      ensures s.threads[u].job.c.id != s.threads[u].job.c.target {
      OneAtSecondLock(s, t, u);
    }
  }

  lemma LeavesSecondLock(s: State, t: Tid, s': State)
    requires t in s.threads && s.threads[t].pc == Lock(SeizeB) && Next(s, t, 1) == Some(s')
    ensures t in s'.threads && s'.threads[t].pc != Lock(SeizeB)
  {
  }

  predicate Past(s: State, t: Tid) { t in s.threads && s.threads[t].pc != Lock(SeizeB) }

  /** Some path leads the thread past its second lock. */
  ghost predicate CanPass(s: State, t: Tid) {
    exists path: seq<State> :: IsPath(path) && path[0] == s && Past(path[|path| - 1], t)
  }

  lemma SomeoneLetsOn(s: State, t: Tid)
    requires MainInv(s) && WaitsForOther(s, t)
    ensures SomeoneRuns(s)
  {
    AloneAtSecondLock(s, t);
    SecondSeizerMoves(s, t);
  }

  lemma WaiterAfter(s: State, t: Tid, u: Tid, s': State)
    requires WaitsForOther(s, t) && u in s.threads && Next(s, u, 1) == Some(s')
    ensures Past(s', t) || WaitsForOther(s', t)
  {
    if u == t { LeavesSecondLock(s, t, s'); } else { OthersStay(s, u, 1, s'); }
  }

  /** While it waits, some step brings it nearer. */
  lemma SecondLockGoes(s: State, t: Tid) returns (s': State)
    requires FullInv(s) && WaitsForOther(s, t)
    ensures Step(s, s') && FullInv(s') && Nearer(s', s) && (Past(s', t) || WaitsForOther(s', t))
  {
    SomeoneLetsOn(s, t);
    var u :| Runs(s, u);
    s' := ThreadGoes(s, u);
    WaiterAfter(s, t, u, s');
  }

  ghost predicate Gets(path: seq<State>, s: State, t: Tid) {
    IsPath(path) && path[0] == s && Past(path[|path| - 1], t)
  }

  lemma GetsAtOnce(s: State, t: Tid) returns (path: seq<State>)
    requires Past(s, t)
    ensures Gets(path, s, t)
  {
    path := [s];
  }

  lemma GetsFromNext(s: State, s': State, t: Tid, rest: seq<State>) returns (path: seq<State>)
    requires Gets(rest, s', t) && Step(s, s')
    ensures Gets(path, s, t)
  {
    path := Prepend(s, rest);
  }

  /** A transfer between two accounts gets its second lock if the others are let on. */
  lemma {:induction false} PassesSecondLock(s: State, t: Tid, m: Measure) returns (path: seq<State>)
    requires FullInv(s) && m == MeasureOf(s) && WaitsForOther(s, t)
    ensures Gets(path, s, t)
    decreases m.atms, m.progress, m.gate, m.forgotten, m.sweeps
  {
    var s' := SecondLockGoes(s, t);
    var rest;
    if Past(s', t) { rest := GetsAtOnce(s', t); } else { rest := PassesSecondLock(s', t, MeasureOf(s')); }
    path := GetsFromNext(s, s', t, rest);
  }

  lemma SelfNeverPasses(s: State, t: Tid)
    requires MainInv(s) && SelfStuck(s, t)
    ensures !CanPass(s, t)
  {
    forall path: seq<State> | IsPath(path) && path[0] == s ensures !Past(path[|path| - 1], t) {
      SelfTransferStuck(path, |path| - 1, t);
    }
  }

  /** A transfer that waits for its second account can get past it if and only if it names two accounts. */
  lemma SecondLockIff(s: State, t: Tid)
    requires FullInv(s) && t in s.threads && s.threads[t].pc == Lock(SeizeB)
    ensures s.threads[t].job.Cmd? && s.threads[t].job.c.Transfer?
    ensures CanPass(s, t) <==> s.threads[t].job.c.id != s.threads[t].job.c.target
  {
    SameAccountIffSelf(s, t);
    if s.threads[t].job.c.id != s.threads[t].job.c.target {
      var path := PassesSecondLock(s, t, MeasureOf(s));
    } else {
      SelfNeverPasses(s, t);
    }
  }
}

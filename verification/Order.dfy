/** Each ATM's lines stand in the log in the order of its script, one per command. */
module Order {
  import opened RwLock
  import opened SequentialBank
  import opened Machine
  import opened Control
  import opened Locking
  import opened Serial

  /** The commands that the log shows for ATM `n`. */
  function LogOf(log: seq<Line>, n: nat): seq<Command> {
    if log == [] then []
    else
      var line := log[|log| - 1];
      LogOf(log[..|log| - 1], n) + (if line.AtmLine? && line.atm == n then [line.cmd] else [])
  }

  lemma LogOfAppend(log: seq<Line>, line: Line, n: nat)
    ensures LogOf(log + [line], n)
         == LogOf(log, n) + (if line.AtmLine? && line.atm == n then [line.cmd] else [])
  {
    assert (log + [line])[..|log|] == log;
  }

  /** The job in hand is not in the log yet. */
  predicate InHand(pc: PC) {
    match pc
    case Rest | Halted => false
    case Lock(k) => (
      match k
      case GateTake | ListIn | ListSeize | TransferTake | AcctIn | SeizeA | SeizeB | LogTake => true
      case _ => false)
    case Do(s) => !s.Unwant?
  }

  /** What a thread has still to log, the command in hand first. */
  function Outstanding(th: Thread): seq<Command> {
    (if InHand(th.pc) && th.job.Cmd? then [th.job.c] else []) + th.todo
  }

  /** An ATM stops only when its script is done. */
  predicate StopsEmpty(tid: Tid, th: Thread) {
    tid.Atm? && th.pc.Halted? ==> th.todo == []
  }

  ghost predicate Ordered(s: State, n: nat) {
    && Atm(n) in s.threads && n in s.script && StopsEmpty(Atm(n), s.threads[Atm(n)])
    && LogOf(s.d.log, n) + Outstanding(s.threads[Atm(n)]) == s.script[n]
  }

  ghost predicate OrderInv(s: State) {
    && (forall n | Atm(n) in s.threads || n in s.script :: Ordered(s, n))
    && (forall i | 0 <= i < |s.d.log| && s.d.log[i].AtmLine? :: s.d.log[i].atm in s.script)
  }

  // ---------- kept by every step ----------

  lemma DoOutstanding(d: Data, tid: Tid, th: Thread, v': Locals, pc': PC)
    requires Shape(tid, th) && th.pc.Do? && DataStep(d, th.pc.s, th.job, th.v) == (v', pc')
    ensures var th' := th.(v := v', pc := pc');
            !pc'.Halted? &&
            if th.pc.s.Append? && th.job.Cmd?
            then Outstanding(th) == [th.job.c] + Outstanding(th')
            else Outstanding(th') == Outstanding(th)
  {
  }

  lemma CallOutstanding(tid: Tid, th: Thread, h': Held)
    requires Shape(tid, th) && th.pc.Lock?
    ensures Outstanding(th.(held := h', pc := PcAfter(th.pc.k, h', th.job, th.v.found))) == Outstanding(th)
    ensures !PcAfter(th.pc.k, h', th.job, th.v.found).Halted?
  {
  }

  lemma StartOutstanding(d: Data, tid: Tid, th: Thread, rate: int)
    requires th.pc.Rest?
    ensures Outstanding(Start(d, tid, th, rate)) == Outstanding(th)
    ensures StopsEmpty(tid, Start(d, tid, th, rate))
  {
    if tid.Atm? && th.todo != [] { assert [th.todo[0]] + th.todo[1..] == th.todo; }
  }

  /** A step that logs nothing and leaves the thread's outstanding commands alone. */
  lemma SameOrder(s: State, t: Tid, s': State)
    requires OrderInv(s) && t in s.threads && t in s'.threads
    requires s'.threads == s.threads[t := s'.threads[t]] && s'.script == s.script && s'.d.log == s.d.log
    requires Outstanding(s'.threads[t]) == Outstanding(s.threads[t]) && StopsEmpty(t, s'.threads[t])
    ensures OrderInv(s')
  {
    forall n | Atm(n) in s'.threads || n in s'.script ensures Ordered(s', n) { assert Ordered(s, n); }
  }

  lemma LoggedOwn(done: seq<Command>, c: Command, rest: seq<Command>)
    ensures done + [c] + rest == done + ([c] + rest)
  {
  }

  lemma LoggedOrdered(s: State, t: Tid, s': State, line: Line, n: nat)
    requires Ordered(s, n) && (line.AtmLine? ==> Ordered(s, line.atm)) && t in s.threads && t in s'.threads
    requires s'.threads == s.threads[t := s'.threads[t]] && s'.script == s.script && s'.d.log == s.d.log + [line]
    requires StopsEmpty(t, s'.threads[t])
    requires if line.AtmLine?
             then t == Atm(line.atm) && Outstanding(s.threads[t]) == [line.cmd] + Outstanding(s'.threads[t])
             else Outstanding(s'.threads[t]) == Outstanding(s.threads[t])
    ensures Ordered(s', n)
  {
    LogOfAppend(s.d.log, line, n);
    if line.AtmLine? && line.atm == n {
      LoggedOwn(LogOf(s.d.log, n), line.cmd, Outstanding(s'.threads[t]));
    }
  }

  lemma LoggedOrder(s: State, t: Tid, s': State, line: Line)
    requires OrderInv(s) && t in s.threads && t in s'.threads
    requires s'.threads == s.threads[t := s'.threads[t]] && s'.script == s.script && s'.d.log == s.d.log + [line]
    requires StopsEmpty(t, s'.threads[t])
    requires if line.AtmLine?
             then t == Atm(line.atm) && Outstanding(s.threads[t]) == [line.cmd] + Outstanding(s'.threads[t])
             else Outstanding(s'.threads[t]) == Outstanding(s.threads[t])
    ensures OrderInv(s')
  {
    if line.AtmLine? { assert Ordered(s, line.atm); }
    forall n | Atm(n) in s'.threads || n in s'.script ensures Ordered(s', n) {
      assert Ordered(s, n);
      LoggedOrdered(s, t, s', line, n);
    }
  }

  /** Only `Append` writes the log, and an ATM writes its own lines. */
  lemma DoLine(d: Data, tid: Tid, th: Thread)
    requires Shape(tid, th) && th.pc.Do?
    ensures var e := EffectOf(d, tid, th.pc.s, th.job, th.v);
      && (e.Log? <==> th.pc.s.Append?)
      && Apply(d, e).log == (if e.Log? then d.log + [e.line] else d.log)
      && (e.Log? ==> (e.line.AtmLine? <==> th.job.Cmd?))
      && (e.Log? && e.line.AtmLine? ==> tid == Atm(e.line.atm) && e.line.cmd == th.job.c)
  {
  }

  lemma DoOrder(s: State, t: Tid, rate: int, s': State)
    requires Shapes(s) && OrderInv(s) && t in s.threads && s.threads[t].pc.Do? && Next(s, t, rate) == Some(s')
    ensures OrderInv(s')
  {
    assert Shape(t, s.threads[t]);
    DoLine(s.d, t, s.threads[t]);
    AfterDoOutstanding(s, t);
    NextIsDo(s, t, rate, s');
    if EffectAt(s, t).Log? { LoggedOrder(s, t, s', EffectAt(s, t).line); } else { SameOrder(s, t, s'); }
  }

  lemma AfterDoOutstanding(s: State, t: Tid)
    requires t in s.threads && Shape(t, s.threads[t]) && s.threads[t].pc.Do?
    ensures var th := s.threads[t];
            !AfterDo(s, t).pc.Halted? &&
            if th.pc.s.Append? && th.job.Cmd?
            then Outstanding(th) == [th.job.c] + Outstanding(AfterDo(s, t))
            else Outstanding(AfterDo(s, t)) == Outstanding(th)
  {
    var th := s.threads[t];
    var (v', pc') := DataStep(s.d, th.pc.s, th.job, th.v);
    DoOutstanding(s.d, t, th, v', pc');
  }

  lemma NextOrder(s: State, t: Tid, rate: int, s': State)
    requires Shapes(s) && OrderInv(s) && t in s.threads && Next(s, t, rate) == Some(s')
    ensures OrderInv(s')
  {
    var th := s.threads[t];
    match th.pc
    case Halted =>
    case Rest =>
      NextIsStart(s, t, rate, s');
      StartOutstanding(s.d, t, th, rate);
      SameOrder(s, t, s');
    case Lock(k) =>
      NextIsCall(s, t, rate, s');
      var h' :| s'.threads == s.threads[t := th.(held := h', pc := PcAfter(k, h', th.job, th.v.found))];
      CallOutstanding(t, th, h');
      SameOrder(s, t, s');
    case Do(_) => DoOrder(s, t, rate, s');
  }

  lemma StopOrder(s: State, s': State)
    requires OrderInv(s) && StopStep(s, s')
    ensures OrderInv(s')
  {
    forall n | Atm(n) in s'.threads || n in s'.script ensures Ordered(s', n) { assert Ordered(s, n); }
  }

  lemma InitOrder(s: State)
    requires Init(s)
    ensures OrderInv(s)
  {
    forall n | Atm(n) in s.threads || n in s.script ensures Ordered(s, n) {
      assert n in s.script;
    }
  }

  // ---------- who is still at work ----------

  /** The collector and the printer work until the main thread, after the last ATM, clears `progress`. */
  ghost predicate Staffed(s: State) {
    && Collector in s.threads && Printer in s.threads
    && (!s.d.progress ==> AtmsDone(s))
    && (s.d.progress ==> s.threads[Collector].pc != Halted && s.threads[Printer].pc != Halted)
  }

  lemma NextThreads(s: State, t: Tid, rate: int, s': State)
    requires t in s.threads && Next(s, t, rate) == Some(s')
    ensures t in s'.threads && s'.threads == s.threads[t := s'.threads[t]]
    ensures s'.d.progress == s.d.progress && s'.script == s.script
  {
  }

  lemma NextStaffed(s: State, t: Tid, rate: int, s': State)
    requires Staffed(s) && t in s.threads && Next(s, t, rate) == Some(s')
    ensures Staffed(s')
  {
    NextThreads(s, t, rate, s');
    if s.threads[t].pc.Rest? {
      NextIsStart(s, t, rate, s');
    } else {
      NotHalted(s, t, rate, s');
    }
  }

  lemma NotHalted(s: State, t: Tid, rate: int, s': State)
    requires t in s.threads && !s.threads[t].pc.Rest? && Next(s, t, rate) == Some(s')
    ensures s.threads[t].pc != Halted && s'.threads[t].pc != Halted
  {
  }

  lemma StopStaffed(s: State, s': State)
    requires Staffed(s) && StopStep(s, s')
    ensures Staffed(s')
  {
  }

  lemma InitStaffed(s: State)
    requires Init(s)
    ensures Staffed(s)
  {
  }
}

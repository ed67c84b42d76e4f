/** What the teardown frees: every account that was ever made, if and only if no id was closed twice. */
module Teardown {
  import opened RwLock
  import opened SequentialBank
  import opened Machine
  import opened Control
  import opened Locking
  import opened Local
  import opened Books
  import opened Serial
  import opened Linearization
  import opened Passbooks
  import opened Archive

  // ---------- openings and closings in the log ----------

  predicate AnyOpening(line: Line) { line.AtmLine? && line.verdict.Opened? }

  predicate AnyClosing(line: Line) { line.AtmLine? && line.verdict.Closed? && line.cmd.Close? }

  function Openings(log: seq<Line>): nat {
    if log == [] then 0 else Openings(log[..|log| - 1]) + if AnyOpening(log[|log| - 1]) then 1 else 0
  }

  function Closings(log: seq<Line>): nat {
    if log == [] then 0 else Closings(log[..|log| - 1]) + if AnyClosing(log[|log| - 1]) then 1 else 0
  }

  function ClosedIds(log: seq<Line>): set<int> {
    set i | 0 <= i < |log| && AnyClosing(log[i]) :: log[i].cmd.id
  }

  /** No id is closed twice. */
  predicate ClosedOnce(log: seq<Line>) {
    forall i, j | 0 <= i < j < |log| && AnyClosing(log[i]) && AnyClosing(log[j]) :: log[i].cmd.id != log[j].cmd.id
  }

  lemma OpeningsAppend(log: seq<Line>, line: Line)
    ensures Openings(log + [line]) == Openings(log) + if AnyOpening(line) then 1 else 0
  {
    assert (log + [line])[..|log|] == log;
  }

  lemma ClosedIdsAppend(log: seq<Line>)
    requires log != []
    ensures (var before, last := log[..|log| - 1], log[|log| - 1];
             && ClosedIds(log) == ClosedIds(before) + (if AnyClosing(last) then {last.cmd.id} else {})
             && (ClosedOnce(log) <==> ClosedOnce(before) && (AnyClosing(last) ==> last.cmd.id !in ClosedIds(before))))
  {
    var before, last := log[..|log| - 1], log[|log| - 1];
    forall k ensures k in ClosedIds(log) <==> k in ClosedIds(before) || (AnyClosing(last) && k == last.cmd.id) {
      if k in ClosedIds(before) {
        var i :| 0 <= i < |before| && AnyClosing(before[i]) && before[i].cmd.id == k;
        assert AnyClosing(log[i]) && log[i].cmd.id == k;
      }
      if AnyClosing(last) && k == last.cmd.id { assert AnyClosing(log[|log| - 1]) && log[|log| - 1].cmd.id == k; }
    }
    if ClosedOnce(before) && (AnyClosing(last) ==> last.cmd.id !in ClosedIds(before)) {
      forall i, j | 0 <= i < j < |log| && AnyClosing(log[i]) && AnyClosing(log[j])
        ensures log[i].cmd.id != log[j].cmd.id {
        assert AnyClosing(before[i]) && log[i].cmd.id in ClosedIds(before);
      }
    }
  }

  /** There are as many closed ids as closings exactly when no id is closed twice. */
  lemma {:induction false} ClosingsCount(log: seq<Line>)
    ensures |ClosedIds(log)| <= Closings(log)
    ensures |ClosedIds(log)| == Closings(log) <==> ClosedOnce(log)
  {
    if log != [] {
      ClosingsCount(log[..|log| - 1]);
      ClosedIdsAppend(log);
      var last := log[|log| - 1];
      if AnyClosing(last) && last.cmd.id in ClosedIds(log[..|log| - 1]) {
        assert ClosedIds(log) == ClosedIds(log[..|log| - 1]);
      }
    }
  }

  lemma PerformCounts(b: Ledger, c: Command)
    ensures Perform(b, c).accts.Keys
         == (match Judge(b, c)
             case Opened(_) => b.accts.Keys + {c.id}
             case Closed(_) => b.accts.Keys - {c.id}
             case _ => b.accts.Keys)
    ensures Judge(b, c).Opened? ==> c.id !in b.accts.Keys
    ensures Judge(b, c).Closed? ==> c.Close? && c.id in b.accts.Keys
  {
  }

  lemma PostCounts(b: Ledger, line: Line)
    requires Truthful(b, line)
    ensures |Post(b, line).accts.Keys|
         == |b.accts.Keys| + (if AnyOpening(line) then 1 else 0) - (if AnyClosing(line) then 1 else 0)
  {
    if line.FeeLine? {
      assert Post(b, line).accts.Keys == b.accts.Keys;
    } else {
      PerformCounts(b, line.cmd);
    }
  }

  /** The sequential bank has as many accounts as were opened and not closed. */
  lemma {:induction false} AccountsCount(log: seq<Line>)
    requires Faithful(log)
    ensures |Replay(log).accts.Keys| == Openings(log) - Closings(log)
  {
    if log != [] {
      FaithfulPrefix(log, |log| - 1);
      AccountsCount(log[..|log| - 1]);
      PostCounts(Replay(log[..|log| - 1]), log[|log| - 1]);
    }
  }

  // ---------- accounts made and not logged ----------

  /** The thread has made an account, and not logged its opening yet. */
  predicate Making(th: Thread) {
    && th.job.Cmd? && th.job.c.Open?
    && (th.pc == Lock(SeizeA) || th.pc == Do(Insert)
        || ((th.pc == Lock(LogTake) || th.pc == Do(Append)) && th.v.res.Done?))
  }

  function Makers(threads: map<Tid, Thread>): set<Tid> {
    set t | t in threads && Making(threads[t])
  }

  lemma MakersUpdate(threads: map<Tid, Thread>, t: Tid, th': Thread)
    requires t in threads
    ensures |Makers(threads[t := th'])|
         == |Makers(threads)| + (if Making(th') then 1 else 0) - (if Making(threads[t]) then 1 else 0)
  {
    var rest := Makers(threads) - {t};
    assert Makers(threads[t := th']) == if Making(th') then rest + {t} else rest;
    assert Makers(threads) == if Making(threads[t]) then rest + {t} else rest;
  }

  /** Every account that was made is in the log, or in the hands of its maker. */
  predicate MadeInv(s: State) {
    |s.d.heap| == Openings(s.d.log) + |Makers(s.threads)|
  }

  function One(p: bool): int { if p then 1 else 0 }

  lemma HeapGrows(d: Data, e: Effect)
    ensures |Apply(d, e).heap| == |d.heap| + One(e.Alloc?)
  {
  }

  lemma OthersMakeNothing(d: Data, b: Ledger, tid: Tid, th: Thread)
    requires Shape(tid, th) && th.pc.Do? && Believes(d, b, th) && !(th.job.Cmd? && th.job.c.Open?)
    ensures (var e := EffectOf(d, tid, th.pc.s, th.job, th.v); !e.Alloc? && (e.Log? ==> !AnyOpening(e.line)))
  {
  }

  lemma OpenerMakes(d: Data, b: Ledger, tid: Tid, th: Thread, v': Locals, pc': PC)
    requires Shape(tid, th) && th.pc.Do? && Believes(d, b, th) && DataStep(d, th.pc.s, th.job, th.v) == (v', pc')
    requires th.job.Cmd? && th.job.c.Open?
    ensures (var e, th' := EffectOf(d, tid, th.pc.s, th.job, th.v), th.(v := v', pc := pc');
             One(Making(th')) == One(Making(th)) + One(e.Alloc?) - One(e.Log? && AnyOpening(e.line)))
  {
  }

  lemma DoMakes(d: Data, b: Ledger, tid: Tid, th: Thread, v': Locals, pc': PC)
    requires Shape(tid, th) && th.pc.Do? && Believes(d, b, th) && DataStep(d, th.pc.s, th.job, th.v) == (v', pc')
    ensures (var e, th' := EffectOf(d, tid, th.pc.s, th.job, th.v), th.(v := v', pc := pc');
             One(Making(th')) == One(Making(th)) + One(e.Alloc?) - One(e.Log? && AnyOpening(e.line)))
  {
    if th.job.Cmd? && th.job.c.Open? {
      OpenerMakes(d, b, tid, th, v', pc');
    } else {
      OthersMakeNothing(d, b, tid, th);
    }
  }

  lemma CallMakes(tid: Tid, th: Thread, h': Held)
    requires Shape(tid, th) && th.pc.Lock?
    ensures Making(th.(held := h', pc := PcAfter(th.pc.k, h', th.job, th.v.found))) <==> Making(th)
  {
  }

  lemma MadeAfter(d: Data, threads: map<Tid, Thread>, t: Tid, th': Thread, e: Effect)
    requires t in threads && |d.heap| == Openings(d.log) + |Makers(threads)|
    requires One(Making(th')) == One(Making(threads[t])) + One(e.Alloc?) - One(e.Log? && AnyOpening(e.line))
    ensures |Apply(d, e).heap| == Openings(Apply(d, e).log) + |Makers(threads[t := th'])|
  {
    HeapGrows(d, e);
    MakersUpdate(threads, t, th');
    if e.Log? { OpeningsAppend(d.log, e.line); }
  }

  lemma DoKeepsMade(s: State, t: Tid, rate: int, s': State)
    requires Shapes(s) && Beliefs(s) && MadeInv(s) && t in s.threads && s.threads[t].pc.Do?
    requires Next(s, t, rate) == Some(s')
    ensures MadeInv(s')
  {
    var th, b := s.threads[t], Replay(s.d.log);
    assert Shape(t, th) && Believes(s.d, b, th);
    var (v', pc') := DataStep(s.d, th.pc.s, th.job, th.v);
    DoMakes(s.d, b, t, th, v', pc');
    NextIsDo(s, t, rate, s');
    MadeAfter(s.d, s.threads, t, AfterDo(s, t), EffectAt(s, t));
  }

  lemma NextKeepsMade(s: State, t: Tid, rate: int, s': State)
    requires Shapes(s) && Beliefs(s) && MadeInv(s) && t in s.threads && Next(s, t, rate) == Some(s')
    ensures MadeInv(s')
  {
    var th := s.threads[t];
    assert Shape(t, th);
    match th.pc
    case Halted =>
    case Rest =>
      NextIsStart(s, t, rate, s');
      MakersUpdate(s.threads, t, Start(s.d, t, th, rate));
    case Lock(k) =>
      NextIsCall(s, t, rate, s');
      var h' :| s'.threads == s.threads[t := th.(held := h', pc := PcAfter(k, h', th.job, th.v.found))];
      CallMakes(t, th, h');
      MakersUpdate(s.threads, t, s'.threads[t]);
    case Do(_) => DoKeepsMade(s, t, rate, s');
  }

  lemma StepKeepsMade(s: State, s': State)
    requires Shapes(s) && Beliefs(s) && MadeInv(s) && Step(s, s')
    ensures MadeInv(s')
  {
    if !StopStep(s, s') {
      var t :| ThreadStep(s, t, s');
      var rate :| 1 <= rate <= MAX_FEE && Next(s, t, rate) == Some(s');
      NextKeepsMade(s, t, rate, s');
    }
  }

  lemma InitMade(s: State)
    requires Init(s)
    ensures MadeInv(s)
  {
    assert Makers(s.threads) == {};
  }

  lemma {:induction false} RunMade(run: seq<State>, i: nat)
    requires IsRun(run) && i < |run|
    ensures MadeInv(run[i])
  {
    if i == 0 {
      InitMade(run[0]);
    } else {
      assert Step(run[i - 1], run[i - 1 + 1]);
      RunKeeps(run, i - 1);
      RunMade(run, i - 1);
      StepKeepsMade(run[i - 1], run[i]);
    }
  }

  lemma NoneInHand(tid: Tid, th: Thread)
    requires Shape(tid, th) && (tid.Atm? ==> th.pc == Halted)
    ensures !Making(th)
  {
  }

  lemma NoMakers(s: State)
    requires Shapes(s) && AtmsDone(s)
    ensures Makers(s.threads) == {}
  {
    forall t | t in s.threads ensures !Making(s.threads[t]) {
      assert Shape(t, s.threads[t]);
      NoneInHand(t, s.threads[t]);
    }
  }

  lemma ClosedKeysAre(s: State)
    requires Reachable(s) && AtmsDone(s)
    ensures s.d.closed.Keys == ClosedIds(s.d.log)
  {
    ReachableFull(s);
    forall k ensures k in s.d.closed <==> k in ClosedIds(s.d.log) {
      ClosedMapIsExact(s, k);
      if k in s.d.closed {
        var i :| 0 <= i < |s.d.log| && Closes(s.d.log[i], k);
        assert AnyClosing(s.d.log[i]);
      }
      if k in ClosedIds(s.d.log) {
        var i :| 0 <= i < |s.d.log| && AnyClosing(s.d.log[i]) && s.d.log[i].cmd.id == k;
        assert Closes(s.d.log[i], k);
      }
    }
  }

  lemma ReachableMade(s: State)
    requires Reachable(s)
    ensures MadeInv(s)
  {
    var run :| IsRun(run) && run[|run| - 1] == s;
    RunMade(run, |run| - 1);
  }

  lemma ReachableShapes(s: State)
    requires Reachable(s)
    ensures Shapes(s)
  {
    ReachableFull(s);
  }

  lemma EveryoneIsMade(s: State)
    requires Reachable(s) && AtmsDone(s)
    ensures |s.d.heap| == Openings(s.d.log)
  {
    ReachableMade(s);
    ReachableShapes(s);
    NoMakers(s);
  }

  lemma OpenAccountsCount(s: State)
    requires Reachable(s) && AtmsDone(s) && Collector in s.threads && !HasList(s.threads[Collector].pc)
    ensures |s.d.open.Keys| == Openings(s.d.log) - Closings(s.d.log)
  {
    ReachableFull(s);
    HaltedState(s);
    assert Real(s.d).accts.Keys == s.d.open.Keys;
    AccountsCount(s.d.log);
  }

  /** At the end the two maps hold as many accounts as were ever made, so that all of them are freed, if and
      only if no id was closed twice; each closing of an id after the first loses one account. */
  lemma FreesAllIff(s: State)
    requires Reachable(s) && AtmsDone(s) && Collector in s.threads && !HasList(s.threads[Collector].pc)
    ensures |s.d.heap| == |s.d.open.Keys| + Closings(s.d.log)
    ensures |s.d.open.Keys| + |s.d.closed.Keys| <= |s.d.heap|
    ensures |s.d.open.Keys| + |s.d.closed.Keys| == |s.d.heap| <==> ClosedOnce(s.d.log)
  {
    EveryoneIsMade(s);
    OpenAccountsCount(s);
    ClosedKeysAre(s);
    ClosingsCount(s.d.log);
  }
}

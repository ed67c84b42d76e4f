/** Runs with what drove them: every fee round has the rate that was drawn for it, and every print that was begun
    is taken. */
module Draws {
  import opened RwLock
  import opened SequentialBank
  import opened Machine
  import opened Control
  import opened Locking
  import opened Serial
  import opened Order
  import opened Sweeps
  import opened Linearization
  import opened Waiting
  import opened Completion
  import Passbooks

  /** A thread's step, with what the random generator gives a starting fee round; or the main thread. */
  datatype Act = By(t: Tid, rate: int) | Stop

  ghost predicate Tick(s: State, a: Act, s': State) {
    match a
    case By(t, rate) => t in s.threads && 1 <= rate <= MAX_FEE && Next(s, t, rate) == Some(s')
    case Stop => StopStep(s, s')
  }

  lemma TickStep(s: State, a: Act, s': State)
    requires Tick(s, a, s')
    ensures Step(s, s')
  {
    if a.By? { assert ThreadStep(s, a.t, s'); }
  }

  lemma TickOf(s: State, s': State) returns (a: Act)
    requires Step(s, s')
    ensures Tick(s, a, s')
  {
    if StopStep(s, s') {
      a := Stop;
    } else {
      var t :| ThreadStep(s, t, s');
      var rate :| 1 <= rate <= MAX_FEE && Next(s, t, rate) == Some(s');
      a := By(t, rate);
    }
  }

  /** The thread begins a job: it rests, and `progress` is set. */
  predicate Begins(s: State, a: Act, t: Tid) {
    a.By? && a.t == t && t in s.threads && s.threads[t].pc == Rest && s.d.progress
  }

  ghost predicate TickAt(run: seq<State>, acts: seq<Act>, i: nat)
    requires i < |acts| == |run| - 1
  {
    Tick(run[i], acts[i], run[i + 1])
  }

  /** A run with its acts. */
  ghost predicate Driven(run: seq<State>, acts: seq<Act>) {
    |run| == |acts| + 1 && Init(run[0]) && forall i: nat | i < |acts| :: TickAt(run, acts, i)
  }

  /** The rates drawn for the fee rounds begun, in order. */
  function Drawn(run: seq<State>, acts: seq<Act>): seq<int>
    requires |run| == |acts| + 1
  {
    if acts == [] then []
    else
      var n := |acts| - 1;
      Drawn(run[..n + 1], acts[..n]) + if Begins(run[n], acts[n], Collector) then [acts[n].rate] else []
  }

  /** How often the printer has begun. */
  function PrintsBegun(run: seq<State>, acts: seq<Act>): nat
    requires |run| == |acts| + 1
  {
    if acts == [] then 0
    else
      var n := |acts| - 1;
      PrintsBegun(run[..n + 1], acts[..n]) + if Begins(run[n], acts[n], Printer) then 1 else 0
  }

  lemma DrivenPrefix(run: seq<State>, acts: seq<Act>, n: nat)
    requires Driven(run, acts) && n <= |acts|
    ensures Driven(run[..n + 1], acts[..n])
  {
    var before, done := run[..n + 1], acts[..n];
    forall i: nat | i < n ensures TickAt(before, done, i) { assert TickAt(run, acts, i); }
  }

  lemma DrivenReaches(run: seq<State>, acts: seq<Act>)
    requires Driven(run, acts)
    ensures Reachable(run[|run| - 1])
  {
    forall i | 0 <= i < |run| - 1 ensures Step(run[i], run[i + 1]) {
      assert TickAt(run, acts, i);
      TickStep(run[i], acts[i], run[i + 1]);
    }
    assert IsRun(run);
  }

  lemma DrivenShapes(run: seq<State>, acts: seq<Act>)
    requires Driven(run, acts)
    ensures (var s := run[|run| - 1]; Shapes(s) && Collector in s.threads && Printer in s.threads)
  {
    DrivenReaches(run, acts);
    ReachableFull(run[|run| - 1]);
  }

  // ---------- the rates of fee rounds ----------

  /** The rate of the round under way. */
  function Coming(th: Thread): seq<int> {
    if InRound(th.pc) then [RateOf(th.job)] else []
  }

  function Finished(rounds: seq<Round>): seq<int> {
    seq(|rounds|, i requires 0 <= i < |rounds| => rounds[i].rate)
  }

  /** The rates of the finished rounds and of the one under way. */
  function Rates(s: State): seq<int>
    requires Collector in s.threads
  {
    Finished(s.d.rounds) + Coming(s.threads[Collector])
  }

  lemma OneMoreRound(rounds: seq<Round>, round: Round)
    ensures Finished(rounds + [round]) == Finished(rounds) + [round.rate]
  {
  }

  lemma RoundsGrow(d: Data, tid: Tid, s: DataPc, job: Job, v: Locals)
    requires DoFits(s, job, v.found, v.res)
    ensures (var e := EffectOf(d, tid, s, job, v);
             && Apply(d, e).rounds == (if e.EndRound? then d.rounds + [e.round] else d.rounds)
             && (e.EndRound? ==> s.Find? && job.FeeRound?))
  {
  }

  lemma CollectorDoes(d: Data, th: Thread, v': Locals, pc': PC)
    requires Shape(Collector, th) && th.pc.Do? && DataStep(d, th.pc.s, th.job, th.v) == (v', pc')
    ensures (var e := EffectOf(d, Collector, th.pc.s, th.job, th.v);
             Coming(th) == (if e.EndRound? then [e.round.rate] else []) + Coming(th.(v := v', pc := pc')))
  {
    RoundsGrow(d, Collector, th.pc.s, th.job, th.v);
  }

  lemma DoRounds(d: Data, tid: Tid, th: Thread, v': Locals, pc': PC)
    requires Shape(tid, th) && th.pc.Do? && DataStep(d, th.pc.s, th.job, th.v) == (v', pc')
    ensures (var e := EffectOf(d, tid, th.pc.s, th.job, th.v);
             && Apply(d, e).rounds == (if e.EndRound? then d.rounds + [e.round] else d.rounds)
             && (e.EndRound? ==> tid == Collector)
             && (tid == Collector ==> Coming(th) == (if e.EndRound? then [e.round.rate] else [])
                                                    + Coming(th.(v := v', pc := pc'))))
  {
    RoundsGrow(d, tid, th.pc.s, th.job, th.v);
    if tid == Collector { CollectorDoes(d, th, v', pc'); }
  }

  lemma CallRounds(th: Thread, h': Held)
    requires Shape(Collector, th) && th.pc.Lock?
    ensures Coming(th.(held := h', pc := PcAfter(th.pc.k, h', th.job, th.v.found))) == Coming(th)
  {
  }

  lemma StartRounds(d: Data, th: Thread, rate: int)
    requires th.pc.Rest?
    ensures Coming(th) == [] && Coming(Start(d, Collector, th, rate)) == if d.progress then [rate] else []
  {
  }

  lemma AfterEnd(rounds: seq<Round>, e: Effect, now: seq<int>, later: seq<int>)
    requires now == (if e.EndRound? then [e.round.rate] else []) + later
    ensures Finished(if e.EndRound? then rounds + [e.round] else rounds) + later == Finished(rounds) + now
  {
    if e.EndRound? { OneMoreRound(rounds, e.round); }
  }

  lemma DoRates(s: State, t: Tid, rate: int, s': State)
    requires Collector in s.threads && t in s.threads && Shape(t, s.threads[t]) && s.threads[t].pc.Do?
    requires Next(s, t, rate) == Some(s')
    ensures Collector in s'.threads && Rates(s') == Rates(s)
  {
    var th := s.threads[t];
    var (v', pc') := DataStep(s.d, th.pc.s, th.job, th.v);
    DoRounds(s.d, t, th, v', pc');
    NextIsDo(s, t, rate, s');
    var e := EffectOf(s.d, t, th.pc.s, th.job, th.v);
    AfterEnd(s.d.rounds, e, Coming(s.threads[Collector]), Coming(s'.threads[Collector]));
  }

  lemma CallRates(s: State, t: Tid, rate: int, s': State)
    requires Collector in s.threads && t in s.threads && Shape(t, s.threads[t]) && s.threads[t].pc.Lock?
    requires Next(s, t, rate) == Some(s')
    ensures Collector in s'.threads && Rates(s') == Rates(s)
  {
    NextIsCall(s, t, rate, s');
    var th := s.threads[t];
    var h' :| s'.threads == s.threads[t := th.(held := h', pc := PcAfter(th.pc.k, h', th.job, th.v.found))];
    if t == Collector { CallRounds(th, h'); }
  }

  lemma StartRates(s: State, t: Tid, rate: int, s': State)
    requires Collector in s.threads && t in s.threads && s.threads[t].pc.Rest? && Next(s, t, rate) == Some(s')
    ensures Collector in s'.threads
    ensures Rates(s') == Rates(s) + if Begins(s, By(t, rate), Collector) then [rate] else []
  {
    NextIsStart(s, t, rate, s');
    if t == Collector { StartRounds(s.d, s.threads[t], rate); }
  }

  /** A step adds a rate exactly when it begins a round, and then the rate that was drawn. */
  lemma TickRates(s: State, a: Act, s': State)
    requires Shapes(s) && Collector in s.threads && Tick(s, a, s')
    ensures Collector in s'.threads
    ensures Rates(s') == Rates(s) + if Begins(s, a, Collector) then [a.rate] else []
  {
    if a.By? {
      assert Shape(a.t, s.threads[a.t]);
      match s.threads[a.t].pc
      case Halted =>
      case Rest => StartRates(s, a.t, a.rate, s');
      case Do(_) => DoRates(s, a.t, a.rate, s');
      case Lock(_) => CallRates(s, a.t, a.rate, s');
    }
  }

  /** In any run the k-th fee round has the rate drawn at the k-th time that the collector began. */
  lemma {:induction false} RatesAreDrawn(run: seq<State>, acts: seq<Act>)
    requires Driven(run, acts)
    ensures Collector in run[|acts|].threads && Rates(run[|acts|]) == Drawn(run, acts)
    decreases |acts|
  {
    if acts != [] {
      var n := |acts| - 1;
      DrivenPrefix(run, acts, n);
      RatesAreDrawn(run[..n + 1], acts[..n]);
      DrivenShapes(run[..n + 1], acts[..n]);
      assert TickAt(run, acts, n);
      TickRates(run[n], acts[n], run[n + 1]);
    }
  }

  /** So the k-th finished round has the k-th rate, and at most one round more has been begun. */
  lemma RoundHasItsRate(run: seq<State>, acts: seq<Act>, k: nat)
    requires Driven(run, acts) && k < |run[|acts|].d.rounds|
    ensures k < |Drawn(run, acts)| && run[|acts|].d.rounds[k].rate == Drawn(run, acts)[k]
    ensures |run[|acts|].d.rounds| <= |Drawn(run, acts)| <= |run[|acts|].d.rounds| + 1
  {
    RatesAreDrawn(run, acts);
  }

  // ---------- every rate comes up ----------

  lemma StepRates(s: State, s': State)
    requires FullInv(s) && Step(s, s')
    ensures FullInv(s') && Rates(s) <= Rates(s')
  {
    StepKeeps(s, s');
    var a := TickOf(s, s');
    TickRates(s, a, s');
  }

  lemma {:induction false} RatesStay(path: seq<State>, j: nat)
    requires IsPath(path) && j < |path| && FullInv(path[0])
    ensures FullInv(path[j]) && Rates(path[0]) <= Rates(path[j])
  {
    if j > 0 {
      RatesStay(path, j - 1);
      assert Step(path[j - 1], path[j - 1 + 1]);
      StepRates(path[j - 1], path[j]);
    }
  }

  lemma RoundFollows(s: State, end: State, rate: int)
    requires Collector in s.threads && Collector in end.threads && Coming(s.threads[Collector]) == [rate]
    requires Rates(s) <= Rates(end) && end.threads[Collector].pc == Halted
    ensures |end.d.rounds| > |s.d.rounds| && end.d.rounds[|s.d.rounds|].rate == rate
  {
    assert Rates(s)[|s.d.rounds|] == rate;
    assert Rates(end) == Finished(end.d.rounds);
    assert Rates(end)[|s.d.rounds|] == rate;
  }

  /** Whatever rate is drawn when the collector begins, some path carries that round through at that rate. */
  lemma AnyRateIsCharged(s: State, rate: int) returns (path: seq<State>)
    requires Reachable(s) && NoSelfScripts(s) && 1 <= rate <= MAX_FEE
    requires Collector in s.threads && s.threads[Collector].pc == Rest && s.d.progress
    ensures IsPath(path) && path[0] == s
    ensures (var end := path[|path| - 1];
             |end.d.rounds| > |s.d.rounds| && end.d.rounds[|s.d.rounds|].rate == rate)
  {
    ReachableFull(s);
    var s' := CollectorGoes(s, rate);
    path := Completion.Finish(s', MeasureOf(s'));
    FinishedRound(path, s', rate);
    path := Prepend(s, path);
  }

  lemma CollectorGoes(s: State, rate: int) returns (s': State)
    requires FullInv(s) && NoSelfScripts(s) && 1 <= rate <= MAX_FEE
    requires s.threads[Collector].pc == Rest && s.d.progress
    ensures Step(s, s') && Healthy(s') && s'.d.rounds == s.d.rounds && Coming(s'.threads[Collector]) == [rate]
  {
    s' := Next(s, Collector, rate).value;
    assert ThreadStep(s, Collector, s');
    StepKeeps(s, s');
    NextThreads(s, Collector, rate, s');
    NextIsStart(s, Collector, rate, s');
    StartRounds(s.d, s.threads[Collector], rate);
  }

  lemma FinishedRound(path: seq<State>, s: State, rate: int)
    requires Finishes(path, s) && FullInv(s) && Coming(s.threads[Collector]) == [rate]
    ensures (var end := path[|path| - 1];
             |end.d.rounds| > |s.d.rounds| && end.d.rounds[|s.d.rounds|].rate == rate)
  {
    RatesStay(path, |path| - 1);
    RoundFollows(s, path[|path| - 1], rate);
  }

  // ---------- the charges of a round ----------

  lemma {:induction false} FeeLinesInLog(log: seq<Line>, line: Line)
    requires line in FeeLines(log)
    ensures line in log
  {
    var n := |log| - 1;
    if !(log[n].FeeLine? && line == log[n]) {
      FeeLinesInLog(log[..n], line);
    }
  }

  lemma {:induction false} ChargesInAll(rounds: seq<Round>, i: nat, line: Line)
    requires i < |rounds| && line in Charges(rounds[i].rate, rounds[i].rows)
    ensures line in AllCharges(rounds)
  {
    if i < |rounds| - 1 { ChargesInAll(rounds[..|rounds| - 1], i, line); }
  }

  /** Each account that a finished round has visited was charged, in the log, the round's percentage of the
      balance noted, rounded to the nearest coin. */
  lemma ChargeIsPercentage(s: State, i: nat, j: nat) returns (n: nat)
    requires Reachable(s) && i < |s.d.rounds| && j < |s.d.rounds[i].rows|
    ensures n < |s.d.log| && s.d.log[n].FeeLine?
    ensures (var round, line := s.d.rounds[i], s.d.log[n];
             && line.rate == round.rate && line.id == round.rows[j].id
             && Passbooks.Nearest(line.fee, round.rate, round.rows[j].bal))
  {
    RoundIsCharged(s, i);
    n := ChargeInLog(s.d, i, j);
  }

  lemma RoundIsCharged(s: State, i: nat)
    requires Reachable(s) && i < |s.d.rounds|
    ensures s.d.rounds[i].rate >= 0 && AllCharges(s.d.rounds) <= FeeLines(s.d.log)
  {
    ReachableFull(s);
    assert GoodRound(s.d.rounds[i]);
    assert Accounted(s.d.log, s.d.rounds, Current(s.threads[Collector]));
  }

  lemma ChargeInLog(d: Data, i: nat, j: nat) returns (n: nat)
    requires i < |d.rounds| && j < |d.rounds[i].rows| && d.rounds[i].rate >= 0
    requires AllCharges(d.rounds) <= FeeLines(d.log)
    ensures n < |d.log| && d.log[n].FeeLine?
    ensures (var round, line := d.rounds[i], d.log[n];
             && line.rate == round.rate && line.id == round.rows[j].id
             && Passbooks.Nearest(line.fee, round.rate, round.rows[j].bal))
  {
    var round := d.rounds[i];
    var line := Charges(round.rate, round.rows)[j];
    ChargesInAll(d.rounds, i, line);
    FeeLinesInLog(d.log, line);
    Passbooks.FeeIsNearest(round.rows[j].bal, round.rate);
    n :| 0 <= n < |d.log| && d.log[n] == line;
  }

  // ---------- prints ----------

  /** The printer has begun and not yet shown the bank's own money. */
  predicate Printing(th: Thread) {
    UnderWay(th) && th.pc != Lock(ListYield) && th.pc != Do(Unwant) && th.pc != Lock(GateGive)
  }

  function Prints(s: State): nat
    requires Printer in s.threads
  {
    |s.d.shots| + if Printing(s.threads[Printer]) then 1 else 0
  }

  lemma DoShots(d: Data, tid: Tid, th: Thread, v': Locals, pc': PC)
    requires Shape(tid, th) && th.pc.Do? && DataStep(d, th.pc.s, th.job, th.v) == (v', pc')
    ensures (var e := EffectOf(d, tid, th.pc.s, th.job, th.v);
             var shots := Apply(d, e).shots;
             && |shots| == |d.shots| + (if e.Display? then 1 else 0) && (e.Display? ==> tid == Printer)
             && (tid == Printer ==> Printed(th, th.(v := v', pc := pc'), e)))
  {
    if th.pc.s.ShowVault? { assert !Printing(th.(v := v', pc := pc')); }
  }

  /** A print under way is taken, or goes on. */
  predicate Printed(th: Thread, th': Thread, e: Effect) {
    if e.Display? then Printing(th) && !Printing(th') else Printing(th) == Printing(th')
  }

  lemma CallShots(th: Thread, h': Held)
    requires Shape(Printer, th) && th.pc.Lock?
    ensures Printing(th.(held := h', pc := PcAfter(th.pc.k, h', th.job, th.v.found))) <==> Printing(th)
  {
  }

  /** A step begins a print exactly when it begins the printer's job. */
  lemma TickPrints(s: State, a: Act, s': State)
    requires Shapes(s) && Printer in s.threads && Tick(s, a, s')
    ensures Printer in s'.threads
    ensures Prints(s') == Prints(s) + if Begins(s, a, Printer) then 1 else 0
  {
    if a.By? {
      var t, th := a.t, s.threads[a.t];
      assert Shape(t, th);
      match th.pc
      case Halted =>
      case Rest => NextIsStart(s, t, a.rate, s');
      case Do(_) =>
        var (v', pc') := DataStep(s.d, th.pc.s, th.job, th.v);
        DoShots(s.d, t, th, v', pc');
        NextIsDo(s, t, a.rate, s');
      case Lock(_) =>
        NextIsCall(s, t, a.rate, s');
        var h' :| s'.threads == s.threads[t := th.(held := h', pc := PcAfter(th.pc.k, h', th.job, th.v.found))];
        if t == Printer { CallShots(th, h'); }
    }
  }

  /** In any run every print that was begun has been taken, except for one that may be under way. */
  lemma {:induction false} PrintsAreTaken(run: seq<State>, acts: seq<Act>)
    requires Driven(run, acts)
    ensures Printer in run[|acts|].threads && Prints(run[|acts|]) == PrintsBegun(run, acts)
    decreases |acts|
  {
    if acts != [] {
      var n := |acts| - 1;
      DrivenPrefix(run, acts, n);
      PrintsAreTaken(run[..n + 1], acts[..n]);
      DrivenShapes(run[..n + 1], acts[..n]);
      assert TickAt(run, acts, n);
      TickPrints(run[n], acts[n], run[n + 1]);
    }
  }
}

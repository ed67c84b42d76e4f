/** Fee rounds and status prints: every round charges every account once, every print is a snapshot. */
module Sweeps {
  import opened RwLock
  import opened SequentialBank
  import opened Machine
  import opened Control
  import opened Locking
  import opened Debts
  import opened Local
  import opened Books
  import opened Serial

  // ---------- the fee lines of the log ----------

  function FeeLines(log: seq<Line>): seq<Line> {
    if log == [] then []
    else FeeLines(log[..|log| - 1]) + (if log[|log| - 1].FeeLine? then [log[|log| - 1]] else [])
  }

  lemma FeeLinesAppend(log: seq<Line>, line: Line)
    ensures FeeLines(log + [line]) == FeeLines(log) + (if line.FeeLine? then [line] else [])
  {
    assert (log + [line])[..|log|] == log;
  }

  /** What charging the visited accounts at one rate writes to the log. */
  function Charges(rate: int, rows: seq<Row>): seq<Line> {
    seq(|rows|, i requires 0 <= i < |rows| => FeeLine(rate, rows[i].id, Fee(rows[i].bal, rate)))
  }

  function AllCharges(rounds: seq<Round>): seq<Line> {
    if rounds == [] then []
    else AllCharges(rounds[..|rounds| - 1]) + Charges(rounds[|rounds| - 1].rate, rounds[|rounds| - 1].rows)
  }

  lemma AllChargesAppend(rounds: seq<Round>, round: Round)
    ensures AllCharges(rounds + [round]) == AllCharges(rounds) + Charges(round.rate, round.rows)
  {
    assert (rounds + [round])[..|rounds|] == rounds;
  }

  /** The collector has recorded the account at hand and not logged its fee yet. */
  predicate ChargePending(pc: PC) {
    match pc
    case Rest | Halted => false
    case Lock(k) => k.LogTake?
    case Do(s) => s.VaultLoad? || s.VaultStore? || s.Load1? || s.Store1? || s.Append?
  }

  predicate InRound(pc: PC) {
    !(pc.Rest? || pc.Halted? || pc == Lock(ListOut))
  }

  function LoggedRows(th: Thread): seq<Row> {
    if !InRound(th.pc) then []
    else if ChargePending(th.pc) && th.v.rows != [] then th.v.rows[..|th.v.rows| - 1]
    else th.v.rows
  }

  function Current(th: Thread): seq<Line> {
    Charges(RateOf(th.job), LoggedRows(th))
  }

  /** A finished round visited exactly the accounts that were open when it began, each once. */
  predicate GoodRound(round: Round) {
    1 <= round.rate <= MAX_FEE && Rising(round.rows) && Ids(round.rows) == round.keys
  }

  predicate RateFits(th: Thread) {
    InRound(th.pc) && th.job.FeeRound? ==> 1 <= th.job.rate <= MAX_FEE
  }

  // ---------- rounding over a fee round ----------

  function Gained(rate: int, rows: seq<Row>): int {
    if rows == [] then 0 else Gained(rate, rows[..|rows| - 1]) + Fee(rows[|rows| - 1].bal, rate)
  }

  function Charged(rows: seq<Row>): int {
    if rows == [] then 0 else Charged(rows[..|rows| - 1]) + rows[|rows| - 1].bal
  }

  predicate NoneNegative(rows: seq<Row>) {
    forall i | 0 <= i < |rows| :: rows[i].bal >= 0
  }

  /** Over a whole round the rounding errs by at most half a coin per account. */
  lemma {:induction false} GainBound(rate: int, rows: seq<Row>)
    requires 1 <= rate <= MAX_FEE && NoneNegative(rows)
    ensures -50 * |rows| <= 100 * Gained(rate, rows) - rate * Charged(rows) <= 50 * |rows|
    ensures 0 <= Gained(rate, rows) <= Charged(rows)
  {
    if rows != [] {
      var k := |rows| - 1;
      GainBound(rate, rows[..k]);
      FeeBounds(rows[k].bal, rate);
      assert rate * (Charged(rows[..k]) + rows[k].bal) == rate * Charged(rows[..k]) + rate * rows[k].bal;
    }
  }

  lemma IdsAppend(rows: seq<Row>, row: Row)
    ensures Ids(rows + [row]) == Ids(rows) + {row.id}
  {
    var rows' := rows + [row];
    forall k ensures k in Ids(rows') <==> k in Ids(rows) + {row.id} {
      if k == row.id { assert rows'[|rows|].id == k; }
      if k in Ids(rows) {
        var i :| 0 <= i < |rows| && rows[i].id == k;
        assert rows'[i].id == k;
      }
    }
  }

  lemma {:induction false} RisingIds(rows: seq<Row>)
    requires Rising(rows)
    ensures |Ids(rows)| == |rows|
  {
    if rows != [] {
      var k := |rows| - 1;
      RisingIds(rows[..k]);
      assert Ids(rows) == Ids(rows[..k]) + {rows[k].id};
    }
  }

  // ---------- snapshots ----------

  /** The printed rows are exactly the accounts of the ledger, in order, with balance and password. */
  predicate Pictures(b: Ledger, shot: Shot) {
    && Rising(shot.rows) && Ids(shot.rows) == b.accts.Keys
    && (forall i | 0 <= i < |shot.rows| ::
          shot.rows[i].id in b.accts && b.accts[shot.rows[i].id] == Acct(shot.rows[i].pw, shot.rows[i].bal))
    && shot.vault == b.vault
  }

  predicate GoodShot(d: Data, shot: Shot) {
    && shot.at <= |d.log| && shot.rounds <= |d.rounds|
    && Pictures(Replay(d.log[..shot.at]), shot)
    && FeeLines(d.log[..shot.at]) == AllCharges(d.rounds[..shot.rounds])
  }

  /** The fee lines of the log are those of the finished rounds, then those of the round under way. */
  predicate Accounted(log: seq<Line>, rounds: seq<Round>, current: seq<Line>) {
    FeeLines(log) == AllCharges(rounds) + current
  }

  ghost predicate SweepInv(s: State) {
    && Collector in s.threads && RateFits(s.threads[Collector])
    && Accounted(s.d.log, s.d.rounds, Current(s.threads[Collector]))
    && (forall i | 0 <= i < |s.d.rounds| :: GoodRound(s.d.rounds[i]))
    && (forall i | 0 <= i < |s.d.shots| :: GoodShot(s.d, s.d.shots[i]))
  }

  // ---------- shots stay good ----------

  lemma ShotStays(d: Data, d': Data, shot: Shot)
    requires GoodShot(d, shot)
    requires d.log <= d'.log && d.rounds <= d'.rounds
    ensures GoodShot(d', shot)
  {
    assert d'.log[..shot.at] == d.log[..shot.at];
    assert d'.rounds[..shot.rounds] == d.rounds[..shot.rounds];
  }

  /** What the printer has found when it comes to the bank's own money. */
  lemma PrintEnds(d: Data, b: Ledger, tid: Tid, th: Thread)
    requires Shape(tid, th) && Believes(d, b, th) && th.pc == Do(ShowVault)
    ensures th.held.list == Writing && DebtOf(th) == NO_DEBT && tid != Collector
    ensures EffectOf(d, tid, ShowVault, th.job, th.v) == Display(Shot(th.v.rows, d.vault, |d.log|, |d.rounds|))
    ensures Rising(th.v.rows) && Ids(th.v.rows) == d.open.Keys && Shown(d, th.v.rows)
  {
  }

  /** An account under nobody's debt is as the ledger has it. */
  lemma UndebtedIsBooked(s: State, t: Tid, k: int)
    requires LocksInv(s) && Booked(s.d, Replay(s.d.log), s.threads) && t in s.threads
    requires s.threads[t].held.list == Writing && DebtOf(s.threads[t]) == NO_DEBT
    ensures k in s.d.open <==> k in Replay(s.d.log).accts
    ensures k in s.d.open ==>
              Replay(s.d.log).accts[k] == Acct(At(s.d, s.d.open[k]).pw, At(s.d, s.d.open[k]).bal)
    ensures s.d.vault == Replay(s.d.log).vault
  {
    NoDebtsUnderWriter(s, t, if k in s.d.open then s.d.open[k] else 0, k);
    assert KeyBooked(s.d, Replay(s.d.log), s.threads, k);
    if k in s.d.open { assert AcctBooked(s.d, Replay(s.d.log), s.threads, k); }
  }

  lemma RowsArePicture(s: State, t: Tid, shot: Shot)
    requires LocksInv(s) && Booked(s.d, Replay(s.d.log), s.threads) && t in s.threads
    requires s.threads[t].held.list == Writing && DebtOf(s.threads[t]) == NO_DEBT
    requires Rising(shot.rows) && Ids(shot.rows) == s.d.open.Keys && Shown(s.d, shot.rows) && shot.vault == s.d.vault
    ensures Pictures(Replay(s.d.log), shot)
  {
    var b := Replay(s.d.log);
    UndebtedIsBooked(s, t, 0);
    forall k ensures k in b.accts <==> k in Ids(shot.rows) { UndebtedIsBooked(s, t, k); }
    forall i | 0 <= i < |shot.rows|
      ensures shot.rows[i].id in b.accts && b.accts[shot.rows[i].id] == Acct(shot.rows[i].pw, shot.rows[i].bal) {
      UndebtedIsBooked(s, t, shot.rows[i].id);
    }
  }

  lemma GoodNow(d: Data, shot: Shot, current: seq<Line>)
    requires Pictures(Replay(d.log), shot) && shot.at == |d.log| && shot.rounds == |d.rounds|
    requires Accounted(d.log, d.rounds, current) && current == []
    ensures GoodShot(d, shot)
  {
    assert d.log[..|d.log|] == d.log && d.rounds[..|d.rounds|] == d.rounds;
  }

  /** At the end of a print nobody is half-way through anything. */
  lemma PrintIsPicture(s: State, t: Tid)
    requires MainInv(s) && SweepInv(s) && t in s.threads && s.threads[t].pc == Do(ShowVault)
    ensures EffectAt(s, t).Display? && GoodShot(s.d, EffectAt(s, t).shot)
  {
    assert Shape(t, s.threads[t]) && Believes(s.d, Replay(s.d.log), s.threads[t]);
    PrintEnds(s.d, Replay(s.d.log), t, s.threads[t]);
    RowsArePicture(s, t, EffectAt(s, t).shot);
    PrintFindsNoRound(s, t);
    GoodNow(s.d, EffectAt(s, t).shot, Current(s.threads[Collector]));
  }

  lemma NoRoundOutside(d: Data, b: Ledger, th: Thread)
    requires Shape(Collector, th) && Believes(d, b, th) && th.held.list != In && th.held.list != Writing
    ensures Current(th) == []
  {
  }

  /** While the printer has the list the collector has charged nobody in its current round. */
  lemma PrintFindsNoRound(s: State, t: Tid)
    requires MainInv(s) && t in s.threads && s.threads[t].held.list == Writing && t != Collector
    ensures Current(s.threads[Collector]) == []
  {
    assert Shape(Collector, s.threads[Collector]) && Believes(s.d, Replay(s.d.log), s.threads[Collector]);
    ListExclusion(s, t, Collector);
    NoRoundOutside(s.d, Replay(s.d.log), s.threads[Collector]);
  }

  // ---------- one step ----------

  /** What another thread's effect must not do. */
  ghost predicate Harmless(d: Data, e: Effect) {
    !e.EndRound? && (e.Log? ==> !e.line.FeeLine?) && (e.Display? ==> GoodShot(d, e.shot))
  }

  lemma ShotsStay(d: Data, e: Effect)
    requires forall i | 0 <= i < |d.shots| :: GoodShot(d, d.shots[i])
    requires e.Display? ==> GoodShot(d, e.shot)
    ensures forall i | 0 <= i < |Apply(d, e).shots| :: GoodShot(Apply(d, e), Apply(d, e).shots[i])
  {
    var d' := Apply(d, e);
    forall i | 0 <= i < |d'.shots| ensures GoodShot(d', d'.shots[i]) { ShotStays(d, d', d'.shots[i]); }
  }

  lemma OtherKept(s: State, t: Tid, th': Thread, e: Effect)
    requires SweepInv(s) && t != Collector && Harmless(s.d, e)
    ensures SweepInv(s.(threads := s.threads[t := th'], d := Apply(s.d, e)))
  {
    ShotsStay(s.d, e);
    if e.Log? { FeeLinesAppend(s.d.log, e.line); }
  }

  lemma OtherHarmless(d: Data, tid: Tid, th: Thread)
    requires Shape(tid, th) && th.pc.Do? && tid != Collector
    requires th.pc.s.ShowVault? ==> GoodShot(d, Shot(th.v.rows, d.vault, |d.log|, |d.rounds|))
    ensures Harmless(d, EffectOf(d, tid, th.pc.s, th.job, th.v))
  {
  }

  lemma OtherDoes(s: State, t: Tid, rate: int, s': State)
    requires MainInv(s) && SweepInv(s) && t in s.threads && s.threads[t].pc.Do? && t != Collector
    requires Next(s, t, rate) == Some(s')
    ensures SweepInv(s')
  {
    assert Shape(t, s.threads[t]);
    if s.threads[t].pc.s.ShowVault? { PrintIsPicture(s, t); }
    OtherHarmless(s.d, t, s.threads[t]);
    NextIsDo(s, t, rate, s');
    OtherKept(s, t, AfterDo(s, t), EffectAt(s, t));
  }

  lemma ChargesAppend(rate: int, rows: seq<Row>)
    requires rows != []
    ensures var row := rows[|rows| - 1];
            Charges(rate, rows) == Charges(rate, rows[..|rows| - 1]) + [FeeLine(rate, row.id, Fee(row.bal, rate))]
  {
  }

  /** How the collector's own records move with its data steps. */
  /** The collector's records while it looks for the next account, or finds none. */
  lemma CurrentAtFind(d: Data, th: Thread, v': Locals, pc': PC)
    requires Shape(Collector, th) && th.pc == Do(Find) && DataStep(d, Find, th.job, th.v) == (v', pc')
    ensures var th' := th.(v := v', pc := pc');
            var e := EffectOf(d, Collector, Find, th.job, th.v);
      RecordsFollow(th, th', e) && !e.Display? && (RateFits(th) ==> RateFits(th'))
  {
  }

  /** ... while it notes an account ... */
  lemma CurrentAtLoad(d: Data, th: Thread, v': Locals, pc': PC)
    requires Shape(Collector, th) && th.pc == Do(FeeLoad) && DataStep(d, FeeLoad, th.job, th.v) == (v', pc')
    ensures var th' := th.(v := v', pc := pc');
            var e := EffectOf(d, Collector, FeeLoad, th.job, th.v);
      RecordsFollow(th, th', e) && !e.Display? && (RateFits(th) ==> RateFits(th'))
  {
    assert v'.rows[..|v'.rows| - 1] == th.v.rows;
  }

  /** ... while it logs the charge ... */
  lemma CurrentAtAppend(d: Data, b: Ledger, th: Thread, v': Locals, pc': PC)
    requires Shape(Collector, th) && th.pc == Do(Append) && Believes(d, b, th)
    requires DataStep(d, Append, th.job, th.v) == (v', pc') && At(d, th.v.a).id == th.v.key
    ensures var th' := th.(v := v', pc := pc');
            var e := EffectOf(d, Collector, Append, th.job, th.v);
      RecordsFollow(th, th', e) && !e.Display? && (RateFits(th) ==> RateFits(th'))
  {
    ChargesAppend(th.job.rate, th.v.rows);
  }

  /** ... and between these. */
  lemma CurrentElsewhere(d: Data, th: Thread, v': Locals, pc': PC)
    requires Shape(Collector, th) && th.pc.Do? && DataStep(d, th.pc.s, th.job, th.v) == (v', pc')
    requires !th.pc.s.Find? && !th.pc.s.FeeLoad? && !th.pc.s.Append?
    ensures var th' := th.(v := v', pc := pc');
            var e := EffectOf(d, Collector, th.pc.s, th.job, th.v);
      RecordsFollow(th, th', e) && !e.Display? && (RateFits(th) ==> RateFits(th'))
  {
  }

  lemma CollectorCurrent(d: Data, b: Ledger, th: Thread, v': Locals, pc': PC)
    requires Shape(Collector, th) && th.pc.Do? && Believes(d, b, th) && DataStep(d, th.pc.s, th.job, th.v) == (v', pc')
    requires th.pc.s.Append? ==> At(d, th.v.a).id == th.v.key
    ensures var th' := th.(v := v', pc := pc');
            var e := EffectOf(d, Collector, th.pc.s, th.job, th.v);
      RecordsFollow(th, th', e) && !e.Display? && (RateFits(th) ==> RateFits(th'))
  {
    if th.pc.s.Find? {
      CurrentAtFind(d, th, v', pc');
    } else if th.pc.s.FeeLoad? {
      CurrentAtLoad(d, th, v', pc');
    } else if th.pc.s.Append? {
      CurrentAtAppend(d, b, th, v', pc');
    } else {
      CurrentElsewhere(d, th, v', pc');
    }
  }

  lemma EndsGood(d: Data, b: Ledger, th: Thread)
    requires Shape(Collector, th) && th.pc.Do? && Believes(d, b, th) && RateFits(th)
    requires EffectOf(d, Collector, th.pc.s, th.job, th.v).EndRound?
    ensures GoodRound(EffectOf(d, Collector, th.pc.s, th.job, th.v).round)
  {
    Steps.NoKeyLeft(d, th.v);
  }

  predicate RecordsFollow(th: Thread, th': Thread, e: Effect) {
    && (e.Log? ==> e.line.FeeLine? && Current(th') == Current(th) + [e.line])
    && (e.EndRound? ==> Current(th') == [] && Current(th) == Charges(e.round.rate, e.round.rows))
    && (!e.Log? && !e.EndRound? ==> Current(th') == Current(th))
  }

  lemma Associates<T>(a: seq<T>, b: seq<T>, c: seq<T>)
    ensures a + (b + c) == a + b + c
  {
  }

  lemma EquationLog(log: seq<Line>, line: Line, rounds: seq<Round>, cur: seq<Line>)
    requires Accounted(log, rounds, cur) && line.FeeLine?
    ensures Accounted(log + [line], rounds, cur + [line])
  {
    FeeLinesAppend(log, line);
    Associates(AllCharges(rounds), cur, [line]);
  }

  lemma EquationEnd(log: seq<Line>, rounds: seq<Round>, round: Round, cur: seq<Line>)
    requires Accounted(log, rounds, cur) && cur == Charges(round.rate, round.rows)
    ensures Accounted(log, rounds + [round], [])
  {
    AllChargesAppend(rounds, round);
  }

  lemma CollectorLogs(s: State, th': Thread, line: Line)
    requires SweepInv(s) && RateFits(th')
    requires line.FeeLine? && Current(th') == Current(s.threads[Collector]) + [line]
    ensures SweepInv(s.(threads := s.threads[Collector := th'], d := Apply(s.d, Log(line))))
  {
    ShotsStay(s.d, Log(line));
    EquationLog(s.d.log, line, s.d.rounds, Current(s.threads[Collector]));
  }

  lemma CollectorEnds(s: State, th': Thread, round: Round)
    requires SweepInv(s) && RateFits(th') && GoodRound(round)
    requires Current(th') == [] && Current(s.threads[Collector]) == Charges(round.rate, round.rows)
    ensures SweepInv(s.(threads := s.threads[Collector := th'], d := Apply(s.d, EndRound(round))))
  {
    ShotsStay(s.d, EndRound(round));
    EquationEnd(s.d.log, s.d.rounds, round, Current(s.threads[Collector]));
  }

  lemma CollectorRecords(s: State, th': Thread, e: Effect)
    requires SweepInv(s) && RateFits(th') && !e.Log? && !e.EndRound? && !e.Display?
    requires Current(th') == Current(s.threads[Collector])
    ensures SweepInv(s.(threads := s.threads[Collector := th'], d := Apply(s.d, e)))
  {
    ShotsStay(s.d, e);
  }

  lemma CollectorDoes(s: State, rate: int, s': State)
    requires MainInv(s) && SweepInv(s) && s.threads[Collector].pc.Do?
    requires Next(s, Collector, rate) == Some(s')
    ensures SweepInv(s')
  {
    var th, b, e := s.threads[Collector], Replay(s.d.log), EffectAt(s, Collector);
    assert Shape(Collector, th) && Believes(s.d, b, th);
    if th.pc.s.Append? { assert OpenOk(s.d, s.threads, th.v.key); }
    var (v', pc') := DataStep(s.d, th.pc.s, th.job, th.v);
    CollectorCurrent(s.d, b, th, v', pc');
    if e.EndRound? { EndsGood(s.d, b, th); }
    NextIsDo(s, Collector, rate, s');
    var th' := AfterDo(s, Collector);
    if e.Log? {
      CollectorLogs(s, th', e.line);
    } else if e.EndRound? {
      CollectorEnds(s, th', e.round);
    } else {
      CollectorRecords(s, th', e);
    }
  }

  lemma CollectorCalls(th: Thread, h': Held)
    requires Shape(Collector, th) && th.pc.Lock? && RateFits(th)
    ensures var th' := th.(held := h', pc := PcAfter(th.pc.k, h', th.job, th.v.found));
            Current(th') == Current(th) && RateFits(th')
  {
  }

  lemma CollectorStarts(d: Data, th: Thread, rate: int)
    requires th.pc.Rest? && 1 <= rate <= MAX_FEE
    ensures Current(Start(d, Collector, th, rate)) == Current(th) == [] && RateFits(Start(d, Collector, th, rate))
  {
  }

  lemma QuietSweep(s: State, s': State)
    requires SweepInv(s) && Collector in s'.threads
    requires Current(s'.threads[Collector]) == Current(s.threads[Collector]) && RateFits(s'.threads[Collector])
    requires s'.d == s.d.(wants := s'.d.wants, progress := s'.d.progress)
    ensures SweepInv(s')
  {
    forall i | 0 <= i < |s'.d.shots| ensures GoodShot(s'.d, s'.d.shots[i]) { ShotStays(s.d, s'.d, s.d.shots[i]); }
  }

  lemma NextSweep(s: State, t: Tid, rate: int, s': State)
    requires MainInv(s) && SweepInv(s) && t in s.threads && 1 <= rate <= MAX_FEE && Next(s, t, rate) == Some(s')
    ensures SweepInv(s')
  {
    var th := s.threads[t];
    assert Shape(t, th);
    match th.pc
    case Halted =>
    case Rest =>
      NextIsStart(s, t, rate, s');
      if t == Collector { CollectorStarts(s.d, th, rate); }
      QuietSweep(s, s');
    case Lock(k) =>
      NextIsCall(s, t, rate, s');
      var h' :| s'.threads == s.threads[t := th.(held := h', pc := PcAfter(k, h', th.job, th.v.found))];
      if t == Collector { CollectorCalls(th, h'); }
      QuietSweep(s, s');
    case Do(_) =>
      if t == Collector { CollectorDoes(s, rate, s'); } else { OtherDoes(s, t, rate, s'); }
  }

  lemma InitSweep(s: State)
    requires Init(s)
    ensures SweepInv(s)
  {
  }
}

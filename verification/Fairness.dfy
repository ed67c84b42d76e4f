/** Under strong fairness every run comes to its end, unless a transfer from an account to itself is stuck.

    A run is a history: a state and an act for every instant.  Fairness: a thread that could step again and
    again does step again and again, as it does when every mutex is handed out in the end; and the main
    thread, once it has joined the ATMs, clears `progress`. */
module Fairness {
  import opened RwLock
  import opened SequentialBank
  import opened Machine
  import opened Control
  import opened Locking
  import opened Books
  import opened Serial
  import opened Order
  import opened Linearization
  import opened Waiting
  import opened Completion
  import opened Draws

  datatype History = History(state: nat -> State, act: nat -> Act)

  ghost predicate Ticks(h: History, n: nat) {
    Tick(h.state(n), h.act(n), h.state(n + 1))
  }

  ghost predicate Valid(h: History) {
    Init(h.state(0)) && forall n: nat :: Ticks(h, n)
  }

  predicate Acts(h: History, t: Tid, n: nat) { h.act(n).By? && h.act(n).t == t }

  predicate Able(h: History, t: Tid, n: nat) { CanStep(h.state(n), t) }

  /** The thread steps at some instant from n on. */
  ghost predicate ActsFrom(h: History, t: Tid, n: nat) {
    exists m: nat :: n <= m && Acts(h, t, m)
  }

  /** The thread could step at some instant from n on. */
  ghost predicate EnabledFrom(h: History, t: Tid, n: nat) {
    exists m: nat :: n <= m && Able(h, t, m)
  }

  ghost predicate ForeverDone(h: History, n: nat) {
    forall m: nat | n <= m :: AtmsDone(h.state(m))
  }

  ghost predicate AlwaysEnabledAgain(h: History, t: Tid) {
    forall n: nat :: EnabledFrom(h, t, n)
  }

  ghost predicate AlwaysActsAgain(h: History, t: Tid) {
    forall n: nat :: ActsFrom(h, t, n)
  }

  predicate Stops(h: History, n: nat) { h.act(n).Stop? }

  ghost predicate Fair(h: History) {
    && (forall t :: AlwaysEnabledAgain(h, t) ==> AlwaysActsAgain(h, t))
    && (forall n: nat :: ForeverDone(h, n) ==> exists m: nat :: Stops(h, m))
  }

  /** No transfer from an account to itself is ever stuck. */
  ghost predicate NeverStuck(h: History) {
    forall n: nat, t :: !SelfStuck(h.state(n), t)
  }

  // ---------- one instant ----------

  /** Every state of a history is reachable, so all that holds of reachable states holds along it. */
  lemma Reaches(h: History, n: nat)
    requires Valid(h)
    ensures Reachable(h.state(n))
  {
    var run := seq(n + 1, (i: nat) => h.state(i));
    forall i | 0 <= i < |run| - 1 ensures Step(run[i], run[i + 1]) {
      assert Ticks(h, i);
      TickStep(h.state(i), h.act(i), h.state(i + 1));
    }
    assert IsRun(run) && run[|run| - 1] == h.state(n);
  }

  lemma Holds(h: History, n: nat)
    requires Valid(h)
    ensures FullInv(h.state(n))
  {
    Reaches(h, n);
    ReachableFull(h.state(n));
  }

  /** A thread that does not act stays as it is. */
  lemma TickSame(h: History, t: Tid, n: nat)
    requires Valid(h) && !Acts(h, t, n) && t in h.state(n).threads
    ensures t in h.state(n + 1).threads && h.state(n + 1).threads[t] == h.state(n).threads[t]
  {
    var a := h.act(n);
    assert Ticks(h, n);
    if a.By? { NextThreads(h.state(n), a.t, a.rate, h.state(n + 1)); }
  }

  lemma TickKeys(h: History, n: nat)
    requires Valid(h)
    ensures h.state(n + 1).threads.Keys == h.state(n).threads.Keys && h.state(n + 1).script == h.state(n).script
  {
    var a := h.act(n);
    assert Ticks(h, n);
    if a.By? { NextThreads(h.state(n), a.t, a.rate, h.state(n + 1)); }
  }

  lemma {:induction false} SameUntil(h: History, t: Tid, n: nat, m: nat)
    requires Valid(h) && n <= m && t in h.state(n).threads
    requires forall k: nat | n <= k < m :: !Acts(h, t, k)
    ensures t in h.state(m).threads && h.state(m).threads[t] == h.state(n).threads[t]
    decreases m - n
  {
    if n < m {
      SameUntil(h, t, n, m - 1);
      TickSame(h, t, m - 1);
    }
  }

  /** The first time from n on that the thread acts. */
  lemma {:induction false} NextAct(h: History, t: Tid, n: nat) returns (m: nat)
    requires ActsFrom(h, t, n)
    ensures n <= m && Acts(h, t, m) && forall k: nat | n <= k < m :: !Acts(h, t, k)
  {
    var last: nat :| n <= last && Acts(h, t, last);
    m := n;
    while !Acts(h, t, m)
      invariant n <= m <= last && forall k: nat | n <= k < m :: !Acts(h, t, k)
      decreases last - m
    {
      m := m + 1;
    }
  }

  // ---------- the ATMs come to rest ----------

  predicate AtmActs(h: History, n: nat) { h.act(n).By? && h.act(n).t.Atm? }

  lemma TickAtmsLeft(h: History, n: nat)
    requires Valid(h)
    ensures 0 <= AllAtmsLeft(h.state(n + 1)) <= AllAtmsLeft(h.state(n))
    ensures AtmActs(h, n) ==> AllAtmsLeft(h.state(n + 1)) < AllAtmsLeft(h.state(n))
  {
    var s, a, s' := h.state(n), h.act(n), h.state(n + 1);
    assert Ticks(h, n);
    Holds(h, n);
    match a
    case Stop => AtmsLeftUpdate(s.threads, Collector, s.threads[Collector]);
    case By(t, rate) =>
      NextThreads(s, t, rate, s');
      AtmsLeftUpdate(s.threads, t, s'.threads[t]);
      AtmsLeftUpdate(s'.threads, t, s'.threads[t]);
      if t.Atm? {
        assert Shape(t, s.threads[t]);
        AtmNearer(s, t, rate, s');
      }
  }

  lemma {:induction false} AtmsLeftFalls(h: History, n: nat, m: nat)
    requires Valid(h) && n <= m
    ensures AllAtmsLeft(h.state(m)) <= AllAtmsLeft(h.state(n))
    decreases m - n
  {
    if n < m {
      AtmsLeftFalls(h, n, m - 1);
      TickAtmsLeft(h, m - 1);
    }
  }

  lemma AtmsLeftThere(h: History, n: nat)
    requires Valid(h)
    ensures AllAtmsLeft(h.state(n)) >= 0
  {
    Holds(h, n);
    AtmsLeftUpdate(h.state(n).threads, Collector, h.state(n).threads[Collector]);
  }

  /** All ATMs together take only finitely many steps, in any run. */
  lemma {:induction false} AtmsRest(h: History, n: nat, left: nat) returns (m: nat)
    requires Valid(h) && left == AllAtmsLeft(h.state(n))
    ensures n <= m && forall k: nat | m <= k :: !AtmActs(h, k)
    decreases left
  {
    if k: nat :| n <= k && AtmActs(h, k) {
      AtmsLeftFalls(h, n, k);
      TickAtmsLeft(h, k);
      m := AtmsRest(h, k + 1, AllAtmsLeft(h.state(k + 1)));
    } else {
      m := n;
    }
  }

  /** The thread cannot step at any instant from n on. */
  ghost predicate DisabledFrom(h: History, t: Tid, n: nat) {
    forall m: nat | n <= m :: !Able(h, t, m)
  }

  /** A thread that acts no more is, from some time on, never able to. */
  lemma Disabled(h: History, t: Tid, n: nat) returns (m: nat)
    requires Fair(h) && !ActsFrom(h, t, n)
    ensures n <= m && DisabledFrom(h, t, m)
  {
    assert !AlwaysActsAgain(h, t);
    assert !AlwaysEnabledAgain(h, t);
    var k: nat :| !EnabledFrom(h, t, k);
    m := if n <= k then k else n;
  }

  lemma {:induction false} AllDisabled(h: History, ts: set<Tid>, n: nat) returns (m: nat)
    requires Fair(h) && forall t | t in ts :: !ActsFrom(h, t, n)
    ensures n <= m && forall t | t in ts :: DisabledFrom(h, t, m)
    decreases ts
  {
    if ts == {} {
      m := n;
    } else {
      var t :| t in ts;
      var m0 := Disabled(h, t, n);
      var m1 := AllDisabled(h, ts - {t}, n);
      m := if m0 <= m1 then m1 else m0;
      forall u | u in ts ensures DisabledFrom(h, u, m) {
        if u == t { assert DisabledFrom(h, u, m0); } else { assert DisabledFrom(h, u, m1); }
      }
    }
  }

  // ---------- what happens while the ATMs are stuck ----------

  /** From n on no ATM acts, and none could. */
  ghost predicate Frozen(h: History, n: nat) {
    forall t: Tid | t.Atm? :: !ActsFrom(h, t, n) && DisabledFrom(h, t, n)
  }

  lemma {:induction false} KeysStay(h: History, n: nat)
    requires Valid(h)
    ensures h.state(n).threads.Keys == h.state(0).threads.Keys && h.state(n).script == h.state(0).script
  {
    if n > 0 {
      KeysStay(h, n - 1);
      TickKeys(h, n - 1);
    }
  }

  lemma AtmsFreeze(h: History) returns (n: nat)
    requires Valid(h) && Fair(h)
    ensures Frozen(h, n)
  {
    AtmsLeftThere(h, 0);
    var m := AtmsRest(h, 0, AllAtmsLeft(h.state(0)));
    forall t: Tid | t.Atm? ensures !ActsFrom(h, t, m) {
      forall k: nat | m <= k ensures !Acts(h, t, k) { assert !AtmActs(h, k); }
    }
    var atms := set t | t in h.state(0).threads && t.Atm?;
    n := AllDisabled(h, atms, m);
    forall t: Tid | t.Atm? ensures !ActsFrom(h, t, n) && DisabledFrom(h, t, n) {
      assert !ActsFrom(h, t, m);
      if t !in atms {
        forall k: nat | n <= k ensures !Able(h, t, k) { KeysStay(h, k); }
      }
    }
  }

  lemma FrozenLater(h: History, n: nat, m: nat)
    requires Frozen(h, n) && n <= m
    ensures Frozen(h, m)
  {
    forall t: Tid | t.Atm? ensures !ActsFrom(h, t, m) && DisabledFrom(h, t, m) {
      assert !ActsFrom(h, t, n) && DisabledFrom(h, t, n);
    }
  }

  lemma FrozenStays(h: History, n: nat, m: nat, t: Tid)
    requires Valid(h) && Frozen(h, n) && n <= m && t.Atm? && t in h.state(n).threads
    ensures t in h.state(m).threads && h.state(m).threads[t] == h.state(n).threads[t] && !Able(h, t, m)
  {
    assert !ActsFrom(h, t, n) && DisabledFrom(h, t, n);
    SameUntil(h, t, n, m);
  }

  // ---------- a sweep comes to its end ----------

  /** While no ATM acts, no account is opened or closed. */
  lemma TickSameKeys(h: History, n: nat, m: nat)
    requires Valid(h) && Frozen(h, n) && n <= m
    ensures h.state(m + 1).d.open.Keys == h.state(m).d.open.Keys
  {
    var s, a, s' := h.state(m), h.act(m), h.state(m + 1);
    assert Ticks(h, m);
    Holds(h, m);
    if a.By? {
      assert Acts(h, a.t, m);
      assert !a.t.Atm?;
      SweeperSameKeys(s, a.t, a.rate, s');
    }
  }

  lemma SweeperSameKeys(s: State, t: Tid, rate: int, s': State)
    requires MainInv(s) && t in s.threads && !t.Atm? && Next(s, t, rate) == Some(s')
    ensures s'.d.open.Keys == s.d.open.Keys
  {
    if UnderWay(s.threads[t]) {
      NextThreads(s, t, rate, s');
      SweeperNearer(s, t, rate, s');
    } else if s.threads[t].pc.Rest? {
      NextIsStart(s, t, rate, s');
    }
  }

  lemma {:induction false} SameKeysUntil(h: History, n: nat, m: nat)
    requires Valid(h) && Frozen(h, n) && n <= m
    ensures h.state(m).d.open.Keys == h.state(n).d.open.Keys
    decreases m - n
  {
    if n < m {
      SameKeysUntil(h, n, m - 1);
      TickSameKeys(h, n, m - 1);
    }
  }

  function LeftOf(h: History, t: Tid, n: nat): nat
    requires t in h.state(n).threads
  {
    SweepLeft(h.state(n).d, h.state(n).threads[t])
  }

  predicate Moving(h: History, t: Tid, n: nat) {
    t in h.state(n).threads && UnderWay(h.state(n).threads[t])
  }

  /** It has come to rest, and the printer has opened its gate. */
  predicate Resting(h: History, t: Tid, n: nat) {
    t in h.state(n).threads && h.state(n).threads[t].pc == Rest && (t == Printer ==> !h.state(n).l.gate)
  }

  lemma SweeperMoves(s: State, t: Tid, rate: int, s': State)
    requires FullInv(s) && t in s.threads && !t.Atm? && UnderWay(s.threads[t]) && Next(s, t, rate) == Some(s')
    ensures t in s'.threads && SweepLeft(s'.d, s'.threads[t]) < SweepLeft(s.d, s.threads[t])
    ensures UnderWay(s'.threads[t]) || (s'.threads[t].pc == Rest && (t == Printer ==> !s'.l.gate))
  {
    NextThreads(s, t, rate, s');
    NotHalted(s, t, rate, s');
    SweeperNearer(s, t, rate, s');
    assert Shape(t, s.threads[t]);
    GateAfterSweeper(s, t, rate, s');
  }

  /** A sweeper that acts comes nearer to its end. */
  lemma SweeperTick(h: History, t: Tid, n: nat)
    requires Valid(h) && !t.Atm? && Acts(h, t, n) && Moving(h, t, n)
    ensures t in h.state(n + 1).threads && LeftOf(h, t, n + 1) < LeftOf(h, t, n)
    ensures Moving(h, t, n + 1) || Resting(h, t, n + 1)
  {
    assert Ticks(h, n);
    Holds(h, n);
    SweeperMoves(h.state(n), t, h.act(n).rate, h.state(n + 1));
  }

  lemma LeftUntil(h: History, t: Tid, n: nat, m: nat)
    requires Valid(h) && Frozen(h, n) && n <= m && Moving(h, t, n)
    requires forall k: nat | n <= k < m :: !Acts(h, t, k)
    ensures Moving(h, t, m) && LeftOf(h, t, m) == LeftOf(h, t, n)
  {
    SameUntil(h, t, n, m);
    SameKeysUntil(h, n, m);
    assert Unvisited(h.state(m).d, h.state(m).threads[t].v) == Unvisited(h.state(n).d, h.state(n).threads[t].v);
  }

  /** The next step of a sweeper that acts again and again. */
  lemma SweepGoesOn(h: History, t: Tid, n: nat) returns (m: nat)
    requires Valid(h) && Frozen(h, n) && AlwaysActsAgain(h, t) && !t.Atm? && Moving(h, t, n)
    ensures n < m && Frozen(h, m)
    ensures Resting(h, t, m) || (Moving(h, t, m) && LeftOf(h, t, m) < LeftOf(h, t, n))
  {
    assert ActsFrom(h, t, n);
    var k := NextAct(h, t, n);
    LeftUntil(h, t, n, k);
    SweeperTick(h, t, k);
    m := k + 1;
    FrozenLater(h, n, m);
  }

  /** It comes to the end of its round. */
  lemma {:induction false} SweepEnds(h: History, t: Tid, n: nat, left: nat) returns (m: nat)
    requires Valid(h) && Frozen(h, n) && AlwaysActsAgain(h, t)
    requires !t.Atm? && Moving(h, t, n) && left == LeftOf(h, t, n)
    ensures n < m && Resting(h, t, m)
    decreases left
  {
    m := SweepGoesOn(h, t, n);
    if !Resting(h, t, m) { m := SweepEnds(h, t, m, LeftOf(h, t, m)); }
  }

  lemma SweeperRests(h: History, t: Tid, n: nat) returns (m: nat)
    requires Valid(h) && Frozen(h, n) && AlwaysActsAgain(h, t)
    requires !t.Atm? && t in h.state(n).threads && h.state(n).threads[t].pc != Halted
    ensures n <= m && t in h.state(m).threads && h.state(m).threads[t].pc == Rest
  {
    if Moving(h, t, n) { m := SweepEnds(h, t, n, LeftOf(h, t, n)); } else { m := n; }
  }

  // ---------- the ATMs stop ----------

  /** An ATM that has not stopped. */
  predicate Wants(h: History, t: Tid, n: nat) {
    t.Atm? && t in h.state(n).threads && h.state(n).threads[t].pc != Halted
  }

  predicate SweepersWork(s: State) {
    && s.d.progress && Collector in s.threads && Printer in s.threads
    && s.threads[Collector].pc != Halted && s.threads[Printer].pc != Halted
  }

  lemma WorkGoesOn(h: History, t: Tid, n: nat, m: nat)
    requires Valid(h) && Frozen(h, n) && n <= m && Wants(h, t, n)
    ensures Wants(h, t, m) && Frozen(h, m) && !Able(h, t, m) && SweepersWork(h.state(m))
    ensures h.state(m).threads[t] == h.state(n).threads[t]
  {
    FrozenStays(h, n, m, t);
    FrozenLater(h, n, m);
    Holds(h, m);
    assert !AtmsDone(h.state(m));
  }

  lemma PrinterStarts(s: State, rate: int, s': State)
    requires Printer in s.threads && s.threads[Printer].pc.Rest? && s.d.progress
    requires Next(s, Printer, rate) == Some(s')
    ensures Printer in s'.threads && s'.threads[Printer].pc == Lock(ListSeize)
  {
  }

  lemma PrinterFindsFree(s: State, rate: int, s': State)
    requires Printer in s.threads && s.threads[Printer].pc == Lock(ListSeize)
    requires Next(s, Printer, rate) == Some(s')
    ensures !s.l.list.wm
  {
  }

  /** A printer that goes on and on finds the list free again and again. */
  lemma PrinterSeizes(h: History, t: Tid, n: nat) returns (m: nat)
    requires Valid(h) && Frozen(h, n) && Wants(h, t, n) && AlwaysActsAgain(h, Printer)
    ensures n <= m && Moving(h, Printer, m) && !h.state(m).l.list.wm
  {
    WorkGoesOn(h, t, n, n);
    var r := SweeperRests(h, Printer, n);
    assert ActsFrom(h, Printer, r);
    var k := NextAct(h, Printer, r);
    SameUntil(h, Printer, r, k);
    WorkGoesOn(h, t, n, k);
    assert Ticks(h, k);
    PrinterStarts(h.state(k), h.act(k).rate, h.state(k + 1));
    assert ActsFrom(h, Printer, k + 1);
    m := NextAct(h, Printer, k + 1);
    SameUntil(h, Printer, k + 1, m);
    assert Ticks(h, m);
    PrinterFindsFree(h.state(m), h.act(m).rate, h.state(m + 1));
  }

  // ---------- where an ATM can be stuck while the list is free ----------

  lemma FreeListOutside(s: State, t: Tid)
    requires LocksInv(s) && t in s.threads && !s.l.list.wm
    ensures !HasList(s.threads[t].pc)
  {
    assert Shape(t, s.threads[t]);
    var roles := ListRoles(s.threads);
    assert roles[t] == s.threads[t].held.list;
    assert !Claims(s.l.list, roles[t]);
  }

  /** Before the counter's mutex of the account list, on the way in or out. */
  predicate Knocks(th: Thread) {
    (th.pc == Lock(ListIn) && th.held.list == Out) || (th.pc == Lock(ListOut) && th.held.list == In)
  }

  lemma KnocksWaits(s: State, t: Tid)
    requires t in s.threads && Knocks(s.threads[t]) && !CanStep(s, t)
    ensures s.l.list.rm
  {
  }

  lemma GateWaits(s: State, t: Tid)
    requires t in s.threads && s.threads[t].pc == Lock(GateTake) && !CanStep(s, t)
    ensures s.l.gate
  {
  }

  lemma OutsideWaits(s: State, t: Tid)
    requires t in s.threads && Shape(t, s.threads[t]) && !HasList(s.threads[t].pc) && s.threads[t].pc != Halted
    requires !s.l.list.wm && !CanStep(s, t)
    ensures s.threads[t].pc == Lock(GateTake) || Knocks(s.threads[t])
  {
  }

  lemma InWindowSteps(s: State, w: Tid)
    requires w in s.threads && Shape(w, s.threads[w]) && Window(s.threads[w].held.list) && !s.l.list.wm
    ensures CanStep(s, w)
  {
    ListWindowPc(w, s.threads[w]);
  }

  lemma WindowHolder(s: State) returns (w: Tid)
    requires LocksInv(s) && s.l.list.rm
    ensures w in s.threads && Window(s.threads[w].held.list) && w != Printer
    ensures s.threads[w].pc != Rest
  {
    var roles := ListRoles(s.threads);
    w :| w in roles && Window(roles[w]);
    assert Shape(w, s.threads[w]);
  }

  /** Where a stuck ATM is when the printer finds the list free. */
  lemma StuckOutside(h: History, t: Tid, n: nat, m: nat)
    requires Valid(h) && Frozen(h, n) && n <= m && Wants(h, t, n) && !h.state(m).l.list.wm
    ensures Wants(h, t, m) && !Able(h, t, m)
    ensures h.state(m).threads[t].pc == Lock(GateTake) || Knocks(h.state(m).threads[t])
  {
    WorkGoesOn(h, t, n, m);
    Holds(h, m);
    FreeListOutside(h.state(m), t);
    assert Shape(t, h.state(m).threads[t]);
    OutsideWaits(h.state(m), t);
  }

  lemma AtmsUnable(h: History, n: nat, m: nat)
    requires Frozen(h, n) && n <= m
    ensures forall u: Tid | u.Atm? :: !Able(h, u, m)
  {
    forall u: Tid | u.Atm? ensures !Able(h, u, m) { assert DisabledFrom(h, u, n); }
  }

  /** Whoever has the counter's mutex while the list is free can step; so it is not an ATM. */
  lemma CollectorHasCounter(h: History, n: nat, m: nat)
    requires Valid(h) && Frozen(h, n) && n <= m && !h.state(m).l.list.wm && h.state(m).l.list.rm
    ensures Able(h, Collector, m)
  {
    Holds(h, m);
    var w := WindowHolder(h.state(m));
    assert Shape(w, h.state(m).threads[w]);
    InWindowSteps(h.state(m), w);
    AtmsUnable(h, n, m);
    assert Able(h, w, m);
  }

  /** An ATM does not wait at the gate of a printer that goes on and on. */
  lemma NotAtGate(h: History, t: Tid, n: nat)
    requires Valid(h) && Frozen(h, n) && Wants(h, t, n) && AlwaysActsAgain(h, Printer)
    ensures h.state(n).threads[t].pc != Lock(GateTake)
  {
    if h.state(n).threads[t].pc == Lock(GateTake) {
      var m := PrinterSeizes(h, t, n);
      FrozenLater(h, n, m);
      var g := SweepEnds(h, Printer, m, LeftOf(h, Printer, m));
      WorkGoesOn(h, t, n, g);
      GateWaits(h.state(g), t);
    }
  }

  /** Nor does it wait for the counter's mutex for ever: the collector can give that back, and does. */
  lemma CollectorCalled(h: History, t: Tid, n: nat)
    requires Valid(h) && Frozen(h, n) && Wants(h, t, n) && AlwaysActsAgain(h, Printer)
    ensures AlwaysEnabledAgain(h, Collector)
  {
    forall k: nat ensures EnabledFrom(h, Collector, k) {
      var q := if n <= k then k else n;
      WorkGoesOn(h, t, n, q);
      var m := PrinterSeizes(h, t, q);
      NotAtGate(h, t, n);
      StuckOutside(h, t, n, m);
      WorkGoesOn(h, t, n, m);
      KnocksWaits(h.state(m), t);
      CollectorHasCounter(h, n, m);
    }
  }

  lemma PrinterLetsIn(h: History, t: Tid, n: nat)
    requires Valid(h) && Fair(h) && Frozen(h, n) && Wants(h, t, n)
    ensures !AlwaysActsAgain(h, Printer)
  {
    if AlwaysActsAgain(h, Printer) {
      CollectorCalled(h, t, n);
      NotAtGate(h, t, n);
      var m := PrinterSeizes(h, t, n);
      StuckOutside(h, t, n, m);
      WorkGoesOn(h, t, n, m);
      var q := SweeperRests(h, Collector, m);
      WorkGoesOn(h, t, n, q);
      KnocksWaits(h.state(q), t);
      Holds(h, q);
      var w := WindowHolder(h.state(q));
      AtmLeavesWindow(h, n, m, q, w);
    }
  }

  /** An ATM that acts no more is not in the window of a list that was free. */
  lemma AtmLeavesWindow(h: History, n: nat, m: nat, q: nat, w: Tid)
    requires Valid(h) && Frozen(h, n) && n <= m <= q && !h.state(m).l.list.wm
    requires w in h.state(q).threads && Window(h.state(q).threads[w].held.list)
    ensures !w.Atm?
  {
    if w.Atm? {
      KeysStay(h, n);
      KeysStay(h, q);
      FrozenStays(h, n, m, w);
      FrozenStays(h, n, q, w);
      Holds(h, m);
      assert Shape(w, h.state(m).threads[w]);
      InWindowSteps(h.state(m), w);
    }
  }

  /** Where somebody has not stopped and nobody is stuck with itself, somebody goes on. */
  lemma SomebodyGoes(h: History, t: Tid, n: nat) returns (u: Tid)
    requires Valid(h) && NeverStuck(h) && !t.Atm? && t in h.state(n).threads && h.state(n).threads[t].pc != Halted
    ensures Able(h, u, n) && (u == t || UnderWay(h.state(n).threads[u]))
  {
    Holds(h, n);
    assert Shape(t, h.state(n).threads[t]);
    if h.state(n).threads[t].pc.Rest? {
      u := t;
    } else {
      forall v ensures !SelfStuck(h.state(n), v) {}
      NobodyStuck(h.state(n));
      NoDeadlock(h.state(n), t);
      u :| Runs(h.state(n), u);
    }
  }

  lemma CollectorIdles(h: History, n: nat) returns (m: nat)
    requires Valid(h) && Fair(h) && Frozen(h, n) && SweepersWork(h.state(n))
    ensures n <= m && !Runs(h.state(m), Collector)
  {
    if AlwaysActsAgain(h, Collector) {
      m := SweeperRests(h, Collector, n);
    } else {
      var k: nat :| !ActsFrom(h, Collector, k);
      m := Disabled(h, Collector, if n <= k then k else n);
      assert !Able(h, Collector, m);
    }
  }

  lemma OnlyCollector(h: History, n: nat, m: nat, q: nat)
    requires Frozen(h, n) && DisabledFrom(h, Printer, m) && n <= m <= q
    ensures forall u | Able(h, u, q) :: u == Collector
  {
    AtmsUnable(h, n, q);
  }

  lemma PrinterGoesOn(h: History, t: Tid, n: nat)
    requires Valid(h) && Fair(h) && NeverStuck(h) && Frozen(h, n) && Wants(h, t, n)
    ensures AlwaysActsAgain(h, Printer)
  {
    if !AlwaysActsAgain(h, Printer) {
      var k: nat :| !ActsFrom(h, Printer, k);
      var m := Disabled(h, Printer, if n <= k then k else n);
      WorkGoesOn(h, t, n, m);
      var q := CollectorIdles(h, m);
      WorkGoesOn(h, t, n, q);
      OnlyCollector(h, n, m, q);
      var u := SomebodyGoes(h, Printer, q);
    }
  }

  /** In a fair run without a stuck transfer every ATM stops. */
  lemma AtmsStop(h: History) returns (n: nat)
    requires Valid(h) && Fair(h) && NeverStuck(h)
    ensures Frozen(h, n) && ForeverDone(h, n)
  {
    n := AtmsFreeze(h);
    if t :| Wants(h, t, n) {
      PrinterGoesOn(h, t, n);
      PrinterLetsIn(h, t, n);
    }
    forall m: nat | n <= m ensures AtmsDone(h.state(m)) {
      forall t | t in h.state(m).threads && t.Atm? ensures h.state(m).threads[t].pc == Halted {
        KeysStay(h, n);
        KeysStay(h, m);
        FrozenStays(h, n, m, t);
        assert !Wants(h, t, n);
      }
    }
  }

  // ---------- everybody stops ----------

  lemma TickStopped(h: History, n: nat)
    requires Valid(h) && (!h.state(n).d.progress || Stops(h, n))
    ensures !h.state(n + 1).d.progress
  {
    var a := h.act(n);
    assert Ticks(h, n);
    if a.By? { NextThreads(h.state(n), a.t, a.rate, h.state(n + 1)); }
  }

  lemma {:induction false} StaysStopped(h: History, n: nat, m: nat)
    requires Valid(h) && n <= m && !h.state(n).d.progress
    ensures !h.state(m).d.progress
    decreases m - n
  {
    if n < m {
      StaysStopped(h, n, m - 1);
      TickStopped(h, m - 1);
    }
  }

  /** The main thread has joined the ATMs and has cleared `progress`. */
  ghost predicate Closing(h: History, n: nat) {
    Frozen(h, n) && ForeverDone(h, n) && !h.state(n).d.progress
  }

  lemma Joined(h: History, n: nat) returns (m: nat)
    requires Valid(h) && Fair(h) && Frozen(h, n) && ForeverDone(h, n)
    ensures Closing(h, m)
  {
    var k: nat :| Stops(h, k);
    TickStopped(h, k);
    m := if n <= k then k + 1 else n;
    StaysStopped(h, k + 1, if m <= k then k + 1 else m);
    FrozenLater(h, n, m);
  }

  lemma ClosingLater(h: History, n: nat, m: nat)
    requires Valid(h) && Closing(h, n) && n <= m
    ensures Closing(h, m)
  {
    FrozenLater(h, n, m);
    StaysStopped(h, n, m);
  }

  lemma ClosingStepNearer(s: State, t: Tid, rate: int, s': State)
    requires FullInv(s) && Staffed(s') && t in s.threads && !t.Atm? && !s.d.progress && Next(s, t, rate) == Some(s')
    ensures Nearer(s', s)
  {
    if s.threads[t].pc.Rest? { StartNearer(s, t, rate, s'); } else { SweeperStepNearer(s, t, rate, s'); }
  }

  lemma ClosingTick(h: History, n: nat)
    requires Valid(h) && Closing(h, n)
    ensures Staffed(h.state(n)) && Staffed(h.state(n + 1))
    ensures if h.act(n).By? then Nearer(h.state(n + 1), h.state(n)) else h.state(n + 1) == h.state(n)
  {
    var a := h.act(n);
    assert Ticks(h, n);
    Holds(h, n);
    Holds(h, n + 1);
    if a.By? {
      assert Acts(h, a.t, n);
      assert !a.t.Atm?;
      ClosingStepNearer(h.state(n), a.t, a.rate, h.state(n + 1));
    }
  }

  ghost predicate Calm(h: History, n: nat) {
    forall k: nat | n <= k :: Stops(h, k)
  }

  lemma {:induction false} ComesToCalm(h: History, n: nat, left: Measure) returns (m: nat)
    requires Valid(h) && Closing(h, n) && Staffed(h.state(n)) && left == MeasureOf(h.state(n))
    ensures Closing(h, m) && Calm(h, m)
    decreases left.atms, left.progress, left.gate, left.forgotten, left.sweeps
  {
    if Calm(h, n) {
      m := n;
    } else {
      var q := n;
      var last: nat :| n <= last && !Stops(h, last);
      while Stops(h, q)
        invariant n <= q <= last && h.state(q) == h.state(n)
        decreases last - q
      {
        ClosingLater(h, n, q);
        ClosingTick(h, q);
        q := q + 1;
      }
      ClosingLater(h, n, q);
      ClosingTick(h, q);
      ClosingLater(h, n, q + 1);
      m := ComesToCalm(h, q + 1, MeasureOf(h.state(q + 1)));
    }
  }

  lemma CalmHalts(h: History, n: nat) returns (m: nat)
    requires Valid(h) && Fair(h) && NeverStuck(h) && Closing(h, n) && Calm(h, n)
    ensures AllHalted(h.state(m))
  {
    var ts := h.state(n).threads.Keys;
    forall t ensures !ActsFrom(h, t, n) {
      forall k: nat | n <= k ensures !Acts(h, t, k) { assert Stops(h, k); }
    }
    m := AllDisabled(h, ts, n);
    KeysStay(h, n);
    KeysStay(h, m);
    forall t ensures !Able(h, t, m) { assert t in ts ==> DisabledFrom(h, t, m); }
    forall t | t in h.state(m).threads ensures h.state(m).threads[t].pc == Halted {
      if !t.Atm? && h.state(m).threads[t].pc != Halted { var u := SomebodyGoes(h, t, m); }
    }
  }

  /** At some time all threads have stopped. */
  ghost predicate Ends(h: History) {
    exists n: nat :: AllHalted(h.state(n))
  }

  lemma UnstuckRunsEnd(h: History) returns (m: nat)
    requires Valid(h) && Fair(h) && NeverStuck(h)
    ensures AllHalted(h.state(m))
  {
    var n := AtmsStop(h);
    n := Joined(h, n);
    Holds(h, n);
    n := ComesToCalm(h, n, MeasureOf(h.state(n)));
    m := CalmHalts(h, n);
  }

  lemma TickStuck(h: History, t: Tid, n: nat)
    requires Valid(h) && SelfStuck(h.state(n), t)
    ensures SelfStuck(h.state(n + 1), t)
  {
    Holds(h, n);
    assert Ticks(h, n);
    TickStep(h.state(n), h.act(n), h.state(n + 1));
    SelfStuckStays(h.state(n), t, h.state(n + 1));
  }

  lemma {:induction false} StaysStuck(h: History, t: Tid, n: nat, m: nat)
    requires Valid(h) && n <= m && SelfStuck(h.state(n), t)
    ensures SelfStuck(h.state(m), t)
    decreases m - n
  {
    if n < m {
      StaysStuck(h, t, n, m - 1);
      TickStuck(h, t, m - 1);
    }
  }

  lemma {:induction false} StaysHalted(h: History, t: Tid, n: nat, m: nat)
    requires Valid(h) && n <= m && t in h.state(n).threads && h.state(n).threads[t].pc == Halted
    ensures t in h.state(m).threads && h.state(m).threads[t].pc == Halted
    decreases m - n
  {
    if n < m {
      StaysHalted(h, t, n, m - 1);
      assert Ticks(h, m - 1);
      TickSame(h, t, m - 1);
    }
  }

  lemma StuckRunsDoNotEnd(h: History, t: Tid, n: nat, m: nat)
    requires Valid(h) && SelfStuck(h.state(n), t)
    ensures !AllHalted(h.state(m))
  {
    var q := if n <= m then m else n;
    StaysStuck(h, t, n, q);
    KeysStay(h, m);
    KeysStay(h, q);
    if AllHalted(h.state(m)) { StaysHalted(h, t, m, q); }
  }

  /** A fair run comes to its end, with every thread stopped, if and only if no transfer from an open
      account to itself ever waits for its second lock. */
  lemma FairRunsEnd(h: History)
    requires Valid(h) && Fair(h)
    ensures Ends(h) <==> NeverStuck(h)
  {
    if NeverStuck(h) {
      var m := UnstuckRunsEnd(h);
    } else {
      var n: nat, t :| SelfStuck(h.state(n), t);
      forall m: nat ensures !AllHalted(h.state(m)) { StuckRunsDoNotEnd(h, t, n, m); }
    }
  }

  /** Under fairness, scripts without transfers from an account to itself are always carried out: the run
      ends with every script in a faithful log and with the accounts that the sequential bank makes of it. */
  lemma FairRunsFinish(h: History) returns (n: nat)
    requires Valid(h) && Fair(h) && NoSelfScripts(h.state(0))
    ensures var end := h.state(n);
            && AllHalted(end) && Faithful(end.d.log) && Real(end.d) == Replay(end.d.log)
            && end.script == h.state(0).script && forall k | k in end.script :: LogOf(end.d.log, k) == end.script[k]
  {
    forall m: nat, t ensures !SelfStuck(h.state(m), t) {
      KeysStay(h, m);
      Holds(h, m);
      NoSelfInHand(h.state(m));
      if SelfStuck(h.state(m), t) { SameAccountIffSelf(h.state(m), t); }
    }
    n := UnstuckRunsEnd(h);
    KeysStay(h, n);
    Holds(h, n);
    HaltedState(h.state(n));
  }

  // ---------- fair runs exist ----------

  ghost function ActOf(s: State, s': State): (a: Act)
    requires Step(s, s')
    ensures Tick(s, a, s')
  {
    if StopStep(s, s') then Stop
    else
      var t :| ThreadStep(s, t, s');
      var rate :| 1 <= rate <= MAX_FEE && Next(s, t, rate) == Some(s');
      By(t, rate)
  }

  /** A path to where all have stopped, and then nothing. */
  ghost function Along(path: seq<State>): History
    requires IsPath(path)
  {
    History((n: nat) => if n < |path| then path[n] else path[|path| - 1],
            (n: nat) => if n < |path| - 1 && Step(path[n], path[n + 1]) then ActOf(path[n], path[n + 1]) else Stop)
  }

  lemma AlongIsValid(path: seq<State>)
    requires IsRun(path) && AllHalted(path[|path| - 1]) && Staffed(path[|path| - 1])
    ensures Valid(Along(path))
  {
    var h, end := Along(path), path[|path| - 1];
    assert end == end.(d := end.d.(progress := false));
    forall n: nat ensures Ticks(h, n) {
      if n < |path| - 1 { assert Step(path[n], path[n + 1]); } else { assert StopStep(end, end); }
    }
  }

  lemma AlongIsFair(path: seq<State>)
    requires IsPath(path) && AllHalted(path[|path| - 1])
    ensures Fair(Along(path))
  {
    var h := Along(path);
    forall t ensures !AlwaysEnabledAgain(h, t) { assert !EnabledFrom(h, t, |path|); }
    assert Stops(h, |path|);
  }

  /** From every initial state whose scripts have no transfer from an account to itself. */
  lemma FairRunsExist(s: State) returns (h: History)
    requires Init(s) && NoSelfScripts(s)
    ensures Valid(h) && Fair(h) && h.state(0) == s
  {
    assert IsRun([s]) && [s][|[s]| - 1] == s;
    ReachableFull(s);
    var path := Completion.Finish(s, MeasureOf(s));
    h := Along(path);
    AlongIsValid(path);
    AlongIsFair(path);
  }
}

/** A run in which a transfer from an account to itself stops its ATM for good. */
module SelfTransfer {
  import opened RwLock
  import opened SequentialBank
  import opened Machine
  import opened Books
  import opened Serial
  import opened Waiting

  // ---------- one thread running alone ----------

  /** What one thread sees: its own state, the data and the locks. */
  datatype Side = Side(th: Thread, d: Data, l: Locks)

  function AloneStep(tid: Tid, w: Side): Option<Side> {
    match w.th.pc
    case Halted => None
    case Rest =>
      var th' := Start(w.d, tid, w.th, 1);
      Some(Side(th', Apply(w.d, StartEffect(th')), w.l))
    case Do(st) =>
      var (v', pc') := DataStep(w.d, st, w.th.job, w.th.v);
      Some(Side(w.th.(v := v', pc := pc'), Apply(w.d, EffectOf(w.d, tid, st, w.th.job, w.th.v)), w.l))
    case Lock(k) =>
      match LockStep(w.l, k, w.th.held, w.th.v.a, w.th.v.b)
      case None => None
      case Some((l', h')) => Some(Side(w.th.(held := h', pc := PcAfter(k, h', w.th.job, w.th.v.found)), w.d, l'))
  }

  predicate Sees(s: State, t: Tid, w: Side) {
    t in s.threads && s.threads[t] == w.th && s.d == w.d && s.l == w.l
  }

  lemma AloneIsNext(s: State, t: Tid, w: Side)
    requires Sees(s, t, w)
    ensures match AloneStep(t, w)
            case None => Next(s, t, 1) == None
            case Some(w') => Next(s, t, 1).Some? && Sees(Next(s, t, 1).value, t, w')
  {
  }

  lemma ReachOn(s: State, t: Tid, s': State)
    requires Reachable(s) && t in s.threads && Next(s, t, 1) == Some(s')
    ensures Reachable(s')
  {
    var run :| IsRun(run) && run[|run| - 1] == s;
    assert ThreadStep(s, t, s');
    var run' := run + [s'];
    forall i | 0 <= i < |run'| - 1 ensures Step(run'[i], run'[i + 1]) {
      if i < |run| - 1 { assert Step(run[i], run[i + 1]); }
    }
    assert IsRun(run') && run'[|run'| - 1] == s';
  }

  ghost predicate CanSee(t: Tid, w: Side) {
    exists s :: Reachable(s) && Sees(s, t, w)
  }

  lemma SeesOn(t: Tid, w: Side, w': Side)
    requires CanSee(t, w) && AloneStep(t, w) == Some(w')
    ensures CanSee(t, w')
  {
    var s :| Reachable(s) && Sees(s, t, w);
    AloneIsNext(s, t, w);
    ReachOn(s, t, Next(s, t, 1).value);
  }

  // ---------- the run ----------

  const A := Atm(0)
  const OPEN := Command.Open(1, "p", 5)
  const SELF := Command.Transfer(1, "p", 1, 0)
  const BLANK := Locals(false, 0, 0, 0, 0, 0, Going, 0, {}, [])
  const IDLE := Thread([], PrintRound, Rest, NOTHING_HELD, BLANK)
  const DATA := Data([], map[], map[], 0, [], [], [], false, true)
  const LOCKS := Locks(FREE, map[], false, false, false)
  const BEGIN := Side(Thread([OPEN, SELF], PrintRound, Rest, NOTHING_HELD, BLANK), DATA, LOCKS)

  /** One ATM, whose script opens an account and transfers nothing from it to itself. */
  const START_STATE :=
    State(map[A := BEGIN.th, Collector := IDLE, Printer := IDLE], map[0 := [OPEN, SELF]], DATA, LOCKS)

  lemma Begins()
    ensures Init(START_STATE) && CanSee(A, BEGIN)
  {
    var run := [START_STATE];
    assert IsRun(run) && run[|run| - 1] == START_STATE;
    assert Sees(START_STATE, A, BEGIN);
  }

  lemma Goes(w: Side) returns (w': Side)
    requires CanSee(A, w) && AloneStep(A, w).Some?
    ensures CanSee(A, w') && AloneStep(A, w) == Some(w')
  {
    w' := AloneStep(A, w).value;
    SeesOn(A, w, w');
  }

  const TAKEN := Rw(false, true, 0)

  /** The ATM's commands to come, its command, its program counter and what it holds. */
  predicate Thus(w: Side, todo: seq<Command>, c: Command, pc: PC, held: Held) {
    w.th.todo == todo && w.th.job == Cmd(c) && w.th.pc == pc && w.th.held == held
  }

  /** The locks around it. */
  predicate Locked(w: Side, list: Rw, acct: Rw, transfer: bool, log: bool) {
    w.l.list == list && LockAt(w.l, 0) == acct && w.l.transfer == transfer && w.l.log == log
  }

  /** Its first account is account 0; it has come out as `res`. */
  predicate Has(w: Side, res: Res) { w.th.v.found && w.th.v.a == 0 && w.th.v.res == res }

  predicate IsOpen(d: Data) { 1 in d.open && d.open[1] == 0 }

  /** Looking for the account, which is not there. */
  lemma Seeks() returns (w: Side)
    ensures CanSee(A, w) && Thus(w, [SELF], OPEN, Do(Find), NOTHING_HELD.(list := Writing))
    ensures Locked(w, TAKEN, FREE, false, false) && w.th.v.res == Going && w.d.open == map[] && w.d.heap == []
  {
    Begins();
    w := Goes(BEGIN);
    assert Thus(w, [SELF], OPEN, Lock(ListSeize), NOTHING_HELD) && Locked(w, FREE, FREE, false, false);
    w := Goes(w);
  }

  /** The new account exists, and its lock is to be taken. */
  lemma Creates() returns (w: Side)
    ensures CanSee(A, w) && Thus(w, [SELF], OPEN, Lock(SeizeA), NOTHING_HELD.(list := Writing))
    ensures Locked(w, TAKEN, FREE, false, false) && Has(w, Going)
    ensures w.d.open == map[] && |w.d.heap| == 1 && w.d.heap[0].id == 1
  {
    w := Seeks();
    w := Goes(w);
  }

  /** It is on the map and locked, and its line is to be logged. */
  lemma Files() returns (w: Side)
    ensures CanSee(A, w) && Thus(w, [SELF], OPEN, Lock(LogTake), Held(Writing, Writing, Out, false, false))
    ensures Locked(w, TAKEN, TAKEN, false, false) && Has(w, Done) && IsOpen(w.d)
  {
    w := Creates();
    w := Goes(w);
    assert Thus(w, [SELF], OPEN, Do(Insert), Held(Writing, Writing, Out, false, false));
    w := Goes(w);
  }

  lemma Logs() returns (w: Side)
    ensures CanSee(A, w) && Thus(w, [SELF], OPEN, Lock(LogGive), Held(Writing, Writing, Out, false, true))
    ensures Locked(w, TAKEN, TAKEN, false, true) && Has(w, Done) && IsOpen(w.d)
  {
    w := Files();
    w := Goes(w);
    assert Thus(w, [SELF], OPEN, Do(Append), Held(Writing, Writing, Out, false, true));
    w := Goes(w);
  }

  lemma Unlogs() returns (w: Side)
    ensures CanSee(A, w) && Thus(w, [SELF], OPEN, Lock(YieldA), Held(Writing, Writing, Out, false, false))
    ensures Locked(w, TAKEN, TAKEN, false, false) && Has(w, Done) && IsOpen(w.d)
  {
    w := Logs();
    w := Goes(w);
  }

  lemma Releases() returns (w: Side)
    ensures CanSee(A, w) && Thus(w, [SELF], OPEN, Do(Unwant), NOTHING_HELD)
    ensures Locked(w, FREE, FREE, false, false) && IsOpen(w.d)
  {
    w := Unlogs();
    w := Goes(w);
    assert Thus(w, [SELF], OPEN, Lock(ListYield), NOTHING_HELD.(list := Writing));
    w := Goes(w);
  }

  lemma Unwants() returns (w: Side)
    ensures CanSee(A, w) && Thus(w, [SELF], OPEN, Lock(GateGive), NOTHING_HELD)
    ensures Locked(w, FREE, FREE, false, false) && IsOpen(w.d) && !w.d.wants
  {
    w := Releases();
    w := Goes(w);
  }

  /** The account is open and the ATM between its commands. */
  lemma Opens() returns (w: Side)
    ensures CanSee(A, w) && Thus(w, [SELF], OPEN, Rest, NOTHING_HELD)
    ensures Locked(w, FREE, FREE, false, false) && IsOpen(w.d) && !w.d.wants
  {
    w := Unwants();
    w := Goes(w);
  }

  /** In the entry window of the account list's lock. */
  lemma Counts() returns (w: Side)
    ensures CanSee(A, w) && Thus(w, [], SELF, Lock(ListIn), NOTHING_HELD.(list := EnterTest))
    ensures Locked(w, Rw(true, false, 1), FREE, false, false) && IsOpen(w.d)
  {
    w := Opens();
    w := Goes(w);
    assert [SELF][1..] == [];
    assert Thus(w, [], SELF, Lock(ListIn), NOTHING_HELD) && IsOpen(w.d);
    w := Goes(w);
    assert Thus(w, [], SELF, Lock(ListIn), NOTHING_HELD.(list := EnterRead)) && IsOpen(w.d);
    w := Goes(w);
    assert Thus(w, [], SELF, Lock(ListIn), NOTHING_HELD.(list := EnterStore(0))) && IsOpen(w.d);
    w := Goes(w);
  }

  /** The transfer is among the readers of the list. */
  lemma Enters() returns (w: Side)
    ensures CanSee(A, w) && Thus(w, [], SELF, Lock(TransferTake), NOTHING_HELD.(list := In))
    ensures Locked(w, Rw(false, true, 1), FREE, false, false) && IsOpen(w.d)
  {
    w := Counts();
    w := Goes(w);
    assert Thus(w, [], SELF, Lock(ListIn), NOTHING_HELD.(list := EnterUnlock)) && IsOpen(w.d);
    w := Goes(w);
  }

  /** It has found its account, twice. */
  lemma Finds() returns (w: Side)
    ensures CanSee(A, w) && Thus(w, [], SELF, Lock(SeizeA), Held(In, Out, Out, true, false))
    ensures Locked(w, Rw(false, true, 1), FREE, true, false) && w.th.v.a == 0 && w.th.v.b == 0
  {
    w := Enters();
    w := Goes(w);
    assert Thus(w, [], SELF, Do(Find), Held(In, Out, Out, true, false)) && IsOpen(w.d);
    w := Goes(w);
  }

  /** It has its account's write mutex and waits for it again. */
  lemma Sticks() returns (w: Side)
    ensures CanSee(A, w) && Thus(w, [], SELF, Lock(SeizeB), Held(In, Writing, Out, true, false))
    ensures w.th.v.a == w.th.v.b
  {
    w := Finds();
    w := Goes(w);
  }

  /** No continuation gets the thread past its second lock. */
  ghost predicate Doomed(s: State, t: Tid) {
    forall path: seq<State>, j: nat | IsPath(path) && path[0] == s && j < |path| :: SelfStuck(path[j], t)
  }

  lemma StuckIsDoomed(s: State, t: Tid)
    requires MainInv(s) && SelfStuck(s, t)
    ensures Doomed(s, t)
  {
    forall path: seq<State>, j: nat | IsPath(path) && path[0] == s && j < |path| ensures SelfStuck(path[j], t) {
      SelfTransferStuck(path, j, t);
    }
  }

  /** The script of two commands can come to a reachable state from which no continuation ends it: the
      lines `O 1 p 5` and `T 1 p 1 0` are enough. */
  lemma SelfTransferDeadlocks() returns (s: State)
    ensures Init(START_STATE) && Reachable(s) && SelfStuck(s, A) && Doomed(s, A)
  {
    Begins();
    var w := Sticks();
    s :| Reachable(s) && Sees(s, A, w);
    ReachableMain(s);
    StuckIsDoomed(s, A);
  }
}

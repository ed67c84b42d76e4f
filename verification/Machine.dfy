/** The concurrent bank as a transition system.

    Any number of ATM threads, the fee collector and the status printer run over shared data.  Every lock
    acquisition and release, every read and write of a counter or a balance, every change of a map and
    every line appended to the log is a step of its own, and the steps of the threads interleave freely. */
module Machine {
  import opened RwLock
  import opened SequentialBank

  /** The address of an account object. */
  type Ref = nat

  datatype Tid = Atm(n: nat) | Collector | Printer

  datatype Job = Cmd(c: Command) | FeeRound(rate: int) | PrintRound

  datatype Res = Going | Done | Failed(v: Verdict)

  /** What a sweep over the account map saw of one account. */
  datatype Row = Row(id: int, bal: int, pw: string)

  /** Calls of lock routines.  `A` and `B` are the write mutexes of the first and second account. */
  datatype LockPc =
    | GateTake | GateGive
    | ListIn | ListOut | ListSeize | ListYield
    | AcctIn | AcctOut
    | SeizeA | SeizeB | YieldA | YieldB
    | TransferTake | TransferGive
    | LogTake | LogGive

  /** Statements on the data. */
  datatype DataPc =
    | Find | Check | Test
    | Load1 | Store1 | Load2 | Store2
    | FeeLoad | VaultLoad | VaultStore
    | Insert | Retire | Mark | Erase
    | Show | ShowVault
    | Append | Unwant

  datatype PC = Rest | Halted | Lock(k: LockPc) | Do(s: DataPc)

  /** How far a thread has come in each lock it uses; `a` and `b` are the locks of its two accounts. */
  datatype Held = Held(list: Role, a: Role, b: Role, transfer: bool, log: bool)

  const NOTHING_HELD := Held(Out, Out, Out, false, false)

  /** Local variables: the accounts looked up (when `found`), registers, how the command came out, and
      for a sweep its position `key`, the accounts open when it began and what it has visited. */
  datatype Locals = Locals(
    found: bool, a: Ref, b: Ref, x: int, y: int, fee: int, res: Res,
    key: int, keys: set<int>, rows: seq<Row>)

  datatype Thread = Thread(todo: seq<Command>, job: Job, pc: PC, held: Held, v: Locals)

  datatype Account = Account(id: int, pw: string, bal: int, deleted: bool)

  /** A finished status print, with the length of the log and the number of finished fee rounds then. */
  datatype Shot = Shot(rows: seq<Row>, vault: int, at: nat, rounds: nat)

  /** A finished fee round. */
  datatype Round = Round(rate: int, keys: set<int>, rows: seq<Row>)

  datatype Data = Data(
    heap: seq<Account>, open: map<int, Ref>, closed: map<int, Ref>, vault: int,
    log: seq<Line>, shots: seq<Shot>, rounds: seq<Round>, wants: bool, progress: bool)

  datatype Locks = Locks(list: Rw, accts: map<Ref, Rw>, transfer: bool, log: bool, gate: bool)

  datatype State = State(threads: map<Tid, Thread>, script: map<nat, seq<Command>>, d: Data, l: Locks)

  const NOBODY := Account(0, "", 0, true)

  function At(d: Data, r: Ref): Account {
    if r < |d.heap| then d.heap[r] else NOBODY
  }

  function LockAt(l: Locks, r: Ref): Rw {
    if r in l.accts then l.accts[r] else FREE
  }

  // ---------- which locks a job takes in which mode ----------

  predicate WritesList(job: Job) {
    match job
    case Cmd(c) => c.Open? || c.Close?
    case FeeRound(_) => false
    case PrintRound => true
  }

  predicate SharesAcct(job: Job) {
    match job
    case Cmd(c) => c.Balance?
    case FeeRound(_) => false
    case PrintRound => true
  }

  predicate IsTransfer(job: Job) {
    job.Cmd? && job.c.Transfer?
  }

  // ---------- lock steps ----------

  function OnList(l: Locks, h: Held, move: Option<(Rw, Role)>): Option<(Locks, Held)> {
    match move
    case None => None
    case Some((rw, role)) => Some((l.(list := rw), h.(list := role)))
  }

  function OnA(l: Locks, h: Held, r: Ref, move: Option<(Rw, Role)>): Option<(Locks, Held)> {
    match move
    case None => None
    case Some((rw, role)) => Some((l.(accts := l.accts[r := rw]), h.(a := role)))
  }

  function OnB(l: Locks, h: Held, r: Ref, move: Option<(Rw, Role)>): Option<(Locks, Held)> {
    match move
    case None => None
    case Some((rw, role)) => Some((l.(accts := l.accts[r := rw]), h.(b := role)))
  }

  /** A step inside a lock routine; `None` when the thread has to wait. */
  function LockStep(l: Locks, k: LockPc, h: Held, a: Ref, b: Ref): Option<(Locks, Held)> {
    match k
    case GateTake => if l.gate then None else Some((l.(gate := true), h))
    case GateGive => Some((l.(gate := false), h))
    case ListIn => OnList(l, h, Enter(l.list, h.list))
    case ListOut => OnList(l, h, Leave(l.list, h.list))
    case ListSeize => OnList(l, h, Seize(l.list, h.list))
    case ListYield => OnList(l, h, Yield(l.list, h.list))
    case AcctIn => OnA(l, h, a, Enter(LockAt(l, a), h.a))
    case AcctOut => OnA(l, h, a, Leave(LockAt(l, a), h.a))
    case SeizeA => OnA(l, h, a, Seize(LockAt(l, a), h.a))
    case SeizeB => OnB(l, h, b, Seize(LockAt(l, b), h.b))
    case YieldA => OnA(l, h, a, Yield(LockAt(l, a), h.a))
    case YieldB => OnB(l, h, b, Yield(LockAt(l, b), h.b))
    case TransferTake => if l.transfer then None else Some((l.(transfer := true), h.(transfer := true)))
    case TransferGive => Some((l.(transfer := false), h.(transfer := false)))
    case LogTake => if l.log then None else Some((l.(log := true), h.(log := true)))
    case LogGive => Some((l.(log := false), h.(log := false)))
  }

  function PcLocked(job: Job): PC {
    match job
    case Cmd(c) => Do(if c.Open? then Insert else Check)
    case FeeRound(_) => Do(FeeLoad)
    case PrintRound => Do(Show)
  }

  function PcReleased(job: Job): PC {
    match job
    case Cmd(c) =>
      if c.Transfer? then Lock(TransferGive) else if WritesList(job) then Lock(ListYield) else Lock(ListOut)
    case _ => Do(Find)
  }

  /** Where a thread goes from a lock routine; `h` is what it holds after the step. */
  function PcAfter(k: LockPc, h: Held, job: Job, found: bool): PC {
    match k
    case GateTake => Lock(ListIn)
    case GateGive => Rest
    case ListIn => if h.list != In then Lock(ListIn) else if IsTransfer(job) then Lock(TransferTake) else Do(Find)
    case ListOut => if h.list != Out then Lock(ListOut) else Rest
    case ListSeize => Do(Find)
    case ListYield => Do(Unwant)
    case AcctIn => if h.a != In then Lock(AcctIn) else PcLocked(job)
    case AcctOut => if h.a != Out then Lock(AcctOut) else PcReleased(job)
    case SeizeA => if IsTransfer(job) then Lock(SeizeB) else PcLocked(job)
    case SeizeB => PcLocked(job)
    case YieldA => if IsTransfer(job) then Lock(YieldB) else PcReleased(job)
    case YieldB => PcReleased(job)
    case TransferTake => Do(Find)
    case TransferGive => Lock(ListOut)
    case LogTake => Do(Append)
    case LogGive =>
      if !found then PcReleased(job) else if SharesAcct(job) then Lock(AcctOut) else Lock(YieldA)
  }

  // ---------- data steps ----------

  datatype Effect =
    | Nothing
    | SetBal(r: Ref, v: int) | SetVault(v: int)
    | Alloc(acct: Account) | PutOpen(id: int, r: Ref) | PutClosed(id: int, r: Ref)
    | SetDeleted(r: Ref) | Drop(id: int)
    | Log(line: Line) | Display(shot: Shot) | EndRound(round: Round)
    | Want(w: bool)

  function Apply(d: Data, e: Effect): Data {
    match e
    case Nothing => d
    case SetBal(r, v) => if r < |d.heap| then d.(heap := d.heap[r := d.heap[r].(bal := v)]) else d
    case SetVault(v) => d.(vault := v)
    case Alloc(acct) => d.(heap := d.heap + [acct])
    // std::map::insert leaves an occupied key alone
    case PutOpen(id, r) => if id in d.open then d else d.(open := d.open[id := r])
    case PutClosed(id, r) => if id in d.closed then d else d.(closed := d.closed[id := r])
    case SetDeleted(r) => if r < |d.heap| then d.(heap := d.heap[r := d.heap[r].(deleted := true)]) else d
    case Drop(id) => d.(open := d.open - {id})
    case Log(line) => d.(log := d.log + [line])
    case Display(shot) => d.(shots := d.shots + [shot])
    case EndRound(round) => d.(rounds := d.rounds + [round])
    case Want(w) => d.(wants := w)
  }

  function Fail(v: Locals, verdict: Verdict): (Locals, PC) {
    (v.(res := Failed(verdict)), Lock(LogTake))
  }

  function Finish(v: Locals): (Locals, PC) {
    (v.(res := Done), Lock(LogTake))
  }

  /** The keys that a sweep still has before it. */
  function Ahead(d: Data, v: Locals): set<int> {
    set k | k in d.open && (v.rows == [] || k > v.key)
  }

  function Least(s: set<int>): (k: int)
    requires s != {}
    ensures k in s && forall j | j in s :: k <= j
  {
    LeastExists(s);
    var k :| k in s && forall j | j in s :: k <= j;
    k
  }

  lemma {:induction false} LeastExists(s: set<int>)
    requires s != {}
    ensures exists k :: k in s && forall j | j in s :: k <= j
  {
    assert (forall k :: k !in s) ==> s == {};
    var k :| k in s;
    if s != {k} {
      LeastExists(s - {k});
      var j :| j in s - {k} && forall i | i in s - {k} :: j <= i;
      var m := if k < j then k else j;
      forall i | i in s ensures m <= i {
        if i != k { assert i in s - {k}; }
      }
      assert m in s;
    } else {
      assert k in s && forall j | j in s :: k <= j;
    }
  }

  /** Looks up the accounts of a command. */
  function Lookup(d: Data, v: Locals, c: Command): (Locals, PC) {
    match c
    case Open(id, _, _) =>
      if id in d.open && !At(d, d.open[id]).deleted then Fail(v, IdTaken)
      else (v.(found := true, a := |d.heap|), Lock(SeizeA))
    case Transfer(id, _, target, _) =>
      if id !in d.open then Fail(v, NoAccount(id))
      else if target !in d.open then Fail(v, NoAccount(target))
      else (v.(found := true, a := d.open[id], b := d.open[target]), Lock(SeizeA))
    case _ =>
      if c.id !in d.open then Fail(v, NoAccount(c.id))
      else (v.(found := true, a := d.open[c.id]), Lock(if c.Balance? then AcctIn else SeizeA))
  }

  function LookupEffect(d: Data, c: Command): Effect {
    if c.Open? && (c.id !in d.open || At(d, d.open[c.id]).deleted)
    then Alloc(Account(c.id, c.pw, c.amount, false)) else Nothing
  }

  /** Advances the iterator of a sweep, or ends the sweep. */
  function Advance(d: Data, v: Locals, job: Job): (Locals, PC) {
    var v' := v.(keys := if v.rows == [] then d.open.Keys else v.keys);
    var ahead := Ahead(d, v);
    if ahead == {} then
      (v'.(found := false), if job.FeeRound? then Lock(ListOut) else Do(ShowVault))
    else
      var k := Least(ahead);
      (v'.(found := true, key := k, a := d.open[k]), Lock(if job.FeeRound? then SeizeA else AcctIn))
  }

  function AdvanceEffect(d: Data, v: Locals, job: Job): Effect {
    if job.FeeRound? && Ahead(d, v) == {}
    then EndRound(Round(job.rate, if v.rows == [] then d.open.Keys else v.keys, v.rows)) else Nothing
  }

  /** The test of the `deleted` mark and of the password. */
  function Verify(d: Data, v: Locals, c: Command): (Locals, PC) {
    if At(d, v.a).deleted then Fail(v, NoAccount(c.id))
    else if c.Transfer? && At(d, v.b).deleted then Fail(v, NoAccount(c.target))
    else if At(d, v.a).pw != c.pw then Fail(v, WrongPassword)
    else
      match c
      case Deposit(_, _, _) => (v, Do(Load1))
      case Withdraw(_, _, _) => (v, Do(Test))
      case Transfer(_, _, _, _) => (v, Do(Test))
      case Close(_, _) => (v, Do(Retire))
      case _ => Finish(v)
  }

  function Amount(job: Job): int {
    if job.Cmd? && (job.c.Deposit? || job.c.Withdraw? || job.c.Transfer?) then job.c.amount else 0
  }

  /** What the first account gains. */
  function Delta(job: Job, fee: int): int {
    match job
    case Cmd(c) => if c.Deposit? then c.amount else -Amount(job)
    case FeeRound(_) => -fee
    case PrintRound => 0
  }

  /** How a command came out: an error found on the way, or the balances as they are now. */
  function Answer(d: Data, v: Locals, c: Command): Verdict {
    if v.res.Failed? then v.res.v
    else
      match c
      case Open(_, _, amount) => Opened(amount)
      case Deposit(_, _, _) => Deposited(At(d, v.a).bal)
      case Withdraw(_, _, _) => Withdrawn(At(d, v.a).bal)
      case Balance(_, _) => BalanceIs(At(d, v.a).bal)
      case Close(_, _) => Closed(At(d, v.a).bal)
      case Transfer(_, _, _, _) => Transferred(At(d, v.a).bal, At(d, v.b).bal)
  }

  function AtmNumber(tid: Tid): nat {
    if tid.Atm? then tid.n else 0
  }

  /** The line that a thread writes to the log. */
  function LineOf(d: Data, tid: Tid, job: Job, v: Locals): Line {
    match job
    case Cmd(c) => AtmLine(AtmNumber(tid), c, Answer(d, v, c))
    case FeeRound(rate) => FeeLine(rate, At(d, v.a).id, v.fee)
    case PrintRound => FeeLine(0, 0, 0)
  }

  function Seen(d: Data, r: Ref): Row {
    Row(At(d, r).id, At(d, r).bal, At(d, r).pw)
  }

  function RateOf(job: Job): int {
    if job.FeeRound? then job.rate else 0
  }

  /** What a data statement does to the shared data. */
  function EffectOf(d: Data, tid: Tid, s: DataPc, job: Job, v: Locals): Effect {
    match s
    case Find => if job.Cmd? then LookupEffect(d, job.c) else AdvanceEffect(d, v, job)
    case Store1 => SetBal(v.a, v.x + Delta(job, v.fee))
    case Store2 => SetBal(v.b, v.y + Amount(job))
    case VaultStore => SetVault(v.y + v.fee)
    case Insert => PutOpen(At(d, v.a).id, v.a)
    case Retire => PutClosed(At(d, v.a).id, v.a)
    case Mark => SetDeleted(v.a)
    case Erase => Drop(if job.Cmd? then job.c.id else 0)
    case ShowVault => Display(Shot(v.rows, d.vault, |d.log|, |d.rounds|))
    case Append => Log(LineOf(d, tid, job, v))
    case Unwant => Want(false)
    case Check | Test | Load1 | Load2 | FeeLoad | VaultLoad | Show => Nothing
  }

  /** What a data statement does to the thread's variables, and where the thread goes. */
  function DataStep(d: Data, s: DataPc, job: Job, v: Locals): (Locals, PC) {
    match s
    case Find => if job.Cmd? then Lookup(d, v, job.c) else Advance(d, v, job)
    case Check => if job.Cmd? then Verify(d, v, job.c) else (v, Do(Check))
    case Test => if At(d, v.a).bal < Amount(job) then Fail(v, TooLow) else (v, Do(Load1))
    case Load1 => (v.(x := At(d, v.a).bal), Do(Store1))
    case Store1 => if IsTransfer(job) then (v, Do(Load2)) else Finish(v)
    case Load2 => (v.(y := At(d, v.b).bal), Do(Store2))
    case Store2 => Finish(v)
    case FeeLoad =>
      (v.(rows := v.rows + [Seen(d, v.a)], fee := Fee(At(d, v.a).bal, RateOf(job))), Do(VaultLoad))
    case VaultLoad => (v.(y := d.vault), Do(VaultStore))
    case VaultStore => (v, Do(Load1))
    case Insert => Finish(v)
    case Retire => (v, Do(Mark))
    case Mark => (v, Do(Erase))
    case Erase => Finish(v)
    case Show => (v.(rows := v.rows + [Seen(d, v.a)]), Lock(AcctOut))
    case ShowVault => (v, Lock(ListYield))
    case Append => (v, Lock(LogGive))
    case Unwant => (v, Lock(GateGive))
  }

  // ---------- starting a job ----------

  function Begin(th: Thread, job: Job, pc: PC): Thread {
    th.(job := job, pc := pc, v := th.v.(found := false, res := Going, rows := []))
  }

  /** Picks the next job, or stops. */
  function Start(d: Data, tid: Tid, th: Thread, rate: int): Thread {
    match tid
    case Atm(_) =>
      if th.todo == [] then th.(pc := Halted)
      else
        var job := Cmd(th.todo[0]);
        var pc := if WritesList(job) then ListSeize else if d.wants then GateTake else ListIn;
        Begin(th.(todo := th.todo[1..]), job, Lock(pc))
    case Collector => if d.progress then Begin(th, FeeRound(rate), Lock(ListIn)) else th.(pc := Halted)
    case Printer => if d.progress then Begin(th, PrintRound, Lock(ListSeize)) else th.(pc := Halted)
  }

  /** A thread about to take the list's write mutex announces it. */
  function StartEffect(th': Thread): Effect {
    if th'.pc == Lock(ListSeize) then Want(true) else Nothing
  }

  // ---------- the whole system ----------

  /** The step of thread `t`; `rate` is what the random generator gives a starting fee round. */
  function Next(s: State, t: Tid, rate: int): Option<State>
    requires t in s.threads
  {
    var th := s.threads[t];
    match th.pc
    case Halted => None
    case Rest =>
      var th' := Start(s.d, t, th, rate);
      Some(s.(threads := s.threads[t := th'], d := Apply(s.d, StartEffect(th'))))
    case Do(st) =>
      var (v', pc') := DataStep(s.d, st, th.job, th.v);
      Some(s.(threads := s.threads[t := th.(v := v', pc := pc')],
              d := Apply(s.d, EffectOf(s.d, t, st, th.job, th.v))))
    case Lock(k) =>
      match LockStep(s.l, k, th.held, th.v.a, th.v.b)
      case None => None
      case Some((l', h')) =>
        Some(s.(threads := s.threads[t := th.(held := h', pc := PcAfter(k, h', th.job, th.v.found))], l := l'))
  }

  /** The main thread clears `progress` once it has joined every ATM thread. */
  predicate AtmsDone(s: State) {
    forall t | t in s.threads && t.Atm? :: s.threads[t].pc == Halted
  }

  ghost predicate ThreadStep(s: State, t: Tid, s': State) {
    t in s.threads && exists rate :: 1 <= rate <= MAX_FEE && Next(s, t, rate) == Some(s')
  }

  predicate StopStep(s: State, s': State) {
    AtmsDone(s) && s' == s.(d := s.d.(progress := false))
  }

  ghost predicate Step(s: State, s': State) {
    StopStep(s, s') || exists t :: ThreadStep(s, t, s')
  }

  ghost predicate Init(s: State) {
    && Collector in s.threads && Printer in s.threads
    && (forall t | t in s.threads :: s.threads[t].pc == Rest && s.threads[t].held == NOTHING_HELD)
    && (forall n :: n in s.script <==> Atm(n) in s.threads)
    && (forall n | n in s.script :: s.threads[Atm(n)].todo == s.script[n])
    && s.d == Data([], map[], map[], 0, [], [], [], false, true)
    && s.l == Locks(FREE, map[], false, false, false)
  }

  ghost predicate IsPath(path: seq<State>) {
    |path| > 0 && forall i | 0 <= i < |path| - 1 :: Step(path[i], path[i + 1])
  }

  ghost predicate IsRun(run: seq<State>) {
    IsPath(run) && Init(run[0])
  }

  ghost predicate Reachable(s: State) {
    exists run :: IsRun(run) && run[|run| - 1] == s
  }
}

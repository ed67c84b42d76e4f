/** What each thread may believe about the shared data at each point of its program, and why no other
    thread can spoil it: a rely/guarantee argument over the locks. */
module Local {
  import opened RwLock
  import opened SequentialBank
  import opened Machine
  import opened Control
  import opened Locking

  // ---------- commands ----------

  predicate Live(d: Data, k: int, r: Ref) {
    k in d.open && d.open[k] == r
  }

  function NewAccount(c: Command): Account
    requires c.Open?
  {
    Account(c.id, c.pw, c.amount, false)
  }

  /** The accounts found are those the command names. */
  predicate Has(d: Data, c: Command, v: Locals) {
    match c
    case Open(_, _, _) => v.a < |d.heap| && d.heap[v.a] == NewAccount(c)
    case Transfer(id, _, target, _) => Live(d, id, v.a) && Live(d, target, v.b)
    case _ => Live(d, c.id, v.a)
  }

  /** ... and the password is right. */
  predicate Knows(d: Data, c: Command, v: Locals) {
    Has(d, c, v) && At(d, v.a).pw == c.pw
  }

  predicate Enough(d: Data, c: Command, v: Locals, least: int) {
    c.Withdraw? || c.Transfer? ==> At(d, v.a).bal >= least
  }

  /** A reported error has its cause. */
  predicate Failing(d: Data, c: Command, v: Locals, verdict: Verdict) {
    match verdict
    case IdTaken => c.Open? && c.id in d.open
    case NoAccount(k) =>
      !c.Open? && k !in d.open && (k == c.id || (c.Transfer? && c.id in d.open && k == c.target))
    case WrongPassword => !c.Open? && Has(d, c, v) && At(d, v.a).pw != c.pw
    case TooLow => v.found && (c.Withdraw? || c.Transfer?) && Knows(d, c, v) && At(d, v.a).bal < c.amount
    case _ => false
  }

  /** A finished command has had its effect; only a closing looks at the logged state `b`. */
  predicate Effected(d: Data, b: Ledger, c: Command, v: Locals) {
    match c
    case Open(id, _, _) => Has(d, c, v) && Live(d, id, v.a)
    case Close(id, pw) =>
      && v.a < |d.heap| && d.heap[v.a].id == id && d.heap[v.a].pw == pw
      && id !in d.open
      && id in b.accts && b.accts[id] == Acct(pw, d.heap[v.a].bal)
    case _ => Knows(d, c, v) && Enough(d, c, v, 0)
  }

  predicate Logging(d: Data, b: Ledger, c: Command, v: Locals) {
    match v.res
    case Going => true
    case Done => Effected(d, b, c, v)
    case Failed(verdict) => Failing(d, c, v, verdict)
  }

  predicate CmdLocal(d: Data, b: Ledger, c: Command, pc: PC, v: Locals) {
    match pc
    case Rest | Halted => true
    case Lock(k) => (
      match k
      case SeizeA | SeizeB | AcctIn => Has(d, c, v) && (c.Open? ==> c.id !in d.open)
      case LogTake => Logging(d, b, c, v)
      case _ => true)
    case Do(s) =>
      match s
      case Check => Has(d, c, v)
      case Test => Knows(d, c, v)
      case Load1 => Knows(d, c, v) && Enough(d, c, v, Amount(Cmd(c)))
      case Store1 => Knows(d, c, v) && Enough(d, c, v, Amount(Cmd(c))) && v.x == At(d, v.a).bal
      case Load2 => Knows(d, c, v) && Enough(d, c, v, 0)
      case Store2 => Knows(d, c, v) && Enough(d, c, v, 0) && v.y == At(d, v.b).bal
      case Insert => Has(d, c, v) && c.id !in d.open
      case Retire | Mark | Erase => Knows(d, c, v)
      case Append => Logging(d, b, c, v)
      case _ => true
  }

  // ---------- sweeps ----------

  function Ids(rows: seq<Row>): set<int> {
    set i | 0 <= i < |rows| :: rows[i].id
  }

  predicate Rising(rows: seq<Row>) {
    forall i, j | 0 <= i < j < |rows| :: rows[i].id < rows[j].id
  }

  /** The accounts before the sweep's position are exactly those visited. */
  predicate Swept(d: Data, v: Locals) {
    && v.keys == d.open.Keys
    && Rising(v.rows)
    && (forall i | 0 <= i < |v.rows| :: v.rows[i].id in d.open && v.rows[i].id <= v.key)
    && (forall k | k in d.open && k < v.key :: k in Ids(v.rows))
  }

  /** Between two accounts. */
  predicate Visited(d: Data, v: Locals) {
    v.rows == [] || (Swept(d, v) && v.rows[|v.rows| - 1].id == v.key)
  }

  /** At an account that is not yet visited. */
  predicate Visiting(d: Data, v: Locals) {
    && Swept(d, v) && Live(d, v.key, v.a)
    && (forall i | 0 <= i < |v.rows| :: v.rows[i].id < v.key)
  }

  predicate Complete(d: Data, v: Locals) {
    Rising(v.rows) && Ids(v.rows) == d.open.Keys
  }

  /** The current account has been charged in the round's records, with `paid` taken so far. */
  predicate Charging(d: Data, rate: int, v: Locals, paid: int) {
    && v.rows != [] && Visited(d, v) && Live(d, v.key, v.a)
    && v.rows[|v.rows| - 1].bal == At(d, v.a).bal + paid
    && v.fee == Fee(v.rows[|v.rows| - 1].bal, rate)
  }

  predicate FeeLocal(d: Data, rate: int, pc: PC, v: Locals) {
    match pc
    case Rest | Halted => true
    case Lock(k) => (
      match k
      case ListIn => v.rows == []
      case SeizeA => Visiting(d, v)
      case LogTake => Charging(d, rate, v, v.fee)
      case LogGive | YieldA => Visited(d, v)
      case _ => true)
    case Do(s) =>
      match s
      case Find => Visited(d, v)
      case FeeLoad => Visiting(d, v)
      case VaultLoad => Charging(d, rate, v, 0)
      case VaultStore => Charging(d, rate, v, 0) && v.y == d.vault
      case Load1 => Charging(d, rate, v, 0)
      case Store1 => Charging(d, rate, v, 0) && v.x == At(d, v.a).bal
      case Append => Charging(d, rate, v, v.fee)
      case _ => true
  }

  /** What has been printed is still so. */
  predicate Shown(d: Data, rows: seq<Row>) {
    forall i | 0 <= i < |rows| ::
      rows[i].id in d.open && Seen(d, d.open[rows[i].id]) == rows[i]
  }

  predicate PrintLocal(d: Data, pc: PC, v: Locals) {
    match pc
    case Rest | Halted => true
    case Lock(k) => (
      match k
      case ListSeize => v.rows == []
      case AcctIn => Visiting(d, v) && Shown(d, v.rows)
      case AcctOut => Visited(d, v) && Shown(d, v.rows)
      case _ => true)
    case Do(s) =>
      match s
      case Find => Visited(d, v) && Shown(d, v.rows)
      case Show => Visiting(d, v) && Shown(d, v.rows)
      case ShowVault => Complete(d, v) && Shown(d, v.rows)
      case _ => true
  }

  predicate JobLocal(d: Data, b: Ledger, job: Job, pc: PC, v: Locals) {
    match job
    case Cmd(c) => CmdLocal(d, b, c, pc, v)
    case FeeRound(rate) => FeeLocal(d, rate, pc, v)
    case PrintRound => PrintLocal(d, pc, v)
  }

  predicate Believes(d: Data, b: Ledger, th: Thread) {
    JobLocal(d, b, th.job, th.pc, th.v)
  }

  // ---------- the heap ----------

  /** A thread is between marking an account deleted and taking it off the map. */
  predicate Erasing(th: Thread, r: Ref) {
    th.pc == Do(Erase) && th.v.a == r
  }

  /** ... or between retiring it and marking it. */
  predicate Marking(th: Thread, r: Ref) {
    th.pc == Do(Mark) && th.v.a == r
  }

  ghost predicate OpenOk(d: Data, threads: map<Tid, Thread>, k: int)
    requires k in d.open
  {
    && d.open[k] < |d.heap| && d.heap[d.open[k]].id == k
    && (d.heap[d.open[k]].deleted ==> exists t :: t in threads && Erasing(threads[t], d.open[k]))
  }

  ghost predicate ClosedOk(d: Data, threads: map<Tid, Thread>, k: int)
    requires k in d.closed
  {
    && d.closed[k] < |d.heap| && d.heap[d.closed[k]].id == k
    && (!d.heap[d.closed[k]].deleted ==> exists t :: t in threads && Marking(threads[t], d.closed[k]))
  }

  ghost predicate HeapInv(d: Data, threads: map<Tid, Thread>) {
    && (forall k | k in d.open :: OpenOk(d, threads, k))
    && (forall k | k in d.closed :: ClosedOk(d, threads, k))
  }

  predicate RefsOk(d: Data) {
    forall k | k in d.open :: d.open[k] < |d.heap|
  }

  // ---------- what others may do ----------

  predicate SameName(x: Account, y: Account) {
    x.id == y.id && x.pw == y.pw && x.deleted == y.deleted
  }

  /** What a thread relies on while others step: inside the list's lock the map and the names stand still,
      a locked account does not change, and a writer of the list is alone. */
  ghost predicate Rely(d: Data, b: Ledger, d': Data, b': Ledger, tid: Tid, th: Thread) {
    && (th.held.list == In || th.held.list == Writing ==>
          && d'.open == d.open && |d.heap| <= |d'.heap|
          && (forall r: Ref | r < |d.heap| :: SameName(d.heap[r], d'.heap[r])))
    && (forall r: Ref | r < |d.heap| :: AcctRole(th, r) == In || AcctRole(th, r) == Writing ==>
          |d.heap| <= |d'.heap| && d'.heap[r] == d.heap[r])
    && (th.held.list == Writing ==> b' == b && d'.heap == d.heap)
    && (tid == Collector ==> d'.vault == d.vault)
  }

  lemma CmdStableAtCall(d: Data, b: Ledger, d': Data, b': Ledger, tid: Tid, th: Thread)
    requires Shape(tid, th) && th.job.Cmd? && th.pc.Lock? && RefsOk(d) && Rely(d, b, d', b', tid, th)
    requires CmdLocal(d, b, th.job.c, th.pc, th.v)
    ensures CmdLocal(d', b', th.job.c, th.pc, th.v)
  {
  }

  lemma CmdStableAtStatement(d: Data, b: Ledger, d': Data, b': Ledger, tid: Tid, th: Thread)
    requires Shape(tid, th) && th.job.Cmd? && !th.pc.Lock? && RefsOk(d) && Rely(d, b, d', b', tid, th)
    requires CmdLocal(d, b, th.job.c, th.pc, th.v)
    ensures CmdLocal(d', b', th.job.c, th.pc, th.v)
  {
  }

  lemma CmdStable(d: Data, b: Ledger, d': Data, b': Ledger, tid: Tid, th: Thread)
    requires Shape(tid, th) && th.job.Cmd? && RefsOk(d) && Rely(d, b, d', b', tid, th)
    requires CmdLocal(d, b, th.job.c, th.pc, th.v)
    ensures CmdLocal(d', b', th.job.c, th.pc, th.v)
  {
    if th.pc.Lock? { CmdStableAtCall(d, b, d', b', tid, th); } else { CmdStableAtStatement(d, b, d', b', tid, th); }
  }

  lemma FeeStable(d: Data, b: Ledger, d': Data, b': Ledger, tid: Tid, th: Thread)
    requires Shape(tid, th) && th.job.FeeRound? && RefsOk(d) && Rely(d, b, d', b', tid, th)
    requires FeeLocal(d, th.job.rate, th.pc, th.v)
    ensures FeeLocal(d', th.job.rate, th.pc, th.v)
  {
  }

  lemma PrintStable(d: Data, b: Ledger, d': Data, b': Ledger, tid: Tid, th: Thread)
    requires Shape(tid, th) && th.job.PrintRound? && RefsOk(d) && Rely(d, b, d', b', tid, th)
    requires PrintLocal(d, th.pc, th.v)
    ensures PrintLocal(d', th.pc, th.v)
  {
  }

  lemma Stable(d: Data, b: Ledger, d': Data, b': Ledger, tid: Tid, th: Thread)
    requires Shape(tid, th) && RefsOk(d) && Rely(d, b, d', b', tid, th)
    requires Believes(d, b, th)
    ensures Believes(d', b', th)
  {
    match th.job
    case Cmd(_) => CmdStable(d, b, d', b', tid, th);
    case FeeRound(_) => FeeStable(d, b, d', b', tid, th);
    case PrintRound => PrintStable(d, b, d', b', tid, th);
  }

  // ---------- what a thread may do itself ----------

  /** An effect is made under the lock that covers it. */
  ghost predicate Licensed(e: Effect, tid: Tid, th: Thread) {
    match e
    case SetBal(r, _) => AcctRole(th, r) == Writing
    case SetVault(_) => tid == Collector
    case Alloc(_) | PutOpen(_, _) | PutClosed(_, _) | SetDeleted(_) | Drop(_) => th.held.list == Writing
    case Log(_) => th.held.list == In || th.held.list == Writing
    case Nothing | Display(_) | EndRound(_) | Want(_) => true
  }

  lemma DoLicensed(d: Data, tid: Tid, th: Thread)
    requires Shape(tid, th) && th.pc.Do?
    ensures Licensed(EffectOf(d, tid, th.pc.s, th.job, th.v), tid, th)
  {
  }

  function Posted(b: Ledger, e: Effect): Ledger {
    if e.Log? then Post(b, e.line) else b
  }

  /** Changes to the map and to names: only the list's writer makes them, and nobody else is inside. */
  lemma WriterIsRelied(s: State, e: Effect, b: Ledger, t: Tid, u: Tid)
    requires LocksInv(s) && t in s.threads && u in s.threads && t != u
    requires Licensed(e, t, s.threads[t]) && s.threads[t].held.list == Writing
    ensures Rely(s.d, b, Apply(s.d, e), Posted(b, e), u, s.threads[u])
  {
    ListExclusion(s, t, u);
    NotInside(s, u);
  }

  lemma BalanceIsRelied(s: State, e: Effect, b: Ledger, t: Tid, u: Tid)
    requires LocksInv(s) && t in s.threads && u in s.threads && t != u
    requires Licensed(e, t, s.threads[t]) && e.SetBal? && s.threads[u].held.list != Writing
    ensures Rely(s.d, b, Apply(s.d, e), Posted(b, e), u, s.threads[u])
  {
    AcctExclusion(s, t, u, e.r);
  }

  /** A licensed effect of one thread is one that every other thread relies on. */
  lemma LicensedIsRelied(s: State, e: Effect, b: Ledger, t: Tid, u: Tid)
    requires LocksInv(s) && t in s.threads && u in s.threads && t != u
    requires Licensed(e, t, s.threads[t])
    requires e.SetBal? || e.Log? ==> s.threads[t].held.list == In || s.threads[t].held.list == Writing
    ensures Rely(s.d, b, Apply(s.d, e), Posted(b, e), u, s.threads[u])
  {
    if s.threads[u].held.list == Writing { ListExclusion(s, u, t); }
    if s.threads[t].held.list == Writing {
      WriterIsRelied(s, e, b, t, u);
    } else if e.SetBal? {
      BalanceIsRelied(s, e, b, t, u);
    }
  }

  /** A thread outside the list's lock is outside every account's lock. */
  lemma OutsideAccounts(tid: Tid, th: Thread, r: Ref)
    requires Shape(tid, th) && th.held.list != In && th.held.list != Writing
    ensures AcctRole(th, r) != In && AcctRole(th, r) != Writing
  {
  }

  lemma NotInside(s: State, u: Tid)
    requires LocksInv(s) && u in s.threads
    requires s.threads[u].held.list != In && s.threads[u].held.list != Writing
    ensures forall r: Ref :: AcctRole(s.threads[u], r) != In && AcctRole(s.threads[u], r) != Writing
  {
    assert Shape(u, s.threads[u]);
    forall r: Ref ensures AcctRole(s.threads[u], r) != In && AcctRole(s.threads[u], r) != Writing {
      OutsideAccounts(u, s.threads[u], r);
    }
  }
}

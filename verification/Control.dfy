/** Control flow: what a thread's program counter says about its job and about the locks it holds. */
module Control {
  import opened RwLock
  import opened Machine

  // ---------- program counters, jobs and local state ----------

  predicate JobFits(tid: Tid, job: Job) {
    match tid
    case Atm(_) => job.Cmd?
    case Collector => job.FeeRound?
    case Printer => job.PrintRound?
  }

  predicate CallFits(k: LockPc, job: Job, found: bool, res: Res) {
    match k
    case GateTake => job.Cmd? && !WritesList(job) && !found && res.Going?
    case GateGive | ListYield => WritesList(job)
    case ListIn => !WritesList(job) && !found && res.Going?
    case ListOut => !WritesList(job)
    case ListSeize => WritesList(job) && !found && res.Going?
    case TransferTake => IsTransfer(job) && !found && res.Going?
    case TransferGive => IsTransfer(job)
    case AcctIn | AcctOut => SharesAcct(job) && found && (k.AcctIn? && job.Cmd? ==> res.Going?)
    case SeizeA => !SharesAcct(job) && found && (job.Cmd? ==> res.Going?)
    case SeizeB => IsTransfer(job) && found && res.Going?
    case YieldA => !SharesAcct(job) && found
    case YieldB => IsTransfer(job) && found
    case LogTake | LogGive => LogFits(job, found, res)
  }

  /** Only a command that failed reaches the log without an account. */
  predicate LogFits(job: Job, found: bool, res: Res) {
    !job.PrintRound? && !res.Going? && (found || res.Failed?) && (job.FeeRound? ==> res.Done?)
  }

  predicate DoFits(s: DataPc, job: Job, found: bool, res: Res) {
    match s
    case Find => job.Cmd? ==> !found && res.Going?
    case Check => job.Cmd? && !job.c.Open? && found && res.Going?
    case Test => job.Cmd? && (job.c.Withdraw? || job.c.Transfer?) && found && res.Going?
    case Load1 | Store1 =>
      found && (job.FeeRound? || (job.Cmd? && (job.c.Deposit? || job.c.Withdraw? || job.c.Transfer?) && res.Going?))
    case Load2 | Store2 => IsTransfer(job) && found && res.Going?
    case FeeLoad | VaultLoad | VaultStore => job.FeeRound? && found
    case Insert => job.Cmd? && job.c.Open? && found && res.Going?
    case Retire | Mark | Erase => job.Cmd? && job.c.Close? && found && res.Going?
    case Show => job.PrintRound? && found
    case ShowVault => job.PrintRound?
    case Append => LogFits(job, found, res)
    case Unwant => WritesList(job)
  }

  predicate PcFits(pc: PC, job: Job, found: bool, res: Res) {
    match pc
    case Rest | Halted => true
    case Lock(k) => CallFits(k, job, found, res)
    case Do(s) => DoFits(s, job, found, res)
  }

  // ---------- program counters and locks ----------

  predicate Coming(role: Role) {
    role.Out? || role.EnterRead? || role.EnterStore? || role.EnterTest? || role.EnterUnlock?
  }

  predicate Parting(role: Role) {
    role.In? || role.LeaveRead? || role.LeaveStore? || role.LeaveTest? || role.LeaveUnlock?
  }

  /** Past taking the list's lock and before giving it back. */
  predicate HasList(pc: PC) {
    match pc
    case Rest | Halted => false
    case Lock(k) => !(k.GateTake? || k.GateGive? || k.ListSeize? || k.ListIn? || k.ListOut?)
    case Do(s) => !s.Unwant?
  }

  /** Past locking all accounts of the job and before giving back the first. */
  predicate HasAccts(pc: PC, found: bool) {
    match pc
    case Rest | Halted => false
    case Lock(k) => ((k.LogTake? || k.LogGive?) && found) || k.YieldA?
    case Do(s) => if s.Append? then found else !(s.Find? || s.ShowVault? || s.Unwant?)
  }

  predicate ListFits(pc: PC, job: Job, role: Role) {
    if pc == Lock(ListIn) then Coming(role) && role != In
    else if pc == Lock(ListOut) then Parting(role)
    else role == (if !HasList(pc) then Out else if WritesList(job) then Writing else In)
  }

  predicate AFits(pc: PC, job: Job, found: bool, role: Role) {
    if pc == Lock(AcctIn) then Coming(role)
    else if pc == Lock(AcctOut) then Parting(role)
    else if pc == Lock(SeizeB) then role == Writing
    else role == (if !HasAccts(pc, found) then Out else if SharesAcct(job) then In else Writing)
  }

  predicate BFits(pc: PC, job: Job, found: bool, role: Role) {
    role == (if IsTransfer(job) && (HasAccts(pc, found) || pc == Lock(YieldB)) then Writing else Out)
  }

  predicate HeldFits(pc: PC, job: Job, found: bool, h: Held) {
    && ListFits(pc, job, h.list)
    && AFits(pc, job, found, h.a)
    && BFits(pc, job, found, h.b)
    && h.transfer == (IsTransfer(job) && HasList(pc) && pc != Lock(TransferTake))
    && h.log == (pc == Do(Append) || pc == Lock(LogGive))
  }

  /** The program counter is right for the job and tells exactly which locks the thread holds. */
  predicate Shape(tid: Tid, th: Thread) {
    && (th.pc.Rest? || th.pc.Halted? || JobFits(tid, th.job))
    && PcFits(th.pc, th.job, th.v.found, th.v.res)
    && HeldFits(th.pc, th.job, th.v.found, th.held)
  }

  lemma LockStepPcFits(l: Locks, k: LockPc, h: Held, a: Ref, b: Ref, l': Locks, h': Held,
                       job: Job, found: bool, res: Res)
    requires CallFits(k, job, found, res) && HeldFits(Lock(k), job, found, h)
    requires LockStep(l, k, h, a, b) == Some((l', h'))
    ensures PcFits(PcAfter(k, h', job, found), job, found, res)
  {
  }

  lemma LockStepListFits(l: Locks, k: LockPc, h: Held, a: Ref, b: Ref, l': Locks, h': Held,
                         job: Job, found: bool, res: Res)
    requires CallFits(k, job, found, res) && HeldFits(Lock(k), job, found, h)
    requires LockStep(l, k, h, a, b) == Some((l', h'))
    ensures ListFits(PcAfter(k, h', job, found), job, h'.list)
  {
  }

  lemma LockStepCrosses(l: Locks, k: LockPc, h: Held, a: Ref, b: Ref, l': Locks, h': Held,
                        job: Job, found: bool, res: Res)
    requires CallFits(k, job, found, res) && HeldFits(Lock(k), job, found, h) && (k.AcctIn? || k.AcctOut?)
    requires LockStep(l, k, h, a, b) == Some((l', h'))
    ensures AFits(PcAfter(k, h', job, found), job, found, h'.a)
  {
  }

  lemma LockStepAFits(l: Locks, k: LockPc, h: Held, a: Ref, b: Ref, l': Locks, h': Held,
                      job: Job, found: bool, res: Res)
    requires CallFits(k, job, found, res) && HeldFits(Lock(k), job, found, h)
    requires LockStep(l, k, h, a, b) == Some((l', h'))
    ensures AFits(PcAfter(k, h', job, found), job, found, h'.a)
  {
    if k.AcctIn? || k.AcctOut? { LockStepCrosses(l, k, h, a, b, l', h', job, found, res); }
  }

  lemma LockStepBFits(l: Locks, k: LockPc, h: Held, a: Ref, b: Ref, l': Locks, h': Held,
                      job: Job, found: bool, res: Res)
    requires CallFits(k, job, found, res) && HeldFits(Lock(k), job, found, h)
    requires LockStep(l, k, h, a, b) == Some((l', h'))
    ensures BFits(PcAfter(k, h', job, found), job, found, h'.b)
  {
  }

  lemma LockStepHeldFits(l: Locks, k: LockPc, h: Held, a: Ref, b: Ref, l': Locks, h': Held,
                         job: Job, found: bool, res: Res)
    requires CallFits(k, job, found, res) && HeldFits(Lock(k), job, found, h)
    requires LockStep(l, k, h, a, b) == Some((l', h'))
    ensures HeldFits(PcAfter(k, h', job, found), job, found, h')
  {
    LockStepListFits(l, k, h, a, b, l', h', job, found, res);
    LockStepAFits(l, k, h, a, b, l', h', job, found, res);
    LockStepBFits(l, k, h, a, b, l', h', job, found, res);
  }

  lemma DataStepPcFits(d: Data, s: DataPc, job: Job, v: Locals, v': Locals, pc': PC)
    requires DoFits(s, job, v.found, v.res)
    requires DataStep(d, s, job, v) == (v', pc')
    ensures PcFits(pc', job, v'.found, v'.res)
  {
  }

  lemma DataStepSweepAFits(d: Data, s: DataPc, job: Job, v: Locals, h: Held, v': Locals, pc': PC)
    requires DoFits(s, job, v.found, v.res) && HeldFits(Do(s), job, v.found, h) && !job.Cmd?
    requires DataStep(d, s, job, v) == (v', pc')
    ensures AFits(pc', job, v'.found, h.a)
  {
  }

  lemma DataStepAFits(d: Data, s: DataPc, job: Job, v: Locals, h: Held, v': Locals, pc': PC)
    requires DoFits(s, job, v.found, v.res) && HeldFits(Do(s), job, v.found, h)
    requires DataStep(d, s, job, v) == (v', pc')
    ensures AFits(pc', job, v'.found, h.a)
  {
    if !job.Cmd? { DataStepSweepAFits(d, s, job, v, h, v', pc'); }
  }

  lemma DataStepBFits(d: Data, s: DataPc, job: Job, v: Locals, h: Held, v': Locals, pc': PC)
    requires DoFits(s, job, v.found, v.res) && HeldFits(Do(s), job, v.found, h)
    requires DataStep(d, s, job, v) == (v', pc')
    ensures BFits(pc', job, v'.found, h.b)
  {
  }

  lemma DataStepListFits(d: Data, s: DataPc, job: Job, v: Locals, h: Held, v': Locals, pc': PC)
    requires DoFits(s, job, v.found, v.res) && HeldFits(Do(s), job, v.found, h)
    requires DataStep(d, s, job, v) == (v', pc')
    ensures ListFits(pc', job, h.list)
    ensures h.transfer == (IsTransfer(job) && HasList(pc') && pc' != Lock(TransferTake))
  {
  }

  lemma DataStepHeldFits(d: Data, s: DataPc, job: Job, v: Locals, h: Held, v': Locals, pc': PC)
    requires DoFits(s, job, v.found, v.res) && HeldFits(Do(s), job, v.found, h)
    requires DataStep(d, s, job, v) == (v', pc')
    ensures HeldFits(pc', job, v'.found, h)
  {
    DataStepAFits(d, s, job, v, h, v', pc');
    DataStepBFits(d, s, job, v, h, v', pc');
    DataStepListFits(d, s, job, v, h, v', pc');
  }

  lemma StartFits(d: Data, tid: Tid, th: Thread, rate: int)
    requires Shape(tid, th) && th.pc.Rest?
    ensures Shape(tid, Start(d, tid, th, rate))
  {
  }

  /** Every step of a thread keeps its shape. */
  lemma NextShape(s: State, t: Tid, rate: int, s': State)
    requires t in s.threads && Shape(t, s.threads[t]) && Next(s, t, rate) == Some(s')
    ensures Shape(t, s'.threads[t])
  {
    var th := s.threads[t];
    match th.pc
    case Halted =>
    case Rest => StartFits(s.d, t, th, rate);
    case Do(st) =>
      var (v', pc') := DataStep(s.d, st, th.job, th.v);
      DataStepPcFits(s.d, st, th.job, th.v, v', pc');
      DataStepHeldFits(s.d, st, th.job, th.v, th.held, v', pc');
    case Lock(k) =>
      var (l', h') := LockStep(s.l, k, th.held, th.v.a, th.v.b).value;
      LockStepPcFits(s.l, k, th.held, th.v.a, th.v.b, l', h', th.job, th.v.found, th.v.res);
      LockStepHeldFits(s.l, k, th.held, th.v.a, th.v.b, l', h', th.job, th.v.found, th.v.res);
  }
}

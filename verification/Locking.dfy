/** Every lock in the system follows its protocol, in every interleaving. */
module Locking {
  import opened RwLock
  import opened Machine
  import opened Control

  /** Where a thread stands in the lock of account `r`. */
  function RoleAt(h: Held, a: Ref, b: Ref, r: Ref): Role {
    if h.a != Out && r == a then h.a else if h.b != Out && r == b then h.b else Out
  }

  function AcctRole(th: Thread, r: Ref): Role {
    RoleAt(th.held, th.v.a, th.v.b, r)
  }

  function ListRoles(threads: map<Tid, Thread>): map<Tid, Role> {
    map t | t in threads :: threads[t].held.list
  }

  function AcctRoles(threads: map<Tid, Thread>, r: Ref): map<Tid, Role> {
    map t | t in threads :: AcctRole(threads[t], r)
  }

  /** A plain mutex is taken exactly when one thread has it. */
  ghost predicate MutexInv(taken: bool, holders: set<Tid>) {
    && (forall t, u | t in holders && u in holders :: t == u)
    && (taken <==> holders != {})
  }

  function TransferHolders(threads: map<Tid, Thread>): set<Tid> {
    set t | t in threads && threads[t].held.transfer
  }

  function LogHolders(threads: map<Tid, Thread>): set<Tid> {
    set t | t in threads && threads[t].held.log
  }

  ghost predicate Shapes(s: State) {
    forall t | t in s.threads :: Shape(t, s.threads[t])
  }

  /** A thread that has both its accounts has two. */
  ghost predicate TwoAccounts(s: State) {
    forall t | t in s.threads && s.threads[t].held.b != Out :: s.threads[t].v.a != s.threads[t].v.b
  }

  ghost predicate AcctLockInv(s: State, r: Ref) {
    Inv(LockAt(s.l, r), AcctRoles(s.threads, r))
  }

  ghost predicate LocksInv(s: State) {
    && Shapes(s)
    && TwoAccounts(s)
    && Inv(s.l.list, ListRoles(s.threads))
    && (forall r: Ref :: AcctLockInv(s, r))
    && MutexInv(s.l.transfer, TransferHolders(s.threads))
    && MutexInv(s.l.log, LogHolders(s.threads))
  }

  // ---------- one step of one thread, seen from one lock ----------

  predicate MovesOrStays(rw: Rw, role: Role, rw': Rw, role': Role) {
    (rw' == rw && role' == role) || Moves(rw, role, rw', role')
  }

  predicate MutexMoves(m: bool, has: bool, m': bool, has': bool) {
    (m' == m && has' == has) || (!m && !has && m' && has') || (has && !m' && !has')
  }

  lemma LockStepList(l: Locks, k: LockPc, h: Held, a: Ref, b: Ref, l': Locks, h': Held)
    requires LockStep(l, k, h, a, b) == Some((l', h'))
    ensures MovesOrStays(l.list, h.list, l'.list, h'.list)
  {
  }

  lemma LockStepFirst(l: Locks, k: LockPc, h: Held, a: Ref, b: Ref, l': Locks, h': Held, r: Ref)
    requires LockStep(l, k, h, a, b) == Some((l', h')) && (h.b != Out ==> a != b)
    requires k.AcctIn? || k.AcctOut? || k.SeizeA? || k.YieldA?
    ensures MovesOrStays(LockAt(l, r), RoleAt(h, a, b, r), LockAt(l', r), RoleAt(h', a, b, r))
  {
  }

  lemma LockStepSecond(l: Locks, k: LockPc, h: Held, a: Ref, b: Ref, l': Locks, h': Held, r: Ref)
    requires LockStep(l, k, h, a, b) == Some((l', h')) && (h.b != Out ==> a != b)
    requires k.SeizeB? || k.YieldB?
    requires k.SeizeB? && a == b ==> LockAt(l, a).wm
    ensures MovesOrStays(LockAt(l, r), RoleAt(h, a, b, r), LockAt(l', r), RoleAt(h', a, b, r))
  {
  }

  /** A thread never moves in two account locks at once; when its two accounts are one, it never gets
      past the second `SeizeB`. */
  lemma LockStepAcct(l: Locks, k: LockPc, h: Held, a: Ref, b: Ref, l': Locks, h': Held, r: Ref)
    requires LockStep(l, k, h, a, b) == Some((l', h'))
    requires h.b != Out ==> a != b
    requires k.SeizeB? && a == b ==> LockAt(l, a).wm
    ensures MovesOrStays(LockAt(l, r), RoleAt(h, a, b, r), LockAt(l', r), RoleAt(h', a, b, r))
  {
    if k.AcctIn? || k.AcctOut? || k.SeizeA? || k.YieldA? {
      LockStepFirst(l, k, h, a, b, l', h', r);
    } else if k.SeizeB? || k.YieldB? {
      LockStepSecond(l, k, h, a, b, l', h', r);
    }
  }

  lemma LockStepMutexes(l: Locks, k: LockPc, h: Held, a: Ref, b: Ref, l': Locks, h': Held)
    requires LockStep(l, k, h, a, b) == Some((l', h'))
    requires k.TransferTake? ==> !h.transfer
    requires k.LogTake? ==> !h.log
    requires k.TransferGive? ==> h.transfer
    requires k.LogGive? ==> h.log
    ensures MutexMoves(l.transfer, h.transfer, l'.transfer, h'.transfer)
    ensures MutexMoves(l.log, h.log, l'.log, h'.log)
  {
  }

  lemma MutexKept(taken: bool, holders: set<Tid>, t: Tid, taken': bool, has': bool)
    requires MutexInv(taken, holders) && MutexMoves(taken, t in holders, taken', has')
    ensures MutexInv(taken', if has' then holders + {t} else holders - {t})
  {
    if taken && !(t in holders && !has') {
      var u :| u in holders;
    }
  }

  // ---------- the whole system ----------

  lemma ListLockKept(s: State, t: Tid, th': Thread, rw': Rw)
    requires t in s.threads && Inv(s.l.list, ListRoles(s.threads))
    requires MovesOrStays(s.l.list, s.threads[t].held.list, rw', th'.held.list)
    ensures Inv(rw', ListRoles(s.threads[t := th']))
  {
    var roles := ListRoles(s.threads);
    assert ListRoles(s.threads[t := th']) == roles[t := th'.held.list];
    if Moves(s.l.list, roles[t], rw', th'.held.list) {
      MoveKeepsInv(s.l.list, roles, t, rw', th'.held.list);
    } else {
      assert roles[t := th'.held.list] == roles;
    }
  }

  lemma AcctLockKept(s: State, t: Tid, th': Thread, r: Ref, rw': Rw)
    requires t in s.threads && AcctLockInv(s, r)
    requires MovesOrStays(LockAt(s.l, r), AcctRole(s.threads[t], r), rw', AcctRole(th', r))
    ensures Inv(rw', AcctRoles(s.threads[t := th'], r))
  {
    var roles := AcctRoles(s.threads, r);
    var role' := AcctRole(th', r);
    assert AcctRoles(s.threads[t := th'], r) == roles[t := role'];
    if Moves(LockAt(s.l, r), roles[t], rw', role') {
      MoveKeepsInv(LockAt(s.l, r), roles, t, rw', role');
    } else {
      assert roles[t := role'] == roles;
    }
  }

  lemma TransferHoldersUpdate(threads: map<Tid, Thread>, t: Tid, th': Thread)
    ensures TransferHolders(threads[t := th'])
         == if th'.held.transfer then TransferHolders(threads) + {t} else TransferHolders(threads) - {t}
  {
  }

  lemma LogHoldersUpdate(threads: map<Tid, Thread>, t: Tid, th': Thread)
    ensures LogHolders(threads[t := th'])
         == if th'.held.log then LogHolders(threads) + {t} else LogHolders(threads) - {t}
  {
  }

  /** A thread writing an account keeps its write mutex taken. */
  lemma WriterTakes(s: State, t: Tid, r: Ref)
    requires LocksInv(s) && t in s.threads && AcctRole(s.threads[t], r) == Writing
    ensures LockAt(s.l, r).wm
  {
    assert AcctLockInv(s, r);
    assert Claims(LockAt(s.l, r), AcctRoles(s.threads, r)[t]);
  }

  /** What a step leaves of the thread's locks: the same, or one lock routine further. */
  ghost predicate NextLocks(l: Locks, th: Thread, l': Locks, th': Thread, r: Ref) {
    && MovesOrStays(l.list, th.held.list, l'.list, th'.held.list)
    && MovesOrStays(LockAt(l, r), AcctRole(th, r), LockAt(l', r), AcctRole(th', r))
    && MutexMoves(l.transfer, th.held.transfer, l'.transfer, th'.held.transfer)
    && MutexMoves(l.log, th.held.log, l'.log, th'.held.log)
    && (th'.held.b != Out ==> th'.v.a != th'.v.b)
  }

  lemma CallNextLocks(l: Locks, t: Tid, th: Thread, l': Locks, h': Held, r: Ref)
    requires Shape(t, th) && th.pc.Lock? && (th.held.b != Out ==> th.v.a != th.v.b)
    requires th.pc == Lock(SeizeB) && th.v.a == th.v.b ==> LockAt(l, th.v.a).wm
    requires LockStep(l, th.pc.k, th.held, th.v.a, th.v.b) == Some((l', h'))
    ensures NextLocks(l, th, l', th.(held := h', pc := PcAfter(th.pc.k, h', th.job, th.v.found)), r)
  {
    LockStepList(l, th.pc.k, th.held, th.v.a, th.v.b, l', h');
    LockStepAcct(l, th.pc.k, th.held, th.v.a, th.v.b, l', h', r);
    LockStepMutexes(l, th.pc.k, th.held, th.v.a, th.v.b, l', h');
  }

  lemma DoNextLocks(d: Data, l: Locks, t: Tid, th: Thread, v': Locals, pc': PC, r: Ref)
    requires Shape(t, th) && th.pc.Do? && (th.held.b != Out ==> th.v.a != th.v.b)
    requires DataStep(d, th.pc.s, th.job, th.v) == (v', pc')
    ensures NextLocks(l, th, l, th.(v := v', pc := pc'), r)
  {
  }

  lemma NextIsLocked(s: State, t: Tid, rate: int, s': State, r: Ref)
    requires LocksInv(s) && t in s.threads && Next(s, t, rate) == Some(s')
    ensures s'.threads == s.threads[t := s'.threads[t]]
    ensures NextLocks(s.l, s.threads[t], s'.l, s'.threads[t], r)
  {
    var th := s.threads[t];
    assert Shape(t, th);
    match th.pc
    case Halted =>
    case Rest =>
    case Do(st) =>
      var (v', pc') := DataStep(s.d, st, th.job, th.v);
      DoNextLocks(s.d, s.l, t, th, v', pc', r);
    case Lock(k) =>
      var (l', h') := LockStep(s.l, k, th.held, th.v.a, th.v.b).value;
      if k.SeizeB? && th.v.a == th.v.b { WriterTakes(s, t, th.v.a); }
      CallNextLocks(s.l, t, th, l', h', r);
  }

  lemma NextKeepsAcct(s: State, t: Tid, rate: int, s': State, r: Ref)
    requires LocksInv(s) && t in s.threads && Next(s, t, rate) == Some(s')
    ensures AcctLockInv(s', r)
  {
    NextIsLocked(s, t, rate, s', r);
    assert AcctLockInv(s, r);
    AcctLockKept(s, t, s'.threads[t], r, LockAt(s'.l, r));
  }

  lemma NextKeepsShared(s: State, t: Tid, rate: int, s': State)
    requires LocksInv(s) && t in s.threads && Next(s, t, rate) == Some(s')
    ensures Inv(s'.l.list, ListRoles(s'.threads))
    ensures MutexInv(s'.l.transfer, TransferHolders(s'.threads)) && MutexInv(s'.l.log, LogHolders(s'.threads))
  {
    var th' := s'.threads[t];
    NextIsLocked(s, t, rate, s', 0);
    ListLockKept(s, t, th', s'.l.list);
    MutexKept(s.l.transfer, TransferHolders(s.threads), t, s'.l.transfer, th'.held.transfer);
    MutexKept(s.l.log, LogHolders(s.threads), t, s'.l.log, th'.held.log);
    TransferHoldersUpdate(s.threads, t, th');
    LogHoldersUpdate(s.threads, t, th');
  }

  lemma NextKeepsShapes(s: State, t: Tid, rate: int, s': State)
    requires LocksInv(s) && t in s.threads && Next(s, t, rate) == Some(s')
    ensures forall u | u in s'.threads ::
      Shape(u, s'.threads[u]) && (s'.threads[u].held.b != Out ==> s'.threads[u].v.a != s'.threads[u].v.b)
  {
    NextIsLocked(s, t, rate, s', 0);
    NextShape(s, t, rate, s');
  }

  /** Every step of every thread keeps every lock's protocol. */
  lemma NextKeepsLocks(s: State, t: Tid, rate: int, s': State)
    requires LocksInv(s) && t in s.threads && Next(s, t, rate) == Some(s')
    ensures LocksInv(s')
  {
    NextKeepsShared(s, t, rate, s');
    NextKeepsShapes(s, t, rate, s');
    forall r: Ref ensures AcctLockInv(s', r) { NextKeepsAcct(s, t, rate, s', r); }
  }

  lemma InitLocks(s: State)
    requires Init(s)
    ensures LocksInv(s)
  {
    InitInv(ListRoles(s.threads));
    forall r: Ref ensures AcctLockInv(s, r) {
      InitInv(AcctRoles(s.threads, r));
    }
    assert TransferHolders(s.threads) == {} && LogHolders(s.threads) == {};
  }

  // ---------- exclusion between threads ----------

  /** While a thread writes the account list, no other thread is inside. */
  lemma ListExclusion(s: State, t: Tid, u: Tid)
    requires LocksInv(s) && t in s.threads && u in s.threads && t != u
    requires s.threads[t].held.list == Writing
    ensures s.threads[u].held.list != Writing && s.threads[u].held.list != In
  {
    var roles := ListRoles(s.threads);
    Exclusion(s.l.list, roles, t, u);
    assert roles[t] == Writing && roles[u] == s.threads[u].held.list;
  }

  /** While a thread writes an account, no other thread writes or reads it. */
  lemma AcctExclusion(s: State, t: Tid, u: Tid, r: Ref)
    requires LocksInv(s) && t in s.threads && u in s.threads && t != u
    requires AcctRole(s.threads[t], r) == Writing
    ensures AcctRole(s.threads[u], r) != Writing && AcctRole(s.threads[u], r) != In
  {
    assert AcctLockInv(s, r);
    var roles := AcctRoles(s.threads, r);
    Exclusion(LockAt(s.l, r), roles, t, u);
    assert roles[t] == Writing && roles[u] == AcctRole(s.threads[u], r);
  }
}

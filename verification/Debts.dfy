/** The effects of an operation that the log does not show yet: what each thread still owes the log. */
module Debts {
  import opened Sums
  import opened RwLock
  import opened SequentialBank
  import opened Machine
  import opened Control
  import opened Locking

  datatype Change = Same | Added | Removed

  /** What has been added, and not logged, to the two accounts, to the bank's balance and to the map. */
  datatype Debt = Debt(a: int, b: int, vault: int, key: Change)

  const NO_DEBT := Debt(0, 0, 0, Same)

  function CmdDebt(c: Command): Debt {
    match c
    case Open(_, _, _) => NO_DEBT.(key := Added)
    case Close(_, _) => NO_DEBT.(key := Removed)
    case Deposit(_, _, amount) => NO_DEBT.(a := amount)
    case Withdraw(_, _, amount) => NO_DEBT.(a := -amount)
    case Transfer(_, _, _, amount) => NO_DEBT.(a := -amount, b := amount)
    case Balance(_, _) => NO_DEBT
  }

  function JobDebt(job: Job, fee: int): Debt {
    match job
    case Cmd(c) => CmdDebt(c)
    case FeeRound(_) => NO_DEBT.(a := -fee, vault := fee)
    case PrintRound => NO_DEBT
  }

  /** What the program counter says is done and not logged. */
  function Owes(pc: PC, job: Job, v: Locals): Debt {
    match pc
    case Rest | Halted => NO_DEBT
    case Lock(k) => if k.LogTake? && v.res.Done? then JobDebt(job, v.fee) else NO_DEBT
    case Do(s) =>
      match s
      case Load1 | Store1 => if job.FeeRound? then NO_DEBT.(vault := v.fee) else NO_DEBT
      case Load2 | Store2 => NO_DEBT.(a := -Amount(job))
      case Append => if v.res.Done? then JobDebt(job, v.fee) else NO_DEBT
      case _ => NO_DEBT
  }

  function DebtOf(th: Thread): Debt {
    Owes(th.pc, th.job, th.v)
  }

  /** The part of a debt that concerns account `r`. */
  function OwesAt(th: Thread, r: Ref): int {
    if r == th.v.a then DebtOf(th).a else if r == th.v.b then DebtOf(th).b else 0
  }

  function OwesKey(th: Thread, k: int): int {
    if !th.job.Cmd? || k != th.job.c.id then 0
    else match DebtOf(th).key
         case Same => 0
         case Added => 1
         case Removed => -1
  }

  ghost function AcctDebts(threads: map<Tid, Thread>, r: Ref): map<Tid, int> {
    map t | t in threads :: OwesAt(threads[t], r)
  }

  ghost function KeyDebts(threads: map<Tid, Thread>, k: int): map<Tid, int> {
    map t | t in threads :: OwesKey(threads[t], k)
  }

  ghost function VaultDebts(threads: map<Tid, Thread>): map<Tid, int> {
    map t | t in threads :: DebtOf(threads[t]).vault
  }

  /** What all threads together have added to account `r` without logging it. */
  ghost function AcctDebt(threads: map<Tid, Thread>, r: Ref): int { Sum(AcctDebts(threads, r)) }

  ghost function KeyDebt(threads: map<Tid, Thread>, k: int): int { Sum(KeyDebts(threads, k)) }

  ghost function VaultDebt(threads: map<Tid, Thread>): int { Sum(VaultDebts(threads)) }

  // ---------- one thread moves ----------

  lemma AcctDebtUpdate(threads: map<Tid, Thread>, t: Tid, th': Thread, r: Ref)
    requires t in threads
    ensures AcctDebt(threads[t := th'], r) == AcctDebt(threads, r) + OwesAt(th', r) - OwesAt(threads[t], r)
  {
    SumUpdate(AcctDebts(threads, r), t, OwesAt(th', r));
    assert AcctDebts(threads[t := th'], r) == AcctDebts(threads, r)[t := OwesAt(th', r)];
  }

  lemma KeyDebtUpdate(threads: map<Tid, Thread>, t: Tid, th': Thread, k: int)
    requires t in threads
    ensures KeyDebt(threads[t := th'], k) == KeyDebt(threads, k) + OwesKey(th', k) - OwesKey(threads[t], k)
  {
    SumUpdate(KeyDebts(threads, k), t, OwesKey(th', k));
    assert KeyDebts(threads[t := th'], k) == KeyDebts(threads, k)[t := OwesKey(th', k)];
  }

  lemma VaultDebtUpdate(threads: map<Tid, Thread>, t: Tid, th': Thread)
    requires t in threads
    ensures VaultDebt(threads[t := th']) == VaultDebt(threads) + DebtOf(th').vault - DebtOf(threads[t]).vault
  {
    SumUpdate(VaultDebts(threads), t, DebtOf(th').vault);
    assert VaultDebts(threads[t := th']) == VaultDebts(threads)[t := DebtOf(th').vault];
  }

  // ---------- debts are owed under locks ----------

  lemma DebtNeedsLock(tid: Tid, th: Thread, r: Ref)
    requires Shape(tid, th) && OwesAt(th, r) != 0
    requires th.held.b != Out ==> th.v.a != th.v.b
    ensures AcctRole(th, r) == Writing
  {
  }

  lemma DebtNeedsList(tid: Tid, th: Thread)
    requires Shape(tid, th) && DebtOf(th) != NO_DEBT
    ensures th.held.list == In || th.held.list == Writing
    ensures DebtOf(th).key != Same ==> th.held.list == Writing
    ensures DebtOf(th).vault != 0 ==> tid == Collector && th.held.list == In
  {
  }

  /** Whoever holds an account's lock knows the whole debt on it. */
  lemma OwnAcctDebt(s: State, t: Tid, r: Ref)
    requires LocksInv(s) && t in s.threads
    requires AcctRole(s.threads[t], r) == Writing || AcctRole(s.threads[t], r) == In
    ensures AcctDebt(s.threads, r) == OwesAt(s.threads[t], r)
  {
    var m := AcctDebts(s.threads, r);
    forall u | u in m && u != t ensures m[u] == 0 {
      assert Shape(u, s.threads[u]);
      if m[u] != 0 {
        DebtNeedsLock(u, s.threads[u], r);
        AcctExclusion(s, u, t, r);
      }
    }
    SumPick(m, t);
    SumZero(m - {t});
  }

  /** Whoever is inside the list's lock knows the whole debt on the map. */
  lemma OwnKeyDebt(s: State, t: Tid, k: int)
    requires LocksInv(s) && t in s.threads
    requires s.threads[t].held.list == Writing || s.threads[t].held.list == In
    ensures KeyDebt(s.threads, k) == OwesKey(s.threads[t], k)
  {
    var m := KeyDebts(s.threads, k);
    forall u | u in m && u != t ensures m[u] == 0 {
      assert Shape(u, s.threads[u]);
      if m[u] != 0 {
        DebtNeedsList(u, s.threads[u]);
        ListExclusion(s, u, t);
      }
    }
    SumPick(m, t);
    SumZero(m - {t});
  }

  lemma OwnVaultDebt(s: State)
    requires LocksInv(s) && Collector in s.threads
    ensures VaultDebt(s.threads) == DebtOf(s.threads[Collector]).vault
  {
    var m := VaultDebts(s.threads);
    forall u | u in m && u != Collector ensures m[u] == 0 {
      assert Shape(u, s.threads[u]);
      if m[u] != 0 { DebtNeedsList(u, s.threads[u]); }
    }
    SumPick(m, Collector);
    SumZero(m - {Collector});
  }

  /** While the printer has the list, nobody owes anything. */
  lemma NoDebtsUnderWriter(s: State, t: Tid, r: Ref, k: int)
    requires LocksInv(s) && t in s.threads
    requires s.threads[t].held.list == Writing && DebtOf(s.threads[t]) == NO_DEBT
    ensures AcctDebt(s.threads, r) == 0 && KeyDebt(s.threads, k) == 0 && VaultDebt(s.threads) == 0
  {
    forall u | u in s.threads ensures DebtOf(s.threads[u]) == NO_DEBT {
      assert Shape(u, s.threads[u]);
      if u != t && DebtOf(s.threads[u]) != NO_DEBT {
        DebtNeedsList(u, s.threads[u]);
        ListExclusion(s, t, u);
      }
    }
    SumZero(AcctDebts(s.threads, r));
    SumZero(KeyDebts(s.threads, k));
    SumZero(VaultDebts(s.threads));
  }

  lemma InitDebts(s: State, r: Ref, k: int)
    requires Init(s)
    ensures AcctDebt(s.threads, r) == 0 && KeyDebt(s.threads, k) == 0 && VaultDebt(s.threads) == 0
  {
    SumZero(AcctDebts(s.threads, r));
    SumZero(KeyDebts(s.threads, k));
    SumZero(VaultDebts(s.threads));
  }
}

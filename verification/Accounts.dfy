/** The account object and its readers-writer lock, changed in place by calls that nothing disturbs.
    `Machine` has the same calls cut into steps, for threads that do disturb each other. */
module Accounts {
  import opened RwLock

  // ---------- a whole call of a lock routine ----------

  /** The way in, taken without a stop. */
  function EnterTimes(rw: Rw, role: Role, n: nat): Option<(Rw, Role)>
    decreases n
  {
    if n == 0 then Some((rw, role))
    else
      match Enter(rw, role)
      case None => None
      case Some((rw', role')) => EnterTimes(rw', role', n - 1)
  }

  function LeaveTimes(rw: Rw, role: Role, n: nat): Option<(Rw, Role)>
    decreases n
  {
    if n == 0 then Some((rw, role))
    else
      match Leave(rw, role)
      case None => None
      case Some((rw', role')) => LeaveTimes(rw', role', n - 1)
  }

  /** A reader can get in at once. */
  predicate MayEnter(rw: Rw) { !rw.rm && (rw.n == 0 ==> !rw.wm) }

  function Entered(rw: Rw): Rw { Rw(false, rw.wm || rw.n == 0, rw.n + 1) }

  function Left(rw: Rw): Rw { Rw(false, rw.wm && rw.n != 1, rw.n - 1) }

  /** The five steps of the way in get through exactly when the counter is free and a first reader finds
      no writer. */
  lemma EnteredInSteps(rw: Rw)
    ensures EnterTimes(rw, Out, 5) == if MayEnter(rw) then Some((Entered(rw), In)) else None
  {
    if !rw.rm {
      var r1 := rw.(rm := true);
      var r2 := r1.(n := rw.n + 1);
      assert EnterTimes(rw, Out, 5) == EnterTimes(r1, EnterRead, 4) == EnterTimes(r1, EnterStore(rw.n), 3);
      assert EnterTimes(r1, EnterStore(rw.n), 3) == EnterTimes(r2, EnterTest, 2);
      if MayEnter(rw) {
        var r3 := r2.(wm := rw.wm || rw.n == 0);
        assert EnterTimes(r2, EnterTest, 2) == EnterTimes(r3, EnterUnlock, 1) == EnterTimes(Entered(rw), In, 0);
      }
    }
  }

  lemma LeftInSteps(rw: Rw)
    ensures LeaveTimes(rw, In, 5) == if !rw.rm then Some((Left(rw), Out)) else None
  {
    if !rw.rm {
      var r1 := rw.(rm := true);
      var r2 := r1.(n := rw.n - 1);
      var r3 := r2.(wm := rw.wm && rw.n != 1);
      assert LeaveTimes(rw, In, 5) == LeaveTimes(r1, LeaveRead, 4) == LeaveTimes(r1, LeaveStore(rw.n), 3);
      assert LeaveTimes(r1, LeaveStore(rw.n), 3) == LeaveTimes(r2, LeaveTest, 2) == LeaveTimes(r3, LeaveUnlock, 1);
      assert LeaveTimes(r3, LeaveUnlock, 1) == LeaveTimes(Left(rw), Out, 0);
    }
  }

  /** Readers share: beside a reader, whatever writers wait, a newcomer gets in by its own five steps as soon as
      the counter is free. */
  lemma ReadersShare<T(!new)>(rw: Rw, roles: map<T, Role>, u: T)
    requires Inv(rw, roles) && u in roles && roles[u] == In && !rw.rm
    ensures (var end := EnterTimes(rw, Out, 5); end.Some? && end.value.1 == In && end.value.0.n == rw.n + 1)
  {
    CountedIsCounted(rw, roles, u);
    EnteredInSteps(rw);
  }

  // ---------- the account ----------

  class Account {
    const id: int
    const password: string
    var balance: int
    var deleted: bool
    var lockRead: bool
    var lockWrite: bool
    var numOfReaders: int

    ghost function Lock(): Rw
      reads this
    {
      Rw(lockRead, lockWrite, numOfReaders)
    }

    constructor (id: int, balance: int, password: string)
      ensures this.id == id && this.balance == balance && this.password == password
      ensures !deleted && Lock() == FREE
    {
      this.id, this.balance, this.password := id, balance, password;
      numOfReaders, deleted, lockRead, lockWrite := 0, false, false, false;
    }

    method Deposit(amount: int)
      modifies `balance
      ensures balance == old(balance) + amount
    {
      balance := balance + amount;
    }

    /** Refuses exactly when the balance is too low, and then changes nothing. */
    method Withdrawl(amount: int) returns (ok: bool)
      modifies `balance
      ensures ok <==> old(balance) >= amount
      ensures balance == old(balance) - if ok then amount else 0
    {
      if balance < amount {
        return false;
      }
      balance := balance - amount;
      return true;
    }

    method LockForWrite()
      requires !lockWrite
      modifies `lockWrite
      ensures Seize(old(Lock()), Out) == Some((Lock(), Writing))
    {
      lockWrite := true;
    }

    method UnlockFromWrite()
      modifies `lockWrite
      ensures Yield(old(Lock()), Writing) == Some((Lock(), Out))
    {
      lockWrite := false;
    }

    method LockForReaders()
      requires MayEnter(Lock())
      modifies `lockRead, `lockWrite, `numOfReaders
      ensures Lock() == Entered(old(Lock()))
    {
      lockRead := true;
      numOfReaders := numOfReaders + 1;
      if numOfReaders == 1 {
        lockWrite := true;
      }
      lockRead := false;
    }

    method UnlockFromRead()
      requires !lockRead
      modifies `lockRead, `lockWrite, `numOfReaders
      ensures Lock() == Left(old(Lock()))
    {
      lockRead := true;
      numOfReaders := numOfReaders - 1;
      if numOfReaders == 0 {
        lockWrite := false;
      }
      lockRead := false;
    }
  }
}

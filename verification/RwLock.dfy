/** The readers-writer lock built from two mutexes and a counter.

    The account list carries one (written out twice, once for the ATMs and once for the bank, over the
    same two mutexes and the same counter) and every account carries another.  The mutexes are binary
    semaphores without an owner: the last reader releases a mutex that the first reader took. */
module RwLock {

  datatype Option<+T> = None | Some(value: T)

  /** `rm` is the mutex around the counter, `wm` the mutex that keeps writers out, `n` the counter. */
  datatype Rw = Rw(rm: bool, wm: bool, n: int)

  const FREE := Rw(false, false, 0)

  /** Where one thread stands in the protocol; the counter is read into a register and stored back. */
  datatype Role =
    | Out
    | EnterRead | EnterStore(x: int) | EnterTest | EnterUnlock
    | In
    | LeaveRead | LeaveStore(x: int) | LeaveTest | LeaveUnlock
    | Writing

  /** One step on the way in, from `Out` to `In`; `None` when the thread has to wait. */
  function Enter(rw: Rw, role: Role): Option<(Rw, Role)> {
    match role
    case Out => if rw.rm then None else Some((rw.(rm := true), EnterRead))
    case EnterRead => Some((rw, EnterStore(rw.n)))
    case EnterStore(x) => Some((rw.(n := x + 1), EnterTest))
    case EnterTest =>
      if rw.n != 1 then Some((rw, EnterUnlock))
      else if rw.wm then None else Some((rw.(wm := true), EnterUnlock))
    case EnterUnlock => Some((rw.(rm := false), In))
    case _ => None
  }

  /** One step on the way out, from `In` to `Out`. */
  function Leave(rw: Rw, role: Role): Option<(Rw, Role)> {
    match role
    case In => if rw.rm then None else Some((rw.(rm := true), LeaveRead))
    case LeaveRead => Some((rw, LeaveStore(rw.n)))
    case LeaveStore(x) => Some((rw.(n := x - 1), LeaveTest))
    case LeaveTest => Some((if rw.n == 0 then rw.(wm := false) else rw, LeaveUnlock))
    case LeaveUnlock => Some((rw.(rm := false), Out))
    case _ => None
  }

  function Seize(rw: Rw, role: Role): Option<(Rw, Role)> {
    if role == Out && !rw.wm then Some((rw.(wm := true), Writing)) else None
  }

  function Yield(rw: Rw, role: Role): Option<(Rw, Role)> {
    if role == Writing then Some((rw.(wm := false), Out)) else None
  }

  /** The protocol as a relation: a thread in `role` may turn `rw` into `rw'` and reach `role'`. */
  predicate Moves(rw: Rw, role: Role, rw': Rw, role': Role) {
    || Enter(rw, role) == Some((rw', role'))
    || Leave(rw, role) == Some((rw', role'))
    || Seize(rw, role) == Some((rw', role'))
    || Yield(rw, role) == Some((rw', role'))
  }

  /** The thread holds the counter's mutex. */
  predicate Window(role: Role) {
    match role
    case Out | In | Writing => false
    case _ => true
  }

  /** The counter includes the thread. */
  predicate Counted(role: Role) {
    role.EnterTest? || role.EnterUnlock? || role.In? || role.LeaveRead? || role.LeaveStore?
  }

  /** The thread is protected by the write mutex that the readers hold together. */
  predicate Inside(role: Role) {
    role.EnterUnlock? || role.In? || role.LeaveRead? || role.LeaveStore?
  }

  /** Some thread is why the write mutex is taken. */
  predicate Claims(rw: Rw, role: Role) {
    role.Writing? || Inside(role) || (role.LeaveTest? && rw.n == 0)
  }

  ghost function Readers<T(!new)>(roles: map<T, Role>): set<T> {
    set t | t in roles && Counted(roles[t])
  }

  ghost predicate CounterGuarded<T(!new)>(rw: Rw, roles: map<T, Role>) {
    && (forall t, u | t in roles && u in roles && Window(roles[t]) && Window(roles[u]) :: t == u)
    && (rw.rm <==> exists t :: t in roles && Window(roles[t]))
  }

  ghost predicate CounterExact<T(!new)>(rw: Rw, roles: map<T, Role>) {
    && rw.n == |Readers(roles)|
    && (forall t | t in roles && roles[t].EnterStore? :: roles[t].x == rw.n)
    && (forall t | t in roles && roles[t].LeaveStore? :: roles[t].x == rw.n)
  }

  ghost predicate WritersAlone<T(!new)>(rw: Rw, roles: map<T, Role>) {
    forall t, u | t in roles && u in roles && roles[t].Writing? && Claims(rw, roles[u]) :: t == u
  }

  ghost predicate WriteMutexExact<T(!new)>(rw: Rw, roles: map<T, Role>) {
    rw.wm <==> exists t :: t in roles && Claims(rw, roles[t])
  }

  /** What every step of every thread keeps. */
  ghost predicate Inv<T(!new)>(rw: Rw, roles: map<T, Role>) {
    && CounterGuarded(rw, roles)
    && CounterExact(rw, roles)
    && WritersAlone(rw, roles)
    && WriteMutexExact(rw, roles)
  }

  // ---------- the set of counted threads ----------

  lemma ReadersUpdate<T(!new)>(roles: map<T, Role>, t: T, role: Role)
    requires t in roles
    ensures |Readers(roles[t := role])|
         == |Readers(roles)| - (if Counted(roles[t]) then 1 else 0) + (if Counted(role) then 1 else 0)
  {
    var rest := Readers(roles) - {t};
    assert Readers(roles[t := role]) == if Counted(role) then rest + {t} else rest;
    assert Readers(roles) == if Counted(roles[t]) then rest + {t} else rest;
  }

  lemma CountedIsCounted<T(!new)>(rw: Rw, roles: map<T, Role>, t: T)
    requires CounterExact(rw, roles)
    requires t in roles && Counted(roles[t])
    ensures rw.n >= 1
    ensures rw.n == 1 ==> forall u | u in roles && Counted(roles[u]) :: u == t
  {
    assert t in Readers(roles);
    var rest := Readers(roles) - {t};
    assert |rest| == rw.n - 1;
    if rw.n == 1 {
      forall u | u in roles && Counted(roles[u]) ensures u == t {
        assert u in Readers(roles);
        assert u !in rest;
      }
    }
  }

  lemma PositiveIsCounted<T(!new)>(rw: Rw, roles: map<T, Role>)
    requires CounterExact(rw, roles) && rw.n > 0
    ensures exists u :: u in roles && Counted(roles[u])
  {
    var u :| u in Readers(roles);
  }

  lemma ManyCounted<T(!new)>(rw: Rw, roles: map<T, Role>, t: T)
    requires CounterExact(rw, roles) && rw.n > 1
    requires t in roles && Counted(roles[t])
    ensures exists u :: u in roles && u != t && Counted(roles[u])
  {
    var rest := Readers(roles) - {t};
    assert |rest| == rw.n - 1;
    var u :| u in rest;
  }

  // ---------- preservation ----------

  lemma KeepsGuard<T(!new)>(rw: Rw, roles: map<T, Role>, t: T, rw': Rw, role': Role)
    requires Inv(rw, roles) && t in roles && Moves(rw, roles[t], rw', role')
    ensures CounterGuarded(rw', roles[t := role'])
  {
    var roles' := roles[t := role'];
    assert Window(roles'[t]) ==> rw'.rm;
    forall u | u in roles && u != t ensures roles'[u] == roles[u] {}
    if rw'.rm {
      if !Window(role') {
        assert rw.rm && !Window(roles[t]);
        var u :| u in roles && Window(roles[u]);
        assert Window(roles'[u]);
      } else {
        assert t in roles' && Window(roles'[t]);
      }
    }
  }

  lemma KeepsCount<T(!new)>(rw: Rw, roles: map<T, Role>, t: T, rw': Rw, role': Role)
    requires Inv(rw, roles) && t in roles && Moves(rw, roles[t], rw', role')
    ensures CounterExact(rw', roles[t := role'])
  {
    ReadersUpdate(roles, t, role');
    assert rw'.n != rw.n ==> Window(roles[t]);
  }

  /** A claim other than the mover's own survives the step. */
  lemma KeepsClaims<T(!new)>(rw: Rw, roles: map<T, Role>, t: T, rw': Rw, role': Role, u: T)
    requires Inv(rw, roles) && t in roles && Moves(rw, roles[t], rw', role')
    requires u in roles && u != t
    ensures Claims(rw, roles[u]) == Claims(rw', roles[u])
  {
    assert rw'.n != rw.n ==> Window(roles[t]);
  }

  /** Only a move into `Writing` or past the entry test makes a new claim, and it finds the mutex free
      or finds another reader inside. */
  lemma KeepsWriters<T(!new)>(rw: Rw, roles: map<T, Role>, t: T, rw': Rw, role': Role)
    requires Inv(rw, roles) && t in roles && Moves(rw, roles[t], rw', role')
    ensures WritersAlone(rw', roles[t := role'])
  {
    var roles' := roles[t := role'];
    forall u, v | u in roles' && v in roles' && roles'[u].Writing? && Claims(rw', roles'[v]) ensures u == v {
      if u != t && v != t {
        KeepsClaims(rw, roles, t, rw', role', v);
      } else if u == t && v != t {
        KeepsClaims(rw, roles, t, rw', role', v);
      } else if u != t && v == t {
        assert Claims(rw, roles[u]);
        NewClaim(rw, roles, t, rw', role', u);
      }
    }
  }

  /** A thread that passes the entry test without taking the write mutex has a reader inside beside it. */
  lemma SharedEntry<T(!new)>(rw: Rw, roles: map<T, Role>, t: T)
    requires CounterGuarded(rw, roles) && CounterExact(rw, roles)
    requires t in roles && roles[t].EnterTest? && rw.n != 1
    ensures exists v :: v in roles && Inside(roles[v])
  {
    CountedIsCounted(rw, roles, t);
    ManyCounted(rw, roles, t);
    var v :| v in roles && v != t && Counted(roles[v]);
    assert Inside(roles[v]);
  }

  lemma NewClaim<T(!new)>(rw: Rw, roles: map<T, Role>, t: T, rw': Rw, role': Role, u: T)
    requires Inv(rw, roles) && t in roles && Moves(rw, roles[t], rw', role')
    requires u in roles && u != t && roles[u].Writing?
    ensures !Claims(rw', role')
  {
    assert rw.wm;
    if roles[t].EnterTest? && rw.n != 1 {
      SharedEntry(rw, roles, t);
    }
  }

  lemma KeepsMutex<T(!new)>(rw: Rw, roles: map<T, Role>, t: T, rw': Rw, role': Role)
    requires Inv(rw, roles) && t in roles && Moves(rw, roles[t], rw', role')
    ensures WriteMutexExact(rw', roles[t := role'])
  {
    var roles' := roles[t := role'];
    if Claims(rw', role') {
      assert t in roles' && Claims(rw', roles'[t]);
      NewClaimTakesMutex(rw, roles, t, rw', role');
    } else if Claims(rw, roles[t]) {
      DroppedClaim(rw, roles, t, rw', role');
    } else {
      assert rw'.wm == rw.wm;
      if rw.wm {
        var u :| u in roles && Claims(rw, roles[u]);
        KeepsClaims(rw, roles, t, rw', role', u);
        assert u in roles' && Claims(rw', roles'[u]);
      }
      forall u | u in roles' && Claims(rw', roles'[u]) ensures rw'.wm {
        KeepsClaims(rw, roles, t, rw', role', u);
      }
    }
  }

  lemma NewClaimTakesMutex<T(!new)>(rw: Rw, roles: map<T, Role>, t: T, rw': Rw, role': Role)
    requires Inv(rw, roles) && t in roles && Moves(rw, roles[t], rw', role') && Claims(rw', role')
    ensures rw'.wm
  {
    if Claims(rw, roles[t]) {
      assert rw.wm;
    } else if roles[t].EnterTest? && rw.n != 1 {
      SharedEntry(rw, roles, t);
    }
  }

  lemma DroppedClaim<T(!new)>(rw: Rw, roles: map<T, Role>, t: T, rw': Rw, role': Role)
    requires Inv(rw, roles) && t in roles && Moves(rw, roles[t], rw', role')
    requires Claims(rw, roles[t]) && !Claims(rw', role')
    ensures WriteMutexExact(rw', roles[t := role'])
  {
    var roles' := roles[t := role'];
    assert rw.wm;
    if roles[t].LeaveStore? {
      // Other readers remain, and they are inside: this thread is the only one in the window.
      ReadersUpdate(roles, t, role');
      KeepsCount(rw, roles, t, rw', role');
      CountedIsCounted(rw, roles, t);
      PositiveIsCounted(rw', roles');
      var u :| u in roles' && Counted(roles'[u]);
      assert Inside(roles'[u]);
    } else {
      assert !rw'.wm;
      forall u | u in roles' ensures !Claims(rw', roles'[u]) {
        if u != t {
          KeepsClaims(rw, roles, t, rw', role', u);
          if Claims(rw, roles[u]) {
            if roles[t].LeaveTest? {
              if Counted(roles[u]) { CountedIsCounted(rw, roles, u); }
            }
          }
        }
      }
    }
  }

  /** Every step of every thread keeps the protocol's invariant, for any number of threads. */
  lemma MoveKeepsInv<T(!new)>(rw: Rw, roles: map<T, Role>, t: T, rw': Rw, role': Role)
    requires Inv(rw, roles) && t in roles && Moves(rw, roles[t], rw', role')
    ensures Inv(rw', roles[t := role'])
  {
    KeepsGuard(rw, roles, t, rw', role');
    KeepsCount(rw, roles, t, rw', role');
    KeepsWriters(rw, roles, t, rw', role');
    KeepsMutex(rw, roles, t, rw', role');
  }

  lemma InitInv<T(!new)>(roles: map<T, Role>)
    requires forall t | t in roles :: roles[t] == Out
    ensures Inv(FREE, roles)
  {
    assert Readers(roles) == {};
  }

  // ---------- what the invariant gives the rest of the program ----------

  /** Mutual exclusion: a writer overlaps neither a reader nor another writer. */
  lemma Exclusion<T(!new)>(rw: Rw, roles: map<T, Role>, t: T, u: T)
    requires Inv(rw, roles) && t in roles && u in roles && t != u
    requires roles[t].Writing?
    ensures !roles[u].Writing? && !Inside(roles[u])
  {
  }

  /** With nobody inside the entry and exit windows the counter is the number of readers inside, and the
      write mutex is taken exactly when somebody is reading or writing. */
  lemma Quiet<T(!new)>(rw: Rw, roles: map<T, Role>)
    requires Inv(rw, roles)
    requires forall t | t in roles :: !Window(roles[t])
    ensures !rw.rm
    ensures rw.n == |set t | t in roles && roles[t] == In|
    ensures rw.wm <==> exists t :: t in roles && (roles[t] == In || roles[t] == Writing)
  {
    assert Readers(roles) == set t | t in roles && roles[t] == In;
    if rw.wm {
      var t :| t in roles && Claims(rw, roles[t]);
      assert roles[t] == In || roles[t] == Writing;
    }
    forall t | t in roles && (roles[t] == In || roles[t] == Writing) ensures rw.wm {
      assert Claims(rw, roles[t]);
    }
  }

  /** A thread that waits at the entry test finds no reader inside: what it waits for is a writer. */
  lemma EntryWaitsForWriter<T(!new)>(rw: Rw, roles: map<T, Role>, t: T)
    requires Inv(rw, roles) && t in roles && roles[t] == EnterTest && Enter(rw, roles[t]).None?
    ensures exists u :: u in roles && u != t && roles[u].Writing?
    ensures forall u | u in roles :: !Inside(roles[u])
  {
    CountedIsCounted(rw, roles, t);
    var u :| u in roles && Claims(rw, roles[u]);
    forall v | v in roles ensures !Inside(roles[v]) {
      if Inside(roles[v]) { assert Counted(roles[v]); }
    }
    assert roles[u].Writing?;
  }
}

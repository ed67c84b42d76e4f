/** The bank and its ATMs as objects changed in place, one call at a time.  Every call is proved against
    the sequential bank, which is what `Linearization` proves the interleaved calls against. */
module Banks {
  import opened Sums
  import opened RwLock
  import opened SequentialBank
  import opened Accounts
  import Local
  import Machine
  import Rounding
  import Sweeps

  /** The call of one command takes the bank from `b` with `log` to `b'` with `log'`. */
  predicate Carries(b: Ledger, log: seq<Line>, atm: nat, c: Command, b': Ledger, log': seq<Line>) {
    b' == Perform(b, c) && log' == log + [AtmLine(atm, c, Judge(b, c))]
  }

  /** Calls keep the log a replay of the bank. */
  lemma CarriesOn(b: Ledger, log: seq<Line>, atm: nat, c: Command, b': Ledger, log': seq<Line>)
    requires Faithful(log) && Replay(log) == b && Carries(b, log, atm, c, b', log')
    ensures Faithful(log') && Replay(log') == b'
  {
    ReplayAppend(log, AtmLine(atm, c, Judge(b, c)));
  }

  /** A transfer between two accounts, put together from what happened at each. */
  lemma TransferCarries(b: Ledger, log: seq<Line>, atm: nat, c: Command, source: Acct, target: Acct, delta: int,
                        b': Ledger, log': seq<Line>)
    requires c.Transfer? && c.id != c.target && c.id in b.accts && c.target in b.accts
    requires source == b.accts[c.id] && target == b.accts[c.target]
    requires delta == if source.pw == c.pw && source.bal >= c.amount then c.amount else 0
    requires b' == Move(Move(b, c.id, -delta), c.target, delta)
    requires log' == log + [AtmLine(atm, c, if source.pw != c.pw then WrongPassword
                                            else if source.bal < c.amount then TooLow
                                            else Transferred(source.bal - delta, target.bal + delta))]
    ensures Carries(b, log, atm, c, b', log')
  {
    if delta == 0 {
      assert b'.accts == b.accts;
    }
  }

  // ---------- a print in the making ----------

  predicate Shown(b: Ledger, rows: seq<Machine.Row>, ahead: set<int>) {
    && ahead <= b.accts.Keys && Local.Rising(rows) && Local.Ids(rows) == b.accts.Keys - ahead
    && (forall i, k | 0 <= i < |rows| && k in ahead :: rows[i].id < k)
    && (forall i | 0 <= i < |rows| :: rows[i].id in b.accts && b.accts[rows[i].id] == Acct(rows[i].pw, rows[i].bal))
  }

  lemma ShownOn(b: Ledger, rows: seq<Machine.Row>, ahead: set<int>, k: int)
    requires Shown(b, rows, ahead) && k in ahead && forall j | j in ahead :: k <= j
    ensures Shown(b, rows + [Machine.Row(k, b.accts[k].bal, b.accts[k].pw)], ahead - {k})
  {
    Sweeps.IdsAppend(rows, Machine.Row(k, b.accts[k].bal, b.accts[k].pw));
  }

  // ---------- a fee round in the making ----------

  /** From the ledger `b0` a round at this rate has visited `rows` and has `ahead` before it; the ledger
      is `b` now. */
  ghost predicate Swept(b0: Ledger, rate: int, rows: seq<Machine.Row>, ahead: set<int>, b: Ledger) {
    && ahead <= b0.accts.Keys && Local.Rising(rows) && Local.Ids(rows) == b0.accts.Keys - ahead
    && (forall i, k | 0 <= i < |rows| && k in ahead :: rows[i].id < k)
    && (forall i | 0 <= i < |rows| :: rows[i].id in b0.accts && b0.accts[rows[i].id] == Acct(rows[i].pw, rows[i].bal))
    && b.vault == b0.vault + Sweeps.Gained(rate, rows) && b.accts.Keys == b0.accts.Keys
    && (forall k | k in ahead :: b.accts[k] == b0.accts[k])
    && (forall k | k in b0.accts && k !in ahead ::
          b.accts[k] == Acct(b0.accts[k].pw, b0.accts[k].bal - Fee(b0.accts[k].bal, rate)))
  }

  lemma SweptRows(b0: Ledger, rate: int, rows: seq<Machine.Row>, ahead: set<int>, b: Ledger, k: int)
    requires Swept(b0, rate, rows, ahead, b) && k in ahead && forall j | j in ahead :: k <= j
    ensures (var rows' := rows + [Machine.Row(k, b.accts[k].bal, b.accts[k].pw)];
             && Local.Rising(rows') && Local.Ids(rows') == b0.accts.Keys - (ahead - {k})
             && (forall i, j | 0 <= i < |rows'| && j in ahead - {k} :: rows'[i].id < j)
             && Sweeps.Gained(rate, rows') == Sweeps.Gained(rate, rows) + Fee(b.accts[k].bal, rate))
  {
    var row := Machine.Row(k, b.accts[k].bal, b.accts[k].pw);
    Sweeps.IdsAppend(rows, row);
    assert (rows + [row])[..|rows|] == rows;
  }

  lemma SweptStart(b: Ledger, rate: int)
    ensures Swept(b, rate, [], b.accts.Keys, b)
  {
  }

  /** Charging the next account. */
  lemma SweptOn(b0: Ledger, rate: int, rows: seq<Machine.Row>, ahead: set<int>, b: Ledger, k: int)
    requires Swept(b0, rate, rows, ahead, b) && k in ahead && forall j | j in ahead :: k <= j
    ensures Swept(b0, rate, rows + [Machine.Row(k, b.accts[k].bal, b.accts[k].pw)], ahead - {k},
                  Post(b, FeeLine(rate, k, Fee(b.accts[k].bal, rate))))
  {
    SweptRows(b0, rate, rows, ahead, b, k);
  }

  /** The rows are exactly the accounts of the ledger. */
  predicate Rows(accts: map<int, Acct>, rows: seq<Machine.Row>) {
    && Local.Rising(rows) && Local.Ids(rows) == accts.Keys
    && forall i | 0 <= i < |rows| :: rows[i].id in accts && accts[rows[i].id] == Acct(rows[i].pw, rows[i].bal)
  }

  lemma RowsBefore(accts: map<int, Acct>, rows: seq<Machine.Row>)
    requires Rows(accts, rows) && rows != []
    ensures (var last, before := rows[|rows| - 1], rows[..|rows| - 1];
             && last.id in accts && accts[last.id].bal == last.bal
             && accts.Keys == (accts - {last.id}).Keys + {last.id} && Rows(accts - {last.id}, before))
  {
    var last, before := rows[|rows| - 1], rows[..|rows| - 1];
    assert rows == before + [last];
    Sweeps.IdsAppend(before, last);
    assert last.id !in Local.Ids(before);
  }

  lemma BalancesWithout(b: Ledger, id: int)
    requires id in b.accts
    ensures Sum(Balances(b)) == b.accts[id].bal + Sum(Balances(b.(accts := b.accts - {id})))
  {
    SumPick(Balances(b), id);
    assert Balances(b.(accts := b.accts - {id})) == Balances(b) - {id};
  }

  /** Rows that are the accounts of a ledger hold all its balances. */
  lemma {:induction false} RowsHoldAll(b: Ledger, rows: seq<Machine.Row>)
    requires Rows(b.accts, rows)
    ensures Sweeps.Charged(rows) == Sum(Balances(b))
    decreases |rows|
  {
    if rows == [] {
      assert b.accts.Keys == {};
      assert Balances(b) == map[];
    } else {
      var last := rows[|rows| - 1];
      RowsBefore(b.accts, rows);
      RowsHoldAll(b.(accts := b.accts - {last.id}), rows[..|rows| - 1]);
      BalancesWithout(b, last.id);
    }
  }

  /** A fee round only moves money, and over n accounts holding S at rate r the vault gains within 50 n
      hundredths of r S; no account goes below zero. */
  lemma RoundBound(b0: Ledger, rate: int, rows: seq<Machine.Row>, b: Ledger)
    requires Swept(b0, rate, rows, {}, b) && 1 <= rate <= MAX_FEE
    requires forall k | k in b0.accts :: b0.accts[k].bal >= 0
    ensures (var gain, held, n := b.vault - b0.vault, Sum(Balances(b0)), |b0.accts.Keys|;
             -50 * n <= 100 * gain - rate * held <= 50 * n && 0 <= gain <= held)
    ensures forall k | k in b.accts :: 0 <= b.accts[k].bal <= b0.accts[k].bal
  {
    Sweeps.GainBound(rate, rows);
    RowsHoldAll(b0, rows);
    Sweeps.RisingIds(rows);
    forall k | k in b.accts ensures 0 <= b.accts[k].bal <= b0.accts[k].bal {
      FeeBounds(b0.accts[k].bal, rate);
    }
  }

  /** If the log was a replay of the bank, it still is. */
  predicate KeepsBooks(log: seq<Line>, b: Ledger, log': seq<Line>, b': Ledger) {
    Faithful(log) && Replay(log) == b ==> Faithful(log') && Replay(log') == b'
  }

  lemma KeepsBooksOn(log: seq<Line>, b: Ledger, log': seq<Line>, b': Ledger, line: Line)
    requires KeepsBooks(log, b, log', b') && Truthful(b', line)
    ensures KeepsBooks(log, b, log' + [line], Post(b', line))
  {
    ReplayAppend(log', line);
  }

  lemma ChargesAppend(rate: int, rows: seq<Machine.Row>, row: Machine.Row, log: seq<Line>)
    ensures log + Sweeps.Charges(rate, rows + [row])
         == log + Sweeps.Charges(rate, rows) + [FeeLine(rate, row.id, Fee(row.bal, rate))]
  {
  }

  class Bank {
    var open: map<int, Account>
    var closed: map<int, Account>
    var balance: int
    var log: seq<Line>
    var listReadLock: bool
    var listWriteLock: bool
    var listReaders: int
    var logLock: bool
    var transferLock: bool

    ghost function ListLock(): Rw
      reads this
    {
      Rw(listReadLock, listWriteLock, listReaders)
    }

    /** Accounts lie under their ids, the open ones unmarked and the closed ones marked. */
    ghost predicate Filed()
      reads this, open.Values, closed.Values
    {
      && (forall k | k in open :: open[k].id == k && !open[k].deleted)
      && (forall k | k in closed :: closed[k].id == k && closed[k].deleted)
    }

    /** Nobody is in a call. */
    ghost predicate Quiet()
      reads this, open.Values
    {
      && Unlocked()
      && (forall k | k in open :: open[k].Lock() == FREE)
    }

    ghost predicate Sound()
      reads this, open.Values, closed.Values
    {
      Filed() && Quiet()
    }

    ghost function View(): Ledger
      reads this, open.Values
    {
      Ledger(map k | k in open :: Acct(open[k].password, open[k].balance), balance)
    }

    constructor ()
      ensures Sound() && View() == EMPTY && log == [] && open == map[] && closed == map[]
    {
      open, closed, balance, log := map[], map[], 0, [];
      listReadLock, listWriteLock, listReaders, logLock, transferLock := false, false, 0, false, false;
    }

    /** Accounts but these are as they were, and so is everything about the bank but its log and locks. */
    twostate predicate OnlyTouched(touched: set<Account>)
      reads this, open.Values, closed.Values
    {
      && open == old(open) && closed == old(closed) && balance == old(balance)
      && (forall k | k in open && open[k] !in touched :: unchanged(open[k]))
      && (forall k | k in closed :: unchanged(closed[k]))
    }

    /** No lock of the bank is taken. */
    ghost predicate Unlocked()
      reads this
    {
      ListLock() == FREE && !logLock && !transferLock
    }

    lemma ViewIs(b: Ledger)
      requires b.accts.Keys == open.Keys && b.vault == balance
      requires forall k | k in open :: b.accts[k] == Acct(open[k].password, open[k].balance)
      ensures View() == b
    {
      var m, n := View().accts, b.accts;
      assert m.Keys == n.Keys;
      assert forall k | k in m :: m[k] == n[k];
      assert m == n;
    }

    /** After a call on one account, which may not be there. */
    twostate lemma Settles(new k: int, new delta: int)
      requires old(Sound()) && Unlocked() && OnlyTouched(if k in old(open) then {old(open)[k]} else {})
      requires k in open ==>
        !open[k].deleted && open[k].Lock() == FREE && open[k].balance == old(open[k].balance) + delta
      ensures Sound()
      ensures View() == if k in old(open) then Move(old(View()), k, delta) else old(View())
      ensures delta == 0 ==> View() == old(View())
    {
      assert k in open ==> forall j | j in open && j != k :: open[j] != open[k];
      ViewIs(if k in old(open) then Move(old(View()), k, delta) else old(View()));
      if delta == 0 { ViewIs(old(View())); }
    }

    /** After a call that has changed no account. */
    twostate lemma Stays()
      requires old(Sound()) && Unlocked() && OnlyTouched({})
      ensures Sound() && View() == old(View())
    {
      ViewIs(old(View()));
    }

    /** After a new account has been put on the map. */
    twostate lemma Adds(new account: Account)
      requires old(Sound()) && Unlocked() && account.id !in old(open)
      requires open == old(open)[account.id := account] && closed == old(closed) && balance == old(balance)
      requires !account.deleted && account.Lock() == FREE
      requires forall k | k in old(open) :: unchanged(old(open)[k])
      requires forall k | k in closed :: unchanged(closed[k])
      ensures Sound()
      ensures View() == old(View()).(accts := old(View()).accts[account.id := Acct(account.password, account.balance)])
    {
      ViewIs(old(View()).(accts := old(View()).accts[account.id := Acct(account.password, account.balance)]));
    }

    /** After an account has been taken off the map and marked. */
    twostate lemma Drops(new k: int)
      requires old(Sound()) && Unlocked() && k in old(open)
      requires open == old(open) - {k} && balance == old(balance)
      requires closed == old(closed) + if k !in old(closed) then map[k := old(open)[k]] else map[]
      requires old(open)[k].deleted && old(open)[k].Lock() == FREE
      requires (forall j | j in open :: unchanged(open[j])) && (forall j | j in old(closed) :: unchanged(closed[j]))
      ensures Sound() && View() == old(View()).(accts := old(View()).accts - {k})
    {
      ViewIs(old(View()).(accts := old(View()).accts - {k}));
    }

    twostate lemma SettlesTwo(new k: int, new j: int, new delta: int)
      requires old(Sound()) && Unlocked() && k in old(open) && j in old(open) && k != j
      requires OnlyTouched({old(open)[k], old(open)[j]})
      requires !open[k].deleted && open[k].Lock() == FREE && open[k].balance == old(open[k].balance) - delta
      requires !open[j].deleted && open[j].Lock() == FREE && open[j].balance == old(open[j].balance) + delta
      ensures Sound() && View() == Move(Move(old(View()), k, -delta), j, delta)
      ensures delta == 0 ==> View() == old(View())
    {
      assert forall i | i in open && i != j && i != k :: open[i] != open[k] && open[i] != open[j];
      ViewIs(Move(Move(old(View()), k, -delta), j, delta));
      if delta == 0 { ViewIs(old(View())); }
    }

    method LockAccountListForRead()
      requires MayEnter(ListLock())
      modifies `listReadLock, `listWriteLock, `listReaders
      ensures ListLock() == Entered(old(ListLock()))
    {
      listReadLock := true;
      listReaders := listReaders + 1;
      if listReaders == 1 {
        listWriteLock := true;
      }
      listReadLock := false;
    }

    method UnlockAccountListFromRead()
      requires !listReadLock
      modifies `listReadLock, `listWriteLock, `listReaders
      ensures ListLock() == Left(old(ListLock()))
    {
      listReadLock := true;
      listReaders := listReaders - 1;
      if listReaders == 0 {
        listWriteLock := false;
      }
      listReadLock := false;
    }

    /** `std::map::insert` leaves an occupied key alone. */
    method Insert(account: Account)
      modifies `open
      ensures open == if account.id in old(open) then old(open) else old(open)[account.id := account]
    {
      if account.id !in open {
        open := open[account.id := account];
      }
    }

    /** One line, under the log's mutex. */
    method WriteLog(line: Line)
      requires !logLock
      modifies `log, `logLock
      ensures log == old(log) + [line] && !logLock
    {
      logLock := true;
      log := log + [line];
      logLock := false;
    }

    // ---------- the sweeps ----------

    /** The body of the fee sweep's loop. */
    method Charge(account: Account, rate: int)
      requires rate >= 0 && account.Lock() == FREE && !logLock
      modifies account`balance, account`lockWrite, `balance, `log, `logLock
      ensures account.Lock() == FREE && !logLock
      ensures (var fee := Fee(old(account.balance), rate);
               && account.balance == old(account.balance) - fee && balance == old(balance) + fee
               && log == old(log) + [FeeLine(rate, account.id, fee)])
    {
      account.LockForWrite();
      var toRound := account.balance as real * (rate as real / Rounding.PERCENTAGE);
      var fee := Rounding.Rounded(toRound);
      Rounding.FeeIsRounded(account.balance, rate);
      balance := balance + fee;
      account.balance := account.balance - fee;
      WriteLog(FeeLine(rate, account.id, fee));
      account.UnlockFromWrite();
    }

    /** The list is taken for reading and nothing else is. */
    ghost predicate Sweeping()
      reads this, open.Values, closed.Values
    {
      && Filed() && (forall k | k in open :: open[k].Lock() == FREE)
      && ListLock() == Entered(FREE) && !logLock && !transferLock
    }

    method ChargeNext(k: int, rate: int)
      requires Sweeping() && k in open && rate >= 0
      modifies this, open.Values
      ensures Sweeping() && open == old(open) && closed == old(closed)
      ensures (var line := FeeLine(rate, k, Fee(old(open[k].balance), rate));
               log == old(log) + [line] && View() == Post(old(View()), line))
    {
      assert forall j | j in open && j != k :: open[j] != open[k];
      assert forall j | j in closed :: closed[j] != open[k];
      Charge(open[k], rate);
      assert View().accts == Post(old(View()), FeeLine(rate, k, Fee(old(open[k].balance), rate))).accts;
    }

    method ChargeAll(rate: int) returns (ghost rows: seq<Machine.Row>)
      requires Sweeping() && rate >= 0
      modifies this, open.Values
      ensures Sweeping() && open == old(open) && closed == old(closed)
      ensures log == old(log) + Sweeps.Charges(rate, rows) && Swept(old(View()), rate, rows, {}, View())
      ensures KeepsBooks(old(log), old(View()), log, View())
    {
      ghost var b0 := View();
      rows := [];
      var ahead := open.Keys;
      SweptStart(b0, rate);
      while ahead != {}
        invariant Sweeping() && open == old(open) && closed == old(closed)
        invariant Swept(b0, rate, rows, ahead, View())
        invariant log == old(log) + Sweeps.Charges(rate, rows) && KeepsBooks(old(log), b0, log, View())
        decreases |ahead|
      {
        var k := Machine.Least(ahead);
        SweptOn(b0, rate, rows, ahead, View(), k);
        ghost var row := Machine.Row(k, open[k].balance, open[k].password);
        ChargesAppend(rate, rows, row, old(log));
        KeepsBooksOn(old(log), b0, log, View(), FeeLine(rate, k, Fee(open[k].balance, rate)));
        ChargeNext(k, rate);
        rows := rows + [row];
        ahead := ahead - {k};
      }
    }

    /** One fee round charges every open account once, in the order of the ids, and nothing else. */
    method FeeRound(rate: int) returns (ghost rows: seq<Machine.Row>)
      requires Sound() && rate >= 0
      modifies this, open.Values
      ensures Sound() && open == old(open) && closed == old(closed)
      ensures Rows(old(View()).accts, rows)
      ensures log == old(log) + Sweeps.Charges(rate, rows) && Swept(old(View()), rate, rows, {}, View())
      ensures KeepsBooks(old(log), old(View()), log, View())
    {
      LockAccountListForRead();
      assert View() == old(View());
      rows := ChargeAll(rate);
      label Charged:
      UnlockAccountListFromRead();
      assert View() == old@Charged(View());
    }

    /** The printer has the list to itself. */
    ghost predicate Printing()
      reads this, open.Values, closed.Values
    {
      && Filed() && (forall k | k in open :: open[k].Lock() == FREE)
      && ListLock() == Rw(false, true, 0) && !logLock && !transferLock
    }

    method ShowNext(k: int) returns (row: Machine.Row)
      requires Printing() && k in open
      modifies open.Values
      ensures Printing() && View() == old(View())
      ensures row == Machine.Row(k, View().accts[k].bal, View().accts[k].pw)
    {
      assert forall j | j in open && j != k :: open[j] != open[k];
      assert forall j | j in closed :: closed[j] != open[k];
      open[k].LockForReaders();
      row := Machine.Row(open[k].id, open[k].balance, open[k].password);
      open[k].UnlockFromRead();
    }

    method ShowAll() returns (rows: seq<Machine.Row>)
      requires Printing()
      modifies open.Values
      ensures Printing() && View() == old(View()) && Rows(View().accts, rows)
    {
      ghost var b := View();
      rows := [];
      var ahead := open.Keys;
      while ahead != {}
        invariant Printing() && View() == b && Shown(b, rows, ahead)
        decreases |ahead|
      {
        var k := Machine.Least(ahead);
        ShownOn(b, rows, ahead, k);
        var row := ShowNext(k);
        rows := rows + [row];
        ahead := ahead - {k};
      }
    }

    /** The status print shows every account once, in order, and the bank's own money; it changes nothing. */
    method AccountsStatusPrint() returns (rows: seq<Machine.Row>, total: int)
      requires Sound()
      modifies `listWriteLock, open.Values
      ensures Sound() && View() == old(View())
      ensures Sweeps.Pictures(View(), Machine.Shot(rows, total, 0, 0))
    {
      listWriteLock := true;
      assert View() == old(View());
      rows := ShowAll();
      total := balance;
      label Shown:
      listWriteLock := false;
      assert View() == old@Shown(View());
    }

    /** Frees the accounts of one map after those in `before`. */
    static method FreeMap(accounts: map<int, Account>, before: set<Account>) returns (frees: nat, freed: set<Account>)
      requires forall k | k in accounts :: accounts[k].id == k && accounts[k] !in before
      ensures freed == before + (set k | k in accounts :: accounts[k]) && frees == |freed| - |before|
    {
      frees, freed := 0, before;
      var ahead := accounts.Keys;
      while ahead != {}
        invariant ahead <= accounts.Keys && freed == before + (set k | k in accounts && k !in ahead :: accounts[k])
        invariant frees == |freed| - |before|
        decreases |ahead|
      {
        var k := Machine.Least(ahead);
        assert accounts[k] !in freed;
        frees, freed := frees + 1, freed + {accounts[k]};
        ahead := ahead - {k};
      }
      assert forall k | k in accounts :: k !in ahead;
    }

    /** Frees the accounts of both maps.  It frees as many times as there are objects: none twice. */
    method FreeAccounts() returns (frees: nat, freed: set<Account>)
      requires Filed()
      ensures freed == (set k | k in open :: open[k]) + (set k | k in closed :: closed[k]) && frees == |freed|
    {
      frees, freed := FreeMap(open, {});
      var more;
      more, freed := FreeMap(closed, freed);
      frees := frees + more;
    }
  }

  class Atm {
    const id: nat
    const bank: Bank

    constructor (id: nat, bank: Bank)
      ensures this.id == id && this.bank == bank
    {
      this.id, this.bank := id, bank;
    }

    method Report(c: Command, verdict: Verdict)
      requires !bank.logLock
      modifies bank`log, bank`logLock
      ensures bank.log == old(bank.log) + [AtmLine(id, c, verdict)] && !bank.logLock
    {
      bank.WriteLog(AtmLine(id, c, verdict));
    }

    // ---------- under an account's lock ----------

    method DepositLocked(account: Account, c: Command)
      requires c.Deposit? && account.Lock() == FREE && !bank.logLock
      modifies account`balance, account`lockWrite, bank`log, bank`logLock
      ensures account.Lock() == FREE && !bank.logLock
      ensures account.balance
           == old(account.balance) + if !account.deleted && account.password == c.pw then c.amount else 0
      ensures bank.log == old(bank.log)
              + [AtmLine(id, c, if account.deleted then NoAccount(c.id)
                                else if account.password != c.pw then WrongPassword
                                else Deposited(account.balance))]
    {
      account.LockForWrite();
      if account.deleted {
        Report(c, NoAccount(c.id));
      } else if account.password == c.pw {
        account.Deposit(c.amount);
        Report(c, Deposited(account.balance));
      } else {
        Report(c, WrongPassword);
      }
      account.UnlockFromWrite();
    }

    method WithdrawlLocked(account: Account, c: Command)
      requires c.Withdraw? && account.Lock() == FREE && !bank.logLock
      modifies account`balance, account`lockWrite, bank`log, bank`logLock
      ensures account.Lock() == FREE && !bank.logLock
      ensures account.balance
           == old(account.balance)
              - if !account.deleted && account.password == c.pw && old(account.balance) >= c.amount then c.amount else 0
      ensures bank.log == old(bank.log)
              + [AtmLine(id, c, if account.deleted then NoAccount(c.id)
                                else if account.password != c.pw then WrongPassword
                                else if old(account.balance) < c.amount then TooLow
                                else Withdrawn(account.balance))]
    {
      account.LockForWrite();
      if account.deleted {
        Report(c, NoAccount(c.id));
      } else if account.password == c.pw {
        var ok := account.Withdrawl(c.amount);
        if ok {
          Report(c, Withdrawn(account.balance));
        } else {
          Report(c, TooLow);
        }
      } else {
        Report(c, WrongPassword);
      }
      account.UnlockFromWrite();
    }

    method BalanceLocked(account: Account, c: Command)
      requires c.Balance? && account.Lock() == FREE && !bank.logLock
      modifies account`lockRead, account`lockWrite, account`numOfReaders, bank`log, bank`logLock
      ensures account.Lock() == FREE && !bank.logLock
      ensures bank.log == old(bank.log)
              + [AtmLine(id, c, if account.deleted then NoAccount(c.id)
                                else if account.password != c.pw then WrongPassword
                                else BalanceIs(account.balance))]
    {
      account.LockForReaders();
      if account.deleted {
        Report(c, NoAccount(c.id));
      } else if account.password == c.pw {
        Report(c, BalanceIs(account.balance));
      } else {
        Report(c, WrongPassword);
      }
      account.UnlockFromRead();
    }

    /** The bank's maps are changed only if the password fits. */
    method CloseLocked(account: Account, c: Command) returns (ok: bool)
      requires c.Close? && account.Lock() == FREE && !bank.logLock && account.id == c.id
      modifies account`deleted, account`lockWrite, bank`open, bank`closed, bank`log, bank`logLock
      ensures account.Lock() == FREE && !bank.logLock
      ensures ok <==> !old(account.deleted) && account.password == c.pw
      ensures account.deleted <==> old(account.deleted) || ok
      ensures bank.open == old(bank.open) - if ok then {c.id} else {}
      ensures bank.closed == old(bank.closed) + if ok && c.id !in old(bank.closed) then map[c.id := account] else map[]
      ensures bank.log == old(bank.log)
              + [AtmLine(id, c, if old(account.deleted) then NoAccount(c.id)
                                else if account.password != c.pw then WrongPassword
                                else Closed(account.balance))]
    {
      account.LockForWrite();
      ok := !account.deleted && account.password == c.pw;
      if account.deleted {
        Report(c, NoAccount(c.id));
      } else if account.password == c.pw {
        if account.id !in bank.closed {
          bank.closed := bank.closed[account.id := account];
        }
        account.deleted := true;
        bank.open := bank.open - {c.id};
        Report(c, Closed(account.balance));
      } else {
        Report(c, WrongPassword);
      }
      account.UnlockFromWrite();
    }

    /** The two accounts are two: a second `LockForWrite` on one would wait for itself. */
    method TransferLocked(source: Account, target: Account, c: Command)
      requires c.Transfer? && source != target && !bank.logLock && source.Lock() == FREE && target.Lock() == FREE
      modifies source`balance, source`lockWrite, target`balance, target`lockWrite, bank`log, bank`logLock
      ensures source.Lock() == FREE && target.Lock() == FREE && !bank.logLock
      ensures (var good := !source.deleted && !target.deleted && source.password == c.pw;
               var moved := if good && old(source.balance) >= c.amount
                            then c.amount else 0;
               source.balance == old(source.balance) - moved && target.balance == old(target.balance) + moved)
      ensures bank.log == old(bank.log)
              + [AtmLine(id, c, if source.deleted then NoAccount(c.id)
                                else if target.deleted then NoAccount(c.target)
                                else if source.password != c.pw then WrongPassword
                                else if old(source.balance) < c.amount then TooLow
                                else Transferred(source.balance, target.balance))]
    {
      source.LockForWrite();
      target.LockForWrite();
      if !source.deleted && !target.deleted {
        if source.password == c.pw {
          var ok := source.Withdrawl(c.amount);
          if ok {
            target.balance := target.balance + c.amount;
            Report(c, Transferred(source.balance, target.balance));
          } else {
            Report(c, TooLow);
          }
        } else {
          Report(c, WrongPassword);
        }
      } else if source.deleted {
        Report(c, NoAccount(c.id));
      } else {
        Report(c, NoAccount(c.target));
      }
      source.UnlockFromWrite();
      target.UnlockFromWrite();
    }

    // ---------- the calls ----------

    method CreateAccount(accountId: int, password: string, amount: int)
      requires bank.Sound()
      modifies bank
      ensures bank.Sound() && bank.closed == old(bank.closed) && bank.balance == old(bank.balance)
      ensures Carries(old(bank.View()), old(bank.log), id, Open(accountId, password, amount), bank.View(), bank.log)
      ensures forall k | k in old(bank.open) :: k in bank.open && bank.open[k] == old(bank.open)[k]
      // a free id gets a new account with this password and this balance
      ensures accountId !in old(bank.open) ==>
                && bank.open.Keys == old(bank.open).Keys + {accountId} && fresh(bank.open[accountId])
                && bank.open[accountId].id == accountId && bank.open[accountId].password == password
                && bank.open[accountId].balance == amount && !bank.open[accountId].deleted
                && bank.log == old(bank.log) + [AtmLine(id, Open(accountId, password, amount), Opened(amount))]
      // an id that is taken is refused, and nothing changes but the log
      ensures accountId in old(bank.open) ==>
                && bank.open == old(bank.open)
                && bank.log == old(bank.log) + [AtmLine(id, Open(accountId, password, amount), IdTaken)]
    {
      var c := Open(accountId, password, amount);
      bank.listWriteLock := true;
      if accountId !in bank.open || bank.open[accountId].deleted {
        var account := new Account(accountId, amount, password);
        account.LockForWrite();
        bank.Insert(account);
        Report(c, Opened(amount));
        account.UnlockFromWrite();
        bank.listWriteLock := false;
        bank.Adds(account);
      } else {
        Report(c, IdTaken);
        bank.listWriteLock := false;
        bank.Stays();
      }
    }

    method DepositToAccount(accountId: int, password: string, amount: int)
      requires bank.Sound()
      modifies bank, bank.open.Values
      ensures bank.Sound() && bank.open == old(bank.open) && bank.closed == old(bank.closed)
      ensures Carries(old(bank.View()), old(bank.log), id, Deposit(accountId, password, amount), bank.View(), bank.log)
    {
      var c := Deposit(accountId, password, amount);
      ghost var delta := 0;
      bank.LockAccountListForRead();
      if accountId !in bank.open {
        Report(c, NoAccount(accountId));
      } else {
        DepositLocked(bank.open[accountId], c);
        delta := bank.open[accountId].balance - old(bank.open[accountId].balance);
      }
      bank.UnlockAccountListFromRead();
      bank.Settles(accountId, delta);
    }

    method WithdrawlFromAccount(accountId: int, password: string, amount: int)
      requires bank.Sound()
      modifies bank, bank.open.Values
      ensures bank.Sound() && bank.open == old(bank.open) && bank.closed == old(bank.closed)
      ensures Carries(old(bank.View()), old(bank.log), id, Withdraw(accountId, password, amount), bank.View(), bank.log)
    {
      var c := Withdraw(accountId, password, amount);
      ghost var delta := 0;
      bank.LockAccountListForRead();
      if accountId !in bank.open {
        Report(c, NoAccount(accountId));
      } else {
        WithdrawlLocked(bank.open[accountId], c);
        delta := bank.open[accountId].balance - old(bank.open[accountId].balance);
      }
      bank.UnlockAccountListFromRead();
      bank.Settles(accountId, delta);
    }

    method BalanceCheck(accountId: int, password: string)
      requires bank.Sound()
      modifies bank, bank.open.Values
      ensures bank.Sound() && bank.open == old(bank.open) && bank.closed == old(bank.closed)
      ensures Carries(old(bank.View()), old(bank.log), id, Balance(accountId, password), bank.View(), bank.log)
    {
      var c := Balance(accountId, password);
      bank.LockAccountListForRead();
      if accountId !in bank.open {
        Report(c, NoAccount(accountId));
      } else {
        BalanceLocked(bank.open[accountId], c);
      }
      bank.UnlockAccountListFromRead();
      bank.Settles(accountId, 0);
    }

    method ClosingAccount(accountId: int, password: string)
      requires bank.Sound()
      modifies bank, bank.open.Values
      ensures bank.Sound()
      ensures Carries(old(bank.View()), old(bank.log), id, Close(accountId, password), bank.View(), bank.log)
      // with its password the account goes, marked and with its balance; the closed map keeps the first account
      // closed under an id
      ensures (var goes := accountId in old(bank.open) && old(bank.open)[accountId].password == password;
               && bank.open == (if goes then old(bank.open) - {accountId} else old(bank.open))
               && bank.closed == (if goes && accountId !in old(bank.closed)
                                  then old(bank.closed)[accountId := old(bank.open)[accountId]]
                                  else old(bank.closed))
               && (goes ==>
                     var account := old(bank.open)[accountId];
                     account.deleted && account.balance == old(account.balance)))
    {
      var c := Close(accountId, password);
      bank.listWriteLock := true;
      if accountId !in bank.open {
        Report(c, NoAccount(accountId));
        bank.listWriteLock := false;
        bank.Stays();
      } else {
        var account := bank.open[accountId];
        var ok := CloseLocked(account, c);
        bank.listWriteLock := false;
        if ok {
          bank.Drops(accountId);
        } else {
          bank.Settles(accountId, 0);
        }
      }
    }

    method BeginTransfer()
      requires bank.Unlocked()
      modifies bank`listReadLock, bank`listWriteLock, bank`listReaders, bank`transferLock
      ensures bank.ListLock() == Entered(FREE) && bank.transferLock
    {
      bank.LockAccountListForRead();
      bank.transferLock := true;
    }

    method EndTransfer()
      requires bank.ListLock() == Entered(FREE) && !bank.logLock
      modifies bank`listReadLock, bank`listWriteLock, bank`listReaders, bank`transferLock
      ensures bank.Unlocked()
    {
      bank.transferLock := false;
      bank.UnlockAccountListFromRead();
    }

    method TransferBetweenAccounts(sourceId: int, password: string, targetId: int, amount: int)
      requires bank.Sound() && (sourceId != targetId || sourceId !in bank.open)
      modifies bank, bank.open.Values
      ensures bank.Sound() && bank.open == old(bank.open) && bank.closed == old(bank.closed)
      ensures Carries(old(bank.View()), old(bank.log), id, Transfer(sourceId, password, targetId, amount),
                      bank.View(), bank.log)
    {
      var c := Transfer(sourceId, password, targetId, amount);
      BeginTransfer();
      ghost var delta, from, to := 0, Acct("", 0), Acct("", 0);
      if sourceId !in bank.open {
        Report(c, NoAccount(sourceId));
      } else if targetId !in bank.open {
        Report(c, NoAccount(targetId));
      } else {
        var source, target := bank.open[sourceId], bank.open[targetId];
        from, to := Acct(source.password, source.balance), Acct(target.password, target.balance);
        TransferLocked(source, target, c);
        delta := target.balance - old(target.balance);
      }
      EndTransfer();
      if sourceId in bank.open && targetId in bank.open {
        bank.SettlesTwo(sourceId, targetId, delta);
        TransferCarries(old(bank.View()), old(bank.log), id, c, from, to, delta, bank.View(), bank.log);
      } else {
        bank.Stays();
      }
    }
  }
}

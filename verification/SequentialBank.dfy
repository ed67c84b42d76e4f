/** The plain sequential bank: what one command, or one fee, does when nothing runs beside it.
    The concurrent program is measured against this bank. */
module SequentialBank {
  import opened Sums

  datatype Command =
    | Open(id: int, pw: string, amount: int)
    | Deposit(id: int, pw: string, amount: int)
    | Withdraw(id: int, pw: string, amount: int)
    | Balance(id: int, pw: string)
    | Close(id: int, pw: string)
    | Transfer(id: int, pw: string, target: int, amount: int)

  /** What the log says came of a command. */
  datatype Verdict =
    | Opened(start: int)
    | IdTaken
    | NoAccount(missing: int)
    | WrongPassword
    | TooLow
    | Deposited(bal: int)
    | Withdrawn(bal: int)
    | BalanceIs(bal: int)
    | Closed(bal: int)
    | Transferred(bal: int, targetBal: int)

  /** A line of the log. */
  datatype Line =
    | AtmLine(atm: nat, cmd: Command, verdict: Verdict)
    | FeeLine(rate: int, id: int, fee: int)

  datatype Acct = Acct(pw: string, bal: int)

  datatype Ledger = Ledger(accts: map<int, Acct>, vault: int)

  const EMPTY := Ledger(map[], 0)
  const MAX_FEE := 5

  /** `rate` percent of the balance, rounded to the nearest integer, halves away from zero. */
  function Fee(bal: int, rate: int): int {
    if bal >= 0 then (2 * bal * rate + 100) / 200 else -((-2 * bal * rate + 100) / 200)
  }

  function Judge(b: Ledger, c: Command): Verdict {
    match c
    case Open(id, pw, amount) =>
      if id in b.accts then IdTaken else Opened(amount)
    case Deposit(id, pw, amount) =>
      if id !in b.accts then NoAccount(id)
      else if b.accts[id].pw != pw then WrongPassword
      else Deposited(b.accts[id].bal + amount)
    case Withdraw(id, pw, amount) =>
      if id !in b.accts then NoAccount(id)
      else if b.accts[id].pw != pw then WrongPassword
      else if b.accts[id].bal < amount then TooLow
      else Withdrawn(b.accts[id].bal - amount)
    case Balance(id, pw) =>
      if id !in b.accts then NoAccount(id)
      else if b.accts[id].pw != pw then WrongPassword
      else BalanceIs(b.accts[id].bal)
    case Close(id, pw) =>
      if id !in b.accts then NoAccount(id)
      else if b.accts[id].pw != pw then WrongPassword
      else Closed(b.accts[id].bal)
    case Transfer(id, pw, target, amount) =>
      if id !in b.accts then NoAccount(id)
      else if target !in b.accts then NoAccount(target)
      else if b.accts[id].pw != pw then WrongPassword
      else if b.accts[id].bal < amount then TooLow
      else var b' := Move(Move(b, id, -amount), target, amount);
           Transferred(b'.accts[id].bal, b'.accts[target].bal)
  }

  function Move(b: Ledger, id: int, delta: int): (b': Ledger)
    requires id in b.accts
    ensures b'.accts.Keys == b.accts.Keys
  {
    b.(accts := b.accts[id := b.accts[id].(bal := b.accts[id].bal + delta)])
  }

  function Perform(b: Ledger, c: Command): Ledger {
    match Judge(b, c)
    case Opened(start) => b.(accts := b.accts[c.id := Acct(c.pw, start)])
    case Deposited(_) => Move(b, c.id, c.amount)
    case Withdrawn(_) => Move(b, c.id, -c.amount)
    case Closed(_) => b.(accts := b.accts - {c.id})
    case Transferred(_, _) => Move(Move(b, c.id, -c.amount), c.target, c.amount)
    case _ => b
  }

  /** A line is truthful when it reports what the sequential bank would have answered. */
  predicate Truthful(b: Ledger, line: Line) {
    match line
    case AtmLine(_, cmd, verdict) => verdict == Judge(b, cmd)
    case FeeLine(rate, id, fee) => id in b.accts && fee == Fee(b.accts[id].bal, rate)
  }

  function Post(b: Ledger, line: Line): Ledger {
    match line
    case AtmLine(_, cmd, _) => Perform(b, cmd)
    case FeeLine(_, id, fee) =>
      if id in b.accts then var b' := Move(b, id, -fee); b'.(vault := b.vault + fee) else b
  }

  function Replay(log: seq<Line>): Ledger {
    if log == [] then EMPTY else Post(Replay(log[..|log| - 1]), log[|log| - 1])
  }

  predicate Faithful(log: seq<Line>) {
    forall i | 0 <= i < |log| :: Truthful(Replay(log[..i]), log[i])
  }

  lemma ReplayAppend(log: seq<Line>, line: Line)
    ensures Replay(log + [line]) == Post(Replay(log), line)
    ensures Faithful(log) && Truthful(Replay(log), line) ==> Faithful(log + [line])
  {
    var log' := log + [line];
    assert log'[..|log|] == log;
    if Faithful(log) && Truthful(Replay(log), line) {
      forall i | 0 <= i < |log'| ensures Truthful(Replay(log'[..i]), log'[i]) {
        assert log'[..i] == log[..i];
        assert log[..|log|] == log;
      }
    }
  }

  // ---------- money ----------

  ghost function Balances(b: Ledger): map<int, int> {
    map k | k in b.accts :: b.accts[k].bal
  }

  /** All the money in the bank. */
  ghost function Worth(b: Ledger): int {
    Sum(Balances(b)) + b.vault
  }

  /** Money that a line brings in from outside (positive) or pays out (negative). */
  function Flow(line: Line): int {
    match line
    case FeeLine(_, _, _) => 0
    case AtmLine(_, cmd, verdict) =>
      match verdict
      case Opened(start) => start
      case Deposited(_) => if cmd.Deposit? then cmd.amount else 0
      case Withdrawn(_) => if cmd.Withdraw? then -cmd.amount else 0
      case Closed(bal) => -bal
      case _ => 0
  }

  function TotalFlow(log: seq<Line>): int {
    if log == [] then 0 else TotalFlow(log[..|log| - 1]) + Flow(log[|log| - 1])
  }

  lemma TotalFlowAppend(log: seq<Line>, line: Line)
    ensures TotalFlow(log + [line]) == TotalFlow(log) + Flow(line)
  {
    assert (log + [line])[..|log|] == log;
  }

  lemma MoveWorth(b: Ledger, id: int, delta: int)
    requires id in b.accts
    ensures Worth(Move(b, id, delta)) == Worth(b) + delta
  {
    SumUpdate(Balances(b), id, b.accts[id].bal + delta);
    assert Balances(Move(b, id, delta)) == Balances(b)[id := b.accts[id].bal + delta];
  }

  lemma OpenWorth(b: Ledger, c: Command)
    requires c.Open? && c.id !in b.accts
    ensures Worth(Perform(b, c)) == Worth(b) + c.amount
  {
    SumUpdate(Balances(b), c.id, c.amount);
    assert Balances(Perform(b, c)) == Balances(b)[c.id := c.amount];
  }

  lemma CloseWorth(b: Ledger, c: Command)
    requires c.Close? && c.id in b.accts && b.accts[c.id].pw == c.pw
    ensures Worth(Perform(b, c)) == Worth(b) - b.accts[c.id].bal
  {
    SumPick(Balances(b), c.id);
    assert Balances(Perform(b, c)) == Balances(b) - {c.id};
  }

  lemma TransferWorth(b: Ledger, c: Command)
    requires c.Transfer? && c.id in b.accts && c.target in b.accts
    ensures Worth(Move(Move(b, c.id, -c.amount), c.target, c.amount)) == Worth(b)
  {
    MoveWorth(b, c.id, -c.amount);
    MoveWorth(Move(b, c.id, -c.amount), c.target, c.amount);
  }

  lemma FeeWorth(b: Ledger, line: Line)
    requires line.FeeLine? && line.id in b.accts
    ensures Worth(Post(b, line)) == Worth(b)
  {
    MoveWorth(b, line.id, -line.fee);
    assert Balances(Post(b, line)) == Balances(Move(b, line.id, -line.fee));
  }

  lemma PerformWorth(b: Ledger, c: Command, atm: nat)
    ensures Worth(Perform(b, c)) == Worth(b) + Flow(AtmLine(atm, c, Judge(b, c)))
  {
    match Judge(b, c)
    case Opened(_) => OpenWorth(b, c);
    case Deposited(_) => MoveWorth(b, c.id, c.amount);
    case Withdrawn(_) => MoveWorth(b, c.id, -c.amount);
    case Closed(_) => CloseWorth(b, c);
    case Transferred(_, _) => TransferWorth(b, c);
    case _ =>
  }

  /** A truthful line changes the money in the bank by exactly what it brings in or pays out:
      transfers and fees only move money. */
  lemma PostWorth(b: Ledger, line: Line)
    requires Truthful(b, line)
    ensures Worth(Post(b, line)) == Worth(b) + Flow(line)
  {
    match line
    case FeeLine(_, _, _) => FeeWorth(b, line);
    case AtmLine(atm, cmd, _) => PerformWorth(b, cmd, atm);
  }

  /** Conservation on the sequential bank: a faithful log accounts for every coin. */
  lemma {:induction false} ReplayWorth(log: seq<Line>)
    requires Faithful(log)
    ensures Worth(Replay(log)) == TotalFlow(log)
  {
    if log == [] {
      assert Balances(EMPTY) == map[];
    } else {
      var k := |log| - 1;
      assert forall i | 0 <= i < k :: log[..k][..i] == log[..i];
      ReplayWorth(log[..k]);
      PostWorth(Replay(log[..k]), log[k]);
    }
  }

  // ---------- solvency ----------

  predicate Decent(c: Command) {
    match c
    case Open(_, _, amount) => amount >= 0
    case Deposit(_, _, amount) => amount >= 0
    case Withdraw(_, _, amount) => amount >= 0
    case Transfer(_, _, _, amount) => amount >= 0
    case _ => true
  }

  predicate DecentLine(line: Line) {
    match line
    case AtmLine(_, cmd, _) => Decent(cmd)
    case FeeLine(rate, _, _) => 1 <= rate <= MAX_FEE
  }

  ghost predicate Solvent(b: Ledger) {
    && (forall k | k in b.accts :: b.accts[k].bal >= 0)
    && b.vault >= 0
  }

  lemma NearestHundredth(x: nat, bal: nat)
    requires x <= 100 * bal
    ensures 0 <= (2 * x + 100) / 200 <= bal
    ensures -50 <= 100 * ((2 * x + 100) / 200) - x <= 50
  {
  }

  lemma PartOfBalance(bal: nat, rate: nat)
    requires rate <= 100
    ensures 0 <= bal * rate <= 100 * bal && 2 * bal * rate == 2 * (bal * rate) && rate * bal == bal * rate
  {
    assert (100 - rate) * bal >= 0;
  }

  /** The fee lies between zero and the balance, and is within half a coin of the exact percentage. */
  lemma FeeBounds(bal: int, rate: int)
    requires bal >= 0 && 0 <= rate <= 100
    ensures 0 <= Fee(bal, rate) <= bal
    ensures -50 <= 100 * Fee(bal, rate) - rate * bal <= 50
  {
    PartOfBalance(bal, rate);
    NearestHundredth(bal * rate, bal);
  }

  lemma PostSolvent(b: Ledger, line: Line)
    requires Solvent(b) && Truthful(b, line) && DecentLine(line)
    ensures Solvent(Post(b, line))
  {
    if line.FeeLine? {
      FeeBounds(b.accts[line.id].bal, line.rate);
    }
  }

  lemma {:induction false} ReplaySolvent(log: seq<Line>)
    requires Faithful(log) && forall i | 0 <= i < |log| :: DecentLine(log[i])
    ensures Solvent(Replay(log))
  {
    if log != [] {
      var k := |log| - 1;
      assert forall i | 0 <= i < k :: log[..k][..i] == log[..i];
      ReplaySolvent(log[..k]);
      PostSolvent(Replay(log[..k]), log[k]);
    }
  }
}

/** What the log means to a customer: an account is what its lines say, and every answer follows from them.

    Nothing here runs the bank: the book of an account is read off the lines, from its last opening on. */
module Passbooks {
  import opened SequentialBank

  // ---------- the book of one account ----------

  predicate Opens(line: Line, k: int) {
    line.AtmLine? && line.verdict.Opened? && line.cmd.Open? && line.cmd.id == k
  }

  predicate Closes(line: Line, k: int) {
    line.AtmLine? && line.verdict.Closed? && line.cmd.Close? && line.cmd.id == k
  }

  /** What a line adds to account `k`, apart from opening and closing. */
  function Entry(line: Line, k: int): int {
    match line
    case FeeLine(_, id, fee) => if id == k then -fee else 0
    case AtmLine(_, Deposit(id, _, amount), Deposited(_)) => if id == k then amount else 0
    case AtmLine(_, Withdraw(id, _, amount), Withdrawn(_)) => if id == k then -amount else 0
    case AtmLine(_, Transfer(id, _, target, amount), Transferred(_, _)) =>
      (if target == k then amount else 0) - (if id == k then amount else 0)
    case _ => 0
  }

  /** The account has been opened, and not closed since. */
  predicate IsOpen(log: seq<Line>, k: int) {
    log != [] && var last := log[|log| - 1];
                 Opens(last, k) || (!Closes(last, k) && IsOpen(log[..|log| - 1], k))
  }

  /** The line that opened it. */
  function Opening(log: seq<Line>, k: int): (i: nat)
    requires IsOpen(log, k)
    ensures i < |log| && Opens(log[i], k) && forall j | i < j < |log| :: !Opens(log[j], k) && !Closes(log[j], k)
  {
    if Opens(log[|log| - 1], k) then |log| - 1 else Opening(log[..|log| - 1], k)
  }

  /** The entries from line `i` on. */
  function Entries(log: seq<Line>, k: int, i: nat): int {
    if |log| <= i then 0 else Entries(log[..|log| - 1], k, i) + Entry(log[|log| - 1], k)
  }

  /** The password that the account was opened with. */
  function Password(log: seq<Line>, k: int): string
    requires IsOpen(log, k)
  {
    log[Opening(log, k)].cmd.pw
  }

  /** The opening amount and all entries since. */
  function BalanceOf(log: seq<Line>, k: int): int
    requires IsOpen(log, k)
  {
    log[Opening(log, k)].cmd.amount + Entries(log, k, Opening(log, k) + 1)
  }

  // ---------- the bank keeps the books ----------

  /** The ledger says of account `k` what its book says. */
  predicate Kept(b: Ledger, log: seq<Line>, k: int) {
    && (k in b.accts <==> IsOpen(log, k))
    && (k in b.accts ==> b.accts[k] == Acct(Password(log, k), BalanceOf(log, k)))
  }

  /** The book one line later. */
  lemma BookAppend(log: seq<Line>, line: Line, k: int)
    ensures IsOpen(log + [line], k) <==> Opens(line, k) || (IsOpen(log, k) && !Closes(line, k))
    ensures Opens(line, k) ==>
              Password(log + [line], k) == line.cmd.pw && BalanceOf(log + [line], k) == line.cmd.amount
    ensures IsOpen(log, k) && !Opens(line, k) && !Closes(line, k) ==>
              && Password(log + [line], k) == Password(log, k)
              && BalanceOf(log + [line], k) == BalanceOf(log, k) + Entry(line, k)
  {
    assert (log + [line])[..|log|] == log;
  }

  lemma CmdKeeps(b: Ledger, log: seq<Line>, line: Line, k: int)
    requires Truthful(b, line) && line.AtmLine? && Kept(b, log, k)
    ensures Kept(Post(b, line), log + [line], k)
  {
    BookAppend(log, line, k);
  }

  lemma FeeKeeps(b: Ledger, log: seq<Line>, line: Line, k: int)
    requires Truthful(b, line) && line.FeeLine? && Kept(b, log, k)
    ensures Kept(Post(b, line), log + [line], k)
  {
    BookAppend(log, line, k);
  }

  lemma LineKeeps(b: Ledger, log: seq<Line>, line: Line, k: int)
    requires Truthful(b, line) && Kept(b, log, k)
    ensures Kept(Post(b, line), log + [line], k)
  {
    if line.FeeLine? { FeeKeeps(b, log, line, k); } else { CmdKeeps(b, log, line, k); }
  }

  lemma FaithfulPrefix(log: seq<Line>, n: nat)
    requires Faithful(log) && n < |log|
    ensures Faithful(log[..n]) && Truthful(Replay(log[..n]), log[n])
  {
    forall i | 0 <= i < n ensures Truthful(Replay(log[..n][..i]), log[..n][i]) {
      assert log[..n][..i] == log[..i];
    }
  }

  /** The sequential bank has exactly the accounts whose books are open, with the password of their opening
      and the balance of their entries. */
  lemma {:induction false} BooksAreKept(log: seq<Line>, k: int)
    requires Faithful(log)
    ensures Kept(Replay(log), log, k)
  {
    if log != [] {
      var n := |log| - 1;
      FaithfulPrefix(log, n);
      BooksAreKept(log[..n], k);
      LineKeeps(Replay(log[..n]), log[..n], log[n], k);
      assert log[..n] + [log[n]] == log;
    }
  }

  // ---------- every answer follows from the books ----------

  predicate Refusal(v: Verdict) {
    v.IdTaken? || v.NoAccount? || v.WrongPassword? || v.TooLow?
  }

  /** The accounts that a command needs are open. */
  predicate Finds(log: seq<Line>, c: Command) {
    !c.Open? && IsOpen(log, c.id) && (c.Transfer? ==> IsOpen(log, c.target))
  }

  /** A command may be carried out: a new account under a free id, and anything else with the password of the
      account's opening and within its balance. */
  predicate Granted(log: seq<Line>, c: Command) {
    if c.Open? then !IsOpen(log, c.id)
    else
      && Finds(log, c) && c.pw == Password(log, c.id)
      && (c.Withdraw? || c.Transfer? ==> c.amount <= BalanceOf(log, c.id))
  }

  /** Why a command was refused. */
  predicate Excused(log: seq<Line>, c: Command, v: Verdict) {
    match v
    case IdTaken => c.Open? && IsOpen(log, c.id)
    case NoAccount(k) =>
      !c.Open? && !IsOpen(log, k) && (k == c.id || (c.Transfer? && k == c.target && IsOpen(log, c.id)))
    case WrongPassword => Finds(log, c) && c.pw != Password(log, c.id)
    case TooLow =>
      && Finds(log, c) && c.pw == Password(log, c.id)
      && (c.Withdraw? || c.Transfer?) && BalanceOf(log, c.id) < c.amount
    case _ => false
  }

  /** What a command that is carried out reports: the balances afterwards, or before a closing. */
  predicate Reports(before: seq<Line>, after: seq<Line>, c: Command, v: Verdict) {
    match c
    case Open(k, pw, amount) =>
      v == Opened(amount) && IsOpen(after, k) && Password(after, k) == pw && BalanceOf(after, k) == amount
    case Deposit(k, _, amount) => IsOpen(after, k) && v == Deposited(BalanceOf(after, k))
    case Withdraw(k, _, amount) => IsOpen(after, k) && v == Withdrawn(BalanceOf(after, k))
    case Balance(k, _) => IsOpen(after, k) && v == BalanceIs(BalanceOf(after, k))
    case Close(k, _) => !IsOpen(after, k) && IsOpen(before, k) && v == Closed(BalanceOf(before, k))
    case Transfer(k, _, j, _) =>
      IsOpen(after, k) && IsOpen(after, j) && v == Transferred(BalanceOf(after, k), BalanceOf(after, j))
  }

  lemma AnswerAppend(b: Ledger, log: seq<Line>, line: Line)
    requires Truthful(b, line) && line.AtmLine?
    requires Kept(b, log, line.cmd.id) && (line.cmd.Transfer? ==> Kept(b, log, line.cmd.target))
    ensures Refusal(line.verdict) <==> !Granted(log, line.cmd)
    ensures Refusal(line.verdict) ==> Excused(log, line.cmd, line.verdict)
    ensures !Refusal(line.verdict) ==> Reports(log, log + [line], line.cmd, line.verdict)
  {
    BookAppend(log, line, line.cmd.id);
    if line.cmd.Transfer? { BookAppend(log, line, line.cmd.target); }
  }

  /** In a faithful log a command is carried out exactly when the books grant it, a refusal gives the reason,
      and the balances reported are those of the books. */
  lemma AnswersFollow(log: seq<Line>, n: nat)
    requires Faithful(log) && n < |log| && log[n].AtmLine?
    ensures (var c, v := log[n].cmd, log[n].verdict;
             && (Refusal(v) <==> !Granted(log[..n], c))
             && (Refusal(v) ==> Excused(log[..n], c, v))
             && (!Refusal(v) ==> Reports(log[..n], log[..n + 1], c, v)))
  {
    FaithfulPrefix(log, n);
    BooksAreKept(log[..n], log[n].cmd.id);
    if log[n].cmd.Transfer? { BooksAreKept(log[..n], log[n].cmd.target); }
    assert log[..n] + [log[n]] == log[..n + 1];
    AnswerAppend(Replay(log[..n]), log[..n], log[n]);
  }

  /** A fee is charged on an open account, and is that percentage of its balance, rounded to the nearest coin
      and away from zero in the middle. */
  lemma FeesFollow(log: seq<Line>, n: nat)
    requires Faithful(log) && n < |log| && log[n].FeeLine?
    ensures IsOpen(log[..n], log[n].id)
    ensures log[n].rate >= 0 ==> Nearest(log[n].fee, log[n].rate, BalanceOf(log[..n], log[n].id))
  {
    FaithfulPrefix(log, n);
    BooksAreKept(log[..n], log[n].id);
    if log[n].rate >= 0 { FeeIsNearest(BalanceOf(log[..n], log[n].id), log[n].rate); }
  }

  // ---------- the rounding of a fee ----------

  /** `fee` is the integer nearest to `rate` percent of `bal`, and of two that are equally near the one farther
      from zero. */
  predicate Nearest(fee: int, rate: int, bal: int) {
    && -50 <= 100 * fee - rate * bal <= 50
    && (100 * fee - rate * bal == 50 ==> bal * rate > 0)
    && (100 * fee - rate * bal == -50 ==> bal * rate < 0)
  }

  lemma NearestUp(x: nat)
    ensures (var q := (2 * x + 100) / 200; -50 < 100 * q - x <= 50)
  {
  }

  lemma FeeIsNearest(bal: int, rate: int)
    requires rate >= 0
    ensures Nearest(Fee(bal, rate), rate, bal)
  {
    var x := bal * rate;
    assert 2 * bal * rate == 2 * x && -2 * bal * rate == 2 * -x && rate * bal == x;
    if bal >= 0 { NearestUp(Product(bal, rate)); } else { NearestUp(Product(-bal, rate)); }
  }

  function Product(x: nat, y: nat): (p: nat)
    ensures p == x * y && (x == 0 ==> p == 0)
  {
    assert x * y >= 0;
    x * y
  }

  // ---------- what one opening means ----------

  /** From its opening on an account is had with its password, and only with it; the other accounts stay. */
  lemma OpeningMeans(b: Ledger, id: int, pw: string, amount: int, x: int, q: string)
    requires id !in b.accts
    ensures (var b' := Perform(b, Open(id, pw, amount));
             && Judge(b', Balance(id, pw)) == BalanceIs(amount)
             && Judge(b', Deposit(id, pw, x)) == Deposited(amount + x)
             && Judge(Perform(b', Deposit(id, pw, x)), Balance(id, pw)) == BalanceIs(amount + x)
             && (q != pw ==> Judge(b', Balance(id, q)) == Judge(b', Deposit(id, q, x)) == WrongPassword)
             && Judge(b', Open(id, q, x)) == IdTaken
             && b'.vault == b.vault && b'.accts.Keys == b.accts.Keys + {id}
             && forall k, r | k != id :: Judge(b', Balance(k, r)) == Judge(b, Balance(k, r)))
  {
  }

  /** A closed account is gone, and its id is free. */
  lemma ClosingMeans(b: Ledger, id: int, pw: string, q: string, amount: int)
    requires id in b.accts && b.accts[id].pw == pw
    ensures Judge(b, Close(id, pw)) == Closed(b.accts[id].bal)
    ensures (var b' := Perform(b, Close(id, pw));
             && Judge(b', Balance(id, q)) == NoAccount(id) && Judge(b', Open(id, q, amount)) == Opened(amount)
             && b'.vault == b.vault && b'.accts.Keys == b.accts.Keys - {id}
             && forall k, r | k != id :: Judge(b', Balance(k, r)) == Judge(b, Balance(k, r)))
  {
  }
}

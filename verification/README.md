# Two servers, modelled and verified

This project models two programs of the repository in Dafny and proves what they promise.

**The concurrent bank (`HW4`).** Any number of ATM threads, a fee collector and a status printer share an
account map, a bank balance and a log. They coordinate through readers-writer locks built from two mutexes
and a counter (one around the account list, one in every account), a transfer lock, a log lock and a gate
that lets writers of the list in. The model is a transition system in which every lock acquisition and
release, every read and every write of a counter, a balance or a map, and every line of the log is a step of
its own, and the steps of all threads interleave freely. The plain sequential bank (`SequentialBank`) says
what a command does when nothing runs beside it.

**The TFTP write receiver (`HW5`).** A server takes a write request, acknowledges it, and stores the blocks of
one client in lock step, past datagrams of other senders, until a short block ends the file or an error deletes
it. Its descriptor set is armed once per session and emptied by the first wait that is in vain, so from then on
it only repeats its last acknowledgement, up to its limit, and gives up. It follows RFC 1350 (section 2 for the lock step, section 5
for the packets, section 6 for normal and section 7 for premature termination), with 1 as its own opcode for
errors. The model runs on any stream of datagrams and silences.

## How the files fit together

The bank:

- `SequentialBank` - commands, verdicts, log lines, the sequential bank, replay of a log, money, fees.
- `Passbooks` - what a log means without any bank: the book of an account, and which answers follow from it.
- `RwLock` - the readers-writer protocol for any number of threads.
- `Machine` - the program as a transition system.
- `Control`, `Locking` - which locks a thread holds at each program counter; every lock keeps its protocol.
- `Debts`, `Local`, `Steps`, `Books`, `Serial` - what each thread may rely on, what it owes the log, and the
  invariant that ties the real state to the replayed log.
- `Order`, `Sweeps`, `Money`, `Solvency` - the order of each ATM's lines, fee rounds and prints, conservation,
  nonnegative balances.
- `Linearization`, `Consequences`, `Waiting`, `Completion`, `SelfTransfer` - the main results on reachable states.
- `Draws` - runs with the rates drawn: fee rounds and prints that were begun are carried through.
- `Archive`, `Teardown` - what the map of closed accounts holds, and what is freed at the end.
- `Gate` - the gate before the account list.
- `Fairness` - infinite runs: under fairness every run ends, unless a transfer is stuck with itself.
- `Accounts`, `Rounding`, `Banks` - the account, the ATM and the bank as objects changed in place, with their
  loops and the rounding of the fee, one undisturbed call at a time. An operation of the source that locks an
  account is a method for the part under that lock (`DepositLocked`) and one for the call around it.

The receiver:

- `WriteSession` - one session with one client on any stream of events.
- `Delivery` - what the client gets; sizes; other senders; acknowledgements; exact bounds.
- `FileServer` - the loop around the sessions, over the files and the request names.
- `Chronicle` - every datagram is answered, by the right turn, in order.
- `Replies` - everything the server says, to whom, and how often.
- `Ttftps` - the program itself, with its buffers, input and disk changed in place, proved against the two
  modules above. The body of `recieving_data_mode` is cut into its two loops and the handling of one event.

## What turned out false, and when it holds

- Every run ends: false for a transfer from an open account to itself, which waits for a mutex that it holds
  (`SelfTransfer.SelfTransferDeadlocks` gives a two-line script). In every reachable state a transfer at its
  second lock can get past it if and only if it names two accounts (`Completion.SecondLockIff`), and a fair run
  ends with every thread stopped if and only if no transfer is ever stuck with itself (`Fairness.FairRunsEnd`).
  Scripts without such transfers are always carried out (`Fairness.FairRunsFinish`).
- A lost packet is made good by sending the last acknowledgement again, and a session goes on after a timeout:
  false, because `select` clears a descriptor set that is armed once, before the loops, so nothing is read
  after the first timeout. A session that meets a timeout is aborted whatever comes next
  (`WriteSession.TimeoutDooms`); when all packets of a file short enough arrive in order, the transfer
  completes if and only if no wait on the way was in vain, however large the limit (`Delivery.SilenceIsFatal`).
- The server resends as often as its command line says: false from 32768 on, because the argument goes through a
  signed 16-bit integer and a negative limit is exceeded at once. It holds if and only if the argument fits
  (`WriteSession.LimitAsAsked`).
- Every account is freed at the end: false when an id is opened again and closed again, because the closed map
  keeps its first entry. It holds if and only if no id was closed twice (`Teardown.FreesAllIff`).
- A file is created under the name asked for: false after a longer name, because the name is copied without
  its terminating zero (`FileServer.StaleName`). It holds if and only if no longer name was asked for before
  (`FileServer.NamesAreRight`).
- Other senders do not matter to the served client: false when the client sends a datagram shorter than a
  header (`Delivery.ShortDatagramSeesOthers`). A datagram means the same whatever is left in the buffer if and
  only if it has a header (`Delivery.HeaderDecides`), and then other senders are erased without a trace
  (`Delivery.ForeignErased`).
- Files of any size can be sent: false from 65535 * 512 bytes on, because the block number has 16 bits and is
  compared as an `int`. A perfect line completes if and only if the file is shorter (`Delivery.PerfectLine`).

## Model

| member | source | states |
|---|---|---|
| RwLock.MoveKeepsInv | HW4/account.cpp:40-68 | every step of every thread, for any number of threads, keeps: the counter is exact and guarded, writers are alone, and the write mutex is taken exactly when somebody claims it |
| RwLock.Exclusion | HW4/account.cpp:40-68 | a writer overlaps neither a reader nor another writer |
| RwLock.Quiet | HW4/account.cpp:40-68 | outside the entry and exit windows the counter is the number of readers inside, and the write mutex is taken if and only if somebody reads or writes |
| RwLock.EntryWaitsForWriter | HW4/account.cpp:52-55 | a reader that waits in its entry for the write mutex waits for a writer, and no reader is inside |
| Accounts.ReadersShare | HW4/account.cpp:48-57 | beside a reader a newcomer gets in by its own steps as soon as the counter is free |
| Locking.NextKeepsLocks | HW4/atm.cpp:23-43 | every step of the whole program keeps the protocol of every lock, with both copies of the list's lock running on the same counter and mutexes |
| Consequences.LocksAreCorrect | HW4/bank.cpp:103-134 | in every reachable state the list's lock and every account's lock are in order, and the transfer and log locks have at most one owner |
| Consequences.WritersAreAlone | HW4/bank.cpp:103-134 | no thread writes the list or an account while another reads or writes it |
| Consequences.AccessesAreLocked | HW4/atm.cpp:45-429 | at every statement on accounts a balance check and the print share their accounts and all else has them alone, a transfer has two of them and the transfer lock, and openings, closings and prints have the list alone |
| Steps.DoKeepsBelief | HW4/atm.cpp:45-429 | each data statement of each operation establishes what its thread relies on at the next one |
| Local.LicensedIsRelied | HW4/atm.cpp:80-134 | an effect made under the lock that covers it leaves every other thread what it relies on |
| Books.AppendSettles | HW4/atm.cpp:105-107 | the line a thread appends is what the sequential bank answers then, and settles all that the thread owes the log |
| Serial.StepKeepsMain | HW4/atm.cpp:45-429 | every step of every thread keeps the real state tied to the replayed log |
| Linearization.LogLinearizes | HW4/atm.cpp:45-429 | in every reachable state the log, replayed in order on the sequential bank, gives exactly its own verdicts and balances; each ATM's lines are its commands in order; and the real state with unlogged effects undone is the replayed one |
| Linearization.FinalState | HW4/bank.cpp:210-218 | when all ATMs have stopped, their whole scripts are in the log and, between fee rounds, the accounts and the bank balance are those of the sequential bank |
| Consequences.PrintsAreSnapshots | HW4/bank.cpp:28-48 | every status print shows exactly the accounts, balances and total of the sequential bank after the lines logged so far, with only whole fee rounds among them |
| Consequences.RoundsAreFair | HW4/bank.cpp:55-72 | a fee round charges each account open at its start once, at one rate, and nobody else, and the log holds exactly these charges (`Draws.RatesAreDrawn` says which rate) |
| Draws.RatesAreDrawn | HW4/bank.cpp:52-55 | in any run the rates of the finished rounds and of the one under way are, in order, the rates drawn at the collector's starts |
| Draws.RoundHasItsRate | HW4/bank.cpp:52-55 | the k-th finished round has the rate drawn at the k-th start, and at most one start more has been made |
| Draws.AnyRateIsCharged | HW4/bank.cpp:52-72 | from every reachable state where the collector is about to start, each rate from 1 to 5 leads on some path to a finished round at that rate |
| Draws.ChargeIsPercentage | HW4/bank.cpp:61-66 | each account that a finished round has noted was charged, in the log, that percentage of the balance noted, rounded to the nearest coin and away from zero in the middle |
| Draws.PrintsAreTaken | HW4/bank.cpp:29-48 | in any run the prints taken are those begun, but for one under way |
| Consequences.KeysStandStill | HW4/bank.cpp:57-72 | during a sweep the set of open accounts does not change, and those up to the iterator are those visited |
| Consequences.MoneyIsConserved | HW4/atm.cpp:366-367 | at every instant the open balances and the bank balance are what the log brought in and paid out plus the exactly stated amount in flight |
| SequentialBank.ReplayWorth | HW4/bank.cpp:61-64 | replaying a faithful log, transfers and fees only move money: the worth of the bank is openings plus deposits less withdrawals and closings |
| Passbooks.BooksAreKept | HW4/account.cpp:4-38 | after a faithful log the bank has exactly the accounts opened and not closed since, with the password of the last opening, and with its amount and all entries since as balance |
| Passbooks.AnswersFollow | HW4/atm.cpp:45-429 | in a faithful log a command is carried out if and only if its id is free or its accounts are open, its password is that of the opening and the balance covers it; a refusal gives the reason that holds; and the balances reported are those of the books |
| Passbooks.FeesFollow | HW4/bank.cpp:61-66 | a fee is charged on an open account and is the nearest integer to the percentage of its book's balance |
| Passbooks.OpeningMeans | HW4/atm.cpp:52-55 | a new account answers to its password and to no other, from its opening amount on, and other accounts answer as before |
| Passbooks.ClosingMeans | HW4/atm.cpp:226-230 | a closed account is gone, its id is free, and other accounts answer as before |
| Consequences.AnswersFollowBooks | HW4/atm.cpp:45-429 | in every reachable state every answer in the log follows from the books before it |
| Consequences.AccountsFollowBooks | HW4/bank.cpp:210-218 | when the ATMs have stopped, between fee rounds, the open accounts have the passwords and balances of their books |
| Solvency.NeverNegative | HW4/account.cpp:26-38 | with nonnegative openings and amounts no account object (open, closed, or not in a map yet or any more) and no bank balance is negative in any reachable state |
| SequentialBank.ReplaySolvent | HW4/account.cpp:26-38 | the same for the sequential bank and any faithful log |
| Consequences.LookupsFindLive | HW4/atm.cpp:49-101 | a lookup under the list's lock never meets an account marked deleted, neither in `create_account` nor in the operations on an account |
| Consequences.InsertFindsRoom | HW4/atm.cpp:51-55 | an account is inserted only under a free key |
| Consequences.KeysAreIds | HW4/atm.cpp:55 | each key of the account map is the id of its account |
| Consequences.TeardownIsSafe | HW4/bank.cpp:77-91 | once the ATMs have stopped the two maps share no account object and hold none twice |
| Archive.ClosedIsFiled | HW4/atm.cpp:228-230 | in every reachable state each id with a closing in the log is in the closed map, as the account of its first closing: its id, password, balance then, marked, and not in the open map |
| Archive.ClosedMapIsExact | HW4/atm.cpp:228 | when the ATMs have stopped, the closed map has exactly the ids with a closing in the log |
| Archive.EntriesStay | HW4/atm.cpp:228 | on every path an entry of the closed map never changes |
| Teardown.FreesAllIff | HW4/bank.cpp:77-91 | at the end the two maps hold as many accounts as were ever made if and only if no id was closed twice; each further closing of an id loses one |
| Consequences.RoundGain | HW4/bank.cpp:55-64 | a finished fee round at rate r over n accounts holding S gains G with abs(100 G - r S) at most 50 n, and at most S |
| Sweeps.GainBound | HW4/bank.cpp:61-64 | the rounding bound for any list of charged balances |
| SequentialBank.FeeBounds | HW4/bank.cpp:61-62 | one fee lies between 0 and the balance and is within half a coin of the exact percentage |
| Waiting.NoDeadlock | HW4/atm.cpp:326-361 | if a thread is under way and not at the gate, and no thread transfers from an account to itself, some thread under way can step |
| Waiting.OnlySelfTransfersBlock | HW4/atm.cpp:326-361 | in every reachable state with a thread under way and not at the gate, some thread under way can step or a transfer from an account to itself is stuck |
| Waiting.SecondSeizerMoves | HW4/atm.cpp:360-361 | a transfer that waits for its second account has somebody else who can step: only the owner of the transfer lock waits while it has an account |
| Waiting.SameAccountIffSelf | HW4/atm.cpp:360-361 | at its second lock a transfer has one account object if and only if it names one id twice |
| Waiting.SelfTransferStuck | HW4/atm.cpp:360-361 | a transfer that has its only account never gets past its second lock, in any continuation |
| Gate.FlagMeansWriter | HW4/atm.cpp:46-75 | `accounts_print` is set only while a thread that opens, closes or prints is about |
| Gate.WishStands | HW4/atm.cpp:46-75 | from a writer's announcement on it is set, as long as nobody takes an announcement back |
| Gate.AtMostOneOvertakes | HW4/atm.cpp:82-86 | while the flag is set and the gate is not given back, of the ATMs outside at most one gets to the list |
| Gate.NoneOvertakes | HW4/atm.cpp:82-86 | ... and none when the gate is shut |
| Gate.NobodyDelayed | HW4/atm.cpp:82-86 | while no writer is about, nobody comes to wait at the gate |
| SelfTransfer.SelfTransferDeadlocks | HW4/atm.cpp:326-361 | opening account 1 and transferring from 1 to 1 reaches a state from which that ATM never ends |
| Completion.EverythingCanFinish | HW4/bank.cpp:210-230 | from every reachable state of scripts without self-transfers some schedule stops all threads, with all scripts logged and the accounts as the sequential bank has them |
| Completion.SecondLockIff | HW4/atm.cpp:360-361 | in every reachable state a transfer at its second lock gets past it on some path if and only if its two ids differ, whatever the scripts |
| Fairness.FairRunsEnd | HW4/bank.cpp:210-230 | a run in which no thread that could step again and again is left out, and `progress` is cleared after the ATMs are joined, comes to a state with every thread stopped if and only if no transfer is ever stuck with itself |
| Fairness.FairRunsFinish | HW4/bank.cpp:210-230 | in every fair run of scripts without self-transfers all threads stop, with all scripts logged and the accounts as the sequential bank has them |
| Fairness.AtmsRest | HW4/atm.cpp:431-480 | in any run, fair or not, all ATMs together take finitely many steps |
| Fairness.FairRunsExist | HW4/bank.cpp:210-230 | from every initial state of such scripts there is a fair run |
| Rounding.FeeIsRounded | HW4/bank.cpp:61-62 | the fraction rounded half away from zero is the integer fee, for balances of either sign |
| Accounts.EnteredInSteps | HW4/account.cpp:48-57 | an undisturbed call of the reader entry is the five steps of the protocol, and gets through if and only if the counter is free and a first reader finds no writer |
| Accounts.LeftInSteps | HW4/account.cpp:59-68 | the same for the reader exit |
| Accounts.Account.Deposit | HW4/account.cpp:26-29 | adds the amount |
| Accounts.Account.Withdrawl | HW4/account.cpp:31-38 | takes the amount if and only if the balance covers it |
| Accounts.Account.LockForReaders | HW4/account.cpp:48-57 | the counter goes up and the first reader takes the write mutex |
| Accounts.Account.UnlockFromRead | HW4/account.cpp:59-68 | the counter goes down and the last reader gives the write mutex back |
| Accounts.Account.LockForWrite | HW4/account.cpp:40-42 | is the protocol's step from outside to writing |
| Accounts.Account.UnlockFromWrite | HW4/account.cpp:44-46 | is the protocol's step back |
| Banks.CarriesOn | HW4/atm.cpp:45-429 | calls that do what the sequential bank does keep the log a replay of the bank |
| Banks.Atm.CreateAccount | HW4/atm.cpp:45-78 | under a free id a new account with this id, password and balance; under a taken id nothing but the refusal in the log; as the sequential bank does |
| Banks.Atm.DepositToAccount | HW4/atm.cpp:80-134 | deposits or refuses as the sequential bank does, and logs its answer |
| Banks.Atm.WithdrawlFromAccount | HW4/atm.cpp:136-201 | withdraws or refuses as the sequential bank does, and logs its answer |
| Banks.Atm.ClosingAccount | HW4/atm.cpp:203-269 | closes or refuses as the sequential bank does: with its password the account goes, marked and with its balance, and the closed map keeps the first account closed under an id |
| Banks.Atm.BalanceCheck | HW4/atm.cpp:271-324 | reports the balance or refuses as the sequential bank does |
| Banks.Atm.TransferBetweenAccounts | HW4/atm.cpp:326-429 | transfers or refuses as the sequential bank does, for two different ids or for an id that is not open |
| Banks.Bank.FeeRound | HW4/bank.cpp:57-72 | charges every open account its fee once, in the order of the ids, into the bank balance and the log, which stays a replay; the rows charged are exactly the accounts and balances of the ledger it began with |
| Banks.RoundBound | HW4/bank.cpp:55-72 | a round over balances of sum S at rate r gains within 50 n hundredths of r S and leaves no account negative |
| Banks.Bank.AccountsStatusPrint | HW4/bank.cpp:31-44 | shows every account once, in order, with the bank's own money, and changes nothing |
| Banks.Bank.FreeAccounts | HW4/bank.cpp:77-91 | frees every account of both maps, as many times as there are objects |
| WriteSession.SessionBound | HW5/server.cpp:59-106 | besides foreign datagrams, a session that accepts n blocks waits at most n + limit + 1 times in `select` (n + 1 for a negative limit), exactly n times if it completes, and n is at most 65535 |
| WriteSession.SessionEnds | HW5/server.cpp:54-137 | every session with finitely many foreign datagrams ends, within 65536 events of its own |
| WriteSession.TimeoutDooms | HW5/server.cpp:49-81 | a session under way that meets a timeout sends its last acknowledgement exactly `limit` times more (not at all for a negative limit), one error and nothing else, deletes the file and waits `limit` + 1 times in all, whatever comes next |
| WriteSession.LimitAsAsked | HW5/ttftps.cpp:12 | such a session resends as often as the command line says if and only if the argument is at most 32767 |
| WriteSession.CompletedWithoutTimeout | HW5/server.cpp:49-81 | a completed session took no timeout |
| Delivery.BoundIsReached | HW5/server.cpp:71-80 | a client that sends n full blocks and falls silent makes the session wait, and acknowledge, exactly n + limit + 1 times, for every n up to 65535 and every limit |
| Delivery.Delivered | HW5/server.cpp:54-137 | whatever comes late, twice, out of order or not at all, a session that completes has stored the source of the client's blocks, multiples of 512 included |
| Delivery.FileSize | HW5/server.cpp:126-137 | all blocks of a completed session but the last are full |
| Delivery.CompletedIsSmall | HW5/server.cpp:109 | no completed file reaches 65535 blocks of 512 bytes |
| Delivery.PerfectLine | HW5/server.cpp:109-137 | an in-order client without loss completes if and only if its file is shorter than that, and then it is stored whole |
| Delivery.SilenceIsFatal | HW5/server.cpp:49-81 | when all packets of a file arrive in order, the transfer completes if and only if the file is shorter than 65535 blocks and no wait before its last packet was in vain |
| Delivery.ForeignErased | HW5/server.cpp:86-91 | deleting the datagrams of other senders changes neither outcome, nor file, nor what the client is sent, when the client's datagrams have headers |
| Delivery.HeaderDecides | HW5/server.cpp:56-102 | a datagram means the same whatever was left in the buffer if and only if it has a whole header |
| Delivery.ShortDatagramSeesOthers | HW5/server.cpp:86-109 | an empty datagram of the client is refused, or taken for block 1 after another sender's header |
| Delivery.InLockStep | HW5/server.cpp:124-134 | every acknowledgement carries the number of blocks written, every written block is acknowledged at once, all but the last are full, and the file is deleted if and only if the session is aborted |
| Delivery.AckDiscipline | HW5/server.cpp:71-80 | with the request's own, acknowledged numbers start at 0, never go back, rise by at most one, and there are at most n + limit + 1 of them (n + 1 for a negative limit) |
| Replies.ClientHears | HW5/server.cpp:54-137 | the client of a session hears acknowledgements 0, 1, ..., n of the request and its n blocks, then, if the session is broken off, the repeated acknowledgement and the error that the event calls for, and nothing else |
| Replies.StrangersHear | HW5/server.cpp:86-91 | anybody else hears one error for each datagram that the session takes from it |
| Replies.RefusedHears | HW5/ttftps.cpp:45-52 | who is turned away hears the reply and nobody else anything |
| Replies.EmptyAfterBlock | HW5/server.cpp:54-57 | the buffer is clear after each block: an empty datagram there is refused as a bad block |
| Chronicle.ServiceIsComplete | HW5/ttftps.cpp:34-67 | on any stream the turns answer, in order, all datagrams that no session takes, with silence between; each answer is the right one for the disk and the stored name at that moment, and a request for a free name is served |
| Chronicle.NoneForgotten | HW5/ttftps.cpp:34-67 | every datagram is taken by exactly one turn or its session |
| Chronicle.ServesOn | HW5/ttftps.cpp:34-67 | an idle server serves what comes next as if it came first, on the disk it has by then |
| Chronicle.SilenceChangesNothing | HW5/ttftps.cpp:40 | a silence at the top of the loop changes neither turns nor disk |
| FileServer.RequestIsRead | HW5/server.cpp:140-145 | two bytes of opcode, a name, a zero and whatever follows are read as that opcode and that name |
| FileServer.FilesAreSafe | HW5/ttftps.cpp:34-67 | files present before keep their contents, a completed session has stored its file under a free name, and nothing else is there but the file of a session under way |
| FileServer.IdleFiles | HW5/ttftps.cpp:50-66 | an idle server has exactly the files it began with and those of its completed sessions |
| FileServer.SessionsAnswer | HW5/ttftps.cpp:45-61 | every session answers a write request of its own client |
| FileServer.TransfersArrive | HW5/ttftps.cpp:55-61 | what a completed session of an honest client has stored is the client's source, and it is still there |
| FileServer.StoredFilesAreSmall | HW5/ttftps.cpp:55-61 | no stored file reaches 65535 blocks of 512 bytes |
| FileServer.NamesAreRight | HW5/server.cpp:140-145 | a file is created under the name asked for if and only if no longer name was asked for before |
| FileServer.StaleName | HW5/server.cpp:143 | after the name ab a request for c creates cb |
| Ttftps.Server.ReceivingDataMode | HW5/server.cpp:37-138 | the loops over socket, descriptor set, buffer and disk do what the session on the same events says: outcome, file, replies and events consumed |
| Ttftps.Server.AwaitPacket | HW5/server.cpp:59-106 | the inner loop stops at the client's datagram with the set still armed, after the first timeout with the file deleted, or when nothing comes |
| Ttftps.Server.Select | HW5/server.cpp:49-63 | an armed set hears the next event and stays armed if that is a datagram; an empty set hears nothing more |
| Ttftps.Server.Miss | HW5/server.cpp:71-81 | a timeout past the limit is an error packet and the end of the file, any other is the last acknowledgement again |
| Ttftps.Server.WaitInVain | HW5/server.cpp:59-81 | from the first timeout on the inner loop reads nothing, sends the last acknowledgement exactly `limit` times and gives up |
| Ttftps.Server.Accept | HW5/server.cpp:108-134 | a packet is refused with the file deleted, or stored and acknowledged, as the session decides |
| Ttftps.Server.Recvfrom | HW5/server.cpp:86 | the datagram, cut to the buffer, overwrites its start and leaves the rest |
| Ttftps.Server.WrqParser | HW5/server.cpp:140-145 | the opcode, and the new name copied over the old one without a terminating zero |
| Ttftps.Server.Round | HW5/ttftps.cpp:36-67 | one datagram at the top of the loop is answered as the service says |
| Ttftps.Server.Loop | HW5/ttftps.cpp:34-68 | the whole loop leaves the files, the stored name and the replies that the service on the same events says (`Chronicle` says what that service is) |

## Left out

- The smash shell of HW1: process and signal plumbing, whose job list would only add easy members.
- Text: the wording and formatting of log lines and of the status print, and the parsing of script files in `parser_file`; a log line is a value and a script a sequence of commands.
- Sleeps, thread creation, and the failure paths that exit the program.
- Who may unlock a mutex: a mutex is a flag that any thread may clear, as the last reader and the gate require.
- `create_lock` of the ATM, which is never used as a lock.
- Reads through the map iterator after the erase in `closing_account`: the account reference is kept from before.
- Machine integers and floating point: balances, amounts and fees are unbounded integers and the fee's fraction is exact; the rate of a fee round is any value from 1 to 5.
- The gate around the account list in the classes of `Banks`: it only makes threads wait, and calls there are undisturbed; `Machine` has it.
- NoneForgotten: not for a stream that ends in an `Undefined` session, of which the language does not say what it reads.
- FairRunsEnd: takes fairness as given: a thread that could step at infinitely many instants does step at infinitely many. POSIX mutexes do not promise it, and without it the printer can keep the others from the account list for ever.
- Banks.Atm.TransferBetweenAccounts: two equal ids only when no such account is open, because on one account the second lock never returns; `Completion.SecondLockIff` and `SelfTransfer` say what happens then.
- Sockets and `exit` in HW5: the stream is what the socket brings to a server that listens, with datagrams that come while it does not kept for later without limit; system-call failures end the program and are not modelled.
- Write sessions with a client datagram shorter than a header that the stale buffer completes to the expected packet: the length passed to `fwrite` wraps around and the session is `Undefined`.
- Request names that fill the buffer without a zero: the name ends with the buffer, where the source would read on; names that cannot be opened as files.

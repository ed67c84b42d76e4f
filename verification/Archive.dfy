/** The map of closed accounts: which accounts it holds, and as what. */
module Archive {
  import opened RwLock
  import opened SequentialBank
  import opened Machine
  import opened Control
  import opened Locking
  import opened Local
  import opened Books
  import opened Serial
  import opened Money
  import opened Linearization
  import opened Solvency
  import opened Passbooks

  // ---------- the first closing of an id ----------

  /** The first line that closes account `k`. */
  function FirstClosing(log: seq<Line>, k: int): (r: Option<nat>)
    ensures r.Some? ==> r.value < |log| && Closes(log[r.value], k) && forall i | 0 <= i < r.value :: !Closes(log[i], k)
    ensures r.None? ==> forall i | 0 <= i < |log| :: !Closes(log[i], k)
  {
    if log == [] then None
    else
      var before := FirstClosing(log[..|log| - 1], k);
      if before.Some? then before else if Closes(log[|log| - 1], k) then Some(|log| - 1) else None
  }

  lemma FirstClosingAppend(log: seq<Line>, line: Line, k: int)
    ensures FirstClosing(log + [line], k)
         == if FirstClosing(log, k).Some? then FirstClosing(log, k) else if Closes(line, k) then Some(|log|) else None
  {
    assert (log + [line])[..|log|] == log;
  }

  // ---------- what the map holds ----------

  /** The thread has filed its account, and not logged the closing yet. */
  predicate Filing(th: Thread) {
    && th.job.Cmd? && th.job.c.Close?
    && (th.pc == Do(Mark) || th.pc == Do(Erase) || ((th.pc == Lock(LogTake) || th.pc == Do(Append)) && th.v.res.Done?))
  }

  /** The thread has filed account `r` under `k`. */
  predicate Files(th: Thread, k: int, r: Ref) {
    Filing(th) && th.job.c.id == k && th.v.a == r
  }

  /** Account `k` is filed as this line closed it, off the map of open accounts. */
  predicate FiledAs(d: Data, k: int, line: Line)
    requires Closes(line, k)
  {
    && k in d.closed && d.closed[k] < |d.heap|
    && d.heap[d.closed[k]] == Account(k, line.cmd.pw, line.verdict.bal, true)
    && !OnMap(d, d.closed[k])
  }

  ghost predicate Filed(d: Data, threads: map<Tid, Thread>, k: int) {
    match FirstClosing(d.log, k)
    case Some(i) => FiledAs(d, k, d.log[i])
    case None => k in d.closed ==> exists t :: t in threads && Files(threads[t], k, d.closed[k])
  }

  ghost predicate ArchiveInv(s: State) {
    && (forall k :: Filed(s.d, s.threads, k))
    && (forall t | t in s.threads && Filing(s.threads[t]) :: s.threads[t].job.c.id in s.d.closed)
  }

  // ---------- one data step, seen from its own thread ----------

  /** How filing moves with a data step. */
  ghost predicate FilesOn(th: Thread, th': Thread, e: Effect) {
    && (e.PutClosed? <==> !Filing(th) && Filing(th'))
    && (Filing(th') ==> th'.job == th.job && th'.v.a == th.v.a)
    && (e.PutClosed? ==> e.r == th.v.a && e.id == th.job.c.id)
    && (Filing(th) && !Filing(th') ==> e.Log?)
    && (e.Log? ==> !Filing(th') && forall k :: Closes(e.line, k) <==> Filing(th) && k == th.job.c.id)
  }

  lemma DoFiles(d: Data, b: Ledger, tid: Tid, th: Thread, v': Locals, pc': PC)
    requires Shape(tid, th) && th.pc.Do? && Believes(d, b, th) && DataStep(d, th.pc.s, th.job, th.v) == (v', pc')
    requires th.pc.s.Retire? ==> At(d, th.v.a).id == th.job.c.id
    ensures FilesOn(th, th.(v := v', pc := pc'), EffectOf(d, tid, th.pc.s, th.job, th.v))
  {
  }

  lemma CallFiles(tid: Tid, th: Thread, h': Held)
    requires Shape(tid, th) && th.pc.Lock?
    ensures (var th' := th.(held := h', pc := PcAfter(th.pc.k, h', th.job, th.v.found));
             (Filing(th') <==> Filing(th)) && th'.job == th.job && th'.v == th.v)
  {
  }

  /** What a thread that files knows of its account. */
  lemma FilerKnows(d: Data, b: Ledger, tid: Tid, th: Thread, line: Line)
    requires Shape(tid, th) && Believes(d, b, th) && th.pc == Do(Append) && Filing(th)
    requires line == LineOf(d, tid, th.job, th.v)
    ensures th.held.list == Writing && th.v.a < |d.heap| && th.job.c.id !in d.open && Closes(line, th.job.c.id)
    ensures d.heap[th.v.a].id == th.job.c.id && d.heap[th.v.a].pw == line.cmd.pw
    ensures d.heap[th.v.a].bal == line.verdict.bal
  {
  }

  lemma FilerWrites(tid: Tid, th: Thread)
    requires Shape(tid, th) && (Filing(th) || th.pc == Do(Mark))
    ensures th.held.list == Writing
  {
  }

  // ---------- the map from step to step ----------

  /** What the effect of a data step may not do to accounts that are filed. */
  ghost predicate Spares(d: Data, e: Effect) {
    && (e.SetBal? ==> OnMap(d, e.r))
    && (e.PutOpen? ==> e.r < |d.heap| && !d.heap[e.r].deleted)
  }

  /** Who is filed stays so: nobody writes an account that is off the map of open ones. */
  lemma FiledStays(d: Data, e: Effect, k: int, line: Line)
    requires Closes(line, k) && FiledAs(d, k, line)
    requires Spares(d, e)
    ensures FiledAs(Apply(d, e), k, line)
  {
    var d' := Apply(d, e);
    forall j | j in d'.open ensures d'.open[j] != d.closed[k] {
      if j in d.open { assert OnMap(d, d.open[j]); }
    }
  }

  lemma TwoFilers(s: State, t: Tid, u: Tid)
    requires LocksInv(s) && t in s.threads && u in s.threads
    requires Filing(s.threads[t]) || s.threads[t].pc == Do(Mark)
    requires Filing(s.threads[u]) || s.threads[u].pc == Do(Mark)
    ensures t == u
  {
    assert Shape(t, s.threads[t]) && Shape(u, s.threads[u]);
    FilerWrites(t, s.threads[t]);
    FilerWrites(u, s.threads[u]);
    if t != u { ListExclusion(s, t, u); }
  }

  lemma FilerMarked(s: State, t: Tid)
    requires LocksInv(s) && HeapInv(s.d, s.threads) && t in s.threads && s.threads[t].pc == Do(Append)
    requires Filing(s.threads[t]) && s.threads[t].job.c.id in s.d.closed
    ensures At(s.d, s.d.closed[s.threads[t].job.c.id]).deleted
  {
    var k := s.threads[t].job.c.id;
    assert ClosedOk(s.d, s.threads, k);
    if !s.d.heap[s.d.closed[k]].deleted {
      var u :| u in s.threads && Marking(s.threads[u], s.d.closed[k]);
      TwoFilers(s, t, u);
    }
  }

  /** The line that closes an account is being appended, and there is no such line yet. */
  lemma FirstIsFiled(s: State, t: Tid)
    requires MainInv(s) && ArchiveInv(s) && t in s.threads && s.threads[t].pc == Do(Append) && Filing(s.threads[t])
    requires FirstClosing(s.d.log, s.threads[t].job.c.id).None?
    ensures (var k, line := s.threads[t].job.c.id, LineOf(s.d, t, s.threads[t].job, s.threads[t].v);
             Closes(line, k) && FiledAs(s.d, k, line))
  {
    var th, b := s.threads[t], Replay(s.d.log);
    var k, line := th.job.c.id, LineOf(s.d, t, th.job, th.v);
    assert Shape(t, th) && Believes(s.d, b, th);
    FilerKnows(s.d, b, t, th, line);
    FilerMarked(s, t);
    assert Filed(s.d, s.threads, k);
    var u :| u in s.threads && Files(s.threads[u], k, s.d.closed[k]);
    TwoFilers(s, t, u);
    HeapIds(s.d, s.threads);
  }

  lemma DoSpares(d: Data, b: Ledger, tid: Tid, th: Thread)
    requires Shape(tid, th) && th.pc.Do? && Believes(d, b, th) && RefsOk(d)
    requires forall k | k in d.open :: d.open[k] < |d.heap| && d.heap[d.open[k]].id == k
    ensures Spares(d, EffectOf(d, tid, th.pc.s, th.job, th.v))
  {
    WrittenIsOpen(d, b, tid, th);
    DoSound(d, b, tid, th);
  }

  lemma SoundlySpares(s: State, t: Tid)
    requires MainInv(s) && t in s.threads && s.threads[t].pc.Do?
    ensures Spares(s.d, EffectAt(s, t))
  {
    var th, b := s.threads[t], Replay(s.d.log);
    assert Shape(t, th) && Believes(s.d, b, th);
    HeapIds(s.d, s.threads);
    DoSpares(s.d, b, t, th);
  }

  lemma SoundlyFiles(s: State, t: Tid)
    requires MainInv(s) && t in s.threads && s.threads[t].pc.Do?
    ensures FilesOn(s.threads[t], AfterDo(s, t), EffectAt(s, t))
  {
    var th, b := s.threads[t], Replay(s.d.log);
    assert Shape(t, th) && Believes(s.d, b, th);
    HeapIds(s.d, s.threads);
    var (v', pc') := DataStep(s.d, th.pc.s, th.job, th.v);
    DoFiles(s.d, b, t, th, v', pc');
  }

  /** An id without a closing line. */
  lemma UnlistedKept(d: Data, threads: map<Tid, Thread>, t: Tid, th': Thread, e: Effect, k: int)
    requires t in threads && FilesOn(threads[t], th', e) && (e.Log? ==> !Closes(e.line, k))
    requires k in d.closed ==> exists u :: u in threads && Files(threads[u], k, d.closed[k])
    ensures (var d', threads' := Apply(d, e), threads[t := th'];
             k in d'.closed ==> exists u :: u in threads' && Files(threads'[u], k, d'.closed[k]))
  {
    var d', threads' := Apply(d, e), threads[t := th'];
    if k in d.closed {
      var u :| u in threads && Files(threads[u], k, d.closed[k]);
      assert u in threads' && Files(threads'[u], k, d'.closed[k]);
    } else if k in d'.closed {
      assert t in threads' && Files(threads'[t], k, d'.closed[k]);
    }
  }

  lemma LogAfter(d: Data, e: Effect, k: int)
    ensures FirstClosing(Apply(d, e).log, k)
         == if FirstClosing(d.log, k).Some? then FirstClosing(d.log, k)
            else if e.Log? && Closes(e.line, k) then Some(|d.log|) else None
    ensures d.log <= Apply(d, e).log
  {
    if e.Log? { FirstClosingAppend(d.log, e.line, k); }
  }

  /** If this effect logs the first closing of `k`, the account is filed as it says. */
  ghost predicate FilesFirst(d: Data, e: Effect, k: int) {
    e.Log? && Closes(e.line, k) && FirstClosing(d.log, k).None? ==> FiledAs(d, k, e.line)
  }

  lemma FiledKept(d: Data, threads: map<Tid, Thread>, t: Tid, th': Thread, e: Effect, k: int)
    requires t in threads && Filed(d, threads, k) && FilesOn(threads[t], th', e) && Spares(d, e)
    requires FilesFirst(d, e, k)
    ensures Filed(Apply(d, e), threads[t := th'], k)
  {
    LogAfter(d, e, k);
    if FirstClosing(d.log, k).Some? {
      FiledStays(d, e, k, d.log[FirstClosing(d.log, k).value]);
    } else if e.Log? && Closes(e.line, k) {
      FiledStays(d, e, k, e.line);
    } else {
      UnlistedKept(d, threads, t, th', e, k);
    }
  }

  lemma LogsFirst(s: State, t: Tid, k: int)
    requires MainInv(s) && ArchiveInv(s) && t in s.threads && s.threads[t].pc.Do?
    requires FilesOn(s.threads[t], AfterDo(s, t), EffectAt(s, t))
    ensures FilesFirst(s.d, EffectAt(s, t), k)
  {
    var e := EffectAt(s, t);
    if e.Log? && Closes(e.line, k) && FirstClosing(s.d.log, k).None? { FirstIsFiled(s, t); }
  }

  lemma AllFiledKept(d: Data, threads: map<Tid, Thread>, t: Tid, e: Effect, d': Data, threads': map<Tid, Thread>)
    requires t in threads && t in threads' && d' == Apply(d, e) && threads' == threads[t := threads'[t]]
    requires FilesOn(threads[t], threads'[t], e) && Spares(d, e)
    requires forall k :: Filed(d, threads, k)
    requires forall k :: FilesFirst(d, e, k)
    ensures forall k :: Filed(d', threads', k)
  {
    forall k ensures Filed(d', threads', k) {
      assert Filed(d, threads, k) && FilesFirst(d, e, k);
      FiledKept(d, threads, t, threads'[t], e, k);
    }
  }

  lemma FilersKept(d: Data, threads: map<Tid, Thread>, t: Tid, th': Thread, e: Effect)
    requires t in threads && FilesOn(threads[t], th', e)
    requires forall u | u in threads && Filing(threads[u]) :: threads[u].job.c.id in d.closed
    ensures (var threads' := threads[t := th'];
             forall u | u in threads' && Filing(threads'[u]) :: threads'[u].job.c.id in Apply(d, e).closed)
  {
  }

  lemma DoKeepsArchive(s: State, t: Tid, rate: int, s': State)
    requires MainInv(s) && ArchiveInv(s) && t in s.threads && s.threads[t].pc.Do? && Next(s, t, rate) == Some(s')
    ensures ArchiveInv(s')
  {
    NextIsDo(s, t, rate, s');
    SoundlyFiles(s, t);
    SoundlySpares(s, t);
    FilersKept(s.d, s.threads, t, AfterDo(s, t), EffectAt(s, t));
    forall k ensures FilesFirst(s.d, EffectAt(s, t), k) { LogsFirst(s, t, k); }
    AllFiledKept(s.d, s.threads, t, EffectAt(s, t), s'.d, s'.threads);
  }

  lemma QuietKeepsArchive(s: State, t: Tid, th': Thread, s': State)
    requires ArchiveInv(s) && t in s.threads && s'.threads == s.threads[t := th']
    requires s'.d == s.d.(wants := s'.d.wants, progress := s'.d.progress)
    requires Filing(th') <==> Filing(s.threads[t])
    requires Filing(th') ==> th'.job == s.threads[t].job && th'.v == s.threads[t].v
    ensures ArchiveInv(s')
  {
    forall k ensures Filed(s'.d, s'.threads, k) {
      assert Filed(s.d, s.threads, k);
      if FirstClosing(s.d.log, k).None? && k in s.d.closed {
        var u :| u in s.threads && Files(s.threads[u], k, s.d.closed[k]);
        assert u in s'.threads && Files(s'.threads[u], k, s.d.closed[k]);
      }
    }
  }

  lemma NextKeepsArchive(s: State, t: Tid, rate: int, s': State)
    requires MainInv(s) && ArchiveInv(s) && t in s.threads && Next(s, t, rate) == Some(s')
    ensures ArchiveInv(s')
  {
    var th := s.threads[t];
    assert Shape(t, th);
    match th.pc
    case Halted =>
    case Rest =>
      NextIsStart(s, t, rate, s');
      QuietKeepsArchive(s, t, Start(s.d, t, th, rate), s');
    case Lock(k) =>
      NextIsCall(s, t, rate, s');
      var h' :| s'.threads == s.threads[t := th.(held := h', pc := PcAfter(k, h', th.job, th.v.found))];
      CallFiles(t, th, h');
      QuietKeepsArchive(s, t, s'.threads[t], s');
    case Do(_) => DoKeepsArchive(s, t, rate, s');
  }

  lemma StepKeepsArchive(s: State, s': State)
    requires MainInv(s) && ArchiveInv(s) && Step(s, s')
    ensures ArchiveInv(s')
  {
    if StopStep(s, s') {
      QuietKeepsArchive(s, Collector, s.threads[Collector], s');
    } else {
      var t :| ThreadStep(s, t, s');
      var rate :| 1 <= rate <= MAX_FEE && Next(s, t, rate) == Some(s');
      NextKeepsArchive(s, t, rate, s');
    }
  }

  lemma {:induction false} RunArchives(run: seq<State>, i: nat)
    requires IsRun(run) && i < |run|
    ensures ArchiveInv(run[i])
  {
    if i > 0 {
      assert Step(run[i - 1], run[i - 1 + 1]);
      RunKeeps(run, i - 1);
      RunArchives(run, i - 1);
      StepKeepsArchive(run[i - 1], run[i]);
    }
  }

  lemma ReachableArchive(s: State)
    requires Reachable(s)
    ensures ArchiveInv(s)
  {
    var run :| IsRun(run) && run[|run| - 1] == s;
    RunArchives(run, |run| - 1);
  }

  // ---------- the results ----------

  /** In every reachable state an id with a closing line in the log is filed: with the password and the balance
      of its first closing, marked, and off the map of open accounts. */
  lemma ClosedIsFiled(s: State, k: int, i: nat)
    requires Reachable(s) && i < |s.d.log| && Closes(s.d.log[i], k)
    ensures k in s.d.closed && s.d.closed[k] < |s.d.heap|
    ensures exists j :: 0 <= j <= i && Closes(s.d.log[j], k) && (forall l | 0 <= l < j :: !Closes(s.d.log[l], k))
                        && s.d.heap[s.d.closed[k]]
                           == Account(k, s.d.log[j].cmd.pw, s.d.log[j].verdict.bal, true)
    ensures forall l | l in s.d.open :: s.d.open[l] != s.d.closed[k]
  {
    ReachableArchive(s);
    assert Filed(s.d, s.threads, k);
    var j := FirstClosing(s.d.log, k).value;
    assert Closes(s.d.log[j], k);
    forall l | l in s.d.open ensures s.d.open[l] != s.d.closed[k] { assert !OnMap(s.d, s.d.closed[k]); }
  }

  lemma FilersAreAtms(tid: Tid, th: Thread)
    requires Shape(tid, th) && Filing(th)
    ensures tid.Atm? && th.pc != Halted
  {
  }

  /** When the ATMs have stopped, the closed map holds exactly the ids with a closing line. */
  lemma ClosedMapIsExact(s: State, k: int)
    requires Reachable(s) && AtmsDone(s)
    ensures k in s.d.closed <==> exists i :: 0 <= i < |s.d.log| && Closes(s.d.log[i], k)
  {
    ReachableArchive(s);
    ReachableFull(s);
    assert Filed(s.d, s.threads, k);
    if k in s.d.closed && FirstClosing(s.d.log, k).None? {
      var t :| t in s.threads && Files(s.threads[t], k, s.d.closed[k]);
      assert Shape(t, s.threads[t]);
      FilersAreAtms(t, s.threads[t]);
    }
  }

  lemma EffectKeepsEntries(d: Data, e: Effect, k: int)
    requires k in d.closed
    ensures k in Apply(d, e).closed && Apply(d, e).closed[k] == d.closed[k]
  {
  }

  lemma StepKeepsEntries(s: State, s': State, k: int)
    requires Step(s, s') && k in s.d.closed
    ensures k in s'.d.closed && s'.d.closed[k] == s.d.closed[k]
  {
    if !StopStep(s, s') {
      var t :| ThreadStep(s, t, s');
      var rate :| 1 <= rate <= MAX_FEE && Next(s, t, rate) == Some(s');
      match s.threads[t].pc
      case Do(_) =>
        NextIsDo(s, t, rate, s');
        EffectKeepsEntries(s.d, EffectAt(s, t), k);
      case Rest => NextIsStart(s, t, rate, s');
      case Lock(_) => NextIsCall(s, t, rate, s');
      case Halted =>
    }
  }

  /** An entry of the closed map never changes: the first account closed under an id stays. */
  lemma {:induction false} EntriesStay(path: seq<State>, j: nat, k: int)
    requires IsPath(path) && j < |path| && k in path[0].d.closed
    ensures k in path[j].d.closed && path[j].d.closed[k] == path[0].d.closed[k]
  {
    if j > 0 {
      EntriesStay(path, j - 1, k);
      assert Step(path[j - 1], path[j - 1 + 1]);
      StepKeepsEntries(path[j - 1], path[j], k);
    }
  }
}

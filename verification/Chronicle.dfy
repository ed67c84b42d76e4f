/** Completeness of the service: every datagram is answered, in order, by exactly one turn or one session. */
module Chronicle {
  import opened WriteSession
  import opened FileServer

  predicate Silent(ev: seq<Event>, i: nat, j: nat) {
    i <= j <= |ev| && forall k | i <= k < j :: ev[k].Timeout?
  }

  /** Where the stream goes on after a turn that began with datagram `at`. */
  function EndOf(t: Turn, at: nat): nat {
    at + 1 + if t.Served? then t.session.used else 0
  }

  /** The new name stands before what the old one has beyond its length. */
  predicate Overwrites(before: Name, asked: Name, name: Name) {
    && asked <= name && |name| == (if |before| <= |asked| then |asked| else |before|)
    && forall i | |asked| <= i < |name| :: name[i] == before[i]
  }

  /** The turn is the right one for datagram `at` on the host `h`, and leaves the host `h'`. */
  predicate TurnAt(t: Turn, ev: seq<Event>, limit: int, at: nat, h: Host, h': Host) {
    && at < |ev| && ev[at].Datagram?
    && t.asked == RequestName(ev[at].bytes) && Overwrites(h.stored, t.asked, h'.stored)
    && if RequestOpcode(ev[at].bytes) != WRQ_OPCODE
       then t == Refused(ev[at].from, t.asked, Error(DATA_BEFORE_WRQ, UNKNOWN_USER)) && h'.files == h.files
       else if h'.stored in h.files
       then t == Refused(ev[at].from, t.asked, Error(FILE_EXISTS, EXISTS)) && h'.files == h.files
       else
         && t == Served(ev[at].from, t.asked, h'.stored, Run(ev[at + 1..], ev[at].from, limit, START))
         && h'.files == (if t.session.outcome == Aborted then h.files
                         else h.files[h'.stored := FileOf(t.session.trace)])
  }

  /** Where the server waits for turn `j`; turn 0 begins at `i` or later. */
  function WaitsFrom(turns: seq<Turn>, at: seq<nat>, i: nat, j: nat): nat
    requires j <= |turns| == |at|
  {
    if j == 0 then i else EndOf(turns[j - 1], at[j - 1])
  }

  predicate Finished(t: Turn) { t.Served? ==> Over(t.session) }

  /** Turn `j` answers datagram `at[j]` on the host `hosts[j]` and leaves `hosts[j + 1]`; since the turn before it
      there was only silence. */
  predicate Recorded(turns: seq<Turn>, ev: seq<Event>, i: nat, limit: int, at: seq<nat>, hosts: seq<Host>, j: nat)
    requires j < |turns| == |at| == |hosts| - 1
  {
    && TurnAt(turns[j], ev, limit, at[j], hosts[j], hosts[j + 1])
    && Silent(ev, WaitsFrom(turns, at, i, j), at[j])
    && (j < |at| - 1 ==> Finished(turns[j]))
  }

  /** The whole service from the host `h` on; after the last turn there is only silence if the server is idle. */
  ghost predicate Records(v: Service, ev: seq<Event>, i: nat, limit: int, h: Host, at: seq<nat>, hosts: seq<Host>) {
    && |at| == |v.turns| && |hosts| == |at| + 1 && hosts[0] == h && hosts[|at|] == v.host
    && (forall j: nat | j < |at| :: Recorded(v.turns, ev, i, limit, at, hosts, j))
    && if v.idle then (at != [] ==> Finished(v.turns[|at| - 1])) && Silent(ev, WaitsFrom(v.turns, at, i, |at|), |ev|)
       else HeldUp(v.turns, at, ev)
  }

  /** The last turn is a session that has not ended; it has used the whole stream, unless it is undefined. */
  predicate HeldUp(turns: seq<Turn>, at: seq<nat>, ev: seq<Event>)
    requires |at| == |turns|
  {
    && at != [] && !Finished(turns[|at| - 1])
    && EndOf(turns[|at| - 1], at[|at| - 1]) <= |ev|
    && (turns[|at| - 1].session.outcome == Waiting ==> EndOf(turns[|at| - 1], at[|at| - 1]) == |ev|)
  }

  // ---------- the service is complete ----------

  lemma RecordsNothing(ev: seq<Event>, i: nat, limit: int, h: Host)
    requires i == |ev|
    ensures Records(Service(h, [], true), ev, i, limit, h, [], [h])
  {
  }

  lemma RecordsSilence(v: Service, ev: seq<Event>, i: nat, limit: int, h: Host, at: seq<nat>, hosts: seq<Host>)
    requires i < |ev| && ev[i].Timeout? && Records(v, ev, i + 1, limit, h, at, hosts)
    ensures Records(v, ev, i, limit, h, at, hosts)
  {
    forall j: nat | j < |at| ensures Recorded(v.turns, ev, i, limit, at, hosts, j) {
      assert Recorded(v.turns, ev, i + 1, limit, at, hosts, j);
    }
  }

  lemma RecordedLater(t: Turn, turns: seq<Turn>, ev: seq<Event>, i: nat, limit: int, h: Host,
                      at: seq<nat>, hosts: seq<Host>, j: nat)
    requires j < |turns| == |at| == |hosts| - 1 && Recorded(turns, ev, EndOf(t, i), limit, at, hosts, j)
    ensures Recorded([t] + turns, ev, i, limit, [i] + at, [h] + hosts, j + 1)
  {
    assert WaitsFrom([t] + turns, [i] + at, i, j + 1) == WaitsFrom(turns, at, EndOf(t, i), j);
  }

  lemma RecordsTurn(t: Turn, rest: Service, ev: seq<Event>, i: nat, limit: int, h: Host, h': Host,
                    at: seq<nat>, hosts: seq<Host>)
    requires TurnAt(t, ev, limit, i, h, h') && Finished(t)
    requires Records(rest, ev, EndOf(t, i), limit, h', at, hosts)
    ensures Records(First(t, rest), ev, i, limit, h, [i] + at, [h] + hosts)
  {
    var v, at', hosts' := First(t, rest), [i] + at, [h] + hosts;
    forall j: nat | j < |at'| ensures Recorded(v.turns, ev, i, limit, at', hosts', j) {
      if j > 0 {
        assert Recorded(rest.turns, ev, EndOf(t, i), limit, at, hosts, j - 1);
        RecordedLater(t, rest.turns, ev, i, limit, h, at, hosts, j - 1);
      }
    }
    assert WaitsFrom(v.turns, at', i, |at'|) == WaitsFrom(rest.turns, at, EndOf(t, i), |at|);
  }

  lemma RecordsHeldUp(t: Turn, ev: seq<Event>, i: nat, limit: int, h: Host, h': Host)
    requires TurnAt(t, ev, limit, i, h, h') && t.Served? && !Over(t.session) && EndOf(t, i) <= |ev|
    requires t.session.outcome == Waiting ==> EndOf(t, i) == |ev|
    ensures Records(Service(h', [t], false), ev, i, limit, h, [i], [h, h'])
  {
  }

  lemma SessionUses(ev: seq<Event>, c: Addr, limit: int)
    ensures (var s := Run(ev, c, limit, START); s.used <= |ev| && (s.outcome == Waiting ==> s.used == |ev|))
  {
    SessionBoundFrom(ev, c, limit, START);
  }

  /** On any stream: every datagram that no session has taken is answered by a turn of its own, in order, and
      rightly; a request for a name that is free then is served; and silence at the top of the loop is passed
      over. */
  lemma {:induction false} ServiceIsComplete(ev: seq<Event>, i: nat, limit: int, h: Host)
    returns (at: seq<nat>, hosts: seq<Host>)
    requires i <= |ev|
    ensures Records(Serve(ev[i..], limit, h), ev, i, limit, h, at, hosts)
    decreases |ev| - i
  {
    if i == |ev| {
      at, hosts := [], [h];
      RecordsNothing(ev, i, limit, h);
    } else if ev[i].Timeout? {
      at, hosts := ServiceIsComplete(ev, i + 1, limit, h);
      RecordsSilence(Serve(ev[i + 1..], limit, h), ev, i, limit, h, at, hosts);
    } else {
      at, hosts := DatagramIsAnswered(ev, i, limit, h);
    }
  }

  lemma {:induction false} DatagramIsAnswered(ev: seq<Event>, i: nat, limit: int, h: Host)
    returns (at: seq<nat>, hosts: seq<Host>)
    requires i < |ev| && ev[i].Datagram?
    ensures Records(Serve(ev[i..], limit, h), ev, i, limit, h, at, hosts)
    decreases |ev| - i, 0
  {
    var from, bytes, rest := ev[i].from, ev[i].bytes, ev[i + 1..];
    assert ev[i..][0] == ev[i] && ev[i..][1..] == rest;
    var asked := RequestName(bytes);
    var name := Renamed(h.stored, asked);
    var refusal := Refusal(bytes, name, h.files);
    if refusal != [] {
      var t, h' := Refused(from, asked, refusal[0]), h.(stored := name);
      at, hosts := ServiceIsComplete(ev, i + 1, limit, h');
      RecordsTurn(t, Serve(rest, limit, h'), ev, i, limit, h, h', at, hosts);
      at, hosts := [i] + at, [h] + hosts;
    } else {
      var s := Run(rest, from, limit, START);
      var t, h' := Served(from, asked, name, s), Host(AfterSession(h.files, name, s), name);
      SessionUses(rest, from, limit);
      assert s.outcome == Aborted ==> AfterSession(h.files, name, s) == h.files;
      assert TurnAt(t, ev, limit, i, h, h');
      if Over(s) {
        assert rest[s.used..] == ev[EndOf(t, i)..];
        at, hosts := ServiceIsComplete(ev, EndOf(t, i), limit, h');
        RecordsTurn(t, Serve(rest[s.used..], limit, h'), ev, i, limit, h, h', at, hosts);
        at, hosts := [i] + at, [h] + hosts;
      } else {
        RecordsHeldUp(t, ev, i, limit, h, h');
        at, hosts := [i], [h, h'];
      }
    }
  }

  // ---------- nothing is forgotten, nothing is answered twice ----------

  /** Held up in a session of which the language does not say how it goes on. */
  predicate Undone(v: Service) {
    !v.idle && v.turns != [] && (var t := v.turns[|v.turns| - 1]; t.Served? && t.session.outcome == Undefined)
  }

  /** Turn `j` or its session takes event `k`. */
  predicate Takes(v: Service, at: seq<nat>, j: int, k: int)
    requires |at| == |v.turns|
  {
    0 <= j < |at| && at[j] <= k < EndOf(v.turns[j], at[j])
  }

  lemma {:induction false} TurnsRise(v: Service, ev: seq<Event>, i: nat, limit: int, h: Host,
                                     at: seq<nat>, hosts: seq<Host>, j: nat, l: nat)
    requires Records(v, ev, i, limit, h, at, hosts) && j < l < |at|
    ensures EndOf(v.turns[j], at[j]) <= at[l]
  {
    if j + 1 < l { TurnsRise(v, ev, i, limit, h, at, hosts, j, l - 1); }
    assert Recorded(v.turns, ev, i, limit, at, hosts, l);
    assert Recorded(v.turns, ev, i, limit, at, hosts, l - 1);
  }

  /** The first turn that ends after event `k` takes it, unless it is a silence of the idle server. */
  lemma {:induction false} TakenFrom(v: Service, ev: seq<Event>, limit: int, h: Host,
                                     at: seq<nat>, hosts: seq<Host>, j: nat, k: nat)
    requires Records(v, ev, 0, limit, h, at, hosts) && j <= |at| && k < |ev| && ev[k].Datagram?
    requires WaitsFrom(v.turns, at, 0, j) <= k
    requires !Undone(v)
    ensures exists l :: Takes(v, at, l, k)
    decreases |at| - j
  {
    if j < |at| {
      assert Recorded(v.turns, ev, 0, limit, at, hosts, j);
      if k < EndOf(v.turns[j], at[j]) {
        assert Takes(v, at, j, k);
      } else {
        TakenFrom(v, ev, limit, h, at, hosts, j + 1, k);
      }
    }
  }

  /** Every datagram is taken by exactly one turn: it is the request that the turn answers, or the turn's
      session has heard it. */
  lemma NoneForgotten(ev: seq<Event>, limit: int, h: Host, k: nat) returns (at: seq<nat>, hosts: seq<Host>, j: nat)
    requires k < |ev| && ev[k].Datagram?
    requires !Undone(Serve(ev, limit, h))
    ensures Records(Serve(ev, limit, h), ev, 0, limit, h, at, hosts)
    ensures Takes(Serve(ev, limit, h), at, j, k)
    ensures forall l | Takes(Serve(ev, limit, h), at, l, k) :: l == j
  {
    var v := Serve(ev, limit, h);
    assert ev[0..] == ev;
    at, hosts := ServiceIsComplete(ev, 0, limit, h);
    TakenFrom(v, ev, limit, h, at, hosts, 0, k);
    j :| Takes(v, at, j, k);
    forall l | Takes(v, at, l, k) ensures l == j {
      if l < j { TurnsRise(v, ev, 0, limit, h, at, hosts, l, j); }
      if j < l { TurnsRise(v, ev, 0, limit, h, at, hosts, j, l); }
    }
  }

  // ---------- the past does not depend on the future ----------

  /** A session that has ended is the same whatever comes after it. */
  lemma {:induction false} EndedStays(ev: seq<Event>, more: seq<Event>, c: Addr, limit: int, p: Point)
    requires Over(Run(ev, c, limit, p))
    ensures Run(ev + more, c, limit, p) == Run(ev, c, limit, p)
  {
    assert (ev + more)[1..] == ev[1..] + more;
    if ev[0].Datagram? && ev[0].from != c {
      EndedStays(ev[1..], more, c, limit, Disturbed(p, ev[0].bytes));
    } else if ev[0].Datagram? && |Received(ev[0].bytes)| >= PACKET_SIZE
              && BlockNumber(Overlay(p.h, ev[0].bytes)) == p.block + 1
              && Opcode(Overlay(p.h, ev[0].bytes)) == DATA_OPCODE {
      EndedStays(ev[1..], more, c, limit, Advanced(p));
    }
  }

  function After(turns: seq<Turn>, rest: Service): Service {
    rest.(turns := turns + rest.turns)
  }

  lemma AfterFirst(t: Turn, turns: seq<Turn>, rest: Service)
    ensures First(t, After(turns, rest)) == After([t] + turns, rest)
  {
    assert [t] + (turns + rest.turns) == [t] + turns + rest.turns;
  }

  /** An idle server serves what comes next as if it came first, on the host it has by then. */
  lemma {:induction false} ServesOn(ev: seq<Event>, more: seq<Event>, limit: int, h: Host)
    requires Serve(ev, limit, h).idle
    ensures (var v := Serve(ev, limit, h); Serve(ev + more, limit, h) == After(v.turns, Serve(more, limit, v.host)))
    decreases |ev|
  {
    var v := Serve(ev, limit, h);
    if ev == [] {
      assert ev + more == more;
      assert [] + Serve(more, limit, h).turns == Serve(more, limit, h).turns;
    } else {
      assert (ev + more)[1..] == ev[1..] + more;
      if ev[0].Timeout? { ServesOn(ev[1..], more, limit, h); } else { ServesOnAfter(ev, more, limit, h); }
    }
  }

  lemma {:induction false} ServesOnAfter(ev: seq<Event>, more: seq<Event>, limit: int, h: Host)
    requires ev != [] && ev[0].Datagram? && Serve(ev, limit, h).idle
    ensures (var v := Serve(ev, limit, h); Serve(ev + more, limit, h) == After(v.turns, Serve(more, limit, v.host)))
    decreases |ev|, 0
  {
    var from, bytes, tail := ev[0].from, ev[0].bytes, ev[1..];
    assert (ev + more)[0] == ev[0] && (ev + more)[1..] == tail + more;
    var asked := RequestName(bytes);
    var name := Renamed(h.stored, asked);
    var refusal := Refusal(bytes, name, h.files);
    var t, left, h';
    if refusal != [] {
      t, left, h' := Refused(from, asked, refusal[0]), tail, h.(stored := name);
    } else {
      var s := Run(tail, from, limit, START);
      UsedWithin(tail, from, limit);
      EndedStays(tail, more, from, limit, START);
      assert (tail + more)[s.used..] == tail[s.used..] + more;
      t, left, h' := Served(from, asked, name, s), tail[s.used..], Host(AfterSession(h.files, name, s), name);
    }
    ServesOn(left, more, limit, h');
    var rest := Serve(left, limit, h');
    AfterFirst(t, rest.turns, Serve(more, limit, rest.host));
  }

  /** A silence that an idle server meets changes nothing. */
  lemma SilenceChangesNothing(ev: seq<Event>, more: seq<Event>, limit: int, h: Host)
    requires Serve(ev, limit, h).idle
    ensures Serve(ev + [Timeout] + more, limit, h) == Serve(ev + more, limit, h)
  {
    assert ev + [Timeout] + more == ev + ([Timeout] + more);
    ServesOn(ev, [Timeout] + more, limit, h);
    ServesOn(ev, more, limit, h);
    assert ([Timeout] + more)[1..] == more;
  }
}

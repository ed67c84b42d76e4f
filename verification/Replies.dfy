/** Everything the server says: to the client it serves, to others meanwhile, and to those it turns away. */
module Replies {
  import opened WriteSession
  import opened FileServer

  // ---------- what parts of a trace say to one address ----------

  lemma BlockSays(data: seq<Byte>, c: Addr, n: int, rest: seq<Action>, a: Addr)
    ensures SentTo([Write(data), Send(c, Ack(n))] + rest, a) == (if a == c then [Ack(n)] else []) + SentTo(rest, a)
  {
    var trace := [Write(data), Send(c, Ack(n))] + rest;
    assert trace[1..] == [Send(c, Ack(n))] + rest;
    SentOnly(c, Ack(n), a, rest);
  }

  lemma LastSays(data: seq<Byte>, c: Addr, n: int, a: Addr)
    ensures SentTo([Write(data), Send(c, Ack(n))], a) == if a == c then [Ack(n)] else []
  {
    var good := [Write(data), Send(c, Ack(n))];
    assert good + [] == good;
    BlockSays(data, c, n, [], a);
  }

  lemma GiveUpSays(c: Addr, code: int, message: string, a: Addr)
    ensures SentTo(GiveUp(c, code, message).trace, a) == if a == c then [Error(code, message)] else []
  {
    assert [Send(c, Error(code, message))] + [Delete] == GiveUp(c, code, message).trace;
    SentOnly(c, Error(code, message), a, [Delete]);
    assert [Delete][1..] == [];
  }

  lemma {:induction false} ResendsSay(c: Addr, block: int, n: nat, rest: seq<Action>, a: Addr)
    ensures SentTo(Resends(c, block, n) + rest, a)
         == (if a == c then seq(n, _ => Ack(block)) else []) + SentTo(rest, a)
  {
    if n == 0 {
      assert Resends(c, block, 0) + rest == rest;
    } else {
      var more := Resends(c, block, n - 1) + rest;
      assert Resends(c, block, n) + rest == [Send(c, Ack(block))] + more;
      ResendsSay(c, block, n - 1, rest, a);
      SentOnly(c, Ack(block), a, more);
      assert seq(n, _ => Ack(block)) == [Ack(block)] + seq(n - 1, _ => Ack(block));
      Assoc([Ack(block)], seq(n - 1, _ => Ack(block)), SentTo(rest, a));
    }
  }

  /** What a client that has fallen silent is told. */
  function Farewell(limit: int, block: int): seq<Reply> {
    seq(if limit < 0 then 0 else limit, _ => Ack(block)) + [Error(REACHED_MAX_RESENDS, ABANDONED)]
  }

  lemma StallSays(c: Addr, limit: int, block: nat, a: Addr)
    ensures SentTo(Stall(c, limit, block).trace, a) == if a == c then Farewell(limit, block) else []
  {
    GiveUpSays(c, REACHED_MAX_RESENDS, ABANDONED, a);
    ResendsSay(c, block, Budget(limit) - 1, GiveUp(c, REACHED_MAX_RESENDS, ABANDONED).trace, a);
  }

  // ---------- to others ----------

  /** Datagrams of one sender. */
  function From(ev: seq<Event>, a: Addr): nat {
    if ev == [] then 0 else (if ev[0].Datagram? && ev[0].from == a then 1 else 0) + From(ev[1..], a)
  }

  lemma FromUsed(ev: seq<Event>, a: Addr, n: nat)
    requires 1 <= n <= |ev|
    ensures From(ev[..n], a) == (if ev[0].Datagram? && ev[0].from == a then 1 else 0) + From(ev[1..][..n - 1], a)
  {
    assert ev[..n][1..] == ev[1..][..n - 1];
  }

  function Unknown(n: nat): seq<Reply> { seq(n, _ => Error(DATA_BEFORE_WRQ, UNKNOWN_USER)) }

  /** An event that ends a session is not the word of a stranger. */
  predicate Ends(ev: seq<Event>, c: Addr, limit: int, p: Point) {
    && ev != [] && !Foreign(ev[0], c)
    && (ev[0].Datagram? && |Received(ev[0].bytes)| >= PACKET_SIZE ==>
          !(BlockNumber(Overlay(p.h, ev[0].bytes)) == p.block + 1 && Opcode(Overlay(p.h, ev[0].bytes)) == DATA_OPCODE))
  }

  lemma EndSaysNothingElse(ev: seq<Event>, c: Addr, limit: int, p: Point, a: Addr)
    requires Ends(ev, c, limit, p) && a != c
    ensures Run(ev, c, limit, p).used == 1 && SentTo(Run(ev, c, limit, p).trace, a) == []
  {
    match ev[0]
    case Timeout => StallSays(c, limit, p.block, a);
    case Datagram(_, bytes) =>
      if BlockNumber(Overlay(p.h, bytes)) != p.block + 1 {
        GiveUpSays(c, INVALID_BLOCK_NUM, BAD_BLOCK, a);
      } else if Opcode(Overlay(p.h, bytes)) != DATA_OPCODE {
        GiveUpSays(c, WRQ_FROM_SERVED_CLIENT, UNEXPECTED, a);
      } else if |bytes| >= HEADER_SIZE {
        LastSays(Payload(bytes), c, p.block + 1, a);
      }
  }

  lemma OneMoreUnknown(n: nat)
    ensures [Error(DATA_BEFORE_WRQ, UNKNOWN_USER)] + Unknown(n) == Unknown(n + 1)
  {
  }

  lemma UnknownFirst(rest: Session, ev: seq<Event>, a: Addr)
    requires ev != [] && ev[0].Datagram? && rest.used <= |ev| - 1
    requires SentTo(rest.trace, a) == Unknown(From(ev[1..][..rest.used], a))
    ensures SentTo([Send(ev[0].from, Error(DATA_BEFORE_WRQ, UNKNOWN_USER))] + rest.trace, a)
         == Unknown(From(ev[..rest.used + 1], a))
  {
    SentOnly(ev[0].from, Error(DATA_BEFORE_WRQ, UNKNOWN_USER), a, rest.trace);
    FromUsed(ev, a, rest.used + 1);
    OneMoreUnknown(From(ev[1..][..rest.used], a));
  }

  lemma {:induction false} StrangersHearFrom(ev: seq<Event>, c: Addr, limit: int, p: Point, a: Addr)
    requires a != c
    ensures Run(ev, c, limit, p).used <= |ev|
    ensures SentTo(Run(ev, c, limit, p).trace, a) == Unknown(From(ev[..Run(ev, c, limit, p).used], a))
  {
    if ev != [] {
      if Ends(ev, c, limit, p) {
        EndSaysNothingElse(ev, c, limit, p, a);
        FromUsed(ev, a, 1);
      } else if ev[0].from != c {
        var rest := Run(ev[1..], c, limit, Disturbed(p, ev[0].bytes));
        StrangersHearFrom(ev[1..], c, limit, Disturbed(p, ev[0].bytes), a);
        UnknownFirst(rest, ev, a);
      } else {
        var rest := Run(ev[1..], c, limit, Advanced(p));
        StrangersHearFrom(ev[1..], c, limit, Advanced(p), a);
        BlockSays(Payload(ev[0].bytes), c, p.block + 1, rest.trace, a);
        FromUsed(ev, a, rest.used + 1);
      }
    }
  }

  /** Anybody but the client gets exactly one error for each datagram the session takes from it. */
  lemma StrangersHear(ev: seq<Event>, c: Addr, limit: int, a: Addr)
    requires a != c
    ensures (var s := Run(ev, c, limit, START);
             s.used <= |ev| && SentTo(s.trace, a)
             == seq(From(ev[..s.used], a), _ => Error(DATA_BEFORE_WRQ, UNKNOWN_USER)))
  {
    StrangersHearFrom(ev, c, limit, START, a);
  }

  // ---------- to the client ----------

  /** What the client hears when an event breaks its session off after `block` blocks. */
  predicate Parting(replies: seq<Reply>, e: Event, c: Addr, limit: int, block: int) {
    match e
    case Timeout => replies == Farewell(limit, block)
    case Datagram(from, bytes) =>
      && from == c
      && if |bytes| < HEADER_SIZE
         then replies == [Error(INVALID_BLOCK_NUM, BAD_BLOCK)] || replies == [Error(WRQ_FROM_SERVED_CLIENT, UNEXPECTED)]
         else if BlockNumber(bytes[..HEADER_SIZE]) != block + 1
         then replies == [Error(INVALID_BLOCK_NUM, BAD_BLOCK)]
         else replies == [Error(WRQ_FROM_SERVED_CLIENT, UNEXPECTED)] && Opcode(bytes[..HEADER_SIZE]) != DATA_OPCODE
  }

  /** A session that is broken off ends with one error, and any other says nothing more. */
  predicate Ending(replies: seq<Reply>, s: Session, ev: seq<Event>, c: Addr, limit: int, block: int) {
    if s.outcome == Aborted then 1 <= s.used <= |ev| && Parting(replies, ev[s.used - 1], c, limit, block)
    else replies == []
  }

  lemma EndingLater(replies: seq<Reply>, rest: Session, ev: seq<Event>, c: Addr, limit: int, block: int,
                    actions: seq<Action>)
    requires ev != [] && Ending(replies, rest, ev[1..], c, limit, block)
    ensures Ending(replies, Before(actions, rest), ev, c, limit, block)
  {
    assert rest.outcome == Aborted ==> ev[1..][rest.used - 1] == ev[rest.used];
  }

  predicate Counts(heard: seq<Reply>, block: int, n: nat) {
    n <= |heard| && forall i | 0 <= i < n :: heard[i] == Ack(block + 1 + i)
  }

  /** The blocks after `block` are acknowledged one by one; a session that is broken off ends with one error,
      and any other says nothing more. */
  predicate Hears(heard: seq<Reply>, s: Session, ev: seq<Event>, c: Addr, limit: int, block: int) {
    var n := Accepted(s);
    Counts(heard, block, n) && Ending(heard[n..], s, ev, c, limit, block + n)
  }

  lemma HearsAtEnd(ev: seq<Event>, c: Addr, limit: int, p: Point)
    requires Ends(ev, c, limit, p)
    ensures (var s := Run(ev, c, limit, p); Hears(SentTo(s.trace, c), s, ev, c, limit, p.block))
  {
    match ev[0]
    case Timeout =>
      Stalled(c, limit, p.block);
      StallSays(c, limit, p.block, c);
    case Datagram(_, bytes) =>
      if BlockNumber(Overlay(p.h, bytes)) != p.block + 1 {
        GivenUp(c, INVALID_BLOCK_NUM, BAD_BLOCK);
      } else if Opcode(Overlay(p.h, bytes)) != DATA_OPCODE {
        GivenUp(c, WRQ_FROM_SERVED_CLIENT, UNEXPECTED);
      } else if |bytes| >= HEADER_SIZE {
        LastBlock(Payload(bytes), c, p.block + 1);
      }
  }

  lemma HearsAfterForeign(rest: Session, ev: seq<Event>, c: Addr, limit: int, block: nat)
    requires ev != [] && Foreign(ev[0], c) && Hears(SentTo(rest.trace, c), rest, ev[1..], c, limit, block)
    ensures (var s := Before([Send(ev[0].from, Error(DATA_BEFORE_WRQ, UNKNOWN_USER))], rest);
             Hears(SentTo(s.trace, c), s, ev, c, limit, block))
  {
    var answer := [Send(ev[0].from, Error(DATA_BEFORE_WRQ, UNKNOWN_USER))];
    SentOnly(ev[0].from, Error(DATA_BEFORE_WRQ, UNKNOWN_USER), c, rest.trace);
    EndingLater(SentTo(rest.trace, c)[Accepted(rest)..], rest, ev, c, limit, block + Accepted(rest), answer);
  }

  lemma CountsOn(heard: seq<Reply>, block: int, n: nat)
    requires Counts(heard, block + 1, n)
    ensures Counts([Ack(block + 1)] + heard, block, n + 1)
    ensures ([Ack(block + 1)] + heard)[n + 1..] == heard[n..]
  {
  }

  lemma HearsMore(heard: seq<Reply>, n: nat, rest: Session, ev: seq<Event>, c: Addr, limit: int, block: int,
                  actions: seq<Action>)
    requires ev != [] && Counts(heard, block + 1, n)
    requires Ending(heard[n..], rest, ev[1..], c, limit, block + 1 + n)
    ensures (var more := [Ack(block + 1)] + heard;
             Counts(more, block, n + 1)
             && Ending(more[n + 1..], Before(actions, rest), ev, c, limit, block + (n + 1)))
  {
    CountsOn(heard, block, n);
    EndingLater(heard[n..], rest, ev, c, limit, block + 1 + n, actions);
  }

  lemma HearsAfterBlock(s: Session, rest: Session, ev: seq<Event>, c: Addr, limit: int, block: nat,
                        heard: seq<Reply>, actions: seq<Action>)
    requires ev != [] && Hears(heard, rest, ev[1..], c, limit, block + 1)
    requires s == Before(actions, rest) && Accepted(s) == Accepted(rest) + 1
    ensures Hears([Ack(block + 1)] + heard, s, ev, c, limit, block)
  {
    HearsMore(heard, Accepted(rest), rest, ev, c, limit, block, actions);
  }

  lemma HearsBlock(s: Session, rest: Session, ev: seq<Event>, c: Addr, limit: int, block: nat, data: seq<Byte>)
    requires ev != [] && s == Before([Write(data), Send(c, Ack(block + 1))], rest)
    requires Hears(SentTo(rest.trace, c), rest, ev[1..], c, limit, block + 1)
    ensures Hears(SentTo(s.trace, c), s, ev, c, limit, block)
  {
    var heard := SentTo(rest.trace, c);
    TakenBlock(data, c, block + 1, rest.trace);
    AcceptedOneMore(data, c, block + 1, rest);
    HearsAfterBlock(s, rest, ev, c, limit, block, heard, [Write(data), Send(c, Ack(block + 1))]);
  }

  lemma {:induction false} ClientHearsFrom(ev: seq<Event>, c: Addr, limit: int, p: Point)
    ensures (var s := Run(ev, c, limit, p); Hears(SentTo(s.trace, c), s, ev, c, limit, p.block))
  {
    if ev != [] {
      if Ends(ev, c, limit, p) {
        HearsAtEnd(ev, c, limit, p);
      } else if ev[0].from != c {
        ClientHearsFrom(ev[1..], c, limit, Disturbed(p, ev[0].bytes));
        HearsAfterForeign(Run(ev[1..], c, limit, Disturbed(p, ev[0].bytes)), ev, c, limit, p.block);
      } else {
        var rest := Run(ev[1..], c, limit, Advanced(p));
        ClientHearsFrom(ev[1..], c, limit, Advanced(p));
        HearsBlock(Run(ev, c, limit, p), rest, ev, c, limit, p.block, Payload(ev[0].bytes));
      }
    }
  }

  // ---------- the whole server ----------

  lemma TurnSays(t: Turn, a: Addr)
    requires t.Served?
    ensures SentTo(TraceOf([t]), a) == (if a == t.client then [Ack(0)] else []) + SentTo(t.session.trace, a)
  {
    assert [t][1..] == [];
    assert TraceOf([t]) == [Send(t.client, Ack(0))] + t.session.trace;
    SentOnly(t.client, Ack(0), a, t.session.trace);
  }

  /** What a session's client hears from its request on: the acknowledgements 0, 1, ..., n of the request and of
      the n blocks, and then the right farewell if the session is broken off, and nothing more otherwise. */
  lemma ClientHears(t: Turn, ev: seq<Event>, limit: int)
    requires t.Served? && t.session == Run(ev, t.client, limit, START)
    ensures (var heard := SentTo(TraceOf([t]), t.client);
             heard != [] && heard[0] == Ack(0) && Hears(heard[1..], t.session, ev, t.client, limit, 0))
  {
    TurnSays(t, t.client);
    ClientHearsFrom(ev, t.client, limit, START);
    assert ([Ack(0)] + SentTo(t.session.trace, t.client))[1..] == SentTo(t.session.trace, t.client);
  }

  /** Who is turned away gets the reply, and nobody else gets anything. */
  lemma RefusedHears(t: Turn, a: Addr)
    requires t.Refused?
    ensures SentTo(TraceOf([t]), a) == if a == t.to then [t.reply] else []
  {
    assert [t][1..] == [];
    assert TraceOf([t]) == [Send(t.to, t.reply)] + [];
    SentOnly(t.to, t.reply, a, []);
  }

  // ---------- the buffer between blocks ----------

  /** Right after a block, or after the request, the buffer is clear: an empty datagram of the client has block
      number 0 and breaks the session off. */
  lemma {:induction false} EmptyAfterBlock(ev: seq<Event>, c: Addr, limit: int, p: Point)
    requires Run(ev, c, limit, p).outcome == Waiting
    requires if ev == [] then p.h == CLEARED else !Foreign(ev[|ev| - 1], c)
    ensures (var s, whole := Run(ev, c, limit, p), Run(ev + [Datagram(c, [])], c, limit, p);
             && whole.outcome == Aborted && whole.used == |ev| + 1
             && whole.trace == s.trace + [Send(c, Error(INVALID_BLOCK_NUM, BAD_BLOCK)), Delete])
  {
    var short := Datagram(c, []);
    if ev == [] {
      assert ev + [short] == [short];
      assert Overlay(p.h, []) == CLEARED && BlockNumber(CLEARED) == 0;
    } else {
      assert (ev + [short])[0] == ev[0] && (ev + [short])[1..] == ev[1..] + [short];
      if ev[0].from != c {
        EmptyAfterBlock(ev[1..], c, limit, Disturbed(p, ev[0].bytes));
      } else {
        EmptyAfterBlock(ev[1..], c, limit, Advanced(p));
      }
    }
  }
}

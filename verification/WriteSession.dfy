/** The write receiver of the TFTP server: what one session does with anything the socket brings.

    The server acknowledges blocks in lock step (section 2 of RFC 1350), takes a block shorter than 512
    bytes as the last (section 6) and gives up by an error packet (section 7).  It arms its descriptor set
    once for the whole session, and `select` clears the set when it times out: after one timeout the session
    no longer hears the socket. */
module WriteSession {

  type Byte = b: int | 0 <= b < 256

  datatype Addr = Addr(ip: int, port: int)

  /** What the socket brings to a server that listens: a datagram from anybody, or silence for as long as
      `select` waits. */
  datatype Event = Timeout | Datagram(from: Addr, bytes: seq<Byte>)

  const DATA_SIZE := 512
  const PACKET_SIZE := 516
  const HEADER_SIZE := PACKET_SIZE - DATA_SIZE

  const WRQ_OPCODE := 2
  const DATA_OPCODE := 3

  const INVALID_BLOCK_NUM := 0
  const REACHED_MAX_RESENDS := 0
  const WRQ_FROM_SERVED_CLIENT := 4
  const FILE_EXISTS := 6
  const DATA_BEFORE_WRQ := 7

  const ABANDONED := "Abandoning file transmission"
  const UNKNOWN_USER := "Unknown user"
  const BAD_BLOCK := "Bad block number"
  const UNEXPECTED := "Unexpected packet"
  const EXISTS := "File already exists"

  datatype Reply = Ack(block: int) | Error(code: int, message: string)

  /** What the server does, in order. */
  datatype Action = Write(data: seq<Byte>) | Send(to: Addr, reply: Reply) | Delete

  /** How a session stands when the stream is used up.  `Undefined`: the client's datagram was too short to
      have a header, the buffer completed it to the expected one, and the length passed to `fwrite` wraps
      around; what the program then does the language does not say. */
  datatype Outcome = Completed | Aborted | Waiting | Undefined

  /** A session: its outcome, what it did, how many events it took, and how often it waited in `select`. */
  datatype Session = Session(outcome: Outcome, trace: seq<Action>, used: nat, waits: nat)

  // ---------- packets ----------

  /** A 16-bit field in network byte order. */
  function U16(hi: Byte, lo: Byte): int { hi * 256 + lo }

  /** A packet buffer holds 516 bytes; the rest of a datagram is lost. */
  function Received(bytes: seq<Byte>): seq<Byte> {
    if |bytes| <= PACKET_SIZE then bytes else bytes[..PACKET_SIZE]
  }

  /** The first four bytes of the packet buffer: opcode and block number. */
  type Header = h: seq<Byte> | |h| == HEADER_SIZE witness [0, 0, 0, 0]

  const CLEARED: Header := [0, 0, 0, 0]

  /** `recvfrom` overwrites the start of the buffer and leaves the rest as it was. */
  function Overlay(h: Header, bytes: seq<Byte>): Header {
    if |bytes| >= HEADER_SIZE then bytes[..HEADER_SIZE] else bytes + h[|bytes|..]
  }

  function Opcode(h: Header): int { U16(h[0], h[1]) }

  function BlockNumber(h: Header): int { U16(h[2], h[3]) }

  function Payload(bytes: seq<Byte>): seq<Byte>
    requires |bytes| >= HEADER_SIZE
  {
    Received(bytes)[HEADER_SIZE..]
  }

  // ---------- a session ----------

  function Before(actions: seq<Action>, rest: Session): Session {
    Session(rest.outcome, actions + rest.trace, rest.used + 1, rest.waits + 1)
  }

  function GiveUp(c: Addr, code: int, message: string): Session {
    Session(Aborted, [Send(c, Error(code, message)), Delete], 1, 1)
  }

  /** How often a session waits in vain before it gives up. */
  function Budget(limit: int): nat { if limit < 0 then 1 else limit + 1 }

  function Resends(c: Addr, block: int, n: nat): seq<Action> { seq(n, _ => Send(c, Ack(block))) }

  /** The end of a session from its first timeout on.  The descriptor set is empty now, so `select` times out
      again and again; whatever arrives meanwhile stays in the socket. */
  function Stall(c: Addr, limit: int, block: nat): Session {
    Session(Aborted, Resends(c, block, Budget(limit) - 1) + GiveUp(c, REACHED_MAX_RESENDS, ABANDONED).trace,
            1, Budget(limit))
  }

  /** Where a session stands: blocks accepted, and the header left in the buffer. */
  datatype Point = Point(block: nat, h: Header)

  const START := Point(0, CLEARED)

  /** The buffer is cleared only between blocks: datagrams of others leave their bytes in it. */
  function Disturbed(p: Point, bytes: seq<Byte>): Point { p.(h := Overlay(p.h, bytes)) }

  function Advanced(p: Point): Point { Point(p.block + 1, CLEARED) }

  /** The session with client `c` from the point `p` on the events `ev`, with resend limit `limit`. */
  function Run(ev: seq<Event>, c: Addr, limit: int, p: Point): Session {
    if ev == [] then Session(Waiting, [], 0, 0)
    else
      match ev[0]
      case Timeout => Stall(c, limit, p.block)
      case Datagram(from, bytes) =>
        if from != c then
          Before([Send(from, Error(DATA_BEFORE_WRQ, UNKNOWN_USER))], Run(ev[1..], c, limit, Disturbed(p, bytes)))
        else if BlockNumber(Overlay(p.h, bytes)) != p.block + 1 then GiveUp(c, INVALID_BLOCK_NUM, BAD_BLOCK)
        else if Opcode(Overlay(p.h, bytes)) != DATA_OPCODE then GiveUp(c, WRQ_FROM_SERVED_CLIENT, UNEXPECTED)
        else if |bytes| < HEADER_SIZE then Session(Undefined, [], 1, 1)
        else
          var actions := [Write(Payload(bytes)), Send(c, Ack(p.block + 1))];
          if |Received(bytes)| >= PACKET_SIZE
          then Before(actions, Run(ev[1..], c, limit, Advanced(p)))
          else Session(Completed, actions, 1, 1)
  }

  /** The datagrams of the served client carry at least a header. */
  predicate Headed(ev: seq<Event>, c: Addr) {
    forall i | 0 <= i < |ev| && ev[i].Datagram? && ev[i].from == c :: |ev[i].bytes| >= HEADER_SIZE
  }

  // ---------- reading a trace ----------

  function Writes(trace: seq<Action>): seq<seq<Byte>> {
    if trace == [] then []
    else (if trace[0].Write? then [trace[0].data] else []) + Writes(trace[1..])
  }

  function Concat(blocks: seq<seq<Byte>>): seq<Byte> {
    if blocks == [] then [] else blocks[0] + Concat(blocks[1..])
  }

  /** The file that a trace leaves behind. */
  function FileOf(trace: seq<Action>): seq<Byte> { Concat(Writes(trace)) }

  /** The acknowledgements sent to the client. */
  function Acks(trace: seq<Action>, c: Addr): seq<int> {
    if trace == [] then []
    else (if trace[0].Send? && trace[0].to == c && trace[0].reply.Ack? then [trace[0].reply.block] else [])
         + Acks(trace[1..], c)
  }

  /** What the server sent to one address. */
  function SentTo(trace: seq<Action>, c: Addr): seq<Reply> {
    if trace == [] then []
    else (if trace[0].Send? && trace[0].to == c then [trace[0].reply] else []) + SentTo(trace[1..], c)
  }

  lemma Assoc<T>(a: seq<T>, b: seq<T>, c: seq<T>)
    ensures a + b + c == a + (b + c)
  {
  }

  lemma {:induction false} WritesConcat(s: seq<Action>, t: seq<Action>)
    ensures Writes(s + t) == Writes(s) + Writes(t)
  {
    if s == [] {
      assert s + t == t;
    } else {
      WritesConcat(s[1..], t);
      assert (s + t)[1..] == s[1..] + t && (s + t)[0] == s[0];
      Assoc(if s[0].Write? then [s[0].data] else [], Writes(s[1..]), Writes(t));
    }
  }

  lemma {:induction false} AcksConcat(s: seq<Action>, t: seq<Action>, c: Addr)
    ensures Acks(s + t, c) == Acks(s, c) + Acks(t, c)
  {
    if s == [] {
      assert s + t == t;
    } else {
      AcksConcat(s[1..], t, c);
      assert (s + t)[1..] == s[1..] + t && (s + t)[0] == s[0];
      Assoc(if s[0].Send? && s[0].to == c && s[0].reply.Ack? then [s[0].reply.block] else [],
            Acks(s[1..], c), Acks(t, c));
    }
  }

  lemma {:induction false} SentToConcat(s: seq<Action>, t: seq<Action>, c: Addr)
    ensures SentTo(s + t, c) == SentTo(s, c) + SentTo(t, c)
  {
    if s == [] {
      assert s + t == t;
    } else {
      SentToConcat(s[1..], t, c);
      assert (s + t)[1..] == s[1..] + t && (s + t)[0] == s[0];
      Assoc(if s[0].Send? && s[0].to == c then [s[0].reply] else [], SentTo(s[1..], c), SentTo(t, c));
    }
  }

  lemma {:induction false} ConcatConcat(x: seq<seq<Byte>>, y: seq<seq<Byte>>)
    ensures Concat(x + y) == Concat(x) + Concat(y)
  {
    if x == [] {
      assert x + y == y;
    } else {
      ConcatConcat(x[1..], y);
      assert (x + y)[1..] == x[1..] + y && (x + y)[0] == x[0];
      Assoc(x[0], Concat(x[1..]), Concat(y));
    }
  }

  /** The step that accepts one block. */
  lemma TakenBlock(data: seq<Byte>, c: Addr, n: int, rest: seq<Action>)
    ensures (var trace := [Write(data), Send(c, Ack(n))] + rest;
             && Writes(trace) == [data] + Writes(rest)
             && FileOf(trace) == data + FileOf(rest)
             && Acks(trace, c) == [n] + Acks(rest, c)
             && SentTo(trace, c) == [Ack(n)] + SentTo(rest, c))
  {
    var head := [Write(data), Send(c, Ack(n))];
    WritesConcat(head, rest);
    AcksConcat(head, rest, c);
    SentToConcat(head, rest, c);
    assert head[1..] == [Send(c, Ack(n))] && head[1..][1..] == [];
    assert Writes(head) == [data] && Acks(head, c) == [n] && SentTo(head, c) == [Ack(n)];
    assert ([data] + Writes(rest))[1..] == Writes(rest);
  }

  lemma SentOnly(to: Addr, reply: Reply, c: Addr, rest: seq<Action>)
    ensures (var trace := [Send(to, reply)] + rest;
             && Writes(trace) == Writes(rest) && FileOf(trace) == FileOf(rest)
             && Acks(trace, c) == (if to == c && reply.Ack? then [reply.block] else []) + Acks(rest, c)
             && SentTo(trace, c) == (if to == c then [reply] else []) + SentTo(rest, c))
  {
    assert ([Send(to, reply)] + rest)[1..] == rest;
  }

  lemma GivenUp(c: Addr, code: int, message: string)
    ensures (var trace := GiveUp(c, code, message).trace;
             && Writes(trace) == [] && FileOf(trace) == [] && Acks(trace, c) == []
             && SentTo(trace, c) == [Error(code, message)])
  {
    SentOnly(c, Error(code, message), c, [Delete]);
    assert [Send(c, Error(code, message))] + [Delete] == GiveUp(c, code, message).trace;
    assert [Delete][1..] == [];
    assert Writes([Delete]) == [] && Acks([Delete], c) == [];
    assert SentTo([Delete], c) == [];
  }

  lemma LastBlock(data: seq<Byte>, c: Addr, n: int)
    ensures (var trace := [Write(data), Send(c, Ack(n))];
             Writes(trace) == [data] && FileOf(trace) == data && Acks(trace, c) == [n] && SentTo(trace, c) == [Ack(n)])
  {
    TakenBlock(data, c, n, []);
    assert [Write(data), Send(c, Ack(n))] + [] == [Write(data), Send(c, Ack(n))];
  }

  /** What a stalled session sends. */
  lemma {:induction false} ResendsOnly(c: Addr, block: int, n: nat, rest: seq<Action>)
    ensures (var trace := Resends(c, block, n) + rest;
             && Writes(trace) == Writes(rest) && FileOf(trace) == FileOf(rest)
             && Acks(trace, c) == seq(n, _ => block) + Acks(rest, c))
  {
    if n == 0 {
      assert Resends(c, block, 0) + rest == rest;
    } else {
      var more := Resends(c, block, n - 1) + rest;
      assert Resends(c, block, n) + rest == [Send(c, Ack(block))] + more;
      ResendsOnly(c, block, n - 1, rest);
      SentOnly(c, Ack(block), c, more);
      assert seq(n, _ => block) == [block] + seq(n - 1, _ => block);
      Assoc([block], seq(n - 1, _ => block), Acks(rest, c));
    }
  }

  lemma Stalled(c: Addr, limit: int, block: nat)
    ensures (var trace := Stall(c, limit, block).trace;
             && Writes(trace) == [] && FileOf(trace) == []
             && Acks(trace, c) == seq(Budget(limit) - 1, _ => block))
  {
    GivenUp(c, REACHED_MAX_RESENDS, ABANDONED);
    ResendsOnly(c, block, Budget(limit) - 1, GiveUp(c, REACHED_MAX_RESENDS, ABANDONED).trace);
  }

  // ---------- how long a session can be ----------

  predicate Foreign(e: Event, c: Addr) { e.Datagram? && e.from != c }

  /** The events that are not datagrams of other senders. */
  function Own(ev: seq<Event>, c: Addr): nat {
    if ev == [] then 0 else (if Foreign(ev[0], c) then 0 else 1) + Own(ev[1..], c)
  }

  /** Blocks accepted. */
  function Accepted(s: Session): nat { |Writes(s.trace)| }

  /** How often the session waited for something other than a datagram of another sender. */
  function OwnWaits(s: Session, ev: seq<Event>, c: Addr): int
    requires s.used <= |ev|
  {
    Own(ev[..s.used], c) + s.waits - s.used
  }

  /** Every wait brought a block, except for those of an aborted session at its end. */
  predicate Fits(s: Session, block: nat, waits: int, limit: int) {
    && block + Accepted(s) <= 65535
    && (s.outcome == Completed || s.outcome == Waiting ==> waits == Accepted(s))
    && (s.outcome == Aborted || s.outcome == Undefined ==> Accepted(s) < waits <= Accepted(s) + Budget(limit))
  }

  /** The session `s` fits the events it was given. */
  predicate Within(s: Session, ev: seq<Event>, c: Addr, limit: int, block: nat) {
    && s.used <= |ev| && s.used <= s.waits && (s.outcome == Waiting ==> s.used == |ev|)
    && Fits(s, block, OwnWaits(s, ev, c), limit)
  }

  lemma OwnPrefix(ev: seq<Event>, c: Addr, n: nat)
    requires 1 <= n <= |ev|
    ensures Own(ev[..n], c) == (if Foreign(ev[0], c) then 0 else 1) + Own(ev[1..][..n - 1], c)
  {
    assert ev[..n][1..] == ev[1..][..n - 1];
  }

  lemma WithinAtEnd(s: Session, ev: seq<Event>, c: Addr, limit: int, block: nat)
    requires ev != [] && !Foreign(ev[0], c) && block <= 65535
    requires s.used == 1 <= s.waits <= Budget(limit) && Accepted(s) == 0
    requires s.outcome == Aborted || s.outcome == Undefined
    ensures Within(s, ev, c, limit, block)
  {
    OwnPrefix(ev, c, 1);
  }

  lemma WithinAfterForeign(rest: Session, ev: seq<Event>, c: Addr, limit: int, block: nat, to: Addr, reply: Reply)
    requires ev != [] && Foreign(ev[0], c) && Within(rest, ev[1..], c, limit, block)
    ensures Within(Before([Send(to, reply)], rest), ev, c, limit, block)
  {
    SentOnly(to, reply, c, rest.trace);
    OwnPrefix(ev, c, rest.used + 1);
  }

  lemma WithinAfterBlock(rest: Session, ev: seq<Event>, c: Addr, limit: int, block: nat, data: seq<Byte>)
    requires ev != [] && !Foreign(ev[0], c) && Within(rest, ev[1..], c, limit, block + 1)
    ensures Within(Before([Write(data), Send(c, Ack(block + 1))], rest), ev, c, limit, block)
  {
    AcceptedOneMore(data, c, block + 1, rest);
    OwnPrefix(ev, c, rest.used + 1);
  }

  lemma AcceptedOneMore(data: seq<Byte>, c: Addr, n: int, rest: Session)
    ensures Accepted(Before([Write(data), Send(c, Ack(n))], rest)) == Accepted(rest) + 1
  {
    TakenBlock(data, c, n, rest.trace);
  }

  lemma WithinAtLastBlock(ev: seq<Event>, c: Addr, limit: int, block: nat, data: seq<Byte>)
    requires ev != [] && !Foreign(ev[0], c) && block + 1 <= 65535
    ensures Within(Session(Completed, [Write(data), Send(c, Ack(block + 1))], 1, 1), ev, c, limit, block)
  {
    LastBlock(data, c, block + 1);
    OwnPrefix(ev, c, 1);
  }

  lemma {:induction false} SessionBoundFrom(ev: seq<Event>, c: Addr, limit: int, p: Point)
    requires p.block <= 65535
    ensures Within(Run(ev, c, limit, p), ev, c, limit, p.block)
  {
    if ev != [] {
      var rest := ev[1..];
      match ev[0]
      case Timeout =>
        Stalled(c, limit, p.block);
        WithinAtEnd(Stall(c, limit, p.block), ev, c, limit, p.block);
      case Datagram(from, bytes) =>
        if from != c {
          SessionBoundFrom(rest, c, limit, Disturbed(p, bytes));
          WithinAfterForeign(Run(rest, c, limit, Disturbed(p, bytes)), ev, c, limit, p.block,
                             from, Error(DATA_BEFORE_WRQ, UNKNOWN_USER));
        } else if BlockNumber(Overlay(p.h, bytes)) != p.block + 1 {
          GivenUp(c, INVALID_BLOCK_NUM, BAD_BLOCK);
          WithinAtEnd(Run(ev, c, limit, p), ev, c, limit, p.block);
        } else if Opcode(Overlay(p.h, bytes)) != DATA_OPCODE {
          GivenUp(c, WRQ_FROM_SERVED_CLIENT, UNEXPECTED);
          WithinAtEnd(Run(ev, c, limit, p), ev, c, limit, p.block);
        } else if |bytes| < HEADER_SIZE {
          WithinAtEnd(Run(ev, c, limit, p), ev, c, limit, p.block);
        } else if |Received(bytes)| >= PACKET_SIZE {
          SessionBoundFrom(rest, c, limit, Advanced(p));
          WithinAfterBlock(Run(rest, c, limit, Advanced(p)), ev, c, limit, p.block, Payload(bytes));
        } else {
          WithinAtLastBlock(ev, c, limit, p.block, Payload(bytes));
        }
    }
  }

  /** Besides foreign datagrams, a session that accepts n blocks waits at most n + (limit + 1) times, and
      exactly n times if it completes.  n never exceeds 65535: the block number is compared as an int and
      cannot wrap.  In particular it waits at most (n + 1) (limit + 1) times.  A negative limit is none. */
  lemma SessionBound(ev: seq<Event>, c: Addr, limit: int)
    ensures (var s := Run(ev, c, limit, START);
             && s.used <= |ev| && s.used <= s.waits && Accepted(s) <= 65535
             && (limit >= 0 ==> OwnWaits(s, ev, c) <= Accepted(s) + limit + 1 <= (Accepted(s) + 1) * (limit + 1))
             && (limit < 0 ==> OwnWaits(s, ev, c) <= Accepted(s) + 1)
             && (s.outcome == Completed ==> OwnWaits(s, ev, c) == Accepted(s)))
  {
    SessionBoundFrom(ev, c, limit, START);
    SumBelowProduct(Accepted(Run(ev, c, limit, START)), Budget(limit));
  }

  lemma SumBelowProduct(n: nat, b: nat)
    requires b >= 1
    ensures n + b <= (n + 1) * b
  {
    assert n * (b - 1) >= 0;
  }

  /** Every session with finitely many foreign datagrams ends: 65535 blocks are the most it can wait for. */
  lemma SessionEnds(ev: seq<Event>, c: Addr, limit: int)
    requires Own(ev, c) > 65535
    ensures Run(ev, c, limit, START).outcome != Waiting
  {
    var s := Run(ev, c, limit, START);
    SessionBoundFrom(ev, c, limit, START);
    assert ev[..|ev|] == ev;
    if s.outcome == Waiting { WaitsAreEvents(ev, c, limit, START); }
  }

  /** A session under way has waited once for each event. */
  lemma {:induction false} WaitsAreEvents(ev: seq<Event>, c: Addr, limit: int, p: Point)
    requires Run(ev, c, limit, p).outcome == Waiting || Run(ev, c, limit, p).outcome == Completed
    ensures Run(ev, c, limit, p).waits == Run(ev, c, limit, p).used
  {
    if ev != [] && ev[0].Datagram? {
      if ev[0].from != c {
        WaitsAreEvents(ev[1..], c, limit, Disturbed(p, ev[0].bytes));
      } else if |Received(ev[0].bytes)| >= PACKET_SIZE {
        WaitsAreEvents(ev[1..], c, limit, Advanced(p));
      }
    }
  }

  // ---------- timeouts ----------

  /** A timeout that a session takes is the last event it takes, and it is aborted. */
  lemma {:induction false} TimeoutIsLast(ev: seq<Event>, c: Addr, limit: int, p: Point, i: nat)
    requires i < Run(ev, c, limit, p).used <= |ev| && ev[i].Timeout?
    ensures i == Run(ev, c, limit, p).used - 1 && Run(ev, c, limit, p).outcome == Aborted
  {
    if ev[0].Datagram? && i > 0 {
      if ev[0].from != c {
        TimeoutIsLast(ev[1..], c, limit, Disturbed(p, ev[0].bytes), i - 1);
      } else if |Received(ev[0].bytes)| >= PACKET_SIZE {
        TimeoutIsLast(ev[1..], c, limit, Advanced(p), i - 1);
      }
    }
  }

  /** A completed session took no timeout: a lost packet is never made good by sending an acknowledgement
      again. */
  lemma CompletedWithoutTimeout(ev: seq<Event>, c: Addr, limit: int)
    requires Run(ev, c, limit, START).outcome == Completed
    ensures (var s := Run(ev, c, limit, START); s.used <= |ev| && Timeout !in ev[..s.used])
  {
    var s := Run(ev, c, limit, START);
    SessionBound(ev, c, limit);
    if Timeout in ev[..s.used] {
      var i :| 0 <= i < s.used && ev[..s.used][i] == Timeout;
      TimeoutIsLast(ev, c, limit, START, i);
    }
  }

  /** `whole` is the session `s`, still under way, cut off by a timeout. */
  predicate CutOff(whole: Session, s: Session, c: Addr, limit: int, block: nat) {
    whole == Session(Aborted, s.trace + Stall(c, limit, block + Accepted(s)).trace, s.used + 1, s.used + Budget(limit))
  }

  lemma CutOffLater(more: seq<Action>, whole: Session, s: Session, c: Addr, limit: int, block: nat, block': nat)
    requires CutOff(whole, s, c, limit, block') && block' + Accepted(s) == block + Accepted(Before(more, s))
    ensures CutOff(Before(more, whole), Before(more, s), c, limit, block)
  {
    Assoc(more, s.trace, Stall(c, limit, block' + Accepted(s)).trace);
  }

  lemma {:induction false} TimeoutDoomsFrom(ev: seq<Event>, c: Addr, limit: int, p: Point, i: nat)
    requires i < |ev| && ev[i].Timeout? && Run(ev[..i], c, limit, p).outcome == Waiting
    ensures CutOff(Run(ev, c, limit, p), Run(ev[..i], c, limit, p), c, limit, p.block)
    ensures Run(ev[..i], c, limit, p).used == i
  {
    if i == 0 {
      assert [] + Stall(c, limit, p.block).trace == Stall(c, limit, p.block).trace;
    } else {
      assert ev[..i][1..] == ev[1..][..i - 1];
      var answer := [Send(ev[0].from, Error(DATA_BEFORE_WRQ, UNKNOWN_USER))];
      var q := if ev[0].from != c then Disturbed(p, ev[0].bytes) else Advanced(p);
      var whole, rest := Run(ev[1..], c, limit, q), Run(ev[1..][..i - 1], c, limit, q);
      TimeoutDoomsFrom(ev[1..], c, limit, q, i - 1);
      if ev[0].from != c {
        SentOnly(ev[0].from, Error(DATA_BEFORE_WRQ, UNKNOWN_USER), c, rest.trace);
        CutOffLater(answer, whole, rest, c, limit, p.block, p.block);
      } else {
        AcceptedOneMore(Payload(ev[0].bytes), c, p.block + 1, rest);
        CutOffLater([Write(Payload(ev[0].bytes)), Send(c, Ack(p.block + 1))],
                    whole, rest, c, limit, p.block, p.block + 1);
      }
    }
  }

  /** With a limit of `limit` resends a silent client gets exactly that many acknowledgements more. */
  lemma StallExactly(c: Addr, limit: nat, block: nat)
    ensures Stall(c, limit, block)
         == Session(Aborted,
                    seq(limit, _ => Send(c, Ack(block))) + [Send(c, Error(REACHED_MAX_RESENDS, ABANDONED)), Delete],
                    1, limit + 1)
  {
    assert Resends(c, block, limit) == seq(limit, _ => Send(c, Ack(block)));
  }

  /** A negative limit is exceeded by the first timeout. */
  lemma StallAtOnce(c: Addr, limit: int, block: nat)
    requires limit < 0
    ensures Stall(c, limit, block)
         == Session(Aborted, [Send(c, Error(REACHED_MAX_RESENDS, ABANDONED)), Delete], 1, 1)
  {
    assert Resends(c, block, 0) == [];
  }

  /** What `limit` allows a session that is under way, has done `s`, and hears nothing any more. */
  predicate Doomed(whole: Session, s: Session, c: Addr, limit: int) {
    var last := [Send(c, Error(REACHED_MAX_RESENDS, ABANDONED)), Delete];
    if limit < 0 then whole == Session(Aborted, s.trace + last, s.used + 1, s.used + 1)
    else whole == Session(Aborted, s.trace + (seq(limit, _ => Send(c, Ack(Accepted(s)))) + last),
                          s.used + 1, s.used + limit + 1)
  }

  /** A session under way that meets a timeout acknowledges its last block `limit` times more, each time
      after another wait in vain, gives up and deletes the file, whatever comes next. */
  lemma TimeoutDooms(ev: seq<Event>, c: Addr, limit: int, i: nat)
    requires i < |ev| && ev[i].Timeout? && Run(ev[..i], c, limit, START).outcome == Waiting
    ensures Run(ev[..i], c, limit, START).used == i
    ensures Doomed(Run(ev, c, limit, START), Run(ev[..i], c, limit, START), c, limit)
  {
    TimeoutDoomsFrom(ev, c, limit, START, i);
    var block := Accepted(Run(ev[..i], c, limit, START));
    if limit < 0 { StallAtOnce(c, limit, block); } else { StallExactly(c, limit, block); }
  }

  /** The limit goes from the command line through an unsigned and a signed 16-bit integer. */
  function AsShort(argument: int): int {
    var u := argument % 65536;
    if u < 32768 then u else u - 65536
  }

  /** A session that meets a timeout resends as often as the command line says if and only if the argument
      fits into a signed 16-bit integer: 32768, for one, is taken for a negative limit and gives no resend. */
  lemma LimitAsAsked(ev: seq<Event>, c: Addr, argument: int, i: nat)
    requires i < |ev| && ev[i].Timeout? && Run(ev[..i], c, AsShort(argument), START).outcome == Waiting
    ensures (var whole, s := Run(ev, c, AsShort(argument), START), Run(ev[..i], c, AsShort(argument), START);
             |whole.trace| == |s.trace| + argument + 2 <==> 0 <= argument <= 32767)
  {
    TimeoutDooms(ev, c, AsShort(argument), i);
  }
}

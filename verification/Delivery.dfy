/** What a client gets from a write session: its file, whole and unharmed, or nothing. */
module Delivery {
  import opened WriteSession

  // ---------- chunks ----------

  /** A source of n bytes is sent in n / 512 + 1 blocks: the last one is short, perhaps empty. */
  function Chunks(file: seq<Byte>): nat { |file| / DATA_SIZE + 1 }

  function Chunk(file: seq<Byte>, k: nat): seq<Byte>
    requires 1 <= k <= Chunks(file)
  {
    file[DATA_SIZE * (k - 1) .. if DATA_SIZE * k < |file| then DATA_SIZE * k else |file|]
  }

  /** A data packet that carries the chunk of its number. */
  predicate Genuine(bytes: seq<Byte>, file: seq<Byte>)
    requires |bytes| >= HEADER_SIZE
  {
    var k := BlockNumber(bytes[..HEADER_SIZE]);
    1 <= k <= Chunks(file) && bytes[HEADER_SIZE..] == Chunk(file, k)
  }

  /** Every data packet of the client is genuine.  Packets may be lost, repeated, delayed and reordered,
      and anything else may come between. */
  predicate Honest(ev: seq<Event>, c: Addr, file: seq<Byte>) {
    forall i | 0 <= i < |ev| && ev[i].Datagram? && ev[i].from == c
               && |ev[i].bytes| >= HEADER_SIZE && Opcode(ev[i].bytes[..HEADER_SIZE]) == DATA_OPCODE ::
      Genuine(ev[i].bytes, file)
  }

  lemma HonestTail(ev: seq<Event>, c: Addr, file: seq<Byte>)
    requires Honest(ev, c, file) && ev != []
    ensures Honest(ev[1..], c, file)
  {
  }

  /** What remains of the source from a block on. */
  function Remaining(file: seq<Byte>, block: nat): seq<Byte>
    requires block < Chunks(file)
  {
    file[DATA_SIZE * block..]
  }

  lemma ChunkThenRest(file: seq<Byte>, block: nat)
    requires block < Chunks(file)
    ensures |Chunk(file, block + 1)| == DATA_SIZE ==>
              block + 1 < Chunks(file) && Remaining(file, block) == Chunk(file, block + 1) + Remaining(file, block + 1)
    ensures |Chunk(file, block + 1)| < DATA_SIZE ==>
              block + 1 == Chunks(file) && Remaining(file, block) == Chunk(file, block + 1)
    ensures |Chunk(file, block + 1)| <= DATA_SIZE
  {
  }

  lemma GenuinePayload(bytes: seq<Byte>, file: seq<Byte>)
    requires |bytes| >= HEADER_SIZE && Genuine(bytes, file)
    ensures Payload(bytes) == Chunk(file, BlockNumber(bytes[..HEADER_SIZE]))
    ensures |Received(bytes)| >= PACKET_SIZE <==> |Payload(bytes)| == DATA_SIZE
  {
    ChunkThenRest(file, BlockNumber(bytes[..HEADER_SIZE]) - 1);
  }

  predicate DeliveredRest(s: Session, file: seq<Byte>, block: nat)
    requires block < Chunks(file)
  {
    FileOf(s.trace) == Remaining(file, block) && block + Accepted(s) == Chunks(file)
  }

  lemma DeliveredBlock(bytes: seq<Byte>, c: Addr, file: seq<Byte>, block: nat, rest: Session)
    requires |bytes| >= HEADER_SIZE && Genuine(bytes, file) && BlockNumber(bytes[..HEADER_SIZE]) == block + 1
    requires |Received(bytes)| >= PACKET_SIZE
    ensures block + 1 < Chunks(file)
    ensures DeliveredRest(rest, file, block + 1) ==>
              DeliveredRest(Before([Write(Payload(bytes)), Send(c, Ack(block + 1))], rest), file, block)
  {
    GenuinePayload(bytes, file);
    ChunkThenRest(file, block);
    TakenBlock(Payload(bytes), c, block + 1, rest.trace);
  }

  lemma DeliveredLast(bytes: seq<Byte>, c: Addr, file: seq<Byte>, block: nat)
    requires |bytes| >= HEADER_SIZE && Genuine(bytes, file) && BlockNumber(bytes[..HEADER_SIZE]) == block + 1
    requires |Received(bytes)| < PACKET_SIZE
    ensures block < Chunks(file)
    ensures DeliveredRest(Session(Completed, [Write(Payload(bytes)), Send(c, Ack(block + 1))], 1, 1), file, block)
  {
    GenuinePayload(bytes, file);
    ChunkThenRest(file, block);
    LastBlock(Payload(bytes), c, block + 1);
  }

  lemma {:induction false} DeliveredFrom(ev: seq<Event>, c: Addr, limit: int, p: Point, file: seq<Byte>)
    requires Honest(ev, c, file) && p.block < Chunks(file)
    requires Run(ev, c, limit, p).outcome == Completed
    ensures DeliveredRest(Run(ev, c, limit, p), file, p.block)
  {
    HonestTail(ev, c, file);
    var from, bytes := ev[0].from, ev[0].bytes;
    if from != c {
      DeliveredFrom(ev[1..], c, limit, Disturbed(p, bytes), file);
      SentOnly(from, Error(DATA_BEFORE_WRQ, UNKNOWN_USER), c, Run(ev[1..], c, limit, Disturbed(p, bytes)).trace);
    } else {
      assert Genuine(bytes, file);
      if |Received(bytes)| >= PACKET_SIZE {
        DeliveredBlock(bytes, c, file, p.block, Run(ev[1..], c, limit, Advanced(p)));
        DeliveredFrom(ev[1..], c, limit, Advanced(p), file);
      } else {
        DeliveredLast(bytes, c, file, p.block);
      }
    }
  }

  /** End to end: whatever happens on the way, a session that completes has stored the source. */
  lemma Delivered(ev: seq<Event>, c: Addr, limit: int, file: seq<Byte>)
    requires Honest(ev, c, file) && Run(ev, c, limit, START).outcome == Completed
    ensures FileOf(Run(ev, c, limit, START).trace) == file
    ensures Accepted(Run(ev, c, limit, START)) == Chunks(file)
  {
    DeliveredFrom(ev, c, limit, START, file);
    assert Remaining(file, 0) == file;
  }

  // ---------- sizes ----------

  predicate ShortLast(s: Session) {
    Accepted(s) >= 1 && DATA_SIZE * (Accepted(s) - 1) <= |FileOf(s.trace)| < DATA_SIZE * Accepted(s)
  }

  lemma ShortLastAfter(s: Session, data: seq<Byte>, c: Addr, n: int)
    ensures |data| == DATA_SIZE && ShortLast(s) ==> ShortLast(Before([Write(data), Send(c, Ack(n))], s))
    ensures |data| < DATA_SIZE ==> ShortLast(Session(Completed, [Write(data), Send(c, Ack(n))], 1, 1))
  {
    TakenBlock(data, c, n, s.trace);
    LastBlock(data, c, n);
  }

  /** All blocks of a completed session but the last are full. */
  lemma {:induction false} FileSize(ev: seq<Event>, c: Addr, limit: int, p: Point)
    requires Run(ev, c, limit, p).outcome == Completed
    ensures ShortLast(Run(ev, c, limit, p))
  {
    var from, bytes := ev[0].from, ev[0].bytes;
    if from != c {
      FileSize(ev[1..], c, limit, Disturbed(p, bytes));
      SentOnly(from, Error(DATA_BEFORE_WRQ, UNKNOWN_USER), c, Run(ev[1..], c, limit, Disturbed(p, bytes)).trace);
    } else {
      ShortLastAfter(Run(ev[1..], c, limit, Advanced(p)), Payload(bytes), c, p.block + 1);
      if |Received(bytes)| >= PACKET_SIZE { FileSize(ev[1..], c, limit, Advanced(p)); }
    }
  }

  /** No completed file reaches 65535 blocks of 512 bytes. */
  lemma CompletedIsSmall(ev: seq<Event>, c: Addr, limit: int)
    requires Run(ev, c, limit, START).outcome == Completed
    ensures |FileOf(Run(ev, c, limit, START).trace)| < 65535 * DATA_SIZE
  {
    SessionBound(ev, c, limit);
    FileSize(ev, c, limit, START);
  }

  // ---------- a client on a perfect line ----------

  function Field(k: nat): seq<Byte> { [k / 256 % 256, k % 256] }

  /** The data packet of block k; its number has 16 bits. */
  function Packet(file: seq<Byte>, k: nat): seq<Byte>
    requires 1 <= k <= Chunks(file)
  {
    [0, DATA_OPCODE] + Field(k) + Chunk(file, k)
  }

  function InOrder(file: seq<Byte>, c: Addr, k: nat): seq<Event>
    requires 1 <= k <= Chunks(file) + 1
    decreases Chunks(file) + 1 - k
  {
    if k > Chunks(file) then [] else [Datagram(c, Packet(file, k))] + InOrder(file, c, k + 1)
  }

  /** Block 65536 is the first whose number does not fit. */
  lemma NumberFits(k: nat)
    requires 1 <= k <= 65536
    ensures k % 65536 == if k == 65536 then 0 else k
  {
  }

  lemma PacketFields(file: seq<Byte>, k: nat)
    requires 1 <= k <= Chunks(file)
    ensures |Packet(file, k)| >= HEADER_SIZE && Opcode(Packet(file, k)[..HEADER_SIZE]) == DATA_OPCODE
    ensures BlockNumber(Packet(file, k)[..HEADER_SIZE]) == k % 65536
    ensures Payload(Packet(file, k)) == Packet(file, k)[HEADER_SIZE..] == Chunk(file, k)
    ensures |Received(Packet(file, k))| >= PACKET_SIZE <==> |Chunk(file, k)| == DATA_SIZE
  {
    ChunkThenRest(file, k - 1);
    FieldValue(k);
  }

  lemma FieldValue(k: nat)
    ensures k / 256 % 256 * 256 + k % 256 == k % 65536
  {
  }

  lemma InOrderHead(file: seq<Byte>, c: Addr, k: nat)
    requires 1 <= k <= Chunks(file)
    ensures InOrder(file, c, k) != [] && InOrder(file, c, k)[0] == Datagram(c, Packet(file, k))
    ensures InOrder(file, c, k)[1..] == InOrder(file, c, k + 1)
  {
  }

  predicate PerfectFrom(s: Session, file: seq<Byte>, block: nat)
    requires block < Chunks(file)
  {
    && (s.outcome == Completed <==> Chunks(file) <= 65535)
    && (s.outcome == Completed || s.outcome == Aborted)
    && (s.outcome == Completed ==> FileOf(s.trace) == Remaining(file, block))
  }

  /** What a packet of the file is to the server; the first whose number does not fit is block 65536. */
  lemma PacketMet(file: seq<Byte>, k: nat, h: Header)
    requires 1 <= k <= Chunks(file) && k <= 65536
    ensures BlockNumber(Overlay(h, Packet(file, k))) == if k == 65536 then 0 else k
    ensures Opcode(Overlay(h, Packet(file, k))) == DATA_OPCODE && |Packet(file, k)| >= HEADER_SIZE
    ensures Payload(Packet(file, k)) == Chunk(file, k)
    ensures |Received(Packet(file, k))| >= PACKET_SIZE <==> k < Chunks(file)
  {
    PacketFields(file, k);
    NumberFits(k);
    ChunkThenRest(file, k - 1);
    assert Overlay(h, Packet(file, k)) == Packet(file, k)[..HEADER_SIZE];
  }

  /** The three things that can become of a session with the next packet of a file. */
  predicate Continues(s: Session, rest: Session, file: seq<Byte>, c: Addr, block: nat)
    requires block < Chunks(file)
  {
    var actions := [Write(Chunk(file, block + 1)), Send(c, Ack(block + 1))];
    if block == 65535 then s.outcome == Aborted
    else if block + 1 < Chunks(file) then s == Before(actions, rest)
    else s == Session(Completed, actions, 1, 1)
  }

  lemma NextPacket(ev: seq<Event>, c: Addr, limit: int, p: Point, file: seq<Byte>)
    requires p.block < Chunks(file) && p.block <= 65535 && ev != [] && ev[0] == Datagram(c, Packet(file, p.block + 1))
    ensures Continues(Run(ev, c, limit, p), Run(ev[1..], c, limit, Advanced(p)), file, c, p.block)
  {
    PacketMet(file, p.block + 1, p.h);
  }

  lemma PerfectOn(file: seq<Byte>, c: Addr, block: nat, rest: Session)
    requires block + 1 < Chunks(file) && PerfectFrom(rest, file, block + 1)
    ensures PerfectFrom(Before([Write(Chunk(file, block + 1)), Send(c, Ack(block + 1))], rest), file, block)
  {
    ChunkThenRest(file, block);
    TakenBlock(Chunk(file, block + 1), c, block + 1, rest.trace);
  }

  lemma PerfectLast(file: seq<Byte>, c: Addr, block: nat)
    requires block + 1 == Chunks(file) && block < 65535
    ensures PerfectFrom(Session(Completed, [Write(Chunk(file, block + 1)), Send(c, Ack(block + 1))], 1, 1), file, block)
  {
    ChunkThenRest(file, block);
    LastBlock(Chunk(file, block + 1), c, block + 1);
  }

  lemma PerfectStep(s: Session, rest: Session, file: seq<Byte>, c: Addr, block: nat)
    requires block < Chunks(file) && block <= 65535 && Continues(s, rest, file, c, block)
    requires block < 65535 && block + 1 < Chunks(file) ==> PerfectFrom(rest, file, block + 1)
    ensures PerfectFrom(s, file, block)
  {
    if block < 65535 {
      if block + 1 < Chunks(file) { PerfectOn(file, c, block, rest); } else { PerfectLast(file, c, block); }
    }
  }

  lemma {:induction false} PerfectLineFrom(file: seq<Byte>, c: Addr, limit: int, p: Point)
    requires p.block < Chunks(file) && p.block <= 65535
    ensures PerfectFrom(Run(InOrder(file, c, p.block + 1), c, limit, p), file, p.block)
    decreases Chunks(file) - p.block
  {
    var ev := InOrder(file, c, p.block + 1);
    InOrderHead(file, c, p.block + 1);
    NextPacket(ev, c, limit, p, file);
    if p.block < 65535 && p.block + 1 < Chunks(file) { PerfectLineFrom(file, c, limit, Advanced(p)); }
    PerfectStep(Run(ev, c, limit, p), Run(ev[1..], c, limit, Advanced(p)), file, c, p.block);
  }

  /** Without loss or delay a transfer completes if and only if the source is shorter than 65535 blocks;
      then it is stored whole, and otherwise it is refused at block 65536, whose number arrives as 0. */
  lemma PerfectLine(file: seq<Byte>, c: Addr, limit: int)
    ensures (var s := Run(InOrder(file, c, 1), c, limit, START);
             && (s.outcome == Completed <==> |file| < 65535 * DATA_SIZE)
             && (s.outcome == Completed ==> FileOf(s.trace) == file)
             && (s.outcome != Completed ==> s.outcome == Aborted))
  {
    PerfectLineFrom(file, c, limit, START);
    assert Remaining(file, 0) == file;
  }

  // ---------- other senders ----------

  function Erase(ev: seq<Event>, c: Addr): seq<Event> {
    if ev == [] then [] else (if Foreign(ev[0], c) then [] else [ev[0]]) + Erase(ev[1..], c)
  }

  /** The same to the served client. */
  predicate SameForClient(s: Session, s': Session, c: Addr) {
    && s.outcome == s'.outcome && Writes(s.trace) == Writes(s'.trace)
    && SentTo(s.trace, c) == SentTo(s'.trace, c) && Acks(s.trace, c) == Acks(s'.trace, c)
  }

  lemma SameAfterSending(to: Addr, reply: Reply, c: Addr, s: Session, s': Session)
    requires SameForClient(s, s', c)
    ensures SameForClient(Before([Send(to, reply)], s), Before([Send(to, reply)], s'), c)
    ensures to != c ==> SameForClient(Before([Send(to, reply)], s), s', c)
  {
    SentOnly(to, reply, c, s.trace);
    SentOnly(to, reply, c, s'.trace);
  }

  lemma SameAfterBlock(data: seq<Byte>, n: int, c: Addr, s: Session, s': Session)
    requires SameForClient(s, s', c)
    ensures SameForClient(Before([Write(data), Send(c, Ack(n))], s), Before([Write(data), Send(c, Ack(n))], s'), c)
  {
    TakenBlock(data, c, n, s.trace);
    TakenBlock(data, c, n, s'.trace);
  }

  /** Datagrams of others might as well not have come, although they pass through the same buffer: the
      client's own header covers what they leave there. */
  lemma {:induction false} ForeignErasedFrom(ev: seq<Event>, c: Addr, limit: int, p: Point, q: Point)
    requires Headed(ev, c) && p.block == q.block
    ensures SameForClient(Run(ev, c, limit, p), Run(Erase(ev, c), c, limit, q), c)
    decreases ev, 1
  {
    if ev == [] {
    } else if Foreign(ev[0], c) {
      ForeignErasedFrom(ev[1..], c, limit, Disturbed(p, ev[0].bytes), q);
      assert Erase(ev, c) == Erase(ev[1..], c);
      SameAfterSending(ev[0].from, Error(DATA_BEFORE_WRQ, UNKNOWN_USER), c,
                       Run(ev[1..], c, limit, Disturbed(p, ev[0].bytes)), Run(Erase(ev[1..], c), c, limit, q));
    } else {
      OwnErasedFrom(ev, c, limit, p, q);
    }
  }

  lemma EraseHead(ev: seq<Event>, c: Addr)
    requires ev != [] && !Foreign(ev[0], c)
    ensures Erase(ev, c) != [] && Erase(ev, c)[0] == ev[0] && Erase(ev, c)[1..] == Erase(ev[1..], c)
  {
  }

  lemma {:induction false} OwnErasedFrom(ev: seq<Event>, c: Addr, limit: int, p: Point, q: Point)
    requires ev != [] && !Foreign(ev[0], c) && Headed(ev, c) && p.block == q.block
    ensures SameForClient(Run(ev, c, limit, p), Run(Erase(ev, c), c, limit, q), c)
    decreases ev, 0
  {
    var rest, rest' := ev[1..], Erase(ev[1..], c);
    EraseHead(ev, c);
    if ev[0].Datagram? {
      var bytes := ev[0].bytes;
      if BlockNumber(bytes[..HEADER_SIZE]) == p.block + 1 && Opcode(bytes[..HEADER_SIZE]) == DATA_OPCODE
         && |Received(bytes)| >= PACKET_SIZE {
        ForeignErasedFrom(rest, c, limit, Advanced(p), Advanced(q));
        SameAfterBlock(Payload(bytes), p.block + 1, c,
                       Run(rest, c, limit, Advanced(p)), Run(rest', c, limit, Advanced(q)));
      }
    }
  }

  /** Deleting the datagrams of other senders changes nothing for a client whose datagrams have headers. */
  lemma ForeignErased(ev: seq<Event>, c: Addr, limit: int)
    requires Headed(ev, c)
    ensures SameForClient(Run(ev, c, limit, START), Run(Erase(ev, c), c, limit, START), c)
  {
    ForeignErasedFrom(ev, c, limit, START, START);
  }

  /** One datagram of the client, met at block `block` with the header `h` left in the buffer. */
  function Met(bytes: seq<Byte>, c: Addr, limit: int, block: nat, h: Header): Session {
    Run([Datagram(c, bytes)], c, limit, Point(block, h))
  }

  /** Whatever others have left in the buffer, a datagram of the client means the same, if and only if it
      has a whole header. */
  lemma HeaderDecides(bytes: seq<Byte>, c: Addr, limit: int)
    ensures |bytes| >= HEADER_SIZE <==>
              forall block: nat, h: Header, h': Header ::
                Met(bytes, c, limit, block, h) == Met(bytes, c, limit, block, h')
  {
    if |bytes| < HEADER_SIZE {
      var h: Header, h': Header := [0, 0, 0, 1], [0, 0, 0, 2];
      var block := BlockNumber(Overlay(h, bytes)) - 1;
      assert BlockNumber(Overlay(h', bytes)) == block + 2;
      assert Met(bytes, c, limit, block, h') == GiveUp(c, INVALID_BLOCK_NUM, BAD_BLOCK);
      assert Met(bytes, c, limit, block, h).outcome == Undefined
          || Met(bytes, c, limit, block, h) == GiveUp(c, WRQ_FROM_SERVED_CLIENT, UNEXPECTED);
      assert GiveUp(c, WRQ_FROM_SERVED_CLIENT, UNEXPECTED).trace[0] != GiveUp(c, INVALID_BLOCK_NUM, BAD_BLOCK).trace[0];
    }
  }

  /** Without headers it is not so: an empty datagram is refused on a clear buffer, and taken for block 1
      when another sender has just left that header in it. */
  lemma ShortDatagramSeesOthers(c: Addr, other: Addr, limit: int)
    requires other != c
    ensures (var ev := [Datagram(other, [0, DATA_OPCODE, 0, 1]), Datagram(c, [])];
             && Run(ev, c, limit, START).outcome == Undefined
             && Run(Erase(ev, c), c, limit, START).outcome == Aborted)
  {
    var ev := [Datagram(other, [0, DATA_OPCODE, 0, 1]), Datagram(c, [])];
    var p := Disturbed(START, [0, DATA_OPCODE, 0, 1]);
    assert ev[1..] == [Datagram(c, [])];
    assert p.h == [0, DATA_OPCODE, 0, 1] && Overlay(p.h, []) == p.h && Overlay(CLEARED, []) == CLEARED;
    assert Run(ev[1..], c, limit, p).outcome == Undefined;
    EraseHead(ev[1..], c);
    assert Erase(ev, c) == Erase(ev[1..], c);
    assert Run(Erase(ev, c), c, limit, START).outcome == Aborted;
  }

  // ---------- silence ----------

  function Untimed(ev: seq<Event>): seq<Event> {
    if ev == [] then [] else (if ev[0].Timeout? then [] else [ev[0]]) + Untimed(ev[1..])
  }

  /** The packets of the file from block k on all arrive, in order, and the last of them ends the stream;
      timeouts and datagrams of others may come between. */
  predicate Arrives(ev: seq<Event>, file: seq<Byte>, c: Addr, k: nat)
    requires 1 <= k <= Chunks(file)
  {
    ev != [] && Untimed(Erase(ev, c)) == InOrder(file, c, k) && ev[|ev| - 1].Datagram? && ev[|ev| - 1].from == c
  }

  lemma {:induction false} OwnStays(ev: seq<Event>, c: Addr)
    requires ev != [] && ev[|ev| - 1].Datagram? && ev[|ev| - 1].from == c
    ensures Untimed(Erase(ev, c)) != []
  {
    if |ev| > 1 {
      OwnStays(ev[1..], c);
      if Foreign(ev[0], c) {
        assert Erase(ev, c) == Erase(ev[1..], c);
      } else {
        EraseHead(ev, c);
      }
    } else {
      assert ev[1..] == [] && Erase(ev, c) == [ev[0]] && [ev[0]][1..] == [];
    }
  }

  predicate Late(s: Session, ev: seq<Event>, file: seq<Byte>) {
    s.outcome == Completed <==> Chunks(file) <= 65535 && Timeout !in ev
  }

  lemma LateAfterForeign(ev: seq<Event>, c: Addr, limit: int, p: Point, file: seq<Byte>)
    requires p.block < Chunks(file) && Arrives(ev, file, c, p.block + 1) && Foreign(ev[0], c)
    ensures Arrives(ev[1..], file, c, p.block + 1)
    ensures Late(Run(ev[1..], c, limit, Disturbed(p, ev[0].bytes)), ev[1..], file) ==>
      Late(Run(ev, c, limit, p), ev, file)
  {
    assert Erase(ev, c) == Erase(ev[1..], c);
    InOrderHead(file, c, p.block + 1);
    assert ev[1..] != [];
    assert Timeout in ev <==> Timeout in ev[1..];
  }

  lemma LateHead(ev: seq<Event>, c: Addr, file: seq<Byte>, k: nat)
    requires 1 <= k <= Chunks(file) && Arrives(ev, file, c, k) && ev[0].Datagram? && ev[0].from == c
    ensures ev[0] == Datagram(c, Packet(file, k)) && Untimed(Erase(ev[1..], c)) == InOrder(file, c, k + 1)
    ensures if k == Chunks(file) then ev[1..] == [] else Arrives(ev[1..], file, c, k + 1)
    ensures Timeout in ev <==> Timeout in ev[1..]
  {
    EraseHead(ev, c);
    InOrderHead(file, c, k);
    assert Untimed(Erase(ev, c))[1..] == Untimed(Erase(ev[1..], c));
    if ev[1..] != [] { OwnStays(ev[1..], c); }
    if k < Chunks(file) { InOrderHead(file, c, k + 1); }
  }

  lemma {:induction false} LateFrom(ev: seq<Event>, c: Addr, limit: int, p: Point, file: seq<Byte>)
    requires p.block < Chunks(file) && p.block <= 65535 && Arrives(ev, file, c, p.block + 1)
    ensures Late(Run(ev, c, limit, p), ev, file)
    decreases |ev|
  {
    if ev[0].Timeout? {
      assert Timeout in ev;
    } else if ev[0].from != c {
      LateAfterForeign(ev, c, limit, p, file);
      LateFrom(ev[1..], c, limit, Disturbed(p, ev[0].bytes), file);
    } else {
      LateHead(ev, c, file, p.block + 1);
      NextPacket(ev, c, limit, p, file);
      if p.block < 65535 && p.block + 1 < Chunks(file) {
        LateFrom(ev[1..], c, limit, Advanced(p), file);
      }
    }
  }

  /** When all packets of a file arrive in order, the transfer completes if and only if the file is shorter
      than 65535 blocks and no wait on the way was in vain, however large the limit on resends. */
  lemma SilenceIsFatal(ev: seq<Event>, c: Addr, limit: int, file: seq<Byte>)
    requires Arrives(ev, file, c, 1)
    ensures Run(ev, c, limit, START).outcome == Completed <==> |file| < 65535 * DATA_SIZE && Timeout !in ev
  {
    LateFrom(ev, c, limit, START, file);
  }

  // ---------- acknowledgements ----------

  /** After n blocks: every acknowledgement carries the number of blocks written so far, a written block is
      acknowledged at once, all but the last are full, and the file is deleted only at the end. */
  predicate LockStep(trace: seq<Action>, c: Addr, n: nat) {
    if trace == [] then true
    else
      match trace[0]
      case Write(data) =>
        && |trace| >= 2 && trace[1] == Send(c, Ack(n + 1))
        && (|data| == DATA_SIZE || (|data| < DATA_SIZE && |trace| == 2))
        && LockStep(trace[1..], c, n + 1)
      case Send(to, reply) =>
        && (reply.Ack? ==> to == c && reply.block == n)
        && LockStep(trace[1..], c, n)
      case Delete => |trace| == 1
  }

  lemma LockStepSend(to: Addr, reply: Reply, rest: seq<Action>, c: Addr, n: nat)
    requires LockStep(rest, c, n) && (reply.Ack? ==> to == c && reply.block == n)
    ensures LockStep([Send(to, reply)] + rest, c, n)
  {
    assert ([Send(to, reply)] + rest)[1..] == rest;
  }

  lemma LockStepBlock(data: seq<Byte>, rest: seq<Action>, c: Addr, n: nat)
    requires LockStep(rest, c, n + 1) && (|data| == DATA_SIZE || (|data| < DATA_SIZE && rest == []))
    ensures LockStep([Write(data), Send(c, Ack(n + 1))] + rest, c, n)
  {
    var trace := [Write(data), Send(c, Ack(n + 1))] + rest;
    LockStepSend(c, Ack(n + 1), rest, c, n + 1);
    assert trace[1..] == [Send(c, Ack(n + 1))] + rest;
  }

  lemma LockStepGiveUp(code: int, message: string, c: Addr, n: nat)
    ensures LockStep(GiveUp(c, code, message).trace, c, n)
  {
    LockStepSend(c, Error(code, message), [Delete], c, n);
    assert [Send(c, Error(code, message))] + [Delete] == [Send(c, Error(code, message)), Delete];
  }

  lemma {:induction false} LockStepResends(c: Addr, block: nat, n: nat, rest: seq<Action>)
    requires LockStep(rest, c, block)
    ensures LockStep(Resends(c, block, n) + rest, c, block)
    ensures Delete in rest ==> Delete in Resends(c, block, n) + rest
  {
    if n == 0 {
      assert Resends(c, block, 0) + rest == rest;
    } else {
      LockStepResends(c, block, n - 1, rest);
      LockStepSend(c, Ack(block), Resends(c, block, n - 1) + rest, c, block);
      assert Resends(c, block, n) + rest == [Send(c, Ack(block))] + (Resends(c, block, n - 1) + rest);
    }
  }

  lemma StalledInLockStep(c: Addr, limit: int, block: nat)
    ensures LockStep(Stall(c, limit, block).trace, c, block) && Delete in Stall(c, limit, block).trace
  {
    LockStepGiveUp(REACHED_MAX_RESENDS, ABANDONED, c, block);
    LockStepResends(c, block, Budget(limit) - 1, GiveUp(c, REACHED_MAX_RESENDS, ABANDONED).trace);
  }

  lemma LastInLockStep(data: seq<Byte>, c: Addr, block: nat)
    requires |data| < DATA_SIZE
    ensures LockStep([Write(data), Send(c, Ack(block + 1))], c, block)
  {
    LockStepBlock(data, [], c, block);
    var good := [Write(data), Send(c, Ack(block + 1))];
    assert good + [] == good;
  }

  lemma {:induction false} InLockStepFrom(ev: seq<Event>, c: Addr, limit: int, p: Point)
    ensures LockStep(Run(ev, c, limit, p).trace, c, p.block)
    ensures Delete in Run(ev, c, limit, p).trace <==> Run(ev, c, limit, p).outcome == Aborted
  {
    if ev != [] {
      match ev[0]
      case Timeout => StalledInLockStep(c, limit, p.block);
      case Datagram(from, bytes) =>
        if from != c {
          InLockStepFrom(ev[1..], c, limit, Disturbed(p, bytes));
          LockStepSend(from, Error(DATA_BEFORE_WRQ, UNKNOWN_USER),
                       Run(ev[1..], c, limit, Disturbed(p, bytes)).trace, c, p.block);
        } else if BlockNumber(Overlay(p.h, bytes)) != p.block + 1 {
          LockStepGiveUp(INVALID_BLOCK_NUM, BAD_BLOCK, c, p.block);
        } else if Opcode(Overlay(p.h, bytes)) != DATA_OPCODE {
          LockStepGiveUp(WRQ_FROM_SERVED_CLIENT, UNEXPECTED, c, p.block);
        } else if |bytes| >= HEADER_SIZE {
          if |Received(bytes)| >= PACKET_SIZE {
            InLockStepFrom(ev[1..], c, limit, Advanced(p));
            LockStepBlock(Payload(bytes), Run(ev[1..], c, limit, Advanced(p)).trace, c, p.block);
          } else {
            LastInLockStep(Payload(bytes), c, p.block);
          }
        }
    }
  }

  /** The discipline holds over every session, and the file is deleted exactly when it is aborted. */
  lemma InLockStep(ev: seq<Event>, c: Addr, limit: int)
    ensures LockStep(Run(ev, c, limit, START).trace, c, 0)
    ensures Delete in Run(ev, c, limit, START).trace <==> Run(ev, c, limit, START).outcome == Aborted
  {
    InLockStepFrom(ev, c, limit, START);
  }

  /** Numbers between `lo` and `hi` that never go back and rise by at most one. */
  predicate StepByStep(acks: seq<int>, lo: int, hi: int) {
    && (forall i | 0 <= i < |acks| :: lo <= acks[i] <= hi)
    && (forall i | 0 <= i < |acks| - 1 :: acks[i] <= acks[i + 1] <= acks[i] + 1)
  }

  lemma StepBefore(ack: int, acks: seq<int>, lo: int, hi: int)
    requires StepByStep(acks, lo, hi) && lo <= ack <= hi && (acks != [] ==> ack <= acks[0] <= ack + 1)
    ensures StepByStep([ack] + acks, lo, hi)
  {
    var all := [ack] + acks;
    forall i | 0 <= i < |all| - 1 ensures all[i] <= all[i + 1] <= all[i] + 1 {
      if i > 0 { assert all[i] == acks[i - 1] && all[i + 1] == acks[i]; }
    }
  }

  predicate Rises(trace: seq<Action>, c: Addr, n: nat) {
    && StepByStep(Acks(trace, c), n, n + |Writes(trace)|)
    && (Acks(trace, c) != [] ==> Acks(trace, c)[0] <= n + 1)
  }

  lemma RisesAfterSend(to: Addr, reply: Reply, rest: seq<Action>, c: Addr, n: nat)
    requires Rises(rest, c, n) && (reply.Ack? ==> to == c && reply.block == n)
    ensures Rises([Send(to, reply)] + rest, c, n)
  {
    SentOnly(to, reply, c, rest);
    if to == c && reply.Ack? { StepBefore(n, Acks(rest, c), n, n + |Writes(rest)|); }
  }

  lemma RisesAfterWrite(data: seq<Byte>, rest: seq<Action>, c: Addr, n: nat)
    requires Rises(rest, c, n + 1) && Acks(rest, c) != [] && Acks(rest, c)[0] == n + 1
    ensures Rises([Write(data)] + rest, c, n)
  {
    assert ([Write(data)] + rest)[1..] == rest;
  }

  lemma FirstAck(trace: seq<Action>, c: Addr, n: nat)
    requires trace != [] && trace[0] == Send(c, Ack(n))
    ensures Acks(trace, c) != [] && Acks(trace, c)[0] == n
  {
    assert trace == [Send(c, Ack(n))] + trace[1..];
    SentOnly(c, Ack(n), c, trace[1..]);
  }

  lemma RisesAtDelete(c: Addr, n: nat)
    ensures Rises([Delete], c, n)
  {
  }

  /** Acknowledged numbers rise step by step, from at most one more than the blocks there were. */
  lemma {:induction false} AcksRise(trace: seq<Action>, c: Addr, n: nat)
    requires LockStep(trace, c, n)
    ensures Rises(trace, c, n)
  {
    if trace != [] {
      var rest := trace[1..];
      assert trace == [trace[0]] + rest;
      match trace[0]
      case Write(data) =>
        FirstAck(rest, c, n + 1);
        AcksRise(rest, c, n + 1);
        RisesAfterWrite(data, rest, c, n);
      case Send(to, reply) =>
        AcksRise(rest, c, n);
        RisesAfterSend(to, reply, rest, c, n);
      case Delete => RisesAtDelete(c, n);
    }
  }

  /** With the acknowledgement of the request itself: numbers start at 0, never go back, rise by at most
      one and stay within the number of blocks n; and there are at most n + (limit + 1) of them, or n + 1 with
      a negative limit. */
  lemma AckDiscipline(ev: seq<Event>, c: Addr, limit: int)
    ensures (var s := Run(ev, c, limit, START);
             var acks := [0] + Acks(s.trace, c);
             && StepByStep(acks, 0, Accepted(s))
             && |acks| <= Accepted(s) + 1 + (if limit < 0 then 0 else limit))
  {
    var s := Run(ev, c, limit, START);
    InLockStep(ev, c, limit);
    AcksRise(s.trace, c, 0);
    StepBefore(0, Acks(s.trace, c), 0, Accepted(s));
    AckCount(ev, c, limit, START);
  }

  lemma {:induction false} AckCount(ev: seq<Event>, c: Addr, limit: int, p: Point)
    ensures |Acks(Run(ev, c, limit, p).trace, c)| < Accepted(Run(ev, c, limit, p)) + Budget(limit)
  {
    if ev != [] {
      match ev[0]
      case Timeout => Stalled(c, limit, p.block);
      case Datagram(from, bytes) =>
        if from != c {
          AckCount(ev[1..], c, limit, Disturbed(p, bytes));
          SentOnly(from, Error(DATA_BEFORE_WRQ, UNKNOWN_USER), c, Run(ev[1..], c, limit, Disturbed(p, bytes)).trace);
        } else if BlockNumber(Overlay(p.h, bytes)) != p.block + 1 {
          GivenUp(c, INVALID_BLOCK_NUM, BAD_BLOCK);
        } else if Opcode(Overlay(p.h, bytes)) != DATA_OPCODE {
          GivenUp(c, WRQ_FROM_SERVED_CLIENT, UNEXPECTED);
        } else if |bytes| >= HEADER_SIZE {
          if |Received(bytes)| >= PACKET_SIZE {
            AckCount(ev[1..], c, limit, Advanced(p));
            TakenBlock(Payload(bytes), c, p.block + 1, Run(ev[1..], c, limit, Advanced(p)).trace);
          } else {
            LastBlock(Payload(bytes), c, p.block + 1);
          }
        }
    }
  }

  // ---------- the session bound is exact ----------

  function FullPacket(k: nat, data: seq<Byte>): seq<Byte> { [0, DATA_OPCODE] + Field(k) + data }

  /** A client that sends n full blocks and then is gone. */
  function Vanishing(n: nat, c: Addr, block: nat, data: seq<Byte>): seq<Event> {
    if n == 0 then [Timeout]
    else [Datagram(c, FullPacket(block + 1, data))] + Vanishing(n - 1, c, block + 1, data)
  }

  lemma FullBlock(c: Addr, limit: int, p: Point, data: seq<Byte>, rest: seq<Event>)
    requires |data| == DATA_SIZE && p.block < 65535
    ensures Run([Datagram(c, FullPacket(p.block + 1, data))] + rest, c, limit, p)
         == Before([Write(data), Send(c, Ack(p.block + 1))], Run(rest, c, limit, Advanced(p)))
  {
    var bytes := FullPacket(p.block + 1, data);
    FieldValue(p.block + 1);
    assert ([Datagram(c, bytes)] + rest)[1..] == rest;
    assert Overlay(p.h, bytes) == [0, DATA_OPCODE] + Field(p.block + 1);
    assert Payload(bytes) == data;
  }

  /** The session takes all of the stream, accepts n blocks, and waits and acknowledges as often as it may. */
  predicate Exhausts(s: Session, ev: seq<Event>, n: nat, c: Addr, limit: int) {
    && s.used == |ev| == n + 1 && Accepted(s) == n
    && OwnWaits(s, ev, c) == |Acks(s.trace, c)| + 1 == n + 1 + (if limit < 0 then 0 else limit)
  }

  lemma ExhaustsAtTimeout(c: Addr, limit: int, p: Point)
    ensures Exhausts(Run([Timeout], c, limit, p), [Timeout], 0, c, limit)
  {
    assert Run([Timeout], c, limit, p) == Stall(c, limit, p.block);
    Stalled(c, limit, p.block);
    OwnPrefix([Timeout], c, 1);
  }

  lemma ExhaustsAfterBlock(s: Session, ev: seq<Event>, n: nat, c: Addr, limit: int, e: Event, data: seq<Byte>, k: int)
    requires Exhausts(s, ev, n, c, limit) && !Foreign(e, c)
    ensures Exhausts(Before([Write(data), Send(c, Ack(k))], s), [e] + ev, n + 1, c, limit)
  {
    TakenBlock(data, c, k, s.trace);
    OwnPrefix([e] + ev, c, |ev| + 1);
    assert ([e] + ev)[1..] == ev;
  }

  lemma ExhaustsRound(n: nat, c: Addr, limit: int, p: Point, data: seq<Byte>, rest: seq<Event>)
    requires p.block < 65535 && |data| == DATA_SIZE && Exhausts(Run(rest, c, limit, Advanced(p)), rest, n, c, limit)
    ensures (var ev := [Datagram(c, FullPacket(p.block + 1, data))] + rest;
             Exhausts(Run(ev, c, limit, p), ev, n + 1, c, limit))
  {
    var e := Datagram(c, FullPacket(p.block + 1, data));
    FullBlock(c, limit, p, data, rest);
    ExhaustsAfterBlock(Run(rest, c, limit, Advanced(p)), rest, n, c, limit, e, data, p.block + 1);
  }

  lemma {:induction false} VanishingExhausts(n: nat, c: Addr, limit: int, p: Point, data: seq<Byte>, ev: seq<Event>)
    requires p.block + n <= 65535 && |data| == DATA_SIZE && ev == Vanishing(n, c, p.block, data)
    ensures Exhausts(Run(ev, c, limit, p), ev, n, c, limit)
    decreases n
  {
    if n == 0 {
      ExhaustsAtTimeout(c, limit, p);
    } else {
      var rest := Vanishing(n - 1, c, p.block + 1, data);
      VanishingExhausts(n - 1, c, limit, Advanced(p), data, rest);
      ExhaustsRound(n - 1, c, limit, p, data, rest);
    }
  }

  /** The bounds on waits and on acknowledgements are reached for every number of blocks and every limit: by a
      client that sends n full blocks and falls silent. */
  lemma BoundIsReached(n: nat, c: Addr, limit: int, data: seq<Byte>)
    requires n <= 65535 && |data| == DATA_SIZE
    ensures (var ev := Vanishing(n, c, 0, data);
             var s := Run(ev, c, limit, START);
             && s.used == |ev| == n + 1 && Accepted(s) == n
             && OwnWaits(s, ev, c) == |[0] + Acks(s.trace, c)| == n + 1 + (if limit < 0 then 0 else limit))
  {
    VanishingExhausts(n, c, limit, START, data, Vanishing(n, c, 0, data));
  }
}

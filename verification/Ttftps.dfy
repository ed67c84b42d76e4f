/** The server program itself, with its buffers, its input and its disk changed in place; every method is
    proved against the functions that say what a session and the whole service do. */
module Ttftps {
  import opened WriteSession
  import opened FileServer

  // ---------- where a session stands in the middle of its events ----------

  function Extend(actions: seq<Action>, used: nat, s: Session): Session {
    Session(s.outcome, actions + s.trace, used + s.used, used + s.waits)
  }

  /** In the middle of a session: what it has done, the events it has used, where it stands and what is
      still to come. */
  datatype Mid = Mid(actions: seq<Action>, used: nat, p: Point, rest: seq<Event>)

  /** From the point `o` on `ev` the session comes to `m`. */
  ghost predicate Leads(ev: seq<Event>, c: Addr, limit: int, o: Point, m: Mid) {
    && m.used <= |ev| && m.rest == ev[m.used..]
    && Run(ev, c, limit, o) == Extend(m.actions, m.used, Run(m.rest, c, limit, m.p))
  }

  /** It comes to its end. */
  ghost predicate Closes(ev: seq<Event>, c: Addr, limit: int, o: Point,
                         outcome: Outcome, actions: seq<Action>, rest: seq<Event>) {
    var s := Run(ev, c, limit, o);
    s.outcome == outcome && s.trace == actions && s.used <= |ev| && rest == ev[s.used..]
  }

  function Onward(m: Mid, actions: seq<Action>, p: Point): Mid
    requires m.rest != []
  {
    Mid(m.actions + actions, m.used + 1, p, m.rest[1..])
  }

  lemma LeadsOn(ev: seq<Event>, c: Addr, limit: int, o: Point, m: Mid, actions: seq<Action>, q: Point)
    requires Leads(ev, c, limit, o, m) && m.rest != []
    requires Run(m.rest, c, limit, m.p) == Before(actions, Run(m.rest[1..], c, limit, q))
    ensures Leads(ev, c, limit, o, Onward(m, actions, q))
  {
    var s := Run(m.rest[1..], c, limit, q);
    assert m.actions + (actions + s.trace) == m.actions + actions + s.trace;
  }

  lemma LeadsToClose(ev: seq<Event>, c: Addr, limit: int, o: Point, m: Mid, outcome: Outcome, actions: seq<Action>)
    requires Leads(ev, c, limit, o, m) && m.rest != []
    requires Run(m.rest, c, limit, m.p).outcome == outcome && Run(m.rest, c, limit, m.p).trace == actions
    requires Run(m.rest, c, limit, m.p).used == 1
    ensures Closes(ev, c, limit, o, outcome, m.actions + actions, m.rest[1..])
  {
  }

  // ---------- waiting for a packet ----------

  /** From `o`, without having written anything. */
  ghost predicate Awaits(ev: seq<Event>, c: Addr, limit: int, o: Point, m: Mid) {
    Leads(ev, c, limit, o, m) && Writes(m.actions) == [] && m.p.block == o.block
  }

  predicate FromClient(e: Event, c: Addr) { e.Datagram? && e.from == c }

  function Refuse(to: Addr): seq<Action> { [Send(to, Error(DATA_BEFORE_WRQ, UNKNOWN_USER))] }

  lemma PassForeign(ev: seq<Event>, c: Addr, limit: int, o: Point, m: Mid)
    requires Awaits(ev, c, limit, o, m) && m.rest != [] && Foreign(m.rest[0], c)
    ensures Awaits(ev, c, limit, o, Onward(m, Refuse(m.rest[0].from), Disturbed(m.p, m.rest[0].bytes)))
  {
    LeadsOn(ev, c, limit, o, m, Refuse(m.rest[0].from), Disturbed(m.p, m.rest[0].bytes));
    WritesConcat(m.actions, Refuse(m.rest[0].from));
  }

  /** From a timeout on. */
  lemma Stalls(ev: seq<Event>, c: Addr, limit: int, o: Point, m: Mid)
    requires Awaits(ev, c, limit, o, m) && m.rest != [] && m.rest[0].Timeout?
    ensures (var actions := m.actions + Stall(c, limit, o.block).trace;
             Closes(ev, c, limit, o, Aborted, actions, m.rest[1..]) && Writes(actions) == [])
  {
    LeadsToClose(ev, c, limit, o, m, Aborted, Stall(c, limit, o.block).trace);
    Stalled(c, limit, o.block);
    WritesConcat(m.actions, Stall(c, limit, o.block).trace);
  }

  lemma OneMoreResend(t: seq<Action>, c: Addr, block: int, n: nat)
    ensures t + Resends(c, block, n) + [Send(c, Ack(block))] == t + Resends(c, block, n + 1)
    ensures t + Resends(c, block, 0) == t
  {
  }

  lemma FileJoins(a: seq<Action>, b: seq<Action>)
    ensures FileOf(a + b) == FileOf(a) + FileOf(b)
  {
    WritesConcat(a, b);
    ConcatConcat(Writes(a), Writes(b));
  }

  // ---------- taking a packet ----------

  function Joined(m: Mid, w: Mid): Mid {
    Mid(m.actions + w.actions, m.used + w.used, w.p, w.rest)
  }

  lemma LeadsThrough(ev: seq<Event>, c: Addr, limit: int, o: Point, m: Mid, w: Mid)
    requires Leads(ev, c, limit, o, m) && Leads(m.rest, c, limit, m.p, w)
    ensures Leads(ev, c, limit, o, Joined(m, w))
    ensures FileOf(m.actions + w.actions) == FileOf(m.actions) + FileOf(w.actions)
  {
    FileJoins(m.actions, w.actions);
    ExtendTwice(m.actions, m.used, w.actions, w.used, Run(w.rest, c, limit, w.p));
    assert w.rest == ev[m.used + w.used..];
  }

  lemma ExtendTwice(a: seq<Action>, i: nat, b: seq<Action>, j: nat, s: Session)
    ensures Extend(a, i, Extend(b, j, s)) == Extend(a + b, i + j, s)
  {
    assert a + (b + s.trace) == a + b + s.trace;
  }

  lemma ClosesThrough(ev: seq<Event>, c: Addr, limit: int, o: Point, m: Mid,
                      outcome: Outcome, actions: seq<Action>, rest: seq<Event>)
    requires Leads(ev, c, limit, o, m) && Closes(m.rest, c, limit, m.p, outcome, actions, rest)
    ensures Closes(ev, c, limit, o, outcome, m.actions + actions, rest)
    ensures FileOf(m.actions + actions) == FileOf(m.actions) + FileOf(actions)
  {
    FileJoins(m.actions, actions);
  }

  /** What the server does about a datagram of the client; the session goes on if the outcome is `Waiting`. */
  function Decide(bytes: seq<Byte>, c: Addr, p: Point): Session {
    if BlockNumber(Overlay(p.h, bytes)) != p.block + 1 then GiveUp(c, INVALID_BLOCK_NUM, BAD_BLOCK)
    else if Opcode(Overlay(p.h, bytes)) != DATA_OPCODE then GiveUp(c, WRQ_FROM_SERVED_CLIENT, UNEXPECTED)
    else if |bytes| < HEADER_SIZE then Session(Undefined, [], 1, 1)
    else Session(if |Received(bytes)| >= PACKET_SIZE then Waiting else Completed,
                 [Write(Payload(bytes)), Send(c, Ack(p.block + 1))], 1, 1)
  }

  lemma Decides(ev: seq<Event>, c: Addr, limit: int, o: Point, m: Mid)
    requires Awaits(ev, c, limit, o, m) && m.rest != [] && FromClient(m.rest[0], c)
    ensures (var d := Decide(m.rest[0].bytes, c, m.p);
             && FileOf(m.actions + d.trace) == FileOf(d.trace)
             && if d.outcome == Waiting then Leads(ev, c, limit, o, Onward(m, d.trace, Advanced(m.p)))
                else Closes(ev, c, limit, o, d.outcome, m.actions + d.trace, m.rest[1..]))
  {
    var d := Decide(m.rest[0].bytes, c, m.p);
    WritesConcat(m.actions, d.trace);
    assert [] + Writes(d.trace) == Writes(d.trace);
    if d.outcome == Waiting {
      LeadsOn(ev, c, limit, o, m, d.trace, Advanced(m.p));
    } else {
      LeadsToClose(ev, c, limit, o, m, d.outcome, d.trace);
    }
  }

  // ---------- the file on the disk ----------

  function Append(files: map<Name, seq<Byte>>, name: Name, data: seq<Byte>): map<Name, seq<Byte>>
    requires name in files
  {
    files[name := files[name] + data]
  }

  lemma AppendNothing(files: map<Name, seq<Byte>>, name: Name)
    requires name in files
    ensures Append(files, name, []) == files
  {
    assert files[name] + [] == files[name];
  }

  lemma AppendTwice(files: map<Name, seq<Byte>>, name: Name, a: seq<Byte>, b: seq<Byte>)
    requires name in files
    ensures Append(Append(files, name, a), name, b) == Append(files, name, a + b)
    ensures Append(files, name, a) - {name} == files - {name}
  {
    assert files[name] + a + b == files[name] + (a + b);
  }

  lemma HeaderReceived(before: seq<Byte>, bytes: seq<Byte>, after: seq<Byte>)
    requires |before| == PACKET_SIZE && after == Received(bytes) + before[|Received(bytes)|..]
    ensures after[..HEADER_SIZE] == Overlay(before[..HEADER_SIZE], bytes)
    ensures |Received(bytes)| >= HEADER_SIZE ==> after[HEADER_SIZE..|Received(bytes)|] == Payload(bytes)
  {
  }

  // ---------- service in the middle of its events ----------

  lemma {:induction false} TraceOfConcat(s: seq<Turn>, t: seq<Turn>)
    ensures TraceOf(s + t) == TraceOf(s) + TraceOf(t)
  {
    if s == [] {
      assert s + t == t;
    } else {
      TraceOfConcat(s[1..], t);
      assert (s + t)[1..] == s[1..] + t && (s + t)[0] == s[0];
    }
  }

  function Resume(turns: seq<Turn>, rest: Service): Service {
    rest.(turns := turns + rest.turns)
  }

  lemma TurnTaken(turns: seq<Turn>, t: Turn, rest: Service)
    ensures Resume(turns, First(t, rest)) == Resume(turns + [t], rest)
    ensures TraceOf(turns + [t]) == TraceOf(turns) + TraceOf([t])
  {
    assert turns + ([t] + rest.turns) == turns + [t] + rest.turns;
    TraceOfConcat(turns, [t]);
  }

  lemma AfterFresh(files: map<Name, seq<Byte>>, name: Name, s: Session)
    ensures AfterSession(files[name := []], name, s) == AfterSession(files, name, s)
  {
  }

  /** The service that remains when the server is back at the top of its loop, or held up in a session. */
  function Remains(rest: seq<Event>, limit: int, h: Host, idle: bool): Service {
    if idle then Serve(rest, limit, h) else Service(h, [], false)
  }

  /** The three answers to a datagram at the top of the loop. */
  lemma ServeDatagram(ev: seq<Event>, limit: int, h: Host)
    requires ev != [] && ev[0].Datagram?
    ensures (var bytes, c := ev[0].bytes, ev[0].from;
             var asked := RequestName(bytes);
             var name := Renamed(h.stored, asked);
             var v := Serve(ev, limit, h);
             && (RequestOpcode(bytes) != WRQ_OPCODE ==>
                   v == First(Refused(c, asked, Error(DATA_BEFORE_WRQ, UNKNOWN_USER)),
                              Remains(ev[1..], limit, Host(h.files, name), true)))
             && (RequestOpcode(bytes) == WRQ_OPCODE && name in h.files ==>
                   v == First(Refused(c, asked, Error(FILE_EXISTS, EXISTS)),
                              Remains(ev[1..], limit, Host(h.files, name), true))))
  {
  }

  lemma ServeSession(ev: seq<Event>, limit: int, h: Host, s: Session)
    requires ev != [] && ev[0].Datagram? && RequestOpcode(ev[0].bytes) == WRQ_OPCODE
    requires Renamed(h.stored, RequestName(ev[0].bytes)) !in h.files
    requires s == Run(ev[1..], ev[0].from, limit, START)
    ensures s.used <= |ev| - 1
    ensures (var asked := RequestName(ev[0].bytes);
             var name := Renamed(h.stored, asked);
             var h' := Host(AfterSession(h.files, name, s), name);
             Serve(ev, limit, h) == First(Served(ev[0].from, asked, name, s),
                                          Remains(ev[1..][s.used..], limit, h', Over(s))))
  {
    UsedWithin(ev[1..], ev[0].from, limit);
  }

  // ---------- names in a fixed buffer ----------

  const FILE_NAME_SIZE := 514

  /** The name and its buffer: after the first zero there are only zeros, and there is one. */
  predicate HoldsName(s: seq<Byte>) {
    && |s| == FILE_NAME_SIZE + 1 && |CString(s)| <= FILE_NAME_SIZE
    && forall i | |CString(s)| <= i < |s| :: s[i] == 0
  }

  /** Copying a name without its terminating zero. */
  lemma Overwritten(dst: seq<Byte>, name: seq<Byte>, dst': seq<Byte>)
    requires HoldsName(dst) && |name| <= FILE_NAME_SIZE && (forall i | 0 <= i < |name| :: name[i] != 0)
    requires dst' == name + dst[|name|..]
    ensures HoldsName(dst') && CString(dst') == Renamed(CString(dst), name)
  {
    CStringIs(dst);
    var n := if |CString(dst)| <= |name| then |name| else |CString(dst)|;
    CStringEnds(dst', n);
    assert dst'[..n] == Renamed(CString(dst), name);
  }

  // ---------- the program ----------

  class Server {
    const limit: int
    /** The file system. */
    var files: map<Name, seq<Byte>>
    /** What the socket has still to bring, and what was sent and done. */
    var input: seq<Event>
    var trace: seq<Action>
    const dataBuff: array<Byte>
    const wrqBuff: array<Byte>
    const fileName: array<Byte>

    ghost predicate Valid()
      reads fileName
    {
      && dataBuff.Length == PACKET_SIZE && wrqBuff.Length == PACKET_SIZE && fileName.Length == FILE_NAME_SIZE + 1
      && dataBuff != wrqBuff && dataBuff != fileName && wrqBuff != fileName
      && HoldsName(fileName[..])
    }

    /** The name in the request structure. */
    ghost function StoredName(): Name
      reads fileName
    {
      CString(fileName[..])
    }

    constructor (limit: int, files: map<Name, seq<Byte>>, input: seq<Event>)
      ensures Valid() && StoredName() == []
      ensures this.limit == limit && this.files == files && this.input == input && trace == []
    {
      this.limit, this.files, this.input, this.trace := limit, files, input, [];
      dataBuff := new Byte[PACKET_SIZE](_ => 0);
      wrqBuff := new Byte[PACKET_SIZE](_ => 0);
      fileName := new Byte[FILE_NAME_SIZE + 1](_ => 0);
      new;
      CStringEnds(fileName[..], 0);
    }

    static method Memset(buff: array<Byte>)
      modifies buff
      ensures forall i | 0 <= i < buff.Length :: buff[i] == 0
    {
      forall i | 0 <= i < buff.Length { buff[i] := 0; }
    }

    /** Takes the next datagram; the buffer keeps what the datagram does not cover. */
    method Recvfrom(buff: array<Byte>) returns (size: nat, from: Addr)
      requires input != [] && input[0].Datagram? && buff.Length == PACKET_SIZE
      modifies `input, buff
      ensures input == old(input)[1..] && from == old(input)[0].from
      ensures size == |Received(old(input)[0].bytes)| <= PACKET_SIZE
      ensures buff[..] == Received(old(input)[0].bytes) + old(buff[..])[size..]
      ensures buff[..HEADER_SIZE] == Overlay(old(buff[..HEADER_SIZE]), old(input)[0].bytes)
      ensures size >= HEADER_SIZE ==> buff[HEADER_SIZE..size] == Payload(old(input)[0].bytes)
    {
      from := input[0].from;
      var data := Received(input[0].bytes);
      size := |data|;
      forall i | 0 <= i < size { buff[i] := data[i]; }
      HeaderReceived(old(buff[..]), input[0].bytes, buff[..]);
      input := input[1..];
    }

    method SendError(code: int, message: string, to: Addr)
      modifies `trace
      ensures trace == old(trace) + [Send(to, Error(code, message))]
    {
      trace := trace + [Send(to, Error(code, message))];
    }

    method SendAck(blockNumber: int, to: Addr)
      modifies `trace
      ensures trace == old(trace) + [Send(to, Ack(blockNumber))]
    {
      trace := trace + [Send(to, Ack(blockNumber))];
    }

    method DeleteFile(name: Name)
      modifies `trace, `files
      ensures trace == old(trace) + [Delete] && files == old(files) - {name}
    {
      files := files - {name};
      trace := trace + [Delete];
    }

    method Fwrite(name: Name, data: seq<Byte>)
      requires name in files
      modifies `trace, `files
      ensures trace == old(trace) + [Write(data)] && files == Append(old(files), name, data)
    {
      files := Append(files, name, data);
      trace := trace + [Write(data)];
    }

    /** `select` on a descriptor set that is armed or empty: whether a datagram is there.  A timeout empties
        the set, and on an empty set there is nothing but timeouts. */
    method Select(armed: bool) returns (ready: bool, stillArmed: bool)
      requires armed ==> input != []
      modifies `input
      ensures stillArmed == ready && (ready <==> armed && old(input)[0].Datagram?)
      ensures input == if armed && !ready then old(input)[1..] else old(input)
    {
      ready := armed && input[0].Datagram?;
      stillArmed := ready;
      if armed && !ready {
        input := input[1..];
      }
    }

    /** Another timeout: gives up, or acknowledges the last block again. */
    method Miss(name: Name, client: Addr, blockNumber: nat, missedPackets: int) returns (over: bool)
      modifies `files, `trace
      ensures over <==> missedPackets > limit
      ensures trace == old(trace) + if over then GiveUp(client, REACHED_MAX_RESENDS, ABANDONED).trace
                                    else [Send(client, Ack(blockNumber))]
      ensures files == if over then old(files) - {name} else old(files)
    {
      over := missedPackets > limit;
      if over {
        SendError(REACHED_MAX_RESENDS, ABANDONED, client);
        DeleteFile(name);
      } else {
        SendAck(blockNumber, client);
      }
    }

    /** The inner loop from its first timeout on: the descriptor set is empty and nothing is read any more. */
    method WaitInVain(name: Name, client: Addr, blockNumber: nat, armed: bool)
      requires !armed
      modifies `files, `input, `trace
      ensures trace == old(trace) + Stall(client, limit, blockNumber).trace
      ensures trace == old(trace) + (seq(if limit < 0 then 0 else limit, _ => Send(client, Ack(blockNumber)))
                                     + [Send(client, Error(REACHED_MAX_RESENDS, ABANDONED)), Delete])
      ensures files == old(files) - {name} && input == old(input)
    {
      if limit < 0 { StallAtOnce(client, limit, blockNumber); } else { StallExactly(client, limit, blockNumber); }
      var missedPackets := 1;
      var over := Miss(name, client, blockNumber, missedPackets);
      OneMoreResend(old(trace), client, blockNumber, 0);
      while !over
        invariant 1 <= missedPackets && (over <==> missedPackets > limit) && input == old(input)
        invariant missedPackets <= Budget(limit)
        invariant trace == old(trace) + Resends(client, blockNumber, if over then missedPackets - 1 else missedPackets)
                           + if over then GiveUp(client, REACHED_MAX_RESENDS, ABANDONED).trace else []
        invariant files == if over then old(files) - {name} else old(files)
        decreases limit - missedPackets, !over
      {
        var ready, stillArmed := Select(armed);
        missedPackets := missedPackets + 1;
        OneMoreResend(old(trace), client, blockNumber, missedPackets - 1);
        over := Miss(name, client, blockNumber, missedPackets);
      }
      Assoc(old(trace), Resends(client, blockNumber, missedPackets - 1),
            GiveUp(client, REACHED_MAX_RESENDS, ABANDONED).trace);
    }

    /** The inner loop: waits for a datagram of the client, through foreign datagrams and the first timeout.
        The descriptor set is handed on from call to call.
        If `own`, the datagram in the buffer decides at the point `m.p`; else the session is over, or the
        socket has nothing more to bring. */
    method AwaitPacket(name: Name, client: Addr, blockNumber: nat, armed: bool)
      returns (over: bool, own: bool, stillArmed: bool, messageSize: nat, ghost m: Mid)
      requires dataBuff.Length == PACKET_SIZE && dataBuff[..HEADER_SIZE] == CLEARED && armed
      modifies `files, `input, `trace, dataBuff
      ensures trace == old(trace) + m.actions && Writes(m.actions) == []
      ensures files == if over then old(files) - {name} else old(files)
      ensures !own ==> Closes(old(input), client, limit, Point(blockNumber, CLEARED),
                              if over then Aborted else Waiting, m.actions, input)
      ensures own ==>
                && !over && stillArmed && Awaits(old(input), client, limit, Point(blockNumber, CLEARED), m)
                && m.rest != [] && FromClient(m.rest[0], client) && input == m.rest[1..]
                && messageSize == |Received(m.rest[0].bytes)| <= PACKET_SIZE
                && dataBuff[..HEADER_SIZE] == Overlay(m.p.h, m.rest[0].bytes)
                && (messageSize >= HEADER_SIZE ==> dataBuff[HEADER_SIZE..messageSize] == Payload(m.rest[0].bytes))
    {
      ghost var o := Point(blockNumber, CLEARED);
      over, own, stillArmed, messageSize, m := false, false, armed, 0, Mid([], 0, o, input);
      while input != []
        invariant !over && !own && stillArmed && files == old(files)
        invariant m.rest == input && trace == old(trace) + m.actions
        invariant m.p == Point(blockNumber, dataBuff[..HEADER_SIZE])
        invariant Awaits(old(input), client, limit, o, m)
        decreases |input|
      {
        var ready, from;
        ready, stillArmed := Select(stillArmed);
        if !ready {
          Stalls(old(input), client, limit, o, m);
          Assoc(old(trace), m.actions, Stall(client, limit, blockNumber).trace);
          WaitInVain(name, client, blockNumber, stillArmed);
          over, m := true, Onward(m, Stall(client, limit, blockNumber).trace, m.p);
          return;
        }
        messageSize, from := Recvfrom(dataBuff);
        if from == client {
          own := true;
          return;
        }
        SendError(DATA_BEFORE_WRQ, UNKNOWN_USER, from);
        PassForeign(old(input), client, limit, o, m);
        Assoc(old(trace), m.actions, Refuse(from));
        m := Onward(m, Refuse(from), Disturbed(m.p, m.rest[0].bytes));
      }
    }

    /** Checks the packet in the buffer, and stores its block if it is the next. */
    method Accept(name: Name, client: Addr, blockNumber: nat, messageSize: nat, ghost bytes: seq<Byte>, ghost p: Point)
      returns (outcome: Outcome)
      requires dataBuff.Length == PACKET_SIZE && name in files && p.block == blockNumber
      requires messageSize == |Received(bytes)| && dataBuff[..HEADER_SIZE] == Overlay(p.h, bytes)
      requires messageSize >= HEADER_SIZE ==> dataBuff[HEADER_SIZE..messageSize] == Payload(bytes)
      modifies `files, `trace
      ensures outcome == Decide(bytes, client, p).outcome
      ensures trace == old(trace) + Decide(bytes, client, p).trace
      ensures files == if outcome == Aborted then old(files) - {name}
                       else Append(old(files), name, FileOf(Decide(bytes, client, p).trace))
    {
      if U16(dataBuff[2], dataBuff[3]) != blockNumber + 1 {
        SendError(INVALID_BLOCK_NUM, BAD_BLOCK, client);
        DeleteFile(name);
        return Aborted;
      }
      if U16(dataBuff[0], dataBuff[1]) != DATA_OPCODE {
        SendError(WRQ_FROM_SERVED_CLIENT, UNEXPECTED, client);
        DeleteFile(name);
        return Aborted;
      }
      if messageSize < HEADER_SIZE {
        AppendNothing(files, name);
        return Undefined;
      }
      Fwrite(name, dataBuff[HEADER_SIZE..messageSize]);
      SendAck(blockNumber + 1, client);
      LastBlock(Payload(bytes), client, blockNumber + 1);
      outcome := if messageSize >= PACKET_SIZE then Waiting else Completed;
    }

    /** One round of the outer loop; `more` if it stored a block that is not the last. */
    method ReceiveBlock(name: Name, client: Addr, blockNumber: nat, armed: bool)
      returns (more: bool, outcome: Outcome, stillArmed: bool, ghost m: Mid)
      requires dataBuff.Length == PACKET_SIZE && name in files && armed
      modifies `files, `input, `trace, dataBuff
      ensures trace == old(trace) + m.actions && m.rest == input
      ensures files == if outcome == Aborted then old(files) - {name}
                       else Append(old(files), name, FileOf(m.actions))
      ensures more ==>
                && outcome == Waiting && stillArmed && m.p == Point(blockNumber + 1, CLEARED)
                && m.used > 0 && Leads(old(input), client, limit, Point(blockNumber, CLEARED), m)
      ensures !more ==> Closes(old(input), client, limit, Point(blockNumber, CLEARED), outcome, m.actions, input)
    {
      Memset(dataBuff);
      assert dataBuff[..HEADER_SIZE] == CLEARED;
      var over, own, messageSize;
      over, own, stillArmed, messageSize, m := AwaitPacket(name, client, blockNumber, armed);
      if !own {
        AppendNothing(old(files), name);
        return false, if over then Aborted else Waiting, stillArmed, m.(rest := input);
      }
      ghost var bytes := m.rest[0].bytes;
      Decides(old(input), client, limit, Point(blockNumber, CLEARED), m);
      ghost var actions := Decide(bytes, client, m.p).trace;
      Assoc(old(trace), m.actions, actions);
      outcome := Accept(name, client, blockNumber, messageSize, bytes, m.p);
      m := Onward(m, actions, Advanced(m.p));
      more := outcome == Waiting;
    }

    /** The session with one client, whose file has just been created. */
    method ReceivingDataMode(name: Name, client: Addr) returns (outcome: Outcome)
      requires dataBuff.Length == PACKET_SIZE && name in files && files[name] == []
      modifies `files, `input, `trace, dataBuff
      ensures (var s := Run(old(input), client, limit, START);
               && s.used <= |old(input)| && input == old(input)[s.used..]
               && outcome == s.outcome && trace == old(trace) + s.trace
               && files == AfterSession(old(files), name, s))
    {
      ghost var ev, m := input, Mid([], 0, START, input);
      var blockNumber, more, armed := 0, true, true;
      outcome := Waiting;
      AppendNothing(files, name);
      while more
        invariant trace == old(trace) + m.actions && m.rest == input
        invariant outcome != Aborted ==> files == Append(old(files), name, FileOf(m.actions))
        invariant outcome == Aborted ==> files == old(files) - {name} && !more
        invariant more ==> armed && Leads(ev, client, limit, START, m) && m.p == Point(blockNumber, CLEARED)
        invariant !more ==> Closes(ev, client, limit, START, outcome, m.actions, input)
        decreases |input|, more
      {
        ghost var w;
        more, outcome, armed, w := ReceiveBlock(name, client, blockNumber, armed);
        AppendTwice(old(files), name, FileOf(m.actions), FileOf(w.actions));
        Assoc(old(trace), m.actions, w.actions);
        if more {
          LeadsThrough(ev, client, limit, START, m, w);
        } else {
          ClosesThrough(ev, client, limit, START, m, outcome, w.actions, input);
        }
        m := Joined(m, w);
        blockNumber := blockNumber + 1;
      }
      assert old(files)[name] + FileOf(m.actions) == FileOf(m.actions);
    }

    /** The length of the name in the request buffer. */
    method NameLength() returns (n: nat)
      requires wrqBuff.Length == PACKET_SIZE
      ensures n <= FILE_NAME_SIZE && wrqBuff[2..2 + n] == CString(wrqBuff[2..])
    {
      n := 0;
      while n < FILE_NAME_SIZE && wrqBuff[2 + n] != 0
        invariant n <= FILE_NAME_SIZE && forall i | 2 <= i < 2 + n :: wrqBuff[i] != 0
      {
        n := n + 1;
      }
      CStringEnds(wrqBuff[2..], n);
      assert wrqBuff[2..][..n] == wrqBuff[2..2 + n];
    }

    /** Reads the request; the name overwrites the one before it, without a terminating zero. */
    method WrqParser() returns (opcode: int)
      requires Valid()
      modifies fileName
      ensures Valid() && opcode == U16(wrqBuff[0], wrqBuff[1])
      ensures StoredName() == Renamed(old(StoredName()), CString(wrqBuff[2..]))
    {
      opcode := U16(wrqBuff[0], wrqBuff[1]);
      var n := NameLength();
      ghost var dst, name := fileName[..], wrqBuff[2..2 + n];
      CStringIs(wrqBuff[2..]);
      forall i | 0 <= i < n { fileName[i] := wrqBuff[2 + i]; }
      assert fileName[..] == name + dst[n..] && wrqBuff[2..] == old(wrqBuff[2..]);
      Overwritten(dst, name, fileName[..]);
    }

    /** Creates the file, acknowledges the request and serves the session. */
    method Admit(name: Name, client: Addr) returns (outcome: Outcome)
      requires Valid() && name !in files
      modifies `files, `input, `trace, dataBuff
      ensures (var s := Run(old(input), client, limit, START);
               && s.used <= |old(input)| && input == old(input)[s.used..] && outcome == s.outcome
               && trace == old(trace) + ([Send(client, Ack(0))] + s.trace)
               && files == AfterSession(old(files), name, s))
    {
      ghost var s := Run(input, client, limit, START);
      AfterFresh(files, name, s);
      files := files[name := []];
      SendAck(0, client);
      outcome := ReceivingDataMode(name, client);
      Assoc(old(trace), [Send(client, Ack(0))], s.trace);
    }

    /** The first half of a round: clears the buffers and takes the next datagram for a request. */
    method ReceiveRequest() returns (opcode: int, client: Addr)
      requires Valid() && input != [] && input[0].Datagram?
      modifies `input, dataBuff, wrqBuff, fileName
      ensures Valid() && input == old(input)[1..] && client == old(input)[0].from
      ensures opcode == RequestOpcode(old(input)[0].bytes)
      ensures StoredName() == Renamed(old(StoredName()), RequestName(old(input)[0].bytes))
    {
      ghost var bytes := input[0].bytes;
      var size;
      Memset(wrqBuff);
      Memset(dataBuff);
      size, client := Recvfrom(wrqBuff);
      assert wrqBuff[..] == Padded(bytes);
      opcode := WrqParser();
    }

    /** One round of the loop of `main`: takes the next datagram and answers it. */
    method Round() returns (idle: bool, ghost turn: Turn)
      requires Valid() && input != [] && input[0].Datagram?
      modifies `files, `input, `trace, dataBuff, wrqBuff, fileName
      ensures Valid() && |input| < |old(input)|
      ensures Serve(old(input), limit, Host(old(files), old(StoredName())))
           == First(turn, Remains(input, limit, Host(files, StoredName()), idle))
      ensures trace == old(trace) + TraceOf([turn])
    {
      ghost var was, h := input, Host(files, StoredName());
      var opcode, client := ReceiveRequest();
      ServeDatagram(was, limit, h);
      ghost var asked := RequestName(was[0].bytes);
      idle := true;
      if opcode != WRQ_OPCODE {
        SendError(DATA_BEFORE_WRQ, UNKNOWN_USER, client);
        turn := Refused(client, asked, Error(DATA_BEFORE_WRQ, UNKNOWN_USER));
      } else {
        var served := CString(fileName[..]);
        if served in files {
          SendError(FILE_EXISTS, EXISTS, client);
          turn := Refused(client, asked, Error(FILE_EXISTS, EXISTS));
        } else {
          ghost var s := Run(input, client, limit, START);
          ServeSession(was, limit, h, s);
          var outcome := Admit(served, client);
          idle := outcome == Completed || outcome == Aborted;
          turn := Served(client, asked, served, s);
        }
      }
    }

    /** The endless loop of `main`, for as long as the socket brings something. */
    method Loop() returns (idle: bool)
      requires Valid()
      modifies `files, `input, `trace, dataBuff, wrqBuff, fileName
      ensures Valid()
      ensures (var v := Serve(old(input), limit, Host(old(files), old(StoredName())));
               && files == v.host.files && StoredName() == v.host.stored
               && trace == old(trace) + TraceOf(v.turns) && idle == v.idle)
    {
      ghost var v, turns := Serve(input, limit, Host(files, StoredName())), [];
      idle := true;
      while idle && input != []
        invariant Valid() && trace == old(trace) + TraceOf(turns)
        invariant v == Resume(turns, Remains(input, limit, Host(files, StoredName()), idle))
        decreases |input|, idle
      {
        if input[0].Timeout? {
          // recvfrom goes on waiting
          input := input[1..];
        } else {
          ghost var turn;
          idle, turn := Round();
          TurnTaken(turns, turn, Remains(input, limit, Host(files, StoredName()), idle));
          Assoc(old(trace), TraceOf(turns), TraceOf([turn]));
          turns := turns + [turn];
        }
      }
      assert turns + [] == turns;
    }
  }
}

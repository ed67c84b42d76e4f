/** The loop around the sessions: which requests the server takes, and what becomes of its files. */
module FileServer {
  import opened WriteSession
  import opened Delivery

  type Name = seq<Byte>

  // ---------- requests ----------

  /** A C string: the bytes before the first zero. */
  function CString(s: seq<Byte>): seq<Byte> {
    if s == [] || s[0] == 0 then [] else [s[0]] + CString(s[1..])
  }

  /** The first zero byte, or the end, decides the string. */
  lemma {:induction false} CStringEnds(s: seq<Byte>, n: nat)
    requires n <= |s| && (forall i | 0 <= i < n :: s[i] != 0) && (n < |s| ==> s[n] == 0)
    ensures CString(s) == s[..n]
  {
    if n > 0 {
      CStringEnds(s[1..], n - 1);
      assert s[1..][..n - 1] == s[1..n] && [s[0]] + s[1..n] == s[..n];
    }
  }

  lemma {:induction false} CStringIs(s: seq<Byte>)
    ensures |CString(s)| <= |s| && CString(s) == s[..|CString(s)|]
    ensures forall i | 0 <= i < |CString(s)| :: s[i] != 0
    ensures |CString(s)| < |s| ==> s[|CString(s)|] == 0
  {
    if s != [] && s[0] != 0 {
      CStringIs(s[1..]);
    }
  }

  /** The request buffer is cleared before every datagram. */
  function Padded(bytes: seq<Byte>): (r: seq<Byte>)
    ensures |r| == PACKET_SIZE
  {
    Received(bytes) + seq(PACKET_SIZE - |Received(bytes)|, _ => 0)
  }

  function RequestOpcode(bytes: seq<Byte>): int { U16(Padded(bytes)[0], Padded(bytes)[1]) }

  function RequestName(bytes: seq<Byte>): Name { CString(Padded(bytes)[2..]) }

  /** A request is two bytes of opcode, a name, a zero and whatever follows. */
  lemma RequestIsRead(hi: Byte, lo: Byte, name: Name, more: seq<Byte>)
    requires (forall i | 0 <= i < |name| :: name[i] != 0) && |name| <= PACKET_SIZE - 3
    ensures RequestOpcode([hi, lo] + name + [0] + more) == 256 * hi + lo
    ensures RequestName([hi, lo] + name + [0] + more) == name
  {
    var bytes := [hi, lo] + name + [0] + more;
    var text := Padded(bytes)[2..];
    assert text[..|name|] == name && text[|name|] == 0;
    CStringEnds(text, |name|);
  }

  /** The name is copied over the name of the request before, without its terminating zero. */
  function Renamed(stored: Name, name: Name): Name {
    if |stored| <= |name| then name else name + stored[|name|..]
  }

  /** The server takes the name that was asked for if and only if the one it holds is not longer. */
  lemma TakenByName(stored: Name, name: Name)
    ensures Renamed(stored, name) == name <==> |stored| <= |name|
    ensures |Renamed(stored, name)| == if |stored| <= |name| then |name| else |stored|
  {
  }

  // ---------- service ----------

  /** The disk, and the name left in the request structure. */
  datatype Host = Host(files: map<Name, seq<Byte>>, stored: Name)

  /** One round of the loop: the name asked for, and how the request was answered. */
  datatype Turn =
    | Refused(to: Addr, asked: Name, reply: Reply)
    | Served(client: Addr, asked: Name, name: Name, session: Session)

  /** What came of a stream of events; `idle` when the server is back at the top of its loop. */
  datatype Service = Service(host: Host, turns: seq<Turn>, idle: bool)

  /** What a session does to the disk. */
  function AfterSession(files: map<Name, seq<Byte>>, name: Name, s: Session): map<Name, seq<Byte>> {
    if s.outcome == Aborted then files - {name} else files[name := FileOf(s.trace)]
  }

  function Over(s: Session): bool { s.outcome == Completed || s.outcome == Aborted }

  function First(turn: Turn, rest: Service): Service {
    rest.(turns := [turn] + rest.turns)
  }

  lemma UsedWithin(ev: seq<Event>, c: Addr, limit: int)
    ensures Run(ev, c, limit, START).used <= |ev|
  {
    SessionBound(ev, c, limit);
  }

  /** The answer that turns a request away, if it is turned away. */
  function Refusal(bytes: seq<Byte>, name: Name, files: map<Name, seq<Byte>>): seq<Reply> {
    if RequestOpcode(bytes) != WRQ_OPCODE then [Error(DATA_BEFORE_WRQ, UNKNOWN_USER)]
    else if name in files then [Error(FILE_EXISTS, EXISTS)]
    else []
  }

  function Serve(ev: seq<Event>, limit: int, h: Host): Service
    decreases |ev|
  {
    if ev == [] then Service(h, [], true)
    else
      match ev[0]
      // an idle server waits without a limit
      case Timeout => Serve(ev[1..], limit, h)
      case Datagram(from, bytes) =>
        var asked := RequestName(bytes);
        var name := Renamed(h.stored, asked);
        var refusal := Refusal(bytes, name, h.files);
        if refusal != [] then First(Refused(from, asked, refusal[0]), Serve(ev[1..], limit, h.(stored := name)))
        else
          var s := Run(ev[1..], from, limit, START);
          var h' := Host(AfterSession(h.files, name, s), name);
          UsedWithin(ev[1..], from, limit);
          if Over(s)
          then First(Served(from, asked, name, s), Serve(ev[1..][s.used..], limit, h'))
          else Service(h', [Served(from, asked, name, s)], false)
  }

  /** What the server sent and did in its turns. */
  function TraceOf(turns: seq<Turn>): seq<Action> {
    if turns == [] then []
    else
      (match turns[0]
       case Refused(to, _, reply) => [Send(to, reply)]
       case Served(c, _, _, s) => [Send(c, Ack(0))] + s.trace)
      + TraceOf(turns[1..])
  }

  // ---------- the files ----------

  /** Turn `i` is why the file `n` is on the disk: its session is complete, or still under way. */
  predicate Accounts(v: Service, i: int, n: Name) {
    && 0 <= i < |v.turns| && v.turns[i].Served? && v.turns[i].name == n
    && (v.turns[i].session.outcome == Completed || (!v.idle && i == |v.turns| - 1 && !Over(v.turns[i].session)))
  }

  /** What service does to the disk: files that were there stay as they are; a completed session has
      stored its file under a name that was free, and it stays; and there is nothing else, except for the
      file of a session under way. */
  ghost predicate KeepsFiles(files: map<Name, seq<Byte>>, v: Service) {
    && (forall n | n in files :: n in v.host.files && v.host.files[n] == files[n])
    && (forall i | 0 <= i < |v.turns| && v.turns[i].Served? && v.turns[i].session.outcome == Completed ::
          && v.turns[i].name !in files && v.turns[i].name in v.host.files
          && v.host.files[v.turns[i].name] == FileOf(v.turns[i].session.trace))
    && (forall n | n in v.host.files && n !in files :: exists i :: Accounts(v, i, n))
  }

  lemma AccountsLater(t: Turn, rest: Service, i: int, n: Name)
    requires Accounts(rest, i, n)
    ensures Accounts(First(t, rest), i + 1, n)
  {
  }

  lemma KeepsAfterRefusal(files: map<Name, seq<Byte>>, t: Turn, rest: Service)
    requires t.Refused? && KeepsFiles(files, rest)
    ensures KeepsFiles(files, First(t, rest))
  {
    var v := First(t, rest);
    forall n | n in v.host.files && n !in files ensures exists i :: Accounts(v, i, n) {
      var i :| Accounts(rest, i, n);
      AccountsLater(t, rest, i, n);
    }
  }

  lemma KeepsAfterSession(files: map<Name, seq<Byte>>, t: Turn, rest: Service)
    requires t.Served? && t.name !in files && Over(t.session)
    requires KeepsFiles(AfterSession(files, t.name, t.session), rest)
    ensures KeepsFiles(files, First(t, rest))
  {
    var v := First(t, rest);
    var files' := AfterSession(files, t.name, t.session);
    forall n | n in files ensures n in v.host.files && v.host.files[n] == files[n] {
      assert n in files';
    }
    forall n | n in v.host.files && n !in files ensures exists i :: Accounts(v, i, n) {
      if n in files' {
        assert Accounts(v, 0, n);
      } else {
        var i :| Accounts(rest, i, n);
        AccountsLater(t, rest, i, n);
      }
    }
  }

  lemma KeepsDuringSession(files: map<Name, seq<Byte>>, t: Turn, stored: Name)
    requires t.Served? && t.name !in files && !Over(t.session)
    ensures KeepsFiles(files, Service(Host(AfterSession(files, t.name, t.session), stored), [t], false))
  {
    var v := Service(Host(AfterSession(files, t.name, t.session), stored), [t], false);
    assert Accounts(v, 0, t.name);
  }

  /** The file invariant of the whole server, over any stream of events. */
  lemma {:induction false} FilesAreSafe(ev: seq<Event>, limit: int, h: Host)
    ensures KeepsFiles(h.files, Serve(ev, limit, h))
    decreases |ev|
  {
    if ev != [] {
      match ev[0]
      case Timeout => FilesAreSafe(ev[1..], limit, h);
      case Datagram(from, bytes) =>
        var asked := RequestName(bytes);
        var name := Renamed(h.stored, asked);
        var refusal := Refusal(bytes, name, h.files);
        if refusal != [] {
          FilesAreSafe(ev[1..], limit, h.(stored := name));
          KeepsAfterRefusal(h.files, Refused(from, asked, refusal[0]), Serve(ev[1..], limit, h.(stored := name)));
        } else {
          var s := Run(ev[1..], from, limit, START);
          var h' := Host(AfterSession(h.files, name, s), name);
          UsedWithin(ev[1..], from, limit);
          if Over(s) {
            FilesAreSafe(ev[1..][s.used..], limit, h');
            KeepsAfterSession(h.files, Served(from, asked, name, s), Serve(ev[1..][s.used..], limit, h'));
          } else {
            KeepsDuringSession(h.files, Served(from, asked, name, s), name);
          }
        }
    }
  }

  /** Idle, the server has the files it began with and those of its completed sessions. */
  lemma IdleFiles(ev: seq<Event>, limit: int, h: Host, n: Name)
    requires Serve(ev, limit, h).idle
    ensures (var v := Serve(ev, limit, h);
             n in v.host.files <==>
               n in h.files
               || exists i :: 0 <= i < |v.turns| && v.turns[i].Served? && v.turns[i].name == n
                              && v.turns[i].session.outcome == Completed)
  {
    var v := Serve(ev, limit, h);
    FilesAreSafe(ev, limit, h);
    if n in v.host.files && n !in h.files {
      var i :| Accounts(v, i, n);
      assert v.turns[i].Served? && v.turns[i].name == n && v.turns[i].session.outcome == Completed;
    }
  }

  // ---------- the sessions ----------

  /** The turn answers the datagram before position `k` of the stream with a session on the rest. */
  predicate Answers(t: Turn, ev: seq<Event>, limit: int, k: int) {
    && t.Served? && 1 <= k <= |ev|
    && ev[k - 1].Datagram? && ev[k - 1].from == t.client
    && RequestOpcode(ev[k - 1].bytes) == WRQ_OPCODE && RequestName(ev[k - 1].bytes) == t.asked
    && t.session == Run(ev[k..], t.client, limit, START)
  }

  ghost predicate Answered(t: Turn, ev: seq<Event>, limit: int) {
    t.Served? ==> exists k :: Answers(t, ev, limit, k)
  }

  lemma AnsweredLater(t: Turn, ev: seq<Event>, limit: int, n: nat)
    requires n <= |ev| && Answered(t, ev[n..], limit)
    ensures Answered(t, ev, limit)
  {
    if t.Served? {
      var k :| Answers(t, ev[n..], limit, k);
      assert ev[n..][k..] == ev[n + k..];
      assert Answers(t, ev, limit, n + k);
    }
  }

  /** The first turn of a stream that begins with a request. */
  lemma FirstAnswers(ev: seq<Event>, limit: int, h: Host)
    requires ev != [] && ev[0].Datagram?
    ensures Serve(ev, limit, h).turns != [] && Answered(Serve(ev, limit, h).turns[0], ev, limit)
  {
    var t := Serve(ev, limit, h).turns[0];
    if t.Served? {
      assert Answers(t, ev, limit, 1);
    }
  }

  /** Every session answers a request of its own client. */
  lemma {:induction false} SessionsAnswer(ev: seq<Event>, limit: int, h: Host, i: nat)
    requires i < |Serve(ev, limit, h).turns|
    ensures Answered(Serve(ev, limit, h).turns[i], ev, limit)
    decreases |ev|
  {
    var t := Serve(ev, limit, h).turns[i];
    match ev[0]
    case Timeout =>
      SessionsAnswer(ev[1..], limit, h, i);
      AnsweredLater(t, ev, limit, 1);
    case Datagram(from, bytes) =>
      var name := Renamed(h.stored, RequestName(bytes));
      if i == 0 {
        FirstAnswers(ev, limit, h);
      } else if Refusal(bytes, name, h.files) != [] {
        SessionsAnswer(ev[1..], limit, h.(stored := name), i - 1);
        AnsweredLater(t, ev, limit, 1);
      } else {
        var s := Run(ev[1..], from, limit, START);
        UsedWithin(ev[1..], from, limit);
        assert ev[1..][s.used..] == ev[1 + s.used..];
        SessionsAnswer(ev[1..][s.used..], limit, Host(AfterSession(h.files, name, s), name), i - 1);
        AnsweredLater(t, ev, limit, 1 + s.used);
      }
  }

  /** End to end, for the whole server: if the data packets of client c carry the chunks of one source,
      then whatever a completed session of c has stored is that source, and it is still there. */
  lemma TransfersArrive(ev: seq<Event>, limit: int, h: Host, i: nat, c: Addr, file: seq<Byte>)
    requires Honest(ev, c, file) && i < |Serve(ev, limit, h).turns|
    requires (var t := Serve(ev, limit, h).turns[i];
              t.Served? && t.client == c && t.session.outcome == Completed)
    ensures (var v := Serve(ev, limit, h);
             v.turns[i].name in v.host.files && v.host.files[v.turns[i].name] == file)
  {
    var t := Serve(ev, limit, h).turns[i];
    SessionsAnswer(ev, limit, h, i);
    FilesAreSafe(ev, limit, h);
    var k :| Answers(t, ev, limit, k);
    Delivered(ev[k..], c, limit, file);
  }

  /** No file that the server has stored reaches 65535 blocks of 512 bytes. */
  lemma StoredFilesAreSmall(ev: seq<Event>, limit: int, h: Host, n: Name)
    requires Serve(ev, limit, h).idle
    ensures (var files := Serve(ev, limit, h).host.files;
             n in files && n !in h.files ==> |files[n]| < 65535 * DATA_SIZE)
  {
    var v := Serve(ev, limit, h);
    FilesAreSafe(ev, limit, h);
    if n in v.host.files && n !in h.files {
      var i :| Accounts(v, i, n);
      SessionsAnswer(ev, limit, h, i);
      var k :| Answers(v.turns[i], ev, limit, k);
      CompletedIsSmall(ev[k..], v.turns[i].client, limit);
    }
  }

  // ---------- the names ----------

  /** The name that was asked for is the name served exactly when no longer one was asked for before. */
  ghost predicate NamedRight(v: Service, stored: Name, i: int)
    requires 0 <= i < |v.turns| && v.turns[i].Served?
  {
    var t := v.turns[i];
    t.name == t.asked <==> |stored| <= |t.asked| && forall j | 0 <= j < i :: |v.turns[j].asked| <= |t.asked|
  }

  lemma NamedRightLater(t: Turn, rest: Service, stored: Name, i: int)
    requires 0 <= i < |rest.turns| && rest.turns[i].Served?
    requires NamedRight(rest, Renamed(stored, t.asked), i)
    ensures NamedRight(First(t, rest), stored, i + 1)
  {
    var v := First(t, rest);
    TakenByName(stored, t.asked);
    assert forall j | 0 <= j < i :: v.turns[j + 1] == rest.turns[j];
    var mine := rest.turns[i];
    if |stored| <= |mine.asked| && forall j | 0 <= j < i + 1 :: |v.turns[j].asked| <= |mine.asked| {
      assert |v.turns[0].asked| <= |mine.asked|;
      forall j | 0 <= j < i ensures |rest.turns[j].asked| <= |mine.asked| {
        assert |v.turns[j + 1].asked| <= |mine.asked|;
      }
    }
    if mine.name == mine.asked {
      forall j | 0 <= j < i + 1 ensures |v.turns[j].asked| <= |mine.asked| {
        if j > 0 { assert v.turns[j] == rest.turns[j - 1]; }
      }
    }
  }

  /** After a datagram with the name `ab`, refused or not, a request for `c` creates `cb`. */
  lemma StaleName(c: Addr, limit: int)
    ensures (var v := Serve([Datagram(c, [0, 1, 97, 98]), Datagram(c, [0, WRQ_OPCODE, 99])], limit, Host(map[], []));
             |v.turns| == 2 && v.turns[1] == Served(c, [99], [99, 98], Session(Waiting, [], 0, 0)))
  {
    var long, short := [0, 1, 97, 98], [0, WRQ_OPCODE, 99];
    CStringEnds(Padded(long)[2..], 2);
    assert Padded(long)[2..][..2] == [97, 98];
    CStringEnds(Padded(short)[2..], 1);
    assert Padded(short)[2..][..1] == [99];
    var ev := [Datagram(c, long), Datagram(c, short)];
    assert ev[1..] == [Datagram(c, short)] && ev[1..][1..] == [];
    assert Renamed([], [97, 98]) == [97, 98] && Renamed([97, 98], [99]) == [99, 98];
    assert Serve(ev[1..], limit, Host(map[], [97, 98])).turns
        == [Served(c, [99], [99, 98], Session(Waiting, [], 0, 0))];
  }

  /** A file is created under the name asked for if and only if no datagram the idle server has read
      before carried a longer name. */
  lemma {:induction false} NamesAreRight(ev: seq<Event>, limit: int, h: Host, i: nat)
    requires i < |Serve(ev, limit, h).turns| && Serve(ev, limit, h).turns[i].Served?
    ensures NamedRight(Serve(ev, limit, h), h.stored, i)
    decreases |ev|
  {
    match ev[0]
    case Timeout => NamesAreRight(ev[1..], limit, h, i);
    case Datagram(from, bytes) =>
      var asked := RequestName(bytes);
      var name := Renamed(h.stored, asked);
      var refusal := Refusal(bytes, name, h.files);
      TakenByName(h.stored, asked);
      if i > 0 {
        if refusal != [] {
          NamesAreRight(ev[1..], limit, h.(stored := name), i - 1);
          NamedRightLater(Refused(from, asked, refusal[0]), Serve(ev[1..], limit, h.(stored := name)), h.stored, i - 1);
        } else {
          var s := Run(ev[1..], from, limit, START);
          var h' := Host(AfterSession(h.files, name, s), name);
          UsedWithin(ev[1..], from, limit);
          NamesAreRight(ev[1..][s.used..], limit, h', i - 1);
          NamedRightLater(Served(from, asked, name, s), Serve(ev[1..][s.used..], limit, h'), h.stored, i - 1);
        }
      }
  }
}

/** What the shim does with the output of a container while clients attach and leave:
    `stdout_cb`, `stderr_cb`, `attach_cb` and the failure path of `attach_stdin_cb`. */
module AttachFanout {
  import opened LogSegments

  const MAX_ATTACH_NUM := 16

  /** An attached client: the FIFO its output goes to, and the descriptors the shim opened for it. */
  datatype Client = Client(fifo: nat, fds: set<int>)

  /** A write either delivers everything or fails after some bytes. */
  datatype Outcome = Done | Failed(sent: nat)

  datatype Source = Stdout | Stderr

  /** One of the two descriptors towards the daemon. */
  datatype Sink = Sink(open: bool, got: seq<byte>)

  datatype State = State(clients: seq<Client>, fifos: map<nat, seq<byte>>, out: Sink, err: Sink)

  datatype Event =
    | Output(source: Source, chunk: seq<byte>, daemon: Outcome, write: nat -> Outcome)
    | Attach(accepted: bool, fds: set<int>, watched: bool, conn: int)
    | StdinEnds(fd: int)

  const INIT := State([], map[], Sink(true, []), Sink(true, []))

  // ---------------------------------------------------------------- one event

  function Sent(chunk: seq<byte>, o: Outcome): (r: seq<byte>)
    ensures r <= chunk
    ensures o.Done? ==> r == chunk
  {
    match o
    case Done => chunk
    case Failed(k) => if k < |chunk| then chunk[..k] else chunk
  }

  function Got(fifos: map<nat, seq<byte>>, fifo: nat): seq<byte>
  {
    if fifo in fifos then fifos[fifo] else []
  }

  function Deliver(fifos: map<nat, seq<byte>>, fifo: nat, bytes: seq<byte>): map<nat, seq<byte>>
  {
    fifos[fifo := Got(fifos, fifo) + bytes]
  }

  function SinkWrite(k: Sink, chunk: seq<byte>, o: Outcome): Sink
  {
    if k.open then Sink(o.Done?, k.got + Sent(chunk, o)) else k
  }

  /** The loop over the list: every client is written to, and one whose write fails is removed. */
  function Fan(clients: seq<Client>, fifos: map<nat, seq<byte>>, chunk: seq<byte>, write: nat -> Outcome)
    : (r: (seq<Client>, map<nat, seq<byte>>))
    ensures |r.0| <= |clients|
  {
    if clients == [] then ([], fifos)
    else
      var c := clients[0];
      var o := write(c.fifo);
      var r := Fan(clients[1..], Deliver(fifos, c.fifo, Sent(chunk, o)), chunk, write);
      (if o.Done? then [c] + r.0 else r.0, r.1)
  }

  /** `get_attach_fifo_item`: where the first client with this descriptor is; `|clients|` if none. */
  function Holder(clients: seq<Client>, fd: int): (i: nat)
    ensures i <= |clients|
    ensures i < |clients| ==> fd in clients[i].fds
    ensures forall k :: 0 <= k < i ==> fd !in clients[k].fds || fd <= 0
  {
    if clients == [] then 0
    else if fd > 0 && fd in clients[0].fds then 0
    else 1 + Holder(clients[1..], fd)
  }

  function RemoveHolder(clients: seq<Client>, fd: int): (r: seq<Client>)
    ensures |r| <= |clients|
  {
    var i := Holder(clients, fd);
    if i < |clients| then clients[..i] + clients[i + 1..] else clients
  }

  predicate Room(s: State)
  {
    |s.clients| < MAX_ATTACH_NUM
  }

  function Joined(s: State, fifo: nat, fds: set<int>): State
  {
    s.(clients := [Client(fifo, fds)] + s.clients, fifos := s.fifos[fifo := []])
  }

  function Attached(s: State, fifo: nat, e: Event): State
    requires e.Attach?
  {
    if !e.accepted || !Room(s) then s
    else
      var t := Joined(s, fifo, e.fds);
      if e.watched then t else t.(clients := RemoveHolder(t.clients, e.conn))
  }

  function Spread(s: State, e: Event): State
    requires e.Output?
  {
    if e.chunk == [] then s
    else
      var r := Fan(s.clients, s.fifos, e.chunk, e.write);
      State(r.0, r.1,
            if e.source.Stdout? then SinkWrite(s.out, e.chunk, e.daemon) else s.out,
            if e.source.Stderr? then SinkWrite(s.err, e.chunk, e.daemon) else s.err)
  }

  function Step(s: State, fifo: nat, e: Event): State
  {
    match e
    case Output(_, _, _, _) => Spread(s, e)
    case Attach(_, _, _, _) => Attached(s, fifo, e)
    case StdinEnds(fd) => s.(clients := RemoveHolder(s.clients, fd))
  }

  /** The answer on the connection: 0 for success. */
  function Answer(s: State, e: Event): int
    requires e.Attach?
  {
    if e.accepted && Room(s) && e.watched then 0 else -1
  }

  // ---------------------------------------------------------------- the code

  class Process {
    var clients: seq<Client>
    var fifos: map<nat, seq<byte>>
    var out: Sink
    var err: Sink

    ghost function View(): State
      reads this
    {
      State(clients, fifos, out, err)
    }

    constructor ()
      ensures View() == INIT
    {
      clients, fifos, out, err := [], map[], Sink(true, []), Sink(true, []);
    }

    method Write(fifo: nat, chunk: seq<byte>, o: Outcome) returns (count: int)
      modifies `fifos
      ensures fifos == Deliver(old(fifos), fifo, Sent(chunk, o))
      ensures count < 0 <==> o.Failed?
    {
      fifos := Deliver(fifos, fifo, Sent(chunk, o));
      count := if o.Done? then |chunk| else -1;
    }

    /** The list is walked while failing clients are taken out of it. */
    method WriteClients(chunk: seq<byte>, write: nat -> Outcome)
      modifies `clients, `fifos
      ensures (clients, fifos) == Fan(old(clients), old(fifos), chunk, write)
    {
      hide Fan, Deliver, Sent;
      var i := 0;
      ghost var all := Fan(clients, fifos, chunk, write);
      assert clients[0..] == clients && clients[..0] + all.0 == all.0;
      while i < |clients|
        invariant 0 <= i <= |clients|
        invariant all.0 == clients[..i] + Fan(clients[i..], fifos, chunk, write).0
        invariant all.1 == Fan(clients[i..], fifos, chunk, write).1
        decreases |clients| - i
      {
        FanNext(clients, i, fifos, chunk, write);
        ghost var before := clients;
        var count := Write(clients[i].fifo, chunk, write(clients[i].fifo));
        if count < 0 {
          clients := clients[..i] + clients[i + 1..];
          CutEnds(before, i);
        } else {
          i := i + 1;
        }
      }
      FanEnds(clients, fifos, chunk, write);
    }

    method StdoutCb(chunk: seq<byte>, daemon: Outcome, write: nat -> Outcome)
      modifies this
      ensures View() == Step(old(View()), 0, Output(Stdout, chunk, daemon, write))
    {
      if |chunk| == 0 {
        return;
      }
      if out.open {
        out := Sink(daemon.Done?, out.got + Sent(chunk, daemon));
      }
      WriteClients(chunk, write);
    }

    method StderrCb(chunk: seq<byte>, daemon: Outcome, write: nat -> Outcome)
      modifies this
      ensures View() == Step(old(View()), 0, Output(Stderr, chunk, daemon, write))
    {
      if |chunk| == 0 {
        return;
      }
      if err.open {
        err := Sink(daemon.Done?, err.got + Sent(chunk, daemon));
      }
      WriteClients(chunk, write);
    }

    method GetAttachFifoItem(fd: int) returns (i: nat)
      ensures i == Holder(clients, fd)
    {
      if fd <= 0 {
        NoHolder(clients, fd);
        return |clients|;
      }
      i := 0;
      while i < |clients| && fd !in clients[i].fds
        invariant 0 <= i <= |clients|
        invariant Holder(clients, fd) == i + Holder(clients[i..], fd)
      {
        assert clients[i..][1..] == clients[i + 1..];
        i := i + 1;
      }
    }

    method RemoveAttachTerminalFifos(fd: int)
      modifies `clients
      ensures clients == RemoveHolder(old(clients), fd)
    {
      var i := GetAttachFifoItem(fd);
      if i < |clients| {
        clients := clients[..i] + clients[i + 1..];
      }
    }

    method AttachStdinFails(fd: int)
      modifies this
      ensures View() == Step(old(View()), 0, StdinEnds(fd))
    {
      RemoveAttachTerminalFifos(fd);
    }

    /** `fifo` names the FIFO the request gives for the client's output. */
    method AttachCb(fifo: nat, accepted: bool, fds: set<int>, watched: bool, conn: int) returns (status: int)
      modifies this
      ensures View() == Step(old(View()), fifo, Attach(accepted, fds, watched, conn))
      ensures status == Answer(old(View()), Attach(accepted, fds, watched, conn))
    {
      status := -1;
      if |clients| >= MAX_ATTACH_NUM || !accepted {
        return;
      }
      clients := [Client(fifo, fds)] + clients;
      fifos := fifos[fifo := []];
      if !watched {
        RemoveAttachTerminalFifos(conn);
        return;
      }
      status := 0;
    }
  }

  lemma FanNext(cs: seq<Client>, i: nat, fifos: map<nat, seq<byte>>, chunk: seq<byte>, write: nat -> Outcome)
    requires i < |cs|
    ensures
      var o := write(cs[i].fifo);
      var here := Fan(cs[i..], fifos, chunk, write);
      var next := Fan(cs[i + 1..], Deliver(fifos, cs[i].fifo, Sent(chunk, o)), chunk, write);
      && here.1 == next.1
      && cs[..i] + here.0 == (if o.Done? then cs[..i + 1] else cs[..i]) + next.0
  {
    assert cs[i..][1..] == cs[i + 1..];
    assert cs[..i + 1] == cs[..i] + [cs[i]];
  }

  lemma FanEnds(cs: seq<Client>, fifos: map<nat, seq<byte>>, chunk: seq<byte>, write: nat -> Outcome)
    ensures cs[..|cs|] + Fan(cs[|cs|..], fifos, chunk, write).0 == cs
    ensures Fan(cs[|cs|..], fifos, chunk, write).1 == fifos
  {
  }

  lemma CutEnds(cs: seq<Client>, i: nat)
    requires i < |cs|
    ensures (cs[..i] + cs[i + 1..])[..i] == cs[..i] && (cs[..i] + cs[i + 1..])[i..] == cs[i + 1..]
  {
  }

  lemma {:induction false} NoHolder(clients: seq<Client>, fd: int)
    requires fd <= 0
    ensures Holder(clients, fd) == |clients|
  {
    if clients != [] {
      NoHolder(clients[1..], fd);
    }
  }

  // ---------------------------------------------------------------- whole runs

  /** A client is named by the number of the event that attached it. */
  function Run(es: seq<Event>): State
  {
    if es == [] then INIT else Step(Run(es[..|es| - 1]), |es| - 1, es[|es| - 1])
  }

  /** What the operating system guarantees: a descriptor just opened is no other open one. */
  ghost predicate Legal(s: State, e: Event)
  {
    e.Attach? ==> e.conn !in e.fds && forall c :: c in s.clients ==> c.fds !! e.fds && e.conn !in c.fds
  }

  ghost predicate LegalRun(es: seq<Event>)
  {
    es != [] ==> LegalRun(es[..|es| - 1]) && Legal(Run(es[..|es| - 1]), es[|es| - 1])
  }

  function Bytes(e: Event): seq<byte>
  {
    if e.Output? then e.chunk else []
  }

  function Outputs(es: seq<Event>): seq<byte>
  {
    if es == [] then [] else Outputs(es[..|es| - 1]) + Bytes(es[|es| - 1])
  }

  function From(source: Source, es: seq<Event>): seq<byte>
  {
    if es == [] then []
    else
      var e := es[|es| - 1];
      From(source, es[..|es| - 1]) + (if e.Output? && e.source == source then e.chunk else [])
  }

  /** The events that end a client: its FIFO cannot be written, or its input ends. */
  predicate Drops(e: Event, c: Client)
  {
    match e
    case Output(_, chunk, _, write) => chunk != [] && write(c.fifo).Failed?
    case Attach(_, _, _, _) => false
    case StdinEnds(fd) => fd > 0 && fd in c.fds
  }

  /** Newest first, and no descriptor shared. */
  ghost predicate Apart(cs: seq<Client>)
  {
    && (forall i, j :: 0 <= i < j < |cs| ==> cs[j].fifo < cs[i].fifo)
    && forall i, j :: 0 <= i < j < |cs| ==> cs[i].fds !! cs[j].fds
  }

  ghost predicate Named(cs: seq<Client>, n: nat)
  {
    forall c :: c in cs ==> c.fifo < n
  }

  /** What one client gets out of one event. */
  ghost predicate Served(s: State, t: State, e: Event, c: Client)
  {
    && (c in t.clients <==> c in s.clients && !Drops(e, c))
    && (c in t.clients ==> Got(t.fifos, c.fifo) == Got(s.fifos, c.fifo) + Bytes(e))
    && (c in s.clients ==> Got(t.fifos, c.fifo) <= Got(s.fifos, c.fifo) + Bytes(e))
    && (c !in s.clients ==> Got(t.fifos, c.fifo) == Got(s.fifos, c.fifo))
  }

  // -- the loop over the list

  lemma {:induction false} FanElsewhere(cs: seq<Client>, fifos: map<nat, seq<byte>>, chunk: seq<byte>,
                                        write: nat -> Outcome, f: nat)
    requires forall c :: c in cs ==> c.fifo != f
    ensures Got(Fan(cs, fifos, chunk, write).1, f) == Got(fifos, f)
  {
    if cs != [] {
      FanElsewhere(cs[1..], Deliver(fifos, cs[0].fifo, Sent(chunk, write(cs[0].fifo))), chunk, write, f);
    }
  }

  lemma {:induction false} FanKeeps(cs: seq<Client>, fifos: map<nat, seq<byte>>, chunk: seq<byte>,
                                    write: nat -> Outcome, c: Client)
    ensures c in Fan(cs, fifos, chunk, write).0 <==> c in cs && write(c.fifo).Done?
  {
    if cs != [] {
      FanKeeps(cs[1..], Deliver(fifos, cs[0].fifo, Sent(chunk, write(cs[0].fifo))), chunk, write, c);
    }
  }

  lemma {:induction false} FanDelivers(cs: seq<Client>, fifos: map<nat, seq<byte>>, chunk: seq<byte>,
                                       write: nat -> Outcome, c: Client)
    requires Apart(cs) && c in cs
    ensures Got(Fan(cs, fifos, chunk, write).1, c.fifo) == Got(fifos, c.fifo) + Sent(chunk, write(c.fifo))
  {
    var next := Deliver(fifos, cs[0].fifo, Sent(chunk, write(cs[0].fifo)));
    if c == cs[0] {
      FanElsewhere(cs[1..], next, chunk, write, c.fifo);
    } else {
      FanDelivers(cs[1..], next, chunk, write, c);
    }
  }

  lemma {:induction false} FanApart(cs: seq<Client>, fifos: map<nat, seq<byte>>, chunk: seq<byte>, write: nat -> Outcome)
    requires Apart(cs)
    ensures Apart(Fan(cs, fifos, chunk, write).0)
  {
    if cs != [] {
      var next := Deliver(fifos, cs[0].fifo, Sent(chunk, write(cs[0].fifo)));
      FanApart(cs[1..], next, chunk, write);
      var rest := Fan(cs[1..], next, chunk, write).0;
      forall i | 0 <= i < |rest|
        ensures rest[i].fifo < cs[0].fifo && rest[i].fds !! cs[0].fds
      {
        FanKeeps(cs[1..], next, chunk, write, rest[i]);
        assert rest[i] in cs[1..];
      }
    }
  }

  // -- removal

  lemma CutApart(cs: seq<Client>, i: nat)
    requires Apart(cs) && i < |cs|
    ensures Apart(cs[..i] + cs[i + 1..])
  {
    var r := cs[..i] + cs[i + 1..];
    forall a, b | 0 <= a < b < |r|
      ensures r[b].fifo < r[a].fifo && r[a].fds !! r[b].fds
    {
      assert r[a] == cs[if a < i then a else a + 1] && r[b] == cs[if b < i then b else b + 1];
    }
  }

  lemma CutIs(cs: seq<Client>, i: nat, c: Client)
    requires Apart(cs) && i < |cs|
    ensures c in cs[..i] + cs[i + 1..] <==> c in cs && c != cs[i]
  {
    var r := cs[..i] + cs[i + 1..];
    if c in r {
      var k :| 0 <= k < |r| && r[k] == c;
      assert c == cs[if k < i then k else k + 1];
    }
    if c in cs && c != cs[i] {
      var k :| 0 <= k < |cs| && cs[k] == c;
      assert c == r[if k < i then k else k - 1];
    }
  }

  lemma OneHolder(cs: seq<Client>, i: nat, fd: int, c: Client)
    requires Apart(cs) && i < |cs| && c in cs && fd in cs[i].fds
    ensures fd in c.fds <==> c == cs[i]
  {
    var k :| 0 <= k < |cs| && cs[k] == c;
  }

  lemma RemoveHolderIs(cs: seq<Client>, fd: int, c: Client)
    requires Apart(cs)
    ensures Apart(RemoveHolder(cs, fd))
    ensures c in RemoveHolder(cs, fd) <==> c in cs && !(fd > 0 && fd in c.fds)
  {
    hide Holder, Apart;
    var i := Holder(cs, fd);
    if fd <= 0 {
      NoHolder(cs, fd);
    } else if i < |cs| {
      CutApart(cs, i);
      CutIs(cs, i, c);
      if c in cs {
        OneHolder(cs, i, fd, c);
      }
    }
  }

  // -- one event

  lemma OutputServes(s: State, e: Event, c: Client)
    requires e.Output? && Apart(s.clients) && (c in s.clients || forall d :: d in s.clients ==> d.fifo != c.fifo)
    ensures Served(s, Spread(s, e), e, c)
  {
    hide Fan, Apart, Got;
    var t := Spread(s, e);
    var was := Got(s.fifos, c.fifo);
    if e.chunk == [] {
      assert was + Bytes(e) == was;
    } else {
      FanKeeps(s.clients, s.fifos, e.chunk, e.write, c);
      if c in s.clients {
        FanDelivers(s.clients, s.fifos, e.chunk, e.write, c);
      } else {
        FanElsewhere(s.clients, s.fifos, e.chunk, e.write, c.fifo);
      }
    }
  }

  lemma QuietServes(s: State, t: State, e: Event, c: Client)
    requires !e.Output? && Got(t.fifos, c.fifo) == Got(s.fifos, c.fifo)
    requires c in t.clients <==> c in s.clients && !Drops(e, c)
    ensures Served(s, t, e, c)
  {
    var was := Got(s.fifos, c.fifo);
    assert was + Bytes(e) == was;
  }

  lemma JoinedApart(s: State, n: nat, fds: set<int>)
    requires Apart(s.clients) && Named(s.clients, n) && forall c :: c in s.clients ==> c.fds !! fds
    ensures Apart(Joined(s, n, fds).clients)
  {
    var cs := [Client(n, fds)] + s.clients;
    forall i | 0 < i < |cs|
      ensures cs[i].fifo < n && cs[i].fds !! fds
    {
      assert cs[i] == s.clients[i - 1] && cs[i] in s.clients;
    }
  }

  /** A request that is let in puts its client on the list, whatever the answer says. */
  lemma AttachedIs(s: State, n: nat, e: Event, c: Client)
    requires e.Attach? && Legal(s, e) && Apart(s.clients) && Named(s.clients, n)
    ensures Apart(Attached(s, n, e).clients)
    ensures c in Attached(s, n, e).clients <==> c in s.clients || (e.accepted && Room(s) && c == Client(n, e.fds))
    ensures Got(Attached(s, n, e).fifos, c.fifo) == if e.accepted && Room(s) && c.fifo == n then [] else Got(s.fifos, c.fifo)
  {
    hide Apart, RemoveHolder;
    if e.accepted && Room(s) {
      JoinedApart(s, n, e.fds);
      RemoveHolderIs(Joined(s, n, e.fds).clients, e.conn, c);
    }
  }

  lemma StepServes(s: State, n: nat, e: Event, c: Client)
    requires Legal(s, e) && Apart(s.clients) && Named(s.clients, n) && c.fifo < n
    requires c in s.clients || forall d :: d in s.clients ==> d.fifo != c.fifo
    ensures Served(s, Step(s, n, e), e, c)
  {
    hide Served, Apart, RemoveHolder, Attached, Spread, Got;
    match e
    case Output(_, _, _, _) => OutputServes(s, e, c);
    case Attach(_, _, _, _) =>
      AttachedIs(s, n, e, c);
      QuietServes(s, Step(s, n, e), e, c);
    case StdinEnds(fd) =>
      RemoveHolderIs(s.clients, fd, c);
      QuietServes(s, Step(s, n, e), e, c);
  }

  lemma StepApart(s: State, n: nat, e: Event)
    requires Legal(s, e) && Apart(s.clients) && Named(s.clients, n)
    ensures Apart(Step(s, n, e).clients) && Named(Step(s, n, e).clients, n + 1)
  {
    hide Apart, RemoveHolder, Attached, Fan;
    var t := Step(s, n, e);
    forall c | c in t.clients
      ensures c.fifo < n + 1
    {
      match e
      case Output(_, chunk, _, write) => FanKeeps(s.clients, s.fifos, chunk, write, c);
      case Attach(_, _, _, _) => AttachedIs(s, n, e, c);
      case StdinEnds(fd) => RemoveHolderIs(s.clients, fd, c);
    }
    match e
    case Output(_, chunk, _, write) => FanApart(s.clients, s.fifos, chunk, write);
    case Attach(_, fds, _, _) => AttachedIs(s, n, e, Client(n, fds));
    case StdinEnds(fd) => RemoveHolderIs(s.clients, fd, Client(n, {}));
  }

  lemma {:induction false} RunApart(es: seq<Event>)
    requires LegalRun(es)
    ensures Apart(Run(es).clients) && Named(Run(es).clients, |es|)
  {
    hide Step, Legal;
    if es != [] {
      RunApart(es[..|es| - 1]);
      StepApart(Run(es[..|es| - 1]), |es| - 1, es[|es| - 1]);
    }
  }

  /** The list never grows beyond its limit. */
  lemma {:induction false} AtMostSixteen(es: seq<Event>)
    ensures |Run(es).clients| <= MAX_ATTACH_NUM
  {
    if es != [] {
      AtMostSixteen(es[..|es| - 1]);
    }
  }

  // -- a client over a whole run

  ghost predicate Admitted(es: seq<Event>, j: nat)
    requires j < |es|
  {
    es[j].Attach? && es[j].accepted && Room(Run(es[..j]))
  }

  function ClientOf(es: seq<Event>, j: nat): Client
    requires j < |es| && es[j].Attach?
  {
    Client(j, es[j].fds)
  }

  ghost predicate Undropped(es: seq<Event>, j: nat)
    requires j < |es| && es[j].Attach?
  {
    forall k :: j < k < |es| ==> !Drops(es[k], ClientOf(es, j))
  }

  ghost predicate Fate(es: seq<Event>, j: nat)
    requires j < |es|
  {
    var s := Run(es);
    var since := Outputs(es[j + 1..]);
    && (Admitted(es, j) ==>
          && (ClientOf(es, j) in s.clients <==> Undropped(es, j))
          && (ClientOf(es, j) in s.clients ==> Got(s.fifos, j) == since)
          && Got(s.fifos, j) <= since)
    && (forall c :: c in s.clients && c.fifo == j ==> Admitted(es, j) && c == ClientOf(es, j))
  }

  lemma StepMembers(s: State, n: nat, e: Event, c: Client)
    requires Legal(s, e) && Apart(s.clients) && Named(s.clients, n)
    requires c in Step(s, n, e).clients
    ensures c in s.clients || (e.Attach? && e.accepted && Room(s) && c == Client(n, e.fds))
  {
    hide Apart, RemoveHolder, Attached, Fan;
    match e
    case Output(_, chunk, _, write) => FanKeeps(s.clients, s.fifos, chunk, write, c);
    case Attach(_, _, _, _) => AttachedIs(s, n, e, c);
    case StdinEnds(fd) => RemoveHolderIs(s.clients, fd, c);
  }

  lemma FateBegins(es: seq<Event>, j: nat)
    requires LegalRun(es) && j == |es| - 1
    ensures Fate(es, j)
  {
    hide Apart, Step, Attached, Legal, RemoveHolder;
    var p, e := es[..j], es[j];
    RunApart(p);
    forall c | c in Run(es).clients && c.fifo == j
      ensures Admitted(es, j) && c == ClientOf(es, j)
    {
      StepMembers(Run(p), j, e, c);
    }
    if Admitted(es, j) {
      StepIsAttached(Run(p), j, e);
      AttachedIs(Run(p), j, e, ClientOf(es, j));
    }
  }

  lemma StepIsAttached(s: State, n: nat, e: Event)
    requires e.Attach?
    ensures Step(s, n, e) == Attached(s, n, e)
  {
  }

  lemma OthersGoOn(es: seq<Event>, j: nat, c: Client)
    requires LegalRun(es) && j < |es| - 1 && Fate(es[..|es| - 1], j)
    requires c in Run(es).clients && c.fifo == j
    ensures Admitted(es, j) && c == ClientOf(es, j)
  {
    hide Apart, Step, Legal, Drops, Got, Room, Outputs;
    var n := |es| - 1;
    RunApart(es[..n]);
    StepMembers(Run(es[..n]), n, es[n], c);
    assert es[..n][..j] == es[..j];
  }

  lemma SinceGoesOn(es: seq<Event>, j: nat)
    requires j < |es| - 1
    ensures Outputs(es[j + 1..]) == Outputs(es[..|es| - 1][j + 1..]) + Bytes(es[|es| - 1])
  {
    var n := |es| - 1;
    assert es[j + 1..][..n - j - 1] == es[..n][j + 1..];
  }

  lemma UndroppedGoesOn(es: seq<Event>, j: nat)
    requires j < |es| - 1 && es[j].Attach?
    ensures Undropped(es, j) <==> Undropped(es[..|es| - 1], j) && !Drops(es[|es| - 1], ClientOf(es, j))
  {
    hide Drops;
    var p := es[..|es| - 1];
    assert forall k :: 0 <= k < |p| ==> p[k] == es[k];
  }

  lemma ClientGoesOn(es: seq<Event>, j: nat)
    requires LegalRun(es) && j < |es| - 1 && es[j].Attach? && Fate(es[..|es| - 1], j)
    ensures Served(Run(es[..|es| - 1]), Run(es), es[|es| - 1], ClientOf(es, j))
  {
    hide Apart, Step, Legal, Drops, Got, Served, Room, Outputs;
    var n := |es| - 1;
    RunApart(es[..n]);
    StepServes(Run(es[..n]), n, es[n], ClientOf(es, j));
  }

  lemma FateGoesOn(es: seq<Event>, j: nat)
    requires LegalRun(es) && j < |es| - 1 && Fate(es[..|es| - 1], j)
    ensures Fate(es, j)
  {
    hide Run, LegalRun, Drops, Undropped, Got, Room, Outputs, Bytes;
    forall c | c in Run(es).clients && c.fifo == j
      ensures Admitted(es, j) && c == ClientOf(es, j)
    {
      OthersGoOn(es, j, c);
    }
    if Admitted(es, j) {
      assert es[..|es| - 1][..j] == es[..j];
      ClientGoesOn(es, j);
      SinceGoesOn(es, j);
      UndroppedGoesOn(es, j);
    }
  }

  /** Every client that was let in and has not been dropped since is on the list and has received exactly
      the output read since it joined, of both streams in callback order; a dropped one has received a
      prefix of that; and nobody else is on the list. */
  lemma {:induction false} ClientFate(es: seq<Event>, j: nat)
    requires LegalRun(es) && j < |es|
    ensures Fate(es, j)
  {
    hide Fate, Run, Legal;
    if j == |es| - 1 {
      FateBegins(es, j);
    } else {
      ClientFate(es[..|es| - 1], j);
      FateGoesOn(es, j);
    }
  }

  // ---------------------------------------------------------------- the daemon's two descriptors

  /** Each of the two gets the bytes of its own stream, in order, up to the first failed write. */
  lemma {:induction false} DaemonGets(es: seq<Event>)
    ensures Run(es).out.got <= From(Stdout, es) && (Run(es).out.open ==> Run(es).out.got == From(Stdout, es))
    ensures Run(es).err.got <= From(Stderr, es) && (Run(es).err.open ==> Run(es).err.got == From(Stderr, es))
  {
    hide Fan, RemoveHolder, Sent;
    if es != [] {
      DaemonGets(es[..|es| - 1]);
    }
  }

  /** A failed write of output of one stream to the daemon. */
  predicate DaemonFails(e: Event, source: Source)
  {
    e.Output? && e.source == source && e.chunk != [] && e.daemon.Failed?
  }

  /** A descriptor is open exactly as long as no write to it has failed. */
  lemma {:induction false} DaemonOpen(es: seq<Event>)
    ensures Run(es).out.open <==> forall k :: 0 <= k < |es| ==> !DaemonFails(es[k], Stdout)
    ensures Run(es).err.open <==> forall k :: 0 <= k < |es| ==> !DaemonFails(es[k], Stderr)
  {
    hide Fan, RemoveHolder, Sent, DaemonFails;
    if es != [] {
      var n := |es| - 1;
      var front := es[..n];
      DaemonOpen(front);
      assert forall k :: 0 <= k < n ==> front[k] == es[k];
      OpenStep(Run(front), n, es[n]);
    }
  }

  lemma OpenStep(s: State, n: nat, e: Event)
    ensures Step(s, n, e).out.open <==> s.out.open && !DaemonFails(e, Stdout)
    ensures Step(s, n, e).err.open <==> s.err.open && !DaemonFails(e, Stderr)
  {
    hide Fan, RemoveHolder, Sent;
  }

  // ---------------------------------------------------------------- what the answer says

  /** An answer of 0 means that the client is on the list. The answer agrees with the list exactly unless
      the request was let in and its input could not be watched: then -1 is answered, and since the search
      is for the connection's descriptor the client stays. */
  lemma AnswerAgrees(s: State, n: nat, e: Event)
    requires e.Attach? && Legal(s, e) && Apart(s.clients) && Named(s.clients, n)
    ensures (Answer(s, e) == 0 <==> Client(n, e.fds) in Attached(s, n, e).clients) <==>
            (e.accepted && Room(s) ==> e.watched)
  {
    hide Apart, Attached, Legal;
    AttachedIs(s, n, e, Client(n, e.fds));
  }

  /** A client whose request was answered with -1 goes on receiving the container's output. */
  lemma RefusedClientStays(chunk: seq<byte>)
    ensures
      var request := Attach(true, {5, 6, 7}, false, 4);
      var es := [request, Output(Stdout, chunk, Done, f => Done)];
      && LegalRun(es)
      && Answer(INIT, request) == -1
      && Client(0, {5, 6, 7}) in Run(es).clients
      && Got(Run(es).fifos, 0) == chunk
  {
    var request := Attach(true, {5, 6, 7}, false, 4);
    var es := [request, Output(Stdout, chunk, Done, f => Done)];
    assert es[..1] == [request] && [request][..0] == [];
    assert Run([]) == INIT && LegalRun([]);
    assert LegalRun([request]);
    assert LegalRun(es);
    assert es[1..] == [es[1]] && [es[1]][..0] == [];
    assert Outputs([]) == [] && Outputs(es[1..]) == [] + chunk;
    ClientFate(es, 0);
  }
}

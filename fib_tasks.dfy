// The tasks of the cooperative Fibonacci server (aserver.py, lines 36-59):
// the generators fib_server and fib_handler, written as explicit state
// machines. A state is the point at which the generator is suspended; Step
// is one call of next() on it. The operating system is an oracle: the
// answer to whichever socket call the step makes is passed in as an Io.
module FibTasks {
  import opened Ascii
  import Fib

  /** A socket, known by its descriptor. */
  type Resource = nat

  /** The bound passed to client.recv (aserver.py:51). */
  const RecvSize: nat := 100

  const Recv: string := "recv"
  const Send: string := "send"

  /** The (why, what) pair a task yields to the scheduler. */
  datatype Intent = Intent(why: string, what: Resource)

  /** What the operating system answers during one step: the descriptor
      socket() returns, the connection accept() returns, and the bytes the
      peer has made available to recv. A step uses at most one of them. */
  datatype Io = Io(listener: Resource, accepted: Resource, received: seq<Byte>)

  /** The socket calls a step makes. */
  datatype Op =
    | Opened(sock: Resource)
    | Accepted(sock: Resource, client: Resource)
    | Read(client: Resource, data: seq<Byte>)
    | Wrote(client: Resource, data: seq<Byte>)

  datatype Error = ValueError(text: seq<Byte>) | RuntimeError(why: string)

  datatype Gen =
    | ServerFresh                                       // fib_server(address), not yet started
    | ServerAccepting(sock: Resource)                   // suspended at `yield 'recv', sock`
    | HandlerFresh(client: Resource)                    // fib_handler(client), not yet started
    | HandlerReading(client: Resource)                  // suspended at `yield 'recv', client`
    | HandlerWriting(client: Resource, resp: seq<Byte>) // suspended at `yield 'send', client`
    | Scripted(script: seq<Intent>)                     // any other generator: what it still yields

  /** The outcome of next(): a yielded intent with the generator's new state
      and the handlers it appended to the task queue, StopIteration, or an
      exception; each with the socket calls made on the way. */
  datatype Resumed =
    | Yielded(intent: Intent, next: Gen, spawned: seq<Gen>, ops: seq<Op>)
    | Stopped(ops: seq<Op>)
    | Raised(err: Error, ops: seq<Op>)

  /** The intent a generator is suspended on, if it is one of the server's. */
  function Pending(g: Gen): Option<Intent> {
    match g
    case ServerAccepting(sock) => Some(Intent(Recv, sock))
    case HandlerReading(c) => Some(Intent(Recv, c))
    case HandlerWriting(c, _) => Some(Intent(Send, c))
    case _ => None
  }

  /** The readiness a socket call needs so as not to block, if it can block. */
  function Needs(op: Op): Option<Intent> {
    match op
    case Opened(_) => None
    case Accepted(sock, _) => Some(Intent(Recv, sock))
    case Read(c, _) => Some(Intent(Recv, c))
    case Wrote(c, _) => Some(Intent(Send, c))
  }

  /** recv(RecvSize): at most RecvSize of the bytes the peer has sent. */
  function Receive(available: seq<Byte>): (r: seq<Byte>)
    ensures |r| <= RecvSize && r <= available
    ensures |available| <= RecvSize ==> r == available
  {
    if |available| <= RecvSize then available else available[..RecvSize]
  }

  /** One next() on a task. */
  function Step(g: Gen, io: Io): Resumed
  {
    match g
    case ServerFresh =>
      Yielded(Intent(Recv, io.listener), ServerAccepting(io.listener), [], [Opened(io.listener)])
    case ServerAccepting(sock) =>
      Yielded(Intent(Recv, sock), g, [HandlerFresh(io.accepted)], [Accepted(sock, io.accepted)])
    case HandlerFresh(c) =>
      Yielded(Intent(Recv, c), HandlerReading(c), [], [])
    case HandlerReading(c) =>
      var req := Receive(io.received);
      if req == [] then Stopped([Read(c, req)])
      else (match ParseInt(req)
        case None => Raised(ValueError(req), [Read(c, req)])
        case Some(n) => Yielded(Intent(Send, c), HandlerWriting(c, EncodeLine(Fib.Fib(n))), [], [Read(c, req)]))
    case HandlerWriting(c, resp) =>
      Yielded(Intent(Recv, c), HandlerReading(c), [], [Wrote(c, resp)])
    case Scripted(ys) =>
      if ys == [] then Stopped([]) else Yielded(ys[0], Scripted(ys[1..]), [], [])
  }

  /** What one next() on a task can do. */
  lemma StepShape(g: Gen, io: Io)
    // A step makes at most one socket call, and one that can block only on
    // the readiness the task waited for in the step before.
    ensures |Step(g, io).ops| <= 1
    ensures forall op :: op in Step(g, io).ops && Needs(op).Some? ==> Needs(op) == Pending(g)
    // The server's tasks yield only 'recv' and 'send', name what they will
    // wait on next, and spawn at most one handler.
    ensures var r := Step(g, io); !g.Scripted? && r.Yielded? ==>
              r.intent.why in {Recv, Send} && Pending(r.next) == Some(r.intent) && |r.spawned| <= 1
    // The listener never finishes.
    ensures g.ServerFresh? || g.ServerAccepting? ==> Step(g, io).Yielded? && Step(g, io).intent.why == Recv
  {
    match g
    case ServerFresh =>
    case ServerAccepting(_) =>
    case HandlerFresh(_) =>
    case HandlerReading(_) =>
    case HandlerWriting(_, _) =>
    case Scripted(_) =>
  }

  /** How a task ends. A handler finishes exactly when its read returns no
      bytes, and raises exactly when the bytes read are not a number; any
      other generator finishes only when it has nothing left to yield, and
      no other task raises. */
  lemma StepEnds(g: Gen, io: Io)
    ensures var r := Step(g, io); r.Stopped? ==>
              (g.Scripted? && g.script == []) || (g.HandlerReading? && r.ops == [Read(g.client, [])])
    ensures var r := Step(g, io); r.Raised? ==>
              g.HandlerReading? && Receive(io.received) != [] && ParseInt(Receive(io.received)).None?
    ensures g.HandlerReading? ==> (Step(g, io).Stopped? <==> Receive(io.received) == [])
    ensures g.HandlerReading? ==>
              (Step(g, io).Raised? <==> Receive(io.received) != [] && ParseInt(Receive(io.received)).None?)
  {
    match g
    case HandlerReading(_) =>
    case _ =>
  }

  /** Resuming one generator repeatedly, with one Io per next(), until it
      finishes, raises or the answers run out. */
  function Drive(g: Gen, ios: seq<Io>): (r: seq<Resumed>)
    ensures |r| <= |ios|
    ensures forall i :: 0 <= i < |r| - 1 ==> r[i].Yielded?
    ensures |r| < |ios| ==> r != [] && !r[|r| - 1].Yielded?
    decreases |ios|
  {
    if ios == [] then []
    else
      var s := Step(g, ios[0]);
      if s.Yielded? then [s] + Drive(s.next, ios[1..]) else [s]
  }

  /** The listener never completes: every next() yields ('recv', sock) on the
      socket made in its first step, and every later step accepts exactly
      one connection and appends exactly one handler for it. */
  lemma {:induction false} ListenerNeverCompletes(ios: seq<Io>)
    requires ios != []
    ensures var r := Drive(ServerFresh, ios);
      && |r| == |ios|
      && (forall i :: 0 <= i < |r| ==> r[i].Yielded? && r[i].intent == Intent(Recv, ios[0].listener))
      && r[0].spawned == []
      && (forall i :: 1 <= i < |r| ==>
            r[i].spawned == [HandlerFresh(ios[i].accepted)] &&
            r[i].ops == [Accepted(ios[0].listener, ios[i].accepted)])
  {
    var sock := ios[0].listener;
    ListenerLoop(sock, ios[1..]);
    var tail := Drive(ServerAccepting(sock), ios[1..]);
    assert Drive(ServerFresh, ios) == [Step(ServerFresh, ios[0])] + tail;
  }

  lemma {:induction false} ListenerLoop(sock: Resource, ios: seq<Io>)
    ensures var r := Drive(ServerAccepting(sock), ios);
      && |r| == |ios|
      && (forall i :: 0 <= i < |r| ==>
            r[i].Yielded? && r[i].intent == Intent(Recv, sock) && r[i].next == ServerAccepting(sock) &&
            r[i].spawned == [HandlerFresh(ios[i].accepted)] &&
            r[i].ops == [Accepted(sock, ios[i].accepted)])
    decreases |ios|
  {
    if ios != [] {
      ListenerLoop(sock, ios[1..]);
    }
  }

  /** Where a handler for `client` can be; `recvTurn` says whether its next
      intent is ('recv', client) rather than ('send', client). */
  predicate HandlerAt(g: Gen, client: Resource, recvTurn: bool) {
    || (g == HandlerFresh(client) && recvTurn)
    || (g == HandlerReading(client) && !recvTurn)
    || (g.HandlerWriting? && g.client == client && recvTurn)
  }

  /** One next() of a handler as the protocol allows it at that turn. */
  predicate HandlerTurn(res: Resumed, io: Io, client: Resource, recvTurn: bool) {
    && (res.Yielded? ==> res.intent == Intent(if recvTurn then Recv else Send, client))
    && (res.Stopped? ==> !recvTurn && Receive(io.received) == [])
    && (res.Raised? ==> !recvTurn && res.err == ValueError(Receive(io.received)))
    // On a read turn, an empty read always ends the handler, and a
    // request int() rejects always raises.
    && (!recvTurn ==> (res.Stopped? <==> Receive(io.received) == []))
    && (!recvTurn ==> (res.Raised? <==> Receive(io.received) != [] && ParseInt(Receive(io.received)).None?))
  }

  lemma HandlerStep(g: Gen, client: Resource, recvTurn: bool, io: Io)
    requires HandlerAt(g, client, recvTurn)
    ensures var s := Step(g, io);
      HandlerTurn(s, io, client, recvTurn) && (s.Yielded? ==> HandlerAt(s.next, client, !recvTurn))
  {
  }

  /** A handler alternates ('recv', client) and ('send', client), never waits
      on another socket, and ends only in a step that follows a 'recv': it
      finishes exactly when the read returned nothing, and raises ValueError
      on the request it read exactly when int() rejects it. */
  lemma HandlerAlternates(g: Gen, client: Resource, recvTurn: bool, ios: seq<Io>)
    requires HandlerAt(g, client, recvTurn)
    ensures var r := Drive(g, ios);
      forall i :: 0 <= i < |r| ==> HandlerTurn(r[i], ios[i], client, (i % 2 == 0) == recvTurn)
  {
    forall i | 0 <= i < |Drive(g, ios)|
      ensures HandlerTurn(Drive(g, ios)[i], ios[i], client, (i % 2 == 0) == recvTurn)
    {
      TurnAt(g, client, recvTurn, ios, i);
    }
  }

  /** The i-th next() of a handler follows the protocol of the i-th turn. */
  lemma {:induction false} TurnAt(g: Gen, client: Resource, recvTurn: bool, ios: seq<Io>, i: nat)
    requires HandlerAt(g, client, recvTurn) && i < |Drive(g, ios)|
    ensures HandlerTurn(Drive(g, ios)[i], ios[i], client, (i % 2 == 0) == recvTurn)
    decreases i
  {
    var s := Step(g, ios[0]);
    HandlerStep(g, client, recvTurn, ios[0]);
    if i == 0 {
      SameTurn(s, ios[0], Drive(g, ios)[i], ios[i], client, recvTurn, (i % 2 == 0) == recvTurn);
    } else {
      var tail := Drive(s.next, ios[1..]);
      assert s.Yielded? && Drive(g, ios) == [s] + tail;
      TurnAt(s.next, client, !recvTurn, ios[1..], i - 1);
      Parity(i);
      SameTurn(tail[i - 1], ios[1..][i - 1], Drive(g, ios)[i], ios[i], client,
               ((i - 1) % 2 == 0) == !recvTurn, (i % 2 == 0) == recvTurn);
    }
  }

  lemma Parity(i: int)
    requires i >= 1
    ensures ((i - 1) % 2 == 0) == (i % 2 != 0)
  {
  }

  lemma SameTurn(res: Resumed, io: Io, res': Resumed, io': Io, client: Resource, turn: bool, turn': bool)
    requires res == res' && io == io' && turn == turn'
    requires HandlerTurn(res, io, client, turn)
    ensures HandlerTurn(res', io', client, turn')
  {
  }

  /** Serving one request: a handler waiting to read, given a request int()
      reads as n, yields ('send', client); resumed, it sends
      str(fib(n)) + b'\n' to that client and goes back to waiting on
      ('recv', client). */
  lemma ServesRequest(client: Resource, n: int, io: Io, io': Io)
    requires Receive(io.received) != [] && ParseInt(Receive(io.received)) == Some(n)
    ensures var r := Step(HandlerReading(client), io);
      && r == Yielded(Intent(Send, client), HandlerWriting(client, EncodeLine(Fib.Fib(n))), [], [Read(client, Receive(io.received))])
      && Step(r.next, io') == Yielded(Intent(Recv, client), HandlerReading(client), [], [Wrote(client, EncodeLine(Fib.Fib(n)))])
  {
    var resp := EncodeLine(Fib.Fib(n));
    var req := Receive(io.received);
    assert Step(HandlerReading(client), io) == Yielded(Intent(Send, client), HandlerWriting(client, resp), [], [Read(client, req)]);
    assert Step(HandlerWriting(client, resp), io') == Yielded(Intent(Recv, client), HandlerReading(client), [], [Wrote(client, resp)]);
  }

  /** A request that is not a number ends the handler with ValueError. */
  lemma RejectsRequest(client: Resource, io: Io)
    requires Receive(io.received) != [] && ParseInt(Receive(io.received)).None?
    ensures var req := Receive(io.received);
      Step(HandlerReading(client), io) == Raised(ValueError(req), [Read(client, req)])
  {
  }

  /** The request line b'10\n' is answered with b'55\n'. */
  lemma AnswersTen(client: Resource, io: Io)
    requires io.received == [49, 48, 10]
    ensures var r := Step(HandlerReading(client), io);
      r.Yielded? && r.next == HandlerWriting(client, [53, 53, 10])
  {
    ReadsTen(io.received);
    ServesRequest(client, 10, io, io);
    FiftyFive();
  }

  lemma ReadsTen(bs: seq<Byte>)
    requires bs == [49, 48, 10]
    ensures 0 < |bs| <= RecvSize && ParseInt(bs) == Some(10)
  {
    assert Digits(10) == [49, 48];
    assert bs == Digits(10) + [Newline];
    ParseLine(10);
  }

  lemma FiftyFive()
    ensures EncodeLine(Fib.Fib(10)) == [53, 53, 10]
  {
    Fib.FibTen();
    assert Digits(55) == [53, 53];
  }
}

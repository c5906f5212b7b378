// The readiness-driven scheduler of aserver.py (lines 9-34): a FIFO queue
// `tasks` of runnable generators and two registries `recv_wait` and
// `send_wait`, each mapping a socket to the one task parked on it.
//
// The transitions of run() are first given as functions on a value Sched
// (Transfer and Wake for lines 18-22, StepTask for lines 23-34, RunFrom for the
// whole loop), with the bookkeeping properties proved about them; the class
// Scheduler then holds the three structures as fields and its methods are
// proved to perform exactly those transitions.
//
// select() is the environment: a Readiness lists the sockets the network has
// made readable and writable, in the order select() reports them.
module AServer {
  import opened Ascii
  import opened FibTasks

  /** A generator object; `id` stands for its identity. */
  datatype Task = Task(id: nat, gen: Gen)

  /** A registry: recv_wait or send_wait. */
  type Registry = map<Resource, Task>

  /** The scheduler's state; nextId is the identity the next generator
      created gets. */
  datatype Sched = Sched(tasks: seq<Task>, recvWait: Registry, sendWait: Registry, nextId: nat)

  /** One answer of the network to select(): the sockets ready for reading
      and for writing, in the order select() lists them. */
  datatype Readiness = Readiness(readable: seq<Resource>, writable: seq<Resource>)

  /** The value of StepTask: the new state, the exception that escapes
      run() if any, and the socket calls made during the step. */
  datatype Stepped = Stepped(state: Sched, raised: Option<Error>, ops: seq<Op>)

  /** How run() ended: it returned, an exception escaped it, it is blocked
      in select() because no watched socket became ready in the answers
      given, or the step answers given ran out. */
  datatype Exit = Returned | Failed(err: Error) | Blocked | OutOfSteps

  /** The value of RunFrom: how run() ended, the state it left, the
      identities of the tasks it stepped, in order, and the socket calls
      they made. */
  datatype Trace = Trace(exit: Exit, final: Sched, stepped: seq<nat>, ops: seq<Op>)

  /** The loop condition any([tasks, recv_wait, send_wait]) (line 14). */
  predicate Active(s: Sched) {
    s.tasks != [] || s.recvWait != map[] || s.sendWait != map[]
  }

  predicate Distinct(rs: seq<Resource>) {
    forall i, j :: 0 <= i < j < |rs| ==> rs[i] != rs[j]
  }

  /** What select() reports for the sockets it watches: the ones the network
      made ready, each once, in the order the network lists them. */
  function Select(ready: seq<Resource>, watched: set<Resource>): (r: seq<Resource>)
    ensures forall x :: x in r <==> x in ready && x in watched
    ensures Distinct(r)
    decreases |ready|
  {
    if ready == [] then []
    else if ready[0] in watched then [ready[0]] + Select(ready[1..], watched - {ready[0]})
    else Select(ready[1..], watched)
  }

  // ---------------------------------------------------------------------
  // Where tasks are held
  // ---------------------------------------------------------------------

  /** Neither the queue nor either registry holds a task with this identity. */
  ghost predicate Absent(q: seq<Task>, a: Registry, b: Registry, id: nat) {
    && (forall i :: 0 <= i < |q| ==> q[i].id != id)
    && (forall x :: x in a ==> a[x].id != id)
    && (forall x :: x in b ==> b[x].id != id)
  }

  /** Each task is held by exactly one container: one place in the queue or
      one slot of one registry; and every identity is below `bound`. The
      two registries play symmetric roles. */
  ghost predicate Exclusive(q: seq<Task>, a: Registry, b: Registry, bound: nat) {
    && (forall i, j :: 0 <= i < j < |q| ==> q[i].id != q[j].id)
    && (forall i, x :: 0 <= i < |q| && x in a ==> q[i].id != a[x].id)
    && (forall i, x :: 0 <= i < |q| && x in b ==> q[i].id != b[x].id)
    && (forall x, y :: x in a && y in a && x != y ==> a[x].id != a[y].id)
    && (forall x, y :: x in b && y in b && x != y ==> b[x].id != b[y].id)
    && (forall x, y :: x in a && y in b ==> a[x].id != b[y].id)
    && (forall i :: 0 <= i < |q| ==> q[i].id < bound)
    && (forall x :: x in a ==> a[x].id < bound)
    && (forall x :: x in b ==> b[x].id < bound)
  }

  ghost predicate NotHeld(s: Sched, id: nat) {
    Absent(s.tasks, s.recvWait, s.sendWait, id)
  }

  /** The invariant of the scheduler: no task is in two places at once. */
  ghost predicate HeldOnce(s: Sched) {
    Exclusive(s.tasks, s.recvWait, s.sendWait, s.nextId)
  }

  // ---------------------------------------------------------------------
  // Waking tasks after select() (lines 18-22)
  // ---------------------------------------------------------------------

  /** The tasks parked on the given sockets, in the order of the sockets. */
  function Pick(wait: Registry, rs: seq<Resource>): seq<Task>
    requires forall x :: x in rs ==> x in wait
  {
    seq(|rs|, i requires 0 <= i < |rs| => wait[rs[i]])
  }

  /** `for s in ready: tasks.append(wait.pop(s))`: each ready socket's task
      leaves the registry and joins the back of the queue, in the order
      select() reported the sockets; every other waiter stays. */
  function Transfer(q: seq<Task>, wait: Registry, rs: seq<Resource>): (r: (seq<Task>, Registry))
    requires Distinct(rs) && forall x :: x in rs ==> x in wait
    decreases |rs|
  {
    if rs == [] then (q, wait)
    else
      TransferFirst(q, wait, rs);
      Transfer(q + [wait[rs[0]]], wait - {rs[0]}, rs[1..])
  }

  /** Lines 18-22: the tasks on the sockets select() reports readable, then
      those it reports writable, move to the back of the queue. */
  function Wake(s: Sched, ready: Readiness): Sched {
    var canRecv := Select(ready.readable, s.recvWait.Keys);
    var canSend := Select(ready.writable, s.sendWait.Keys);
    var (q1, rw) := Transfer(s.tasks, s.recvWait, canRecv);
    var (q2, sw) := Transfer(q1, s.sendWait, canSend);
    s.(tasks := q2, recvWait := rw, sendWait := sw)
  }

  /** After a poll the queue is the old queue, then the tasks of the readable
      sockets in select()'s order, then those of the writable sockets; the
      woken sockets leave their dictionaries and every other waiter stays. */
  lemma WakeMoves(s: Sched, ready: Readiness)
    ensures var canRecv := Select(ready.readable, s.recvWait.Keys);
      var canSend := Select(ready.writable, s.sendWait.Keys);
      var r := Wake(s, ready);
      && r.tasks == s.tasks + Pick(s.recvWait, canRecv) + Pick(s.sendWait, canSend)
      && r.recvWait == s.recvWait - (set x | x in canRecv)
      && r.sendWait == s.sendWait - (set x | x in canSend)
  {
    var canRecv := Select(ready.readable, s.recvWait.Keys);
    var canSend := Select(ready.writable, s.sendWait.Keys);
    TransferMoves(s.tasks, s.recvWait, canRecv);
    var q1 := Transfer(s.tasks, s.recvWait, canRecv).0;
    TransferMoves(q1, s.sendWait, canSend);
  }

  /** After the first socket, the rest are still distinct and still waited on. */
  lemma TransferFirst(q: seq<Task>, wait: Registry, rs: seq<Resource>)
    requires Distinct(rs) && forall x :: x in rs ==> x in wait
    requires rs != []
    ensures Distinct(rs[1..]) && forall x :: x in rs[1..] ==> x in wait - {rs[0]}
  {
    forall x | x in rs[1..] ensures x in wait - {rs[0]} {
      var k :| 1 <= k < |rs| && rs[k] == x;
      assert rs[0] != rs[k];
    }
  }

  /** The ready sockets' tasks join the back of the queue in the order the
      sockets were reported, and leave the registry; every other waiter stays. */
  lemma {:induction false} TransferMoves(q: seq<Task>, wait: Registry, rs: seq<Resource>)
    requires Distinct(rs) && forall x :: x in rs ==> x in wait
    ensures Transfer(q, wait, rs).0 == q + Pick(wait, rs)
    ensures Transfer(q, wait, rs).1 == wait - (set x | x in rs)
    decreases |rs|
  {
    if rs != [] {
      TransferFirst(q, wait, rs);
      TransferMoves(q + [wait[rs[0]]], wait - {rs[0]}, rs[1..]);
      assert (set x | x in rs) == {rs[0]} + (set x | x in rs[1..]);
      assert Pick(wait, rs) == [wait[rs[0]]] + Pick(wait - {rs[0]}, rs[1..]);
    }
  }

  lemma ExclusiveSymmetric(q: seq<Task>, a: Registry, b: Registry, bound: nat)
    requires Exclusive(q, a, b, bound)
    ensures Exclusive(q, b, a, bound)
  {
  }

  /** Moving the waiters of the given sockets to the queue keeps every task in
      one place, and no task is lost or gained. */
  lemma {:induction false} TransferKeepsExclusive(q: seq<Task>, a: Registry, b: Registry, bound: nat, rs: seq<Resource>)
    requires Exclusive(q, a, b, bound) && Distinct(rs) && forall x :: x in rs ==> x in a
    ensures var (q', a') := Transfer(q, a, rs);
      && Exclusive(q', a', b, bound)
      && forall id :: Absent(q, a, b, id) <==> Absent(q', a', b, id)
    decreases |rs|
  {
    if rs != [] {
      var x := rs[0];
      var q1, a1 := q + [a[x]], a - {x};
      assert q1[|q|] == a[x];
      forall id | Absent(q1, a1, b, id) ensures Absent(q, a, b, id) {
        forall i | 0 <= i < |q| ensures q[i].id != id {
          assert q1[i] == q[i];
        }
        forall y | y in a ensures a[y].id != id {
          if y != x { assert y in a1; }
        }
      }
      forall id | Absent(q, a, b, id) ensures Absent(q1, a1, b, id) {
        forall i | 0 <= i < |q1| ensures q1[i].id != id {
          if i < |q| { assert q1[i] == q[i]; }
        }
      }
      TransferFirst(q, a, rs);
      TransferKeepsExclusive(q1, a1, b, bound, rs[1..]);
    }
  }

  /** Waking keeps every task in exactly one container. */
  lemma WakeKeepsHeldOnce(s: Sched, ready: Readiness)
    requires HeldOnce(s)
    ensures HeldOnce(Wake(s, ready))
  {
    var canRecv := Select(ready.readable, s.recvWait.Keys);
    var canSend := Select(ready.writable, s.sendWait.Keys);
    TransferKeepsExclusive(s.tasks, s.recvWait, s.sendWait, s.nextId, canRecv);
    var t1 := Transfer(s.tasks, s.recvWait, canRecv);
    ExclusiveSymmetric(t1.0, t1.1, s.sendWait, s.nextId);
    TransferKeepsExclusive(t1.0, s.sendWait, t1.1, s.nextId, canSend);
    var t2 := Transfer(t1.0, s.sendWait, canSend);
    ExclusiveSymmetric(t2.0, t2.1, t1.1, s.nextId);
    assert Wake(s, ready) == s.(tasks := t2.0, recvWait := t1.1, sendWait := t2.1);
  }

  /** Waking loses no task and adds none: a task is held after it exactly
      when it was held before. */
  lemma WakeKeepsTasks(s: Sched, ready: Readiness)
    requires HeldOnce(s)
    ensures forall id :: NotHeld(s, id) <==> NotHeld(Wake(s, ready), id)
  {
    var canRecv := Select(ready.readable, s.recvWait.Keys);
    var canSend := Select(ready.writable, s.sendWait.Keys);
    TransferKeepsExclusive(s.tasks, s.recvWait, s.sendWait, s.nextId, canRecv);
    var t1 := Transfer(s.tasks, s.recvWait, canRecv);
    ExclusiveSymmetric(t1.0, t1.1, s.sendWait, s.nextId);
    TransferKeepsExclusive(t1.0, s.sendWait, t1.1, s.nextId, canSend);
    var t2 := Transfer(t1.0, s.sendWait, canSend);
    var w := Wake(s, ready);
    assert w == s.(tasks := t2.0, recvWait := t1.1, sendWait := t2.1);
    forall id ensures NotHeld(s, id) <==> NotHeld(w, id) {
      assert NotHeld(s, id) <==> Absent(t1.0, t1.1, s.sendWait, id);
      assert Absent(t1.0, t1.1, s.sendWait, id) <==> Absent(t1.0, s.sendWait, t1.1, id);
      assert Absent(t1.0, s.sendWait, t1.1, id) <==> Absent(t2.0, t2.1, t1.1, id);
    }
  }

  /** Waking neither creates nor loses work: the queue gains exactly the
      tasks that leave the registries, so a scheduler with work still has
      some afterwards. */
  lemma WakeKeepsActive(s: Sched, ready: Readiness)
    requires Active(s)
    ensures Active(Wake(s, ready))
  {
    var canRecv := Select(ready.readable, s.recvWait.Keys);
    var canSend := Select(ready.writable, s.sendWait.Keys);
    TransferMoves(s.tasks, s.recvWait, canRecv);
    var t1 := Transfer(s.tasks, s.recvWait, canRecv);
    TransferMoves(t1.0, s.sendWait, canSend);
    if Wake(s, ready).tasks == [] {
      assert canRecv == [] && canSend == [] by {
        assert |Pick(s.recvWait, canRecv)| == |canRecv|;
        assert |Pick(s.sendWait, canSend)| == |canSend|;
      }
      assert (set x | x in canRecv) == {} && (set x | x in canSend) == {};
    }
  }

  // ---------------------------------------------------------------------
  // Stepping one task (lines 23-34)
  // ---------------------------------------------------------------------

  /** Fresh generator objects for the handlers a step appended to the queue. */
  function Fresh(gens: seq<Gen>, base: nat): (r: seq<Task>)
    ensures |r| == |gens|
    ensures forall i :: 0 <= i < |r| ==> r[i].id == base + i && r[i].gen == gens[i]
  {
    seq(|gens|, i requires 0 <= i < |gens| => Task(base + i, gens[i]))
  }

  /** The state after popleft() and next(): the task is off the queue and the
      handlers the step created are at its back. */
  function Grown(s: Sched, spawned: seq<Gen>): Sched
    requires s.tasks != []
  {
    s.(tasks := s.tasks[1..] + Fresh(spawned, s.nextId), nextId := s.nextId + |spawned|)
  }

  /** One pass of the loop body once the queue is non-empty: popleft, next(),
      then park the task according to its intent (recv_wait[what] = task or
      send_wait[what] = task, overwriting), drop it on StopIteration, or let
      the exception escape. */
  function StepTask(s: Sched, io: Io): Stepped
    requires s.tasks != []
  {
    var t := s.tasks[0];
    match Step(t.gen, io)
    case Stopped(ops) => Stepped(s.(tasks := s.tasks[1..]), None, ops)
    case Raised(err, ops) => Stepped(s.(tasks := s.tasks[1..]), Some(err), ops)
    case Yielded(intent, next, spawned, ops) =>
      var g := Grown(s, spawned);
      if intent.why == Recv then
        Stepped(g.(recvWait := g.recvWait[intent.what := Task(t.id, next)]), None, ops)
      else if intent.why == Send then
        Stepped(g.(sendWait := g.sendWait[intent.what := Task(t.id, next)]), None, ops)
      else Stepped(g, Some(RuntimeError("ARG!")), ops)
  }

  lemma PopKeepsHeldOnce(s: Sched)
    requires HeldOnce(s) && s.tasks != []
    ensures HeldOnce(s.(tasks := s.tasks[1..]))
    ensures NotHeld(s.(tasks := s.tasks[1..]), s.tasks[0].id)
  {
  }

  /** After popleft() and the spawns: every task still in one place, the
      popped one in none, the rest of the queue in order at the front. */
  lemma GrownKeepsHeldOnce(s: Sched, spawned: seq<Gen>)
    requires HeldOnce(s) && s.tasks != []
    ensures var g := Grown(s, spawned);
      && HeldOnce(g) && NotHeld(g, s.tasks[0].id) && s.tasks[0].id < g.nextId
      && g.tasks[..|s.tasks| - 1] == s.tasks[1..]
      && g.recvWait == s.recvWait && g.sendWait == s.sendWait
  {
    var g := Grown(s, spawned);
    var n := |s.tasks| - 1;
    assert g.tasks[..n] == s.tasks[1..];
    forall i | 0 <= i < |g.tasks| ensures g.tasks[i].id != s.tasks[0].id && g.tasks[i].id < g.nextId {
      if i < n { assert g.tasks[i] == s.tasks[i + 1]; }
    }
    forall i, j | 0 <= i < j < |g.tasks| ensures g.tasks[i].id != g.tasks[j].id {
      if j < n { assert g.tasks[i] == s.tasks[i + 1] && g.tasks[j] == s.tasks[j + 1]; }
      else if i < n { assert g.tasks[i] == s.tasks[i + 1]; }
    }
    forall i, x | 0 <= i < |g.tasks| && x in s.recvWait ensures g.tasks[i].id != s.recvWait[x].id {
      if i < n { assert g.tasks[i] == s.tasks[i + 1]; }
    }
    forall i, x | 0 <= i < |g.tasks| && x in s.sendWait ensures g.tasks[i].id != s.sendWait[x].id {
      if i < n { assert g.tasks[i] == s.tasks[i + 1]; }
    }
  }

  /** The state after tasks.append(gen) for a new generator. */
  function Spawned(s: Sched, gen: Gen): Sched {
    s.(tasks := s.tasks + [Task(s.nextId, gen)], nextId := s.nextId + 1)
  }

  /** A new generator joins the queue without sharing a place with any task. */
  lemma SpawnKeepsHeldOnce(s: Sched, gen: Gen)
    requires HeldOnce(s)
    ensures HeldOnce(Spawned(s, gen))
  {
    var q := Spawned(s, gen).tasks;
    assert forall i :: 0 <= i < |s.tasks| ==> q[i] == s.tasks[i];
    assert q[|s.tasks|].id == s.nextId;
  }

  /** Parking a task that no container holds keeps every task in one place;
      the task it overwrites, if any, is no longer held by anything. */
  lemma RegisterKeepsExclusive(q: seq<Task>, a: Registry, b: Registry, bound: nat, x: Resource, t: Task)
    requires Exclusive(q, a, b, bound) && t.id < bound && Absent(q, a, b, t.id)
    ensures Exclusive(q, a[x := t], b, bound)
    ensures x in a ==> Absent(q, a[x := t], b, a[x].id)
  {
    if x in a {
      var a' := a[x := t];
      forall y | y in a' ensures a'[y].id != a[x].id {
        if y != x { assert a'[y] == a[y]; }
      }
    }
  }

  /** Where the stepped task ends up: in recv_wait[what] after ('recv', what),
      in send_wait[what] after ('send', what), nowhere after StopIteration
      or an unknown intent, and never straight back on the queue; every task
      stays in at most one place. */
  lemma StepPlacement(s: Sched, io: Io)
    requires HeldOnce(s) && s.tasks != []
    ensures var t := s.tasks[0]; var res := Step(t.gen, io); var r := StepTask(s, io);
      && HeldOnce(r.state)
      && (forall i :: 0 <= i < |r.state.tasks| ==> r.state.tasks[i].id != t.id)
      && r.state.tasks[..|s.tasks| - 1] == s.tasks[1..]
      && (res.Yielded? ==> r.state.tasks == s.tasks[1..] + Fresh(res.spawned, s.nextId))
      && r.ops == res.ops
      && (res.Yielded? && res.intent.why == Recv ==>
            && r.raised == None
            && r.state.recvWait == s.recvWait[res.intent.what := Task(t.id, res.next)]
            && r.state.sendWait == s.sendWait)
      && (res.Yielded? && res.intent.why == Send ==>
            && r.raised == None
            && r.state.sendWait == s.sendWait[res.intent.what := Task(t.id, res.next)]
            && r.state.recvWait == s.recvWait)
      && (res.Yielded? && res.intent.why != Recv && res.intent.why != Send ==>
            && r.raised == Some(RuntimeError("ARG!")) && NotHeld(r.state, t.id)
            && r.state.recvWait == s.recvWait && r.state.sendWait == s.sendWait)
      && (res.Stopped? ==>
            && r.raised == None && NotHeld(r.state, t.id) && r.state.tasks == s.tasks[1..]
            && r.state.recvWait == s.recvWait && r.state.sendWait == s.sendWait)
      && (res.Raised? ==>
            && r.raised == Some(res.err) && r.state.tasks == s.tasks[1..]
            && r.state.recvWait == s.recvWait && r.state.sendWait == s.sendWait)
  {
    var t := s.tasks[0];
    PopKeepsHeldOnce(s);
    match Step(t.gen, io)
    case Stopped(_) =>
    case Raised(_, _) =>
    case Yielded(intent, next, spawned, _) =>
      GrownKeepsHeldOnce(s, spawned);
      var g := Grown(s, spawned);
      if intent.why == Recv {
        RegisterKeepsExclusive(g.tasks, g.recvWait, g.sendWait, g.nextId, intent.what, Task(t.id, next));
      } else if intent.why == Send {
        ExclusiveSymmetric(g.tasks, g.recvWait, g.sendWait, g.nextId);
        RegisterKeepsExclusive(g.tasks, g.sendWait, g.recvWait, g.nextId, intent.what, Task(t.id, next));
        var sw := g.sendWait[intent.what := Task(t.id, next)];
        ExclusiveSymmetric(g.tasks, sw, g.recvWait, g.nextId);
      }
  }

  /** A step keeps every task in at most one place. */
  lemma StepKeepsHeldOnce(s: Sched, io: Io)
    requires HeldOnce(s) && s.tasks != []
    ensures HeldOnce(StepTask(s, io).state)
  {
    StepPlacement(s, io);
  }

  /** A handler whose read returns no bytes completes (lines 51-52 and 33):
      no exception escapes, and afterwards neither the queue nor a
      dictionary holds it; the rest of the queue is unchanged. */
  lemma EmptyReadEndsHandler(s: Sched, io: Io)
    requires HeldOnce(s) && s.tasks != [] && s.tasks[0].gen.HandlerReading?
    requires Receive(io.received) == []
    ensures var r := StepTask(s, io);
      && r.raised == None && NotHeld(r.state, s.tasks[0].id)
      && r.state.tasks == s.tasks[1..]
      && r.state.recvWait == s.recvWait && r.state.sendWait == s.sendWait
  {
    StepPlacement(s, io);
  }

  /** A handler's step appends nothing to the queue: after it the queue is
      the rest of the queue before it. */
  lemma HandlerKeepsQueue(s: Sched, io: Io)
    requires s.tasks != []
    requires s.tasks[0].gen.HandlerFresh? || s.tasks[0].gen.HandlerReading? || s.tasks[0].gen.HandlerWriting?
    ensures StepTask(s, io).state.tasks == s.tasks[1..]
  {
    var g := s.tasks[0].gen;
    var res := Step(g, io);
    if res.Yielded? {
      assert res.spawned == [];
      assert Fresh([], s.nextId) == [];
      assert s.tasks[1..] + [] == s.tasks[1..];
    }
  }

  /** The listener's step after a connection (lines 42-45) appends exactly
      one new handler, for the accepted connection, and parks the listener
      on its socket again. */
  lemma ListenerSpawnsHandler(s: Sched, io: Io)
    requires s.tasks != [] && s.tasks[0].gen.ServerAccepting?
    ensures var t, r := s.tasks[0], StepTask(s, io);
      && r.raised == None
      && r.state.tasks == s.tasks[1..] + [Task(s.nextId, HandlerFresh(io.accepted))]
      && r.state.nextId == s.nextId + 1
      && r.state.recvWait == s.recvWait[t.gen.sock := t]
      && r.state.sendWait == s.sendWait
  {
    var t := s.tasks[0];
    assert Step(t.gen, io) == Yielded(Intent(Recv, t.gen.sock), t.gen, [HandlerFresh(io.accepted)], [Accepted(t.gen.sock, io.accepted)]);
    assert Fresh([HandlerFresh(io.accepted)], s.nextId) == [Task(s.nextId, HandlerFresh(io.accepted))];
  }

  /** Re-registering on a socket that already has a reader parked on it
      silently drops the earlier task: after the step nothing holds it. */
  lemma OverwriteOrphans(s: Sched, io: Io)
    requires HeldOnce(s) && s.tasks != []
    requires var res := Step(s.tasks[0].gen, io);
      res.Yielded? && res.intent.why == Recv && res.intent.what in s.recvWait
    ensures NotHeld(StepTask(s, io).state, s.recvWait[Step(s.tasks[0].gen, io).intent.what].id)
  {
    var t := s.tasks[0];
    var res := Step(t.gen, io);
    GrownKeepsHeldOnce(s, res.spawned);
    var g := Grown(s, res.spawned);
    RegisterKeepsExclusive(g.tasks, g.recvWait, g.sendWait, g.nextId, res.intent.what, Task(t.id, res.next));
  }

  /** The same for a writer (line 30): re-registering on a socket that
      already has a writer parked on it drops the earlier task. */
  lemma OverwriteOrphansWriter(s: Sched, io: Io)
    requires HeldOnce(s) && s.tasks != []
    requires var res := Step(s.tasks[0].gen, io);
      res.Yielded? && res.intent.why == Send && res.intent.what in s.sendWait
    ensures NotHeld(StepTask(s, io).state, s.sendWait[Step(s.tasks[0].gen, io).intent.what].id)
  {
    var t := s.tasks[0];
    var res := Step(t.gen, io);
    GrownKeepsHeldOnce(s, res.spawned);
    var g := Grown(s, res.spawned);
    ExclusiveSymmetric(g.tasks, g.recvWait, g.sendWait, g.nextId);
    RegisterKeepsExclusive(g.tasks, g.sendWait, g.recvWait, g.nextId, res.intent.what, Task(t.id, res.next));
  }

  // ---------------------------------------------------------------------
  // The loop (lines 13-34)
  // ---------------------------------------------------------------------

  /** The socket calls and stepped tasks of a trace, preceded by earlier ones. */
  function After(stepped: seq<nat>, ops: seq<Op>, r: Trace): Trace {
    r.(stepped := stepped + r.stepped, ops := ops + r.ops)
  }

  lemma AfterAfter(stepped: seq<nat>, ops: seq<Op>, stepped': seq<nat>, ops': seq<Op>, r: Trace)
    ensures After(stepped, ops, After(stepped', ops', r)) == After(stepped + stepped', ops + ops', r)
  {
    assert stepped + (stepped' + r.stepped) == stepped + stepped' + r.stepped;
    assert ops + (ops' + r.ops) == ops + ops' + r.ops;
  }

  /** run() from state s, given the network's answers to successive select()
      calls and the operating system's answers to successive steps. */
  function RunFrom(s: Sched, polls: seq<Readiness>, ios: seq<Io>): Trace
    decreases |polls| + |ios|
  {
    if !Active(s) then Trace(Returned, s, [], [])
    else if s.tasks == [] then
      if polls == [] then Trace(Blocked, s, [], [])
      else RunFrom(Wake(s, polls[0]), polls[1..], ios)
    else if ios == [] then Trace(OutOfSteps, s, [], [])
    else
      var st := StepTask(s, ios[0]);
      if st.raised.Some? then Trace(Failed(st.raised.value), st.state, [s.tasks[0].id], st.ops)
      else After([s.tasks[0].id], st.ops, RunFrom(st.state, polls, ios[1..]))
  }

  /** run() returns only when the queue and both registries are empty; it
      stops otherwise only when the environment stops answering, with work
      still pending, or when an exception escapes. Each step uses one answer
      of the operating system. */
  lemma {:induction false} RunExits(s: Sched, polls: seq<Readiness>, ios: seq<Io>)
    ensures var r := RunFrom(s, polls, ios);
      && (r.exit == Returned ==> !Active(r.final))
      && (r.exit == Blocked ==> r.final.tasks == [] && Active(r.final))
      && (r.exit == OutOfSteps ==> r.final.tasks != [])
      && (!Active(s) ==> r.exit == Returned && r.stepped == [])
      && |r.stepped| <= |ios|
    decreases |polls| + |ios|
  {
    if Active(s) {
      if s.tasks == [] {
        if polls != [] {
          RunExits(Wake(s, polls[0]), polls[1..], ios);
        }
      } else if ios != [] {
        var st := StepTask(s, ios[0]);
        if st.raised.None? {
          RunExits(st.state, polls, ios[1..]);
        }
      }
    }
  }

  /** Every state run() passes through holds each task in exactly one place. */
  lemma {:induction false} RunKeepsHeldOnce(s: Sched, polls: seq<Readiness>, ios: seq<Io>)
    requires HeldOnce(s)
    ensures HeldOnce(RunFrom(s, polls, ios).final)
    decreases |polls| + |ios|
  {
    if Active(s) {
      if s.tasks == [] {
        if polls != [] {
          WakeKeepsHeldOnce(s, polls[0]);
          RunKeepsHeldOnce(Wake(s, polls[0]), polls[1..], ios);
        }
      } else if ios != [] {
        StepPlacement(s, ios[0]);
        var st := StepTask(s, ios[0]);
        if st.raised.None? {
          RunKeepsHeldOnce(st.state, polls, ios[1..]);
        }
      }
    }
  }

  /** The queue after a step starts with the rest of the queue before it. */
  lemma StepKeepsQueueOrder(s: Sched, io: Io)
    requires s.tasks != []
    ensures StepTask(s, io).state.tasks[..|s.tasks| - 1] == s.tasks[1..]
  {
    var res := Step(s.tasks[0].gen, io);
    if res.Yielded? {
      assert Grown(s, res.spawned).tasks[..|s.tasks| - 1] == s.tasks[1..];
    }
  }

  /** FIFO: the tasks at the front of the queue are the next ones stepped, in
      queue order, each once, before anything else; only an escaping
      exception can cut this short. */
  lemma {:induction false} DrainInOrder(s: Sched, polls: seq<Readiness>, ios: seq<Io>, front: seq<Task>)
    requires front <= s.tasks && |front| <= |ios|
    ensures var r := RunFrom(s, polls, ios);
      && (forall i :: 0 <= i < |front| && i < |r.stepped| ==> r.stepped[i] == front[i].id)
      && (!r.exit.Failed? ==> |r.stepped| >= |front|)
    decreases |front|
  {
    if front != [] {
      var st := StepTask(s, ios[0]);
      if st.raised.None? {
        StepKeepsQueueOrder(s, ios[0]);
        assert front[1..] <= st.state.tasks;
        DrainInOrder(st.state, polls, ios[1..], front[1..]);
      }
    }
  }

  /** With nothing to run, run() polls (lines 15-22). */
  lemma RunFromPolls(s: Sched, polls: seq<Readiness>, ios: seq<Io>)
    requires Active(s) && s.tasks == [] && polls != []
    ensures RunFrom(s, polls, ios) == RunFrom(Wake(s, polls[0]), polls[1..], ios)
  {
  }

  /** With a task to run, run() steps it (lines 23-34) and, unless an
      exception escaped, carries on from the state the step left. */
  lemma RunFromSteps(s: Sched, polls: seq<Readiness>, ios: seq<Io>, st: Stepped)
    requires s.tasks != [] && ios != [] && st == StepTask(s, ios[0])
    ensures st.raised.None? ==>
      RunFrom(s, polls, ios) == After([s.tasks[0].id], st.ops, RunFrom(st.state, polls, ios[1..]))
    ensures st.raised.Some? ==>
      RunFrom(s, polls, ios) == Trace(Failed(st.raised.value), st.state, [s.tasks[0].id], st.ops)
  {
  }

  /** A task at the front of the queue that yields a tag other than 'recv'
      and 'send' ends run() with RuntimeError (line 32): the exception is
      not caught, and only that task has been stepped. */
  lemma BadIntentEscapes(s: Sched, polls: seq<Readiness>, ios: seq<Io>, why: string, what: Resource, rest: seq<Intent>)
    requires s.tasks != [] && ios != [] && s.tasks[0].gen == Scripted([Intent(why, what)] + rest)
    requires why != Recv && why != Send
    ensures var r := RunFrom(s, polls, ios);
      r.exit == Failed(RuntimeError("ARG!")) && r.stepped == [s.tasks[0].id]
  {
    RunFromSteps(s, polls, ios, StepTask(s, ios[0]));
  }

  /** A handler at the front of the queue that reads a request int() cannot
      parse ends run() with that ValueError (line 53). */
  lemma BadRequestEscapes(s: Sched, polls: seq<Readiness>, ios: seq<Io>)
    requires s.tasks != [] && ios != [] && s.tasks[0].gen.HandlerReading?
    requires var req := Receive(ios[0].received); req != [] && ParseInt(req).None?
    ensures var r := RunFrom(s, polls, ios);
      r.exit == Failed(ValueError(Receive(ios[0].received))) && r.stepped == [s.tasks[0].id]
  {
    var g, req := s.tasks[0].gen, Receive(ios[0].received);
    assert Step(g, ios[0]) == Raised(ValueError(req), [Read(g.client, req)]);
    RunFromSteps(s, polls, ios, StepTask(s, ios[0]));
  }

  /** The loop of run() carried past the polls that woke a task. */
  lemma RunSkipsPolls(whole: Trace, stepped: seq<nat>, ops: seq<Op>, s: Sched, s': Sched, polls: seq<Readiness>, pi: nat, used: nat, ios: seq<Io>)
    requires pi <= |polls| && used <= |polls| - pi
    requires whole == After(stepped, ops, RunFrom(s, polls[pi..], ios))
    requires RunFrom(s, polls[pi..], ios) == RunFrom(s', polls[pi..][used..], ios)
    ensures whole == After(stepped, ops, RunFrom(s', polls[pi + used..], ios))
  {
    assert polls[pi..][used..] == polls[pi + used..];
  }

  /** The loop of run() carried one step further. */
  lemma RunContinues(whole: Trace, stepped: seq<nat>, ops: seq<Op>, s: Sched, st: Stepped, polls: seq<Readiness>, ios: seq<Io>, si: nat)
    requires s.tasks != [] && si < |ios| && st == StepTask(s, ios[si]) && st.raised.None?
    requires whole == After(stepped, ops, RunFrom(s, polls, ios[si..]))
    ensures whole == After(stepped + [s.tasks[0].id], ops + st.ops, RunFrom(st.state, polls, ios[si + 1..]))
  {
    assert ios[si..][0] == ios[si] && ios[si..][1..] == ios[si + 1..];
    RunFromSteps(s, polls, ios[si..], st);
    AfterAfter(stepped, ops, [s.tasks[0].id], st.ops, RunFrom(st.state, polls, ios[si + 1..]));
  }

  /** The loop of run() ended by an exception escaping a step. */
  lemma RunFails(whole: Trace, stepped: seq<nat>, ops: seq<Op>, s: Sched, st: Stepped, polls: seq<Readiness>, ios: seq<Io>, si: nat)
    requires s.tasks != [] && si < |ios| && st == StepTask(s, ios[si]) && st.raised.Some?
    requires whole == After(stepped, ops, RunFrom(s, polls, ios[si..]))
    ensures whole == Trace(Failed(st.raised.value), st.state, stepped + [s.tasks[0].id], ops + st.ops)
  {
    assert ios[si..][0] == ios[si];
    RunFromSteps(s, polls, ios[si..], st);
  }

  /** The loop of run() carried over one step, whichever way it ends. */
  lemma RunOneStep(whole: Trace, stepped: seq<nat>, ops: seq<Op>, s: Sched, polls: seq<Readiness>, ios: seq<Io>, si: nat)
    requires s.tasks != [] && si < |ios|
    requires whole == After(stepped, ops, RunFrom(s, polls, ios[si..]))
    ensures var st := StepTask(s, ios[si]);
      && (st.raised.Some? ==> whole == Trace(Failed(st.raised.value), st.state, stepped + [s.tasks[0].id], ops + st.ops))
      && (st.raised.None? ==> whole == After(stepped + [s.tasks[0].id], ops + st.ops, RunFrom(st.state, polls, ios[si + 1..])))
  {
    var st := StepTask(s, ios[si]);
    if st.raised.Some? {
      RunFails(whole, stepped, ops, s, st, polls, ios, si);
    } else {
      RunContinues(whole, stepped, ops, s, st, polls, ios, si);
    }
  }

  // ---------------------------------------------------------------------
  // The scheduler object
  // ---------------------------------------------------------------------

  /** The module-level deque and dictionaries of aserver.py (lines 9-11),
      gathered in one object, with the functions of the module as methods. */
  class Scheduler {
    var tasks: seq<Task>
    var recvWait: Registry
    var sendWait: Registry
    var nextId: nat

    function State(): Sched
      reads this
    {
      Sched(tasks, recvWait, sendWait, nextId)
    }

    ghost predicate Valid()
      reads this
    {
      HeldOnce(State())
    }

    /** tasks = deque(); recv_wait = {}; send_wait = {} */
    constructor ()
      ensures Valid() && State() == Sched([], map[], map[], 0)
    {
      tasks, recvWait, sendWait, nextId := [], map[], map[], 0;
    }

    /** tasks.append(gen) for a newly created generator (line 61). */
    method Spawn(gen: Gen)
      requires Valid()
      modifies this
      ensures Valid()
      ensures tasks == old(tasks) + [Task(old(nextId), gen)] && nextId == old(nextId) + 1
      ensures recvWait == old(recvWait) && sendWait == old(sendWait)
    {
      ghost var s0 := State();
      SpawnKeepsHeldOnce(s0, gen);
      tasks := tasks + [Task(nextId, gen)];
      nextId := nextId + 1;
      assert State() == Spawned(s0, gen);
    }

    /** Lines 19-20: `for s in can_recv: tasks.append(recv_wait.pop(s))`. */
    method WakeReaders(rs: seq<Resource>)
      requires Distinct(rs) && forall x :: x in rs ==> x in recvWait
      modifies this
      ensures (tasks, recvWait) == Transfer(old(tasks), old(recvWait), rs)
      ensures sendWait == old(sendWait) && nextId == old(nextId)
    {
      ghost var after := Transfer(tasks, recvWait, rs);
      for k := 0 to |rs|
        invariant Distinct(rs[k..]) && forall x :: x in rs[k..] ==> x in recvWait
        invariant Transfer(tasks, recvWait, rs[k..]) == after
        invariant sendWait == old(sendWait) && nextId == old(nextId)
      {
        TransferFirst(tasks, recvWait, rs[k..]);
        assert rs[k..][1..] == rs[k + 1..];
        tasks := tasks + [recvWait[rs[k]]];
        recvWait := recvWait - {rs[k]};
      }
    }

    /** Lines 21-22: `for s in can_send: tasks.append(send_wait.pop(s))`. */
    method WakeWriters(rs: seq<Resource>)
      requires Distinct(rs) && forall x :: x in rs ==> x in sendWait
      modifies this
      ensures (tasks, sendWait) == Transfer(old(tasks), old(sendWait), rs)
      ensures recvWait == old(recvWait) && nextId == old(nextId)
    {
      ghost var after := Transfer(tasks, sendWait, rs);
      for k := 0 to |rs|
        invariant Distinct(rs[k..]) && forall x :: x in rs[k..] ==> x in sendWait
        invariant Transfer(tasks, sendWait, rs[k..]) == after
        invariant recvWait == old(recvWait) && nextId == old(nextId)
      {
        TransferFirst(tasks, sendWait, rs[k..]);
        assert rs[k..][1..] == rs[k + 1..];
        tasks := tasks + [sendWait[rs[k]]];
        sendWait := sendWait - {rs[k]};
      }
    }

    /** Lines 18-22: one select() and the transfer of the ready tasks. */
    method Poll(ready: Readiness)
      requires Valid()
      modifies this
      ensures Valid() && State() == Wake(old(State()), ready)
    {
      ghost var s0 := State();
      WakeKeepsHeldOnce(s0, ready);
      var canRecv := Select(ready.readable, recvWait.Keys);
      var canSend := Select(ready.writable, sendWait.Keys);
      WakeReaders(canRecv);
      WakeWriters(canSend);
      assert State() == Wake(s0, ready);
    }

    /** Lines 23-34: popleft one task, resume it, and act on what it yields. */
    method StepOnce(io: Io) returns (raised: Option<Error>, ops: seq<Op>)
      requires Valid() && tasks != []
      modifies this
      ensures Valid() && Stepped(State(), raised, ops) == StepTask(old(State()), io)
    {
      ghost var s0 := State();
      StepKeepsHeldOnce(s0, io);
      var task := tasks[0];
      tasks := tasks[1..];
      var res := Step(task.gen, io);
      ops := res.ops;
      match res
      case Stopped(_) =>
        raised := None;
      case Raised(err, _) =>
        raised := Some(err);
      case Yielded(intent, next, spawned, _) =>
        tasks := tasks + Fresh(spawned, nextId);
        nextId := nextId + |spawned|;
        assert State() == Grown(s0, spawned);
        if intent.why == Recv {
          recvWait := recvWait[intent.what := Task(task.id, next)];
          raised := None;
        } else if intent.why == Send {
          sendWait := sendWait[intent.what := Task(task.id, next)];
          raised := None;
        } else {
          raised := Some(RuntimeError("ARG!"));
        }
      assert Stepped(State(), raised, ops) == StepTask(s0, io);
    }

    /** Lines 15-22: while the queue is empty, select() and wake the ready
        tasks; `used` answers of the network are consumed. run() continues
        from the new state exactly as it would have from the old one. */
    method AwaitTasks(polls: seq<Readiness>, ghost ios: seq<Io>) returns (used: nat)
      requires Valid() && Active(State())
      modifies this
      ensures Valid() && Active(State()) && used <= |polls|
      ensures tasks == [] ==> used == |polls|
      ensures RunFrom(old(State()), polls, ios) == RunFrom(State(), polls[used..], ios)
    {
      used := 0;
      while tasks == [] && used < |polls|
        invariant Valid() && Active(State()) && used <= |polls|
        invariant RunFrom(old(State()), polls, ios) == RunFrom(State(), polls[used..], ios)
        decreases |polls| - used
      {
        RunFromPolls(State(), polls[used..], ios);
        WakeKeepsActive(State(), polls[used]);
        assert polls[used..][1..] == polls[used + 1..];
        Poll(polls[used]);
        used := used + 1;
      }
    }

    /** run(): drive the tasks until the queue and both registries are empty,
        an exception escapes, or the environment's answers run out. */
    method Run(polls: seq<Readiness>, ios: seq<Io>) returns (exit: Exit, stepped: seq<nat>, ops: seq<Op>)
      requires Valid()
      modifies this
      ensures Valid() && Trace(exit, State(), stepped, ops) == RunFrom(old(State()), polls, ios)
    {
      ghost var whole := RunFrom(State(), polls, ios);
      var pi, si := 0, 0;
      stepped, ops := [], [];
      while Active(State())
        invariant Valid()
        invariant 0 <= pi <= |polls| && 0 <= si <= |ios|
        invariant whole == After(stepped, ops, RunFrom(State(), polls[pi..], ios[si..]))
        decreases |polls| - pi + |ios| - si
      {
        ghost var idle := State();
        var used := AwaitTasks(polls[pi..], ios[si..]);
        ghost var before := State();
        RunSkipsPolls(whole, stepped, ops, idle, before, polls, pi, used, ios[si..]);
        ghost var unanswered := polls[pi + used..];
        pi := pi + used;
        assert polls[pi..] == unanswered;
        if tasks == [] {
          exit := Blocked;
          return;
        }
        if si == |ios| {
          exit := OutOfSteps;
          return;
        }
        var id := tasks[0].id;
        RunOneStep(whole, stepped, ops, before, polls[pi..], ios, si);
        var raised, stepOps := StepOnce(ios[si]);
        if raised.Some? {
          exit := Failed(raised.value);
          stepped, ops := stepped + [id], ops + stepOps;
          return;
        }
        si := si + 1;
        stepped, ops := stepped + [id], ops + stepOps;
      }
      exit := Returned;
    }
  }
}

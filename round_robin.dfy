// The round-robin scheduler of aserver-1.py: countdown generators rotated
// through a deque. Each pass of run() takes the task at the front, resumes
// it once, prints what it yielded and puts it at the back; a task that
// finishes is reported and dropped.
module RoundRobin {

  /** A suspended countdown(n) generator, known by the value its local n
      has when the loop test `n > 0` (aserver-1.py:4) is next evaluated. A
      fresh countdown(n) is n; after yielding m it is m - 1. */
  type Gen = int

  /** The outcome of next() on a countdown. */
  datatype Resumed = Yielded(value: int, rest: Gen) | Finished

  /** A line run() prints: print(x) for a yielded value, print("Task")
      when a task finishes. */
  datatype Line = Value(x: int) | TaskDone

  /** next(task) on a countdown (aserver-1.py:4-6): it produces the first
      value the generator still has to yield and leaves a generator that
      yields the rest; it finishes only when nothing is left to yield. */
  function Next(c: Gen): (r: Resumed)
    ensures r.Yielded? ==> [r.value] + Yields(r.rest) == Yields(c)
    ensures r.Finished? ==> Yields(c) == []
  {
    if c > 0 then Yielded(c, c - 1) else Finished
  }

  function Pos(n: int): nat {
    if n > 0 then n else 0
  }

  /** Everything countdown(n) yields, in order: n, n-1, ..., 1, and nothing
      at all when n <= 0. */
  function Yields(n: int): (r: seq<int>)
    ensures |r| == Pos(n)
    ensures forall i :: 0 <= i < |r| ==> r[i] == n - i
    decreases Pos(n)
  {
    if n > 0 then [n] + Yields(n - 1) else []
  }

  /** countdown(n) driven to exhaustion: the `while n > 0` loop of
      aserver-1.py:4-6, collecting the values it yields. */
  method Countdown(n: int) returns (ys: seq<int>)
    ensures ys == Yields(n)
  {
    var m := n;
    ys := [];
    while m > 0
      invariant ys + Yields(m) == Yields(n)
      decreases m
    {
      assert Yields(m) == [m] + Yields(m - 1);
      ys := ys + [m];
      m := m - 1;
    }
  }

  /** The work left in a queue: one pass of run() per value still to be
      yielded and one per StopIteration still to come. */
  function Work(q: seq<Gen>): nat {
    if q == [] then 0 else Pos(q[0]) + 1 + Work(q[1..])
  }

  lemma {:induction false} WorkAppend(a: seq<Gen>, b: seq<Gen>)
    ensures Work(a + b) == Work(a) + Work(b)
    decreases |a|
  {
    if a != [] {
      assert (a + b)[0] == a[0] && (a + b)[1..] == a[1..] + b;
      WorkAppend(a[1..], b);
    } else {
      assert a + b == b;
    }
  }

  /** One pass of the loop body (aserver-1.py:13-18) on the queue: popleft,
      next(), and append the task again if it yielded. */
  function Turn(q: seq<Gen>): (r: seq<Gen>)
    requires q != []
    // The queue never grows: a task that yields goes from the front to the
    // back, the others keeping their order; a task that finishes is dropped.
    ensures q[0] > 0 ==> |r| == |q| && r[..|q| - 1] == q[1..] && r[|q| - 1] == q[0] - 1
    ensures q[0] <= 0 ==> r == q[1..]
    // Every pass uses up exactly one unit of the work left.
    ensures Work(r) + 1 == Work(q)
  {
    match Next(q[0])
    case Yielded(_, rest) =>
      WorkAppend(q[1..], [rest]);
      q[1..] + [rest]
    case Finished => q[1..]
  }

  /** The line the pass that Turn performs prints. */
  function Printed(c: Gen): Line {
    match Next(c)
    case Yielded(x, _) => Value(x)
    case Finished => TaskDone
  }

  /** Everything run() prints from queue q until the queue is empty: the
      task at the front prints its value and goes to the back counted down,
      or prints "Task" and is dropped. */
  function Schedule(q: seq<Gen>): seq<Line>
    decreases Work(q)
  {
    if q == [] then []
    else if q[0] > 0 then
      WorkAppend(q[1..], [q[0] - 1]);
      [Value(q[0])] + Schedule(q[1..] + [q[0] - 1])
    else [TaskDone] + Schedule(q[1..])
  }

  /** run() makes exactly Work(q) passes, each printing one line. */
  lemma {:induction false} ScheduleLength(q: seq<Gen>)
    ensures |Schedule(q)| == Work(q)
    decreases Work(q)
  {
    if q != [] {
      if q[0] > 0 {
        WorkAppend(q[1..], [q[0] - 1]);
        ScheduleLength(q[1..] + [q[0] - 1]);
      } else {
        ScheduleLength(q[1..]);
      }
    }
  }

  /** The pass Turn performs prints Printed of the front task, and run()
      continues from the queue Turn leaves. */
  lemma Unfold(q: seq<Gen>)
    requires q != []
    ensures Schedule(q) == [Printed(q[0])] + Schedule(Turn(q))
  {
  }

  /** A countdown alone in the queue prints exactly what it yields, then
      "Task". */
  lemma {:induction false} Alone(n: int)
    ensures Schedule([n]) == Values(Yields(n)) + [TaskDone]
    decreases Pos(n)
  {
    if n > 0 {
      assert [n][1..] + [n - 1] == [n - 1];
      Alone(n - 1);
    } else {
      assert [n][1..] == [];
    }
  }

  function Values(xs: seq<int>): (r: seq<Line>)
    ensures |r| == |xs|
  {
    if xs == [] then [] else [Value(xs[0])] + Values(xs[1..])
  }

  predicate AllRunning(a: seq<Gen>) {
    forall i :: 0 <= i < |a| ==> a[i] > 0
  }

  /** Every task counted down by one. */
  function Decremented(a: seq<Gen>): (r: seq<Gen>)
    ensures |r| == |a|
  {
    if a == [] then [] else [a[0] - 1] + Decremented(a[1..])
  }

  /** Round robin: when the tasks at the front all still have values to
      yield, each prints its current value in queue order, and each moves
      behind the rest of the queue, counted down by one. */
  lemma {:induction false} Round(a: seq<Gen>, b: seq<Gen>)
    requires AllRunning(a)
    ensures Schedule(a + b) == Values(a) + Schedule(b + Decremented(a))
    decreases |a|
  {
    if a == [] {
      assert a + b == b && b + Decremented(a) == b;
    } else {
      Round(a[1..], b + [a[0] - 1]);
      RoundStep(a, b);
    }
  }

  /** The inductive step of Round: the front task's turn, then the rest. */
  lemma RoundStep(a: seq<Gen>, b: seq<Gen>)
    requires a != [] && a[0] > 0
    requires var b' := b + [a[0] - 1];
      Schedule(a[1..] + b') == Values(a[1..]) + Schedule(b' + Decremented(a[1..]))
    ensures Schedule(a + b) == Values(a) + Schedule(b + Decremented(a))
  {
    var b' := b + [a[0] - 1];
    var x, y := Values(a[1..]), Schedule(b + Decremented(a));
    RotateFront(a, b);
    DecrementedCons(a, b);
    assert Schedule(a + b) == [Value(a[0])] + (x + y);
    assert Values(a) == [Value(a[0])] + x;
    assert [Value(a[0])] + (x + y) == [Value(a[0])] + x + y;
  }

  lemma DecrementedCons(a: seq<Gen>, b: seq<Gen>)
    requires a != []
    ensures (b + [a[0] - 1]) + Decremented(a[1..]) == b + Decremented(a)
  {
    assert Decremented(a) == [a[0] - 1] + Decremented(a[1..]);
  }

  /** The running task at the front prints its value and moves to the back. */
  lemma RotateFront(a: seq<Gen>, b: seq<Gen>)
    requires a != [] && a[0] > 0
    ensures Schedule(a + b) == [Value(a[0])] + Schedule(a[1..] + (b + [a[0] - 1]))
  {
    var q := a + b;
    assert q[0] == a[0] && q[1..] == a[1..] + b;
    assert q[1..] + [q[0] - 1] == a[1..] + (b + [a[0] - 1]);
  }

  /** A whole round: every task of a queue of running tasks prints once,
      and the queue comes back in the same order, one lower each. */
  lemma WholeRound(q: seq<Gen>)
    requires AllRunning(q)
    ensures Schedule(q) == Values(q) + Schedule(Decremented(q))
  {
    Round(q, []);
    assert q + [] == q && [] + Decremented(q) == Decremented(q);
  }

  /** For countdown(10), countdown(5), countdown(20) (aserver-1.py:9) the
      output begins 10, 5, 20, 9, 4, 19, and has 38 lines: 35 values and
      three "Task" lines. */
  lemma Interleaving()
    ensures |Schedule([10, 5, 20])| == 38
    ensures Schedule([10, 5, 20])[..6] == Values([10, 5, 20, 9, 4, 19])
  {
    var q0, q1, q2 := [10, 5, 20], [9, 4, 19], [8, 3, 18];
    WholeRound(q0);
    assert Decremented(q0) == q1;
    WholeRound(q1);
    assert Decremented(q1) == q2;
    var out := Schedule(q0);
    assert out == Values(q0) + (Values(q1) + Schedule(q2));
    assert out[..6] == Values(q0) + Values(q1);
    assert Values(q0) + Values(q1) == Values([10, 5, 20, 9, 4, 19]);
    ScheduleLength(q0);
    assert Work(q0) == 38;
  }

  /** The module-level deque of aserver-1.py with run() as a method; the
      lines run() prints are collected in `printed`. */
  class Scheduler {
    var tasks: seq<Gen>
    var printed: seq<Line>

    /** tasks = deque() */
    constructor ()
      ensures tasks == [] && printed == []
    {
      tasks, printed := [], [];
    }

    /** tasks.extend([countdown(n) for each n]) (aserver-1.py:9). */
    method Extend(ns: seq<int>)
      modifies this
      ensures tasks == old(tasks) + ns && printed == old(printed)
    {
      tasks := tasks + ns;
    }

    /** run() (aserver-1.py:11-18): loops exactly while the deque is not
        empty; prints the round-robin schedule of its tasks. */
    method Run()
      modifies this
      ensures tasks == []
      ensures printed == old(printed) + Schedule(old(tasks))
    {
      while tasks != []
        invariant printed + Schedule(tasks) == old(printed) + Schedule(old(tasks))
        invariant |tasks| <= |old(tasks)|
        decreases Work(tasks)
      {
        ghost var before := tasks;
        Unfold(before);
        var task := tasks[0];
        tasks := tasks[1..];
        match Next(task)
        case Yielded(x, rest) =>
          printed := printed + [Value(x)];
          tasks := tasks + [rest];
        case Finished =>
          printed := printed + [TaskDone];
        assert tasks == Turn(before);
      }
    }
  }
}

# Cooperative schedulers of python-notes, in Dafny

This project models the single-threaded cooperative schedulers of the
python-notes repository and proves their bookkeeping. It covers three pieces
of the repository.

- `concurrency/david_concurrency/aserver.py` is a Fibonacci server built on
  generators. In `run()`, a FIFO deque `tasks` holds the runnable
  generators. Two dictionaries, `recv_wait` and `send_wait`, map a socket to
  the one task parked on it. When the deque is empty, `run()` calls
  `select()` and moves the tasks of ready sockets back to the deque.
  Otherwise it pops the front task and resumes it once. A task that yields
  `('recv', s)` or `('send', s)` is parked under `s`. Any other tag raises
  `RuntimeError`. `StopIteration` drops the task. The listener `fib_server`
  and the per-connection `fib_handler` are the two generators it runs.
  - The handler reads a request with `recv(100)` and parses it with `int()`.
  - It answers `str(fib(n)).encode('ascii') + b'\n'`.
- `david_concurrency/aserver-1.py` is the round-robin version. Countdown
  generators rotate through a deque. A task that yields goes to the back,
  and a task that finishes is dropped.
- `test.py`: the recursive `fib`.

Modules, one file each:

- `Fib` (`fib.dfy`) is `fib`, a pure function with its lemmas.
- `Ascii` (`ascii.dfy`) is the wire format: `str(n).encode('ascii')` and
  `int()` on the bytes of a request.
- `FibTasks` (`fib_tasks.dfy`) holds the two generators as state machines.
  - A `Gen` value is the point where a generator is suspended.
  - `Step` is one `next()` on it.
  - The operating system's answers (the socket made, the connection
    accepted, the bytes available to read) come in as an `Io` value.
  - `Scripted` stands for any other generator `run()` might be given; it
    lists the intents it will yield.
- `AServer` (`aserver.dfy`) models `run()` of aserver.py. It has two parts.
  - Its transitions are functions on a state value (`Wake`, `StepTask`,
    `RunFrom`), and the invariants are proved about them.
  - The class `Scheduler` has the deque and the two dictionaries as fields
    (`seq` and `map`). Its methods (`Poll`, `StepOnce`, `Run`, ...) are loops
    and updates proved to perform exactly those transitions.
  - A task's identity is a number, handed out by `nextId`.
  - The network's answers to `select()` are a sequence of `Readiness`
    values. The answers to the steps are a sequence of `Io` values.
- `RoundRobin` (`round_robin.dfy`) covers aserver-1.py.
  - `Countdown` is the generator's loop.
  - `Schedule` is the sequence of lines `run()` prints.
  - The class `Scheduler` holds the deque and performs `run()` in place.

Two details of the code shape the model.

- `fib_server` appends the new handler to `tasks` itself, in the middle of
  its step (aserver.py:45). In the model, `Step` returns the handlers it
  spawned in `spawned`, and `StepTask` appends them behind the rest of the
  queue as part of that step.
- The code at aserver.py:45 reads `f ib_handler(client)`, which is a syntax
  error. It is modelled as the evident `fib_handler(client)`.

## Model

| member | source | states |
|---|---|---|
| Fib.Fib | test.py:5-7 | fib(n) is at least 1 for every integer n |
| Fib.BaseCases | test.py:6 | fib(n) = 1 for every n <= 2, zero and negative n included |
| Fib.Recurrence | test.py:7 | fib(n) = fib(n-1) + fib(n-2) for every n > 2 |
| Fib.Monotone | test.py:5-7 | fib is non-decreasing from 1 on: 1 <= m <= n implies fib(m) <= fib(n) |
| Fib.StrictlyIncreasing | test.py:5-7 | from 2 on, fib(n) < fib(n+1) |
| Fib.FibTen | test.py:5-7 | fib(10) = 55 |
| Ascii.Digits | concurrency/david_concurrency/aserver.py:56 | str(n) for a natural is digits with no leading zero, and is one digit exactly when n < 10 |
| Ascii.EncodeLine | concurrency/david_concurrency/aserver.py:56 | a response is at least two bytes: decimal digits, then exactly one final newline |
| Ascii.ValueOfDigits | concurrency/david_concurrency/aserver.py:53-56 | the digits str(n) writes denote n |
| Ascii.DigitsOfValue | concurrency/david_concurrency/aserver.py:56 | every canonical digit string is str() of its value, so str() is exactly canonical decimal |
| Ascii.DigitsInjective | concurrency/david_concurrency/aserver.py:56 | different numbers get different response text |
| Ascii.ParseInt | concurrency/david_concurrency/aserver.py:53 | int() of a non-empty run of digits is the number the digits denote (leading zeros allowed) |
| Ascii.ParseAccepts | concurrency/david_concurrency/aserver.py:53 | int() accepts a request only if it holds nothing but digits, signs and whitespace, and at least one digit |
| Ascii.ParseDigits | concurrency/david_concurrency/aserver.py:53-56 | round trip: int(str(n)) = n |
| Ascii.ParseLine | concurrency/david_concurrency/aserver.py:53 | a request line of digits and a newline is read as its number |
| Ascii.ParseNegative | concurrency/david_concurrency/aserver.py:53 | a minus sign before the digits gives the negative number |
| Ascii.ParseBlank | concurrency/david_concurrency/aserver.py:53 | a request of whitespace only is not a number (ValueError) |
| FibTasks.Receive | concurrency/david_concurrency/aserver.py:51 | recv(100) returns a prefix of at most 100 of the available bytes, and all of them when there are at most 100 |
| FibTasks.Step | concurrency/david_concurrency/aserver.py:36-59 | one next() on fib_server, fib_handler or another generator: the intent it yields, its next state, the handlers it appends and the socket calls it makes, or StopIteration, or the exception; its properties are the lemmas below |
| FibTasks.StepShape | concurrency/david_concurrency/aserver.py:36-59 | one next() makes at most one socket call, and only on the readiness the task waited for. The server's tasks yield only 'recv'/'send', spawn at most one handler, and announce their next wait. The listener always yields 'recv' |
| FibTasks.StepEnds | concurrency/david_concurrency/aserver.py:48-53 | a handler on its read finishes exactly when recv returned no bytes, and raises ValueError exactly when the bytes read are not a number int() accepts; no other task raises, and another generator finishes only with nothing left to yield |
| FibTasks.Drive | concurrency/david_concurrency/aserver.py:25 | driving a generator uses one answer per next(); every outcome but the last is a yield, and it ends early only on StopIteration or an exception |
| FibTasks.ListenerNeverCompletes | concurrency/david_concurrency/aserver.py:36-45 | fib_server yields at every step, always ('recv', sock) on the socket made in its first step. Each later step accepts one connection and appends exactly one handler, for that connection |
| FibTasks.ListenerLoop | concurrency/david_concurrency/aserver.py:41-45 | the accept loop: each resumption accepts one client, spawns its handler and waits on the same socket again |
| FibTasks.HandlerStep | concurrency/david_concurrency/aserver.py:49-58 | one step of fib_handler follows the protocol of its turn and moves to the other turn |
| FibTasks.HandlerAlternates | concurrency/david_concurrency/aserver.py:48-59 | fib_handler yields ('recv', client) and ('send', client) alternately, on its own client only. It ends only after a read: by StopIteration exactly when the read is empty, by ValueError on the request read exactly when int() rejects it |
| FibTasks.TurnAt | concurrency/david_concurrency/aserver.py:48-59 | the i-th next() of a handler follows the protocol of the i-th turn |
| FibTasks.ServesRequest | concurrency/david_concurrency/aserver.py:50-58 | when the (at most 100) bytes recv returns are a request int() reads as n, the handler yields ('send', client), then sends str(fib(n)) + newline to that client, then yields ('recv', client) again |
| FibTasks.RejectsRequest | concurrency/david_concurrency/aserver.py:51-53 | when the bytes recv returns are non-empty and not a number, the handler raises ValueError carrying exactly those bytes |
| FibTasks.AnswersTen | concurrency/david_concurrency/aserver.py:50-57 | the request b'10\n' is answered with b'55\n' |
| AServer.Select | concurrency/david_concurrency/aserver.py:18 | select() reports exactly the ready sockets that are watched, each once |
| AServer.Transfer | concurrency/david_concurrency/aserver.py:19-22 | `for s in ready: tasks.append(wait.pop(s))` as a function of the queue and one dictionary; TransferMoves and TransferKeepsExclusive state what it does |
| AServer.Wake | concurrency/david_concurrency/aserver.py:18-22 | select() on the watched sockets, then the readable sockets' tasks and then the writable sockets' tasks move to the queue; the lemmas WakeKeeps... state its properties |
| AServer.WakeMoves | concurrency/david_concurrency/aserver.py:18-22 | after a poll the queue is the old queue, then the tasks of the readable sockets in select()'s order, then those of the writable sockets; the woken sockets leave their dictionaries and every other waiter stays |
| AServer.TransferMoves | concurrency/david_concurrency/aserver.py:19-22 | the tasks of the reported sockets join the back of the queue in report order and leave the dictionary; every other waiter stays |
| AServer.TransferKeepsExclusive | concurrency/david_concurrency/aserver.py:19-22 | moving waiters to the queue keeps every task in one place and neither loses nor adds a task |
| AServer.WakeKeepsHeldOnce | concurrency/david_concurrency/aserver.py:18-22 | after select() and both transfer loops, no task is in two places |
| AServer.WakeKeepsTasks | concurrency/david_concurrency/aserver.py:18-22 | a task is held somewhere after waking exactly when it was held before |
| AServer.WakeKeepsActive | concurrency/david_concurrency/aserver.py:14-22 | waking neither creates nor destroys work: a scheduler with work still has work afterwards |
| AServer.StepTask | concurrency/david_concurrency/aserver.py:23-34 | one pass of the loop body with a non-empty queue: popleft, next(), then park, drop or raise; StepPlacement states where each task ends up |
| AServer.Grown | concurrency/david_concurrency/aserver.py:23-25 | the queue after popleft() and the handlers the step appended, with fresh identities |
| AServer.Spawned | concurrency/david_concurrency/aserver.py:61 | the state after tasks.append of a new generator |
| AServer.PopKeepsHeldOnce | concurrency/david_concurrency/aserver.py:23 | popleft() keeps the invariant and leaves the popped task held by nothing |
| AServer.GrownKeepsHeldOnce | concurrency/david_concurrency/aserver.py:23-25 | after popleft() and the handlers a step appends, the rest of the queue is still at its front in order, the dictionaries are unchanged and the popped task is held by nothing |
| AServer.SpawnKeepsHeldOnce | concurrency/david_concurrency/aserver.py:61 | appending a new generator keeps every task in one place |
| AServer.RegisterKeepsExclusive | concurrency/david_concurrency/aserver.py:28-30 | parking a task held nowhere keeps the invariant, and the task it overwrites is then held by nothing |
| AServer.StepPlacement | concurrency/david_concurrency/aserver.py:23-34 | after a step the task is in recv_wait[what] after ('recv', what), or in send_wait[what] after ('send', what). It is nowhere after StopIteration or an unknown tag, and never back on the queue. An unknown tag raises RuntimeError("ARG!"), and a generator's exception escapes. Other dictionary entries are unchanged, and after a yield the queue is the rest of the old queue followed by exactly the handlers the step spawned |
| AServer.EmptyReadEndsHandler | concurrency/david_concurrency/aserver.py:51-52 | a handler whose read returns no bytes completes: no exception escapes, nothing holds it afterwards, and the queue and dictionaries are otherwise unchanged |
| AServer.HandlerKeepsQueue | concurrency/david_concurrency/aserver.py:48-59 | a handler's step leaves the queue as the rest of the queue before it: it appends nothing |
| AServer.ListenerSpawnsHandler | concurrency/david_concurrency/aserver.py:41-45 | the listener's step appends exactly one new handler, for the accepted connection, and parks the listener on its socket again |
| AServer.StepKeepsHeldOnce | concurrency/david_concurrency/aserver.py:23-34 | a step keeps every task in at most one place |
| AServer.OverwriteOrphans | concurrency/david_concurrency/aserver.py:28 | re-registering a socket that already has a waiter leaves the earlier task held by nothing |
| AServer.OverwriteOrphansWriter | concurrency/david_concurrency/aserver.py:30 | re-registering a socket that already has a writer parked on it leaves the earlier task held by nothing |
| AServer.StepKeepsQueueOrder | concurrency/david_concurrency/aserver.py:23 | after a step the queue starts with the rest of the queue before it |
| AServer.RunFrom | concurrency/david_concurrency/aserver.py:13-34 | run() from a state, given the network's and the operating system's answers: how it ends, the state it leaves, the tasks it steps and the socket calls they make; RunExits, RunKeepsHeldOnce and DrainInOrder state its properties |
| AServer.RunExits | concurrency/david_concurrency/aserver.py:13-34 | run() returns only with the queue and both dictionaries empty, and at once when they are. It stops otherwise only on an escaping exception, or with work pending when the answers run out. It steps at most one task per answer |
| AServer.RunKeepsHeldOnce | concurrency/david_concurrency/aserver.py:13-34 | the state run() leaves still holds each task in at most one place |
| AServer.DrainInOrder | concurrency/david_concurrency/aserver.py:23 | the tasks at the front of the queue are the next ones stepped, in queue order, each once; only an escaping exception cuts this short |
| AServer.RunFromPolls | concurrency/david_concurrency/aserver.py:15-22 | with work but an empty queue, run() polls before anything else |
| AServer.RunFromSteps | concurrency/david_concurrency/aserver.py:23-34 | with a non-empty queue, run() steps the front task and continues from the new state, unless an exception escapes and ends it |
| AServer.BadIntentEscapes | concurrency/david_concurrency/aserver.py:31-32 | a task yielding a tag other than 'recv'/'send' ends run() with RuntimeError("ARG!") |
| AServer.BadRequestEscapes | concurrency/david_concurrency/aserver.py:53 | a handler reading a request int() rejects ends run() with that ValueError |
| AServer.Scheduler.constructor | concurrency/david_concurrency/aserver.py:9-11 | the scheduler starts with an empty deque and empty dictionaries |
| AServer.Scheduler.Spawn | concurrency/david_concurrency/aserver.py:61 | tasks.append of a new generator: it is added at the back and the invariant is kept |
| AServer.Scheduler.WakeReaders | concurrency/david_concurrency/aserver.py:19-20 | the loop over can_recv performs exactly the transfer of those sockets' tasks |
| AServer.Scheduler.WakeWriters | concurrency/david_concurrency/aserver.py:21-22 | the loop over can_send performs exactly the transfer of those sockets' tasks |
| AServer.Scheduler.Poll | concurrency/david_concurrency/aserver.py:18-22 | one select() and the two loops leave the state Wake describes and keep the invariant |
| AServer.Scheduler.StepOnce | concurrency/david_concurrency/aserver.py:23-34 | popleft, next() and the placement leave the state StepTask describes, with its exception and socket calls, and keep the invariant |
| AServer.Scheduler.AwaitTasks | concurrency/david_concurrency/aserver.py:15-22 | the `while not tasks` loop keeps the invariant and the work, consumes only poll answers, and leaves the queue empty only when the answers run out |
| AServer.Scheduler.Run | concurrency/david_concurrency/aserver.py:13-34 | the loop ends exactly as RunFrom says, with the same final state, stepped tasks and socket calls, and keeps the invariant |
| RoundRobin.Next | david_concurrency/aserver-1.py:3-6 | one next() on a countdown produces the first of the values the generator still has to yield and leaves a generator that yields exactly the rest; it finishes only when nothing is left |
| RoundRobin.Yields | david_concurrency/aserver-1.py:3-6 | countdown(n) yields n, n-1, ..., 1, and nothing when n <= 0 |
| RoundRobin.Countdown | david_concurrency/aserver-1.py:3-6 | the countdown loop collects exactly those values |
| RoundRobin.Work | david_concurrency/aserver-1.py:3-18 | the work left in a queue: one pass per value still to be yielded and one per task still to finish; the measure run() decreases |
| RoundRobin.Turn | david_concurrency/aserver-1.py:13-18 | a task that yields moves from the front to the back counted down, the others keeping their order and the length unchanged; a finished task is dropped; each pass uses up one unit of work |
| RoundRobin.Printed | david_concurrency/aserver-1.py:15-18 | the line one pass prints: the yielded value, or "Task" when the task finishes |
| RoundRobin.Schedule | david_concurrency/aserver-1.py:11-18 | everything run() prints from a queue until it is empty; its properties are the lemmas below |
| RoundRobin.ScheduleLength | david_concurrency/aserver-1.py:11-18 | run() makes exactly as many passes as the work measure says: one per value to yield and one per task |
| RoundRobin.Unfold | david_concurrency/aserver-1.py:12-18 | one pass prints the front task's line, and run() continues from the queue that pass leaves |
| RoundRobin.Alone | david_concurrency/aserver-1.py:3-18 | a countdown alone in the queue prints exactly what it yields, then "Task" |
| RoundRobin.Round | david_concurrency/aserver-1.py:12-17 | tasks at the front that still have values each print in queue order and move behind the rest, counted down |
| RoundRobin.WholeRound | david_concurrency/aserver-1.py:12-17 | a queue of running tasks prints one value each and comes back in the same order, one lower |
| RoundRobin.Interleaving | david_concurrency/aserver-1.py:9-18 | countdown(10), countdown(5), countdown(20) print 38 lines, beginning 10, 5, 20, 9, 4, 19 |
| RoundRobin.Scheduler.constructor | david_concurrency/aserver-1.py:8 | the deque starts empty |
| RoundRobin.Scheduler.Extend | david_concurrency/aserver-1.py:9 | tasks.extend appends the new tasks in order |
| RoundRobin.Scheduler.Run | david_concurrency/aserver-1.py:11-18 | the loop runs until the deque is empty and prints exactly the round-robin schedule of the initial deque; it terminates because the work measure drops by one each pass |

## Left out

- Sockets and the operating system. `socket`, `setsockopt`, `bind`,
  `listen`, `accept`, `recv`, `send` and `select` are not executed. Their
  results are inputs: an `Io` per step and a `Readiness` per `select()`.
  The listener's set-up is recorded as one `Opened` call.
- `send` is taken to write the whole response. Partial sends and full send
  buffers are not modelled.
- Socket options and the listen backlog are not modelled.
- `select()` answers may be any lists of sockets, even empty ones. The model
  keeps only the watched sockets, each once, in the order given. An empty
  answer makes `run()` poll again, as the `while not tasks` loop does. A
  real `select()` without a timeout blocks instead of answering empty.
- `AServer.RunFrom` follows `run()` for as long as the given answers last.
  `run()` itself can run forever. The model then stops with `Blocked` (no
  poll answer left while waiting) or `OutOfSteps` (no step answer left).
- `Ascii.ParseInt` covers ASCII whitespace around an optionally signed run
  of ASCII decimal digits. `int()`'s underscores between digits are not
  accepted by the model.
- aserver.py imports `fib` from a module `fib`, which is not part of this
  model. The `fib` of test.py is used in its place.
- The unused thread and process-pool imports and the commented-out pool code
  of aserver.py are not modelled.
- `print` output of aserver.py ("Connection", "Closed", "task done") is not
  modelled.
- In aserver-1.py the printed lines are modelled as a sequence of `Line`
  values, not as an output stream.
- Generators other than the server's are `Scripted`: they yield a fixed list
  of intents and neither make socket calls nor raise. A generator that
  yields something other than a pair is not modelled.
- The running time of `fib` is not modelled, only its value.
- The socket calls' own errors are not modelled. `bind` and `accept` can
  raise OSError (aserver.py:39, 43). `recv` can raise ConnectionResetError
  (line 51), and `send` can raise BrokenPipeError (line 58). Each would
  escape run(), since only StopIteration is caught (line 33). An `Io`
  always succeeds, so `Step` never raises them.
- FibTasks.ServesRequest: does not model Python's recursion limit. The
  recursive `fib` of test.py:7 raises RecursionError once n is near the
  default limit of 1000 (about 998 and above). That exception would escape
  run(). The model answers every request with fib(n).

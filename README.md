# pgnotify: the notification loop, modelled in Dafny

pgnotify lets a Python program subscribe to PostgreSQL `LISTEN` channels and
read the notifications one by one from the generator `await_pg_notifications`.
The generator does four things:

- It builds and executes one `listen "<channel>"; ...` statement.
- When `handle_keyboardinterrupt` is set, it replaces the SIGINT handler with a
  no-op handler and registers a self-pipe as the signal wakeup fd.
- It loops forever on `select`. An idle timeout yields `None` when
  `yield_on_timeout` is set. A readable connection is polled, and its
  `notifies` list is popped empty, yielding each notification. A readable
  wakeup pipe yields `False`.
- In its `finally` block it puts the original SIGINT handler back. That call
  itself raises when the handler it got was `None` (one installed outside
  Python) or when it runs off the main thread; the no-op handler then stays.

The project has five modules:

- `Wrappers` holds `Option`.
- `Sequences` holds one concatenation fact used by the proofs.
- `Subscription` is pure. It covers quoting, channel normalisation, the listen
  statement, and a parser that reads the statement back, used to state that the
  statement determines the channel list.
- `Dispatch` is pure. It says what one loop iteration emits for a given
  `select` outcome and queue, and what a whole run emits. It proves the
  properties of both.
- `Notify` is imperative. It has the classes `DbConnection` (the `notifies`
  list, `autocommit`, the executed statements), `SignalState` (the
  process-wide SIGINT disposition and the wakeup-fd registration) and
  `Listener` (one generator object: its phase, the captured
  `original_handler`, and the trace of `select` calls). It also has the method
  `AwaitNotifications`, which drives one whole consumption of the generator.

Inputs that come from outside the program are parameters:

- `Wakeup` is one `select` outcome: the readable set with what the next `poll`
  receives, or a `select.error`, or any other exception.
- `SetupOutcome` says which setup call raised, if any.

### Behaviour of the code that the model keeps

- Channel names are put between double quotes and nothing is escaped.
  `EmbeddedQuoteSplitsChannel` shows that the one channel `a"; listen "b`
  produces exactly the statement for the two channels `a` and `b`.
- Within one wakeup the order is: the idle `None`, then the notifications, then
  `False`. Notifications come out in reverse queue order, because `pop()`
  takes from the end.
- `timeout` is passed to every `select` unchanged, and each notification is
  yielded on its own. Only SIGINT is handled.
- The wakeup pipe is never read. The `finally` block restores the SIGINT
  handler but does not unregister the wakeup fd. `SignalState.wakeupFdSet`
  stays true after the generator ends.
- A failure of `signal.signal` itself leaves `original_handler` unbound. The
  `finally` block then raises instead of restoring anything, so nothing is
  restored (`SetupOutcome.SignalFails`). A failure of the `listen` statement
  happens before the `try`, so the `finally` block does not run.

## Model

| member | source | states |
|---|---|---|
| `Subscription.QuoteTableNameShape` | pgnotify/notify.py:53-54 | the quoted name is two characters longer, starts and ends with `"`, and has the name itself, unescaped, in between |
| `Subscription.SingleChannelIsOneElementList` | pgnotify/notify.py:78-79 | a lone string channel gives the same statement as the one-element list holding it, namely `listen "<name>"` |
| `Subscription.NoChannelsEmptyStatement` | pgnotify/notify.py:81-82 | an empty channel list gives the empty statement |
| `Subscription.ListenStatementAppend` | pgnotify/notify.py:81-82 | channels appear in input order: one more channel at the end appends `; listen "<name>"` |
| `Subscription.ListenStatementRoundTrip` | pgnotify/notify.py:81-82 | when no name holds a double quote, parsing the statement gives back exactly the channel list, in order |
| `Subscription.EmbeddedQuoteSplitsChannel` | pgnotify/notify.py:53-54 | with no escaping, the single channel `a"; listen "b` produces the statement that subscribes to `a` and `b` |
| `Dispatch.ListenOn` | pgnotify/notify.py:89-94 | `select` watches the connection always and the wakeup pipe exactly when SIGINT handling is on, each once |
| `Dispatch.IdleWakeup` | pgnotify/notify.py:101-104 | an idle wakeup emits exactly one `None` if `yield_on_timeout` is set and nothing otherwise |
| `Dispatch.IdleTimeoutOnlyWhenIdle` | pgnotify/notify.py:101-104 | `None` is emitted if and only if nothing was readable and `yield_on_timeout` is set |
| `Dispatch.NotificationsOfIteration` | pgnotify/notify.py:106-116 | the notifications emitted are the post-poll queue reversed when the connection is readable, and none otherwise |
| `Dispatch.DrainDeliversEachOnce` | pgnotify/notify.py:106-116 | when the connection is readable, the notifications emitted are the queue as a multiset: each exactly once |
| `Dispatch.DrainOrder` | pgnotify/notify.py:109-116 | the k-th event of a connection wakeup is the k-th notification from the end of the queue |
| `Dispatch.InterruptedLast` | pgnotify/notify.py:106-119 | `False` is emitted if and only if SIGINT handling is on and the wakeup pipe is readable; it is then the last event and occurs once |
| `Dispatch.StepConservesNotifications` | pgnotify/notify.py:106-116 | one iteration neither loses nor duplicates: emitted plus still queued equals previously queued plus newly polled |
| `Dispatch.RunConservesNotifications` | pgnotify/notify.py:96-124 | over any sequence of iterations, the notifications emitted plus those still queued are exactly those pending at the start plus those polled |
| `Dispatch.Raises` | pgnotify/notify.py:96-124 | a run ends by exception exactly when one of its `select` outcomes, other than a `select.error`, raises |
| `Dispatch.Iterations` | pgnotify/notify.py:96-98 | a run makes one `select` call per outcome up to and including the first that raises: all of them if none raises |
| `Dispatch.DefaultRunOnlyNotifies` | pgnotify/notify.py:60-62 | with `yield_on_timeout` and `handle_keyboardinterrupt` at their default `False`, a run yields nothing but notifications |
| `Dispatch.InterruptRepeats` | pgnotify/notify.py:15-22 | once the wakeup pipe, which is never read, has made an iteration yield `False`, every later iteration ends with `False` and yields no idle `None` |
| `Dispatch.TickNotifyInterruptScenario` | tests/test_pgnotify.py:29-53 | the test's sequence (idle, one notification, SIGINT) emits `None`, the notification, `False` |
| `Notify.DbConnection.Execute` | pgnotify/notify.py:84-86 | the statement is appended to `executed`; `notifies` and `autocommit` stay as they were |
| `Notify.DbConnection.Poll` | pgnotify/notify.py:107 | `poll` appends the received notifications to `notifies` and changes nothing else |
| `Notify.DbConnection.Pop` | pgnotify/notify.py:110 | `pop` removes and returns the last pending notification |
| `Notify.Listener.constructor` | pgnotify/notify.py:57-63 | creating the generator runs none of its body: phase Created, nothing captured, no `select` made |
| `Notify.Listener.Start` | pgnotify/notify.py:76-95 | setup sets autocommit and executes the listen statement. With SIGINT handling on it captures the old handler and installs the no-op one. A failure before the `try` leaves SIGINT alone; one inside it restores what was captured, when `signal.signal` accepts it |
| `Notify.Listener.Finally` | pgnotify/notify.py:125-127 | the `finally` block restores the captured handler only when SIGINT handling is on, a handler was captured, and `signal.signal` accepts it: not `None`, and on the main thread. Otherwise the disposition stays as it is |
| `Notify.Listener.Drain` | pgnotify/notify.py:109-116 | the pop loop empties `notifies` and returns the queue in reverse order as events |
| `Notify.Listener.Step` | pgnotify/notify.py:96-124 | one iteration records a `select` call with the fixed watch list and timeout. It emits the specified events and leaves the queue as specified. A `select.error` continues the loop and another exception ends it through `finally`. SIGINT is untouched otherwise |
| `Notify.Listener.Close` | pgnotify/notify.py:125-127 | closing a suspended generator restores the handler captured at setup when SIGINT handling is on and the restore can succeed; closing one that never started, or already finished, changes nothing; the captured handler and the `select` trace stay |
| `Notify.RunLoop` | pgnotify/notify.py:96-124 | the loop emits the run's specified events and leaves the specified queue. It makes `Iterations(ws)` `select` calls, all with the same watch list and timeout, and ends the generator exactly when the run raises. SIGINT stays as setup left it while running, and is restored, when `signal.signal` accepts the captured handler, if an exception ends the loop |
| `Notify.AwaitNotifications` | pgnotify/notify.py:57-127 | the SIGINT disposition ends equal to what it was before, except that the no-op handler stays when the restore raises: the original handler was installed outside Python, or `close()` ran off the main thread. The events and final queue are those of the specified run, or none when setup fails. The `select` calls returned are one per iteration, each with the same watch list and `timeout` |
| `Notify.AwaitNotificationsWithDefaults` | pgnotify/notify.py:57-63 | a call with the default arguments leaves SIGINT and the wakeup fd as they were, sets autocommit and executes the listen statement, yields only notifications, leaves the specified queue, and makes every `select` on the connection alone with a 3-second timeout |

## Left out

- `get_dbapi_connection` (pgnotify/notify.py:38-50) chooses between a DSN string, an SQLAlchemy engine and a psycopg2 connection. Those are calls into foreign libraries. The model keeps only its effect, `autocommit = True`.
- `get_wakeup_fd` (pgnotify/notify.py:15-22) creates the pipe and sets `fcntl` flags, which is OS plumbing. Its effect is the flag `SignalState.wakeupFdSet`, and its failure is `SetupOutcome.PipeFails`.
- `select.select` blocks; it is not modelled. Each outcome is an input (`Wakeup`), and so are the notifications that `poll` reads from the server.
- Signal delivery is asynchronous; it is not modelled. Whether the wakeup pipe is readable is an input.
- Because the pipe is never drained, after one SIGINT every later `select` reports it readable. The outcomes in `Wakeup` are not constrained to this; `Dispatch.PipeStaysReadable` states it as a condition, and `Dispatch.InterruptRepeats` what follows from it. Nor is a readable set limited to the watched descriptors; a readable wakeup pipe is ignored when SIGINT is not handled, as in the source.
- An empty channel list gives the empty statement, which psycopg2 refuses with a `ProgrammingError`. In the model, whether the `listen` statement fails is the input `SetupOutcome.ListenFails`, and it is not tied to the statement being empty.
- The `select.error` branch (pgnotify/notify.py:121-124) is modelled as "caught, nothing emitted, loop continues", which is its Python 2 meaning. Under Python 3, the tuple unpacking of the exception raises `TypeError`, which would end the generator like `Wakeup.Raised`.
- Logging through `logx` has no effect on the state, so it is left out.
- Without SIGINT handling, a SIGINT raises `KeyboardInterrupt` wherever Python is running at that moment. Raised inside `select`, it ends an iteration (`Wakeup.Raised`). Raised in the consumer while the generator is suspended at a `yield`, as in the second test (tests/test_pgnotify.py:55-63), it leads to the generator being closed (`Listener.Close` on a running generator). One raised inside the generator after `select` has returned, during `poll` or the drain, is not represented.
- `timeout`'s numeric meaning is left out. It is an opaque value passed through unchanged.
- `notify()` in pgnotify/__init__.py is a one-shot statement sent through the driver. It is not part of this model. The `start_listening` that `__init__.py` imports does not exist in notify.py.
- example.py and tests/conftest.py are a demo script and a database fixture. They are not part of this model.
- `DbConnection.Execute` leaves `notifies` as it was. psycopg2 also appends notifications that arrive while a statement runs; in the model such notifications reach `notifies` only through `poll`, at the next wakeup where the connection is readable.
- Notify.Listener.Step: the `finally` run on an exception from `select` is taken to run on the main thread, where setup ran. A generator resumed from another thread is not modelled; only `close()` takes the thread as a parameter.
- Notify.Listener.Step: one call is a whole loop iteration, not one `next()`. A consumer that stops partway through a drain is not represented: in the source, the notifications not yet popped stay in `cc.notifies`. The model closes the generator only between iterations.

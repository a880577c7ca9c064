/**
 * The generator `await_pg_notifications` (pgnotify/notify.py:57-127) as
 * imperative state: the connection whose `notifies` list it drains, the
 * process-wide SIGINT disposition it swaps and restores, and the generator
 * itself, whose life is split into setup, loop iterations and the `finally`
 * block.
 */
module Notify {
  import opened Wrappers
  import opened Subscription
  import opened Dispatch
  import opened Sequences

  /**
   * A SIGINT disposition, as `signal.signal` takes and returns it.
   * `NotFromPython` is a handler installed outside Python, which
   * `signal.signal` reports as `None`.
   */
  datatype Handler = DefaultAction | Ignored | PythonHandler(name: string) | NotFromPython

  /**
   * Whether `signal.signal(SIGINT, h)` succeeds: it raises `ValueError` off
   * the main thread and `TypeError` when `h` is `None`, and then leaves the
   * disposition as it was.
   */
  predicate CanInstall(h: Handler, mainThread: bool)
  {
    mainThread && h != NotFromPython
  }

  /** `signal_handler` (pgnotify/notify.py:25-26): a handler that does nothing. */
  const NoOpHandler: Handler := PythonHandler("pgnotify.notify.signal_handler")

  /** The `timeout` argument, passed to `select` as it is (a number of seconds, or None). */
  datatype Timeout = Seconds(seconds: real) | NoTimeout

  /** The default `timeout=3`. */
  const DefaultTimeout: Timeout := Seconds(3.0)

  /** One call `select.select(listen_on, [], [], timeout)`. */
  datatype SelectCall = SelectCall(watched: seq<Fd>, timeout: Timeout)

  /**
   * Which setup step raised, if any: the `listen` statement, `signal.signal`,
   * or the wakeup pipe (`get_wakeup_fd`).
   */
  datatype SetupOutcome = SetupOk | ListenFails | SignalFails | PipeFails

  /** A generator object: created and not started, suspended inside its loop, or finished. */
  datatype Phase = Created | Running | Finished

  /** Whether setup reaches the loop: the signal steps run only when SIGINT is handled. */
  predicate SetupCompletes(outcome: SetupOutcome, handleInterrupt: bool)
  {
    outcome == SetupOk || (!handleInterrupt && outcome != ListenFails)
  }

  /** The psycopg2 connection, as far as the loop uses it. */
  class DbConnection {
    var autocommit: bool
    var notifies: seq<Notification>
    var executed: seq<string>

    constructor (autocommit: bool, notifies: seq<Notification>)
      ensures this.autocommit == autocommit && this.notifies == notifies && executed == []
    {
      this.autocommit := autocommit;
      this.notifies := notifies;
      executed := [];
    }

    /** `cursor.execute(statement)`; the statement is recorded. */
    method Execute(statement: string)
      modifies this
      ensures executed == old(executed) + [statement]
      ensures notifies == old(notifies) && autocommit == old(autocommit)
    {
      executed := executed + [statement];
    }

    /** `poll()`: notifications read from the server are appended to `notifies`. */
    method Poll(arrived: seq<Notification>)
      modifies this
      ensures notifies == old(notifies) + arrived
      ensures executed == old(executed) && autocommit == old(autocommit)
    {
      notifies := notifies + arrived;
    }

    /** `notifies.pop()`: removes and returns the last entry. */
    method Pop() returns (n: Notification)
      requires notifies != []
      modifies this
      ensures old(notifies) == notifies + [n]
      ensures executed == old(executed) && autocommit == old(autocommit)
    {
      n := notifies[|notifies| - 1];
      notifies := notifies[..|notifies| - 1];
    }
  }

  /** The process-wide signal state the generator touches. */
  class SignalState {
    /** The current SIGINT disposition. */
    var sigint: Handler
    /** Whether a wakeup fd has been registered with `signal.set_wakeup_fd`. */
    var wakeupFdSet: bool

    constructor (sigint: Handler)
      ensures this.sigint == sigint && !wakeupFdSet
    {
      this.sigint := sigint;
      wakeupFdSet := false;
    }
  }

  /** A generator object returned by `await_pg_notifications(...)`. */
  class Listener {
    const conn: DbConnection
    const signals: SignalState
    const channels: Channels
    const timeout: Timeout
    const yieldOnTimeout: bool
    const handleInterrupt: bool
    var phase: Phase
    /** The local `original_handler`: unbound until `signal.signal` returns. */
    var originalHandler: Option<Handler>
    /** Every `select` call made so far. */
    var selects: seq<SelectCall>

    ghost predicate Valid()
      reads this, signals
    {
      && (forall i :: 0 <= i < |selects| ==> selects[i] == SelectCall(ListenOn(handleInterrupt), timeout))
      && (phase == Created ==> selects == [] && originalHandler == None)
      && (!handleInterrupt ==> originalHandler == None)
      && (phase == Running && handleInterrupt ==> originalHandler.Some? && signals.sigint == NoOpHandler)
    }

    /** Calling a generator function runs none of its body. */
    constructor (conn: DbConnection, signals: SignalState, channels: Channels, timeout: Timeout,
                 yieldOnTimeout: bool, handleInterrupt: bool)
      ensures Valid() && phase == Created
      ensures this.conn == conn && this.signals == signals && this.channels == channels
      ensures this.timeout == timeout && this.yieldOnTimeout == yieldOnTimeout
      ensures this.handleInterrupt == handleInterrupt
    {
      this.conn := conn;
      this.signals := signals;
      this.channels := channels;
      this.timeout := timeout;
      this.yieldOnTimeout := yieldOnTimeout;
      this.handleInterrupt := handleInterrupt;
      phase := Created;
      originalHandler := None;
      selects := [];
    }

    /**
     * The body up to the loop, run by the first `next()`: autocommit, the
     * subscription statement, and, inside the `try`, the SIGINT swap and the
     * wakeup pipe. A failure before the `try` leaves the signal state alone;
     * one inside it runs the `finally` block.
     */
    method Start(outcome: SetupOutcome)
      requires Valid() && phase == Created
      modifies this, conn, signals
      ensures Valid()
      ensures conn.autocommit
      ensures conn.executed == old(conn.executed) + [ListenStatement(channels)]
      ensures conn.notifies == old(conn.notifies)
      ensures selects == []
      ensures phase == if SetupCompletes(outcome, handleInterrupt) then Running else Finished
      ensures originalHandler
           == if handleInterrupt && (outcome == SetupOk || outcome == PipeFails)
              then Some(old(signals.sigint)) else None
      ensures signals.sigint
           == if handleInterrupt
                 && (outcome == SetupOk || (outcome == PipeFails && !CanInstall(old(signals.sigint), true)))
              then NoOpHandler else old(signals.sigint)
      ensures signals.wakeupFdSet == (old(signals.wakeupFdSet) || (handleInterrupt && outcome == SetupOk))
    {
      conn.autocommit := true;
      conn.Execute(ListenStatement(channels));
      if outcome == ListenFails {
        phase := Finished;
        return;
      }
      phase := Running;
      if handleInterrupt {
        if outcome == SignalFails {
          Finally(true);
          return;
        }
        originalHandler := Some(signals.sigint);
        signals.sigint := NoOpHandler;
        if outcome == PipeFails {
          Finally(true);
          return;
        }
        signals.wakeupFdSet := true;
      }
    }

    /**
     * The `finally` block, run on the main thread or not: with SIGINT
     * handling on, put back the handler `signal.signal` returned. If that
     * call never returned, the name is unbound and nothing is restored; if
     * the restoring call raises, the disposition stays as it is and the
     * exception leaves the generator.
     */
    method Finally(mainThread: bool)
      modifies this, signals
      ensures phase == Finished
      ensures signals.sigint
           == if handleInterrupt && old(originalHandler).Some?
                 && CanInstall(old(originalHandler).value, mainThread)
              then old(originalHandler).value
              else old(signals.sigint)
      ensures signals.wakeupFdSet == old(signals.wakeupFdSet)
      ensures selects == old(selects) && originalHandler == old(originalHandler)
    {
      if handleInterrupt && originalHandler.Some? && CanInstall(originalHandler.value, mainThread) {
        signals.sigint := originalHandler.value;
      }
      phase := Finished;
    }

    /** The `while cc.notifies: yield cc.notifies.pop()` loop. */
    method Drain() returns (events: seq<Event>)
      modifies conn
      ensures events == Drained(old(conn.notifies))
      ensures conn.notifies == []
      ensures conn.executed == old(conn.executed) && conn.autocommit == old(conn.autocommit)
    {
      ghost var queue := conn.notifies;
      events := [];
      while conn.notifies != []
        invariant |conn.notifies| <= |queue| && conn.notifies == queue[..|conn.notifies|]
        invariant events == Drained(queue[|conn.notifies|..])
        invariant conn.executed == old(conn.executed) && conn.autocommit == old(conn.autocommit)
        decreases |conn.notifies|
      {
        ghost var k := |conn.notifies|;
        var n := conn.Pop();
        assert n == queue[k - 1];
        DrainedCons(n, queue[k..]);
        assert queue[k - 1..] == [n] + queue[k..];
        events := events + [Notified(n)];
      }
      assert queue[0..] == queue;
    }

    /**
     * One iteration of `while True` (pgnotify/notify.py:97-124): a `select`
     * with the fixed watch list and timeout, then the events for what it
     * reported. An exception other than `select.error` leaves the generator
     * through the `finally` block.
     */
    method Step(w: Wakeup) returns (events: seq<Event>)
      requires Valid() && phase != Created
      modifies this, conn, signals
      ensures Valid()
      ensures conn.executed == old(conn.executed) && conn.autocommit == old(conn.autocommit)
      ensures signals.wakeupFdSet == old(signals.wakeupFdSet)
      ensures originalHandler == old(originalHandler)
      ensures old(phase) == Finished ==>
        events == [] && phase == Finished && selects == old(selects)
        && conn.notifies == old(conn.notifies) && signals.sigint == old(signals.sigint)
      ensures old(phase) == Running ==>
        && selects == old(selects) + [SelectCall(ListenOn(handleInterrupt), timeout)]
        && events == StepEvents(yieldOnTimeout, handleInterrupt, old(conn.notifies), w)
        && conn.notifies == QueueAfter(old(conn.notifies), w)
        && phase == (if w.Raised? then Finished else Running)
        && signals.sigint
           == (if w.Raised? && handleInterrupt && CanInstall(old(originalHandler).value, true)
               then old(originalHandler).value else old(signals.sigint))
    {
      events := [];
      if phase == Finished {
        return;
      }
      selects := selects + [SelectCall(ListenOn(handleInterrupt), timeout)];
      match w
      case Raised =>
        Finally(true);
      case SelectError =>
      case Ready(readable, arrived) =>
        if readable == {} && yieldOnTimeout {
          events := [IdleTimeout];
        }
        if Connection in readable {
          conn.Poll(arrived);
          var drained := Drain();
          events := events + drained;
        }
        if handleInterrupt && WakeupPipe in readable {
          events := events + [Interrupted];
        }
    }

    /**
     * `close()`, from the main thread or not: the consumer stops; a
     * suspended generator runs its `finally` block.
     */
    method Close(mainThread: bool)
      requires Valid()
      modifies this, signals
      ensures Valid() && phase == Finished
      ensures signals.sigint
           == if old(phase) == Running && handleInterrupt
                 && CanInstall(old(originalHandler).value, mainThread)
              then old(originalHandler).value
              else old(signals.sigint)
      ensures signals.wakeupFdSet == old(signals.wakeupFdSet)
      ensures selects == old(selects) && originalHandler == old(originalHandler)
    {
      if phase == Running {
        Finally(mainThread);
      } else {
        phase := Finished;
      }
    }
  }

  /**
   * The `while True` loop driven by the `select` outcomes in `ws`, until one
   * of them raises or the outcomes run out (the consumer stops pulling).
   */
  method RunLoop(listener: Listener, ws: seq<Wakeup>) returns (events: seq<Event>)
    requires listener.Valid() && listener.phase == Running
    modifies listener, listener.conn, listener.signals
    ensures listener.Valid() && listener.phase != Created
    ensures events
         == RunEvents(listener.yieldOnTimeout, listener.handleInterrupt, old(listener.conn.notifies), ws)
    ensures listener.conn.notifies == FinalQueue(old(listener.conn.notifies), ws)
    ensures listener.originalHandler == old(listener.originalHandler)
    ensures listener.phase == Running ==> listener.signals.sigint == old(listener.signals.sigint)
    ensures listener.phase == Finished <==> Raises(ws)
    ensures listener.phase == Finished ==>
      listener.signals.sigint
      == if listener.handleInterrupt && CanInstall(old(listener.originalHandler).value, true)
         then old(listener.originalHandler).value
         else old(listener.signals.sigint)
    ensures |listener.selects| == |old(listener.selects)| + Iterations(ws)
    ensures listener.signals.wakeupFdSet == old(listener.signals.wakeupFdSet)
    ensures listener.conn.autocommit == old(listener.conn.autocommit)
    ensures listener.conn.executed == old(listener.conn.executed)
  {
    var conn, signals := listener.conn, listener.signals;
    var y, h := listener.yieldOnTimeout, listener.handleInterrupt;
    ghost var total := RunEvents(y, h, conn.notifies, ws);
    ghost var final := FinalQueue(conn.notifies, ws);
    events := [];
    var rest := ws;
    while rest != [] && listener.phase == Running
      invariant listener.Valid() && listener.phase != Created
      invariant listener.originalHandler == old(listener.originalHandler)
      invariant listener.phase == Running ==>
        && events + RunEvents(y, h, conn.notifies, rest) == total
        && FinalQueue(conn.notifies, rest) == final
        && signals.sigint == old(signals.sigint)
        && (Raises(rest) <==> Raises(ws))
        && |listener.selects| - |old(listener.selects)| + Iterations(rest) == Iterations(ws)
      invariant listener.phase == Finished ==>
        && events == total && conn.notifies == final
        && signals.sigint
           == (if h && CanInstall(old(listener.originalHandler).value, true)
               then old(listener.originalHandler).value else old(signals.sigint))
        && Raises(ws) && |listener.selects| == |old(listener.selects)| + Iterations(ws)
      invariant signals.wakeupFdSet == old(signals.wakeupFdSet)
      invariant conn.autocommit == old(conn.autocommit)
      invariant conn.executed == old(conn.executed)
      decreases |rest|
    {
      ghost var queue := conn.notifies;
      RunEventsUnfold(y, h, queue, rest);
      var stepEvents := listener.Step(rest[0]);
      if !rest[0].Raised? {
        ConcatAssoc(events, stepEvents, RunEvents(y, h, conn.notifies, rest[1..]));
      }
      events := events + stepEvents;
      rest := rest[1..];
    }
  }

  /**
   * A whole consumption of the generator: setup, the loop, and the `finally`
   * block, run either by an exception in the loop or by `close()`. SIGINT ends
   * with the disposition it had before, unless the restoring
   * `signal.signal` raises: for a handler installed outside Python, or for a
   * `close()` off the main thread.
   */
  method AwaitNotifications(conn: DbConnection, signals: SignalState, channels: Channels,
                            timeout: Timeout, yieldOnTimeout: bool, handleInterrupt: bool,
                            outcome: SetupOutcome, ws: seq<Wakeup>, closeOnMainThread: bool)
    returns (events: seq<Event>, selects: seq<SelectCall>)
    modifies conn, signals
    ensures |selects| == if SetupCompletes(outcome, handleInterrupt) then Iterations(ws) else 0
    ensures forall i :: 0 <= i < |selects| ==> selects[i] == SelectCall(ListenOn(handleInterrupt), timeout)
    ensures signals.sigint
         == if handleInterrupt && (outcome == SetupOk || outcome == PipeFails)
               && !CanInstall(old(signals.sigint), outcome == PipeFails || Raises(ws) || closeOnMainThread)
            then NoOpHandler else old(signals.sigint)
    ensures old(signals.sigint) != NotFromPython && closeOnMainThread ==> signals.sigint == old(signals.sigint)
    ensures signals.wakeupFdSet == (old(signals.wakeupFdSet) || (handleInterrupt && outcome == SetupOk))
    ensures conn.autocommit
    ensures conn.executed == old(conn.executed) + [ListenStatement(channels)]
    ensures events
         == if SetupCompletes(outcome, handleInterrupt)
            then RunEvents(yieldOnTimeout, handleInterrupt, old(conn.notifies), ws) else []
    ensures conn.notifies
         == if SetupCompletes(outcome, handleInterrupt)
            then FinalQueue(old(conn.notifies), ws) else old(conn.notifies)
  {
    var listener := new Listener(conn, signals, channels, timeout, yieldOnTimeout, handleInterrupt);
    listener.Start(outcome);
    events := [];
    if listener.phase == Running {
      events := RunLoop(listener, ws);
    }
    listener.Close(closeOnMainThread);
    selects := listener.selects;
  }

  /**
   * A call with the defaults `timeout=3`, `yield_on_timeout=False` and
   * `handle_keyboardinterrupt=False` (pgnotify/notify.py:57-63): SIGINT and
   * the wakeup fd are never touched, every `select` watches the connection
   * alone with a timeout of 3 seconds, and only notifications are yielded.
   */
  method AwaitNotificationsWithDefaults(conn: DbConnection, signals: SignalState, channels: Channels,
                                        outcome: SetupOutcome, ws: seq<Wakeup>, closeOnMainThread: bool)
    returns (events: seq<Event>, selects: seq<SelectCall>)
    modifies conn, signals
    ensures signals.sigint == old(signals.sigint) && signals.wakeupFdSet == old(signals.wakeupFdSet)
    ensures conn.autocommit && conn.executed == old(conn.executed) + [ListenStatement(channels)]
    ensures forall i :: 0 <= i < |events| ==> events[i].Notified?
    ensures events == if outcome == ListenFails then [] else RunEvents(false, false, old(conn.notifies), ws)
    ensures conn.notifies
         == if outcome == ListenFails then old(conn.notifies) else FinalQueue(old(conn.notifies), ws)
    ensures |selects| == if outcome == ListenFails then 0 else Iterations(ws)
    ensures forall i :: 0 <= i < |selects| ==> selects[i] == SelectCall([Connection], Seconds(3.0))
  {
    ghost var queue := conn.notifies;
    events, selects := AwaitNotifications(conn, signals, channels, DefaultTimeout, false, false,
                                 outcome, ws, closeOnMainThread);
    DefaultRunOnlyNotifies(queue, ws);
  }
}

/**
 * What the dispatch loop of `await_pg_notifications` emits
 * (pgnotify/notify.py:96-124), as functions of the readiness reported by
 * `select` and of the connection's pending-notification queue.
 */
module Dispatch {

  /** A notification as psycopg2 delivers it: `.pid`, `.channel`, `.payload`. */
  datatype Notification = Notification(pid: int, channel: string, payload: string)

  /**
   * A value the generator yields: `None` on an idle timeout, a notification,
   * or `False` when the SIGINT wakeup pipe is readable.
   */
  datatype Event = IdleTimeout | Notified(notification: Notification) | Interrupted

  /** The two things `select` may watch: the connection and the wakeup pipe's read end. */
  datatype Fd = Connection | WakeupPipe

  /**
   * The outcome of one `select` call: the set of readable descriptors together
   * with the notifications that the following `poll` would receive; a
   * `select.error` (caught, the loop carries on); or any other exception,
   * which ends the generator.
   */
  datatype Wakeup = Ready(readable: set<Fd>, arrived: seq<Notification>) | SelectError | Raised

  /** `listen_on`: the connection, and the wakeup pipe only when SIGINT is handled. */
  function ListenOn(handleInterrupt: bool): (fds: seq<Fd>)
    ensures |fds| > 0 && fds[0] == Connection
    ensures Connection in fds
    ensures WakeupPipe in fds <==> handleInterrupt
    ensures forall i, j :: 0 <= i < j < |fds| ==> fds[i] != fds[j]
  {
    if handleInterrupt then [Connection, WakeupPipe] else [Connection]
  }

  function Reversed<T>(s: seq<T>): (r: seq<T>)
  {
    if s == [] then [] else Reversed(s[1..]) + [s[0]]
  }

  lemma {:induction false} ReversedAt<T>(s: seq<T>, k: nat)
    requires k < |s|
    ensures |Reversed(s)| == |s| && Reversed(s)[k] == s[|s| - 1 - k]
  {
    ReversedLength(s);
    if k < |s| - 1 {
      ReversedAt(s[1..], k);
    }
  }

  lemma {:induction false} ReversedLength<T>(s: seq<T>)
    ensures |Reversed(s)| == |s|
  {
    if s != [] {
      ReversedLength(s[1..]);
    }
  }

  lemma {:induction false} ReversedMultiset<T>(s: seq<T>)
    ensures multiset(Reversed(s)) == multiset(s)
  {
    if s != [] {
      ReversedMultiset(s[1..]);
      assert s == [s[0]] + s[1..];
    }
  }

  /** Each notification yielded on its own. */
  function AsEvents(ns: seq<Notification>): (events: seq<Event>)
  {
    seq(|ns|, i requires 0 <= i < |ns| => Notified(ns[i]))
  }

  /** Draining the queue with `while cc.notifies: cc.notifies.pop()`: last in, first out. */
  function Drained(queue: seq<Notification>): (events: seq<Event>)
  {
    AsEvents(Reversed(queue))
  }

  /**
   * The events of one iteration, given the readable set `r` and the queue
   * `cc.notifies` as it stands after `poll` (pgnotify/notify.py:101-119).
   */
  function IterationEvents(yieldOnTimeout: bool, handleInterrupt: bool,
                           r: set<Fd>, queue: seq<Notification>): (events: seq<Event>)
  {
    (if r == {} && yieldOnTimeout then [IdleTimeout] else [])
    + (if Connection in r then Drained(queue) else [])
    + (if handleInterrupt && WakeupPipe in r then [Interrupted] else [])
  }

  /** The notifications among some events, in order. */
  function NotificationsIn(events: seq<Event>): (ns: seq<Notification>)
  {
    if events == [] then []
    else (if events[0].Notified? then [events[0].notification] else []) + NotificationsIn(events[1..])
  }

  lemma {:induction false} NotificationsInConcat(a: seq<Event>, b: seq<Event>)
    ensures NotificationsIn(a + b) == NotificationsIn(a) + NotificationsIn(b)
  {
    if a != [] {
      NotificationsInConcat(a[1..], b);
      assert (a + b)[0] == a[0];
      assert (a + b)[1..] == a[1..] + b;
    } else {
      assert a + b == b;
    }
  }

  lemma {:induction false} NotificationsInAsEvents(ns: seq<Notification>)
    ensures NotificationsIn(AsEvents(ns)) == ns
  {
    if ns != [] {
      NotificationsInAsEvents(ns[1..]);
      assert AsEvents(ns)[1..] == AsEvents(ns[1..]);
    }
  }

  /** Popping the oldest remaining entry last: draining `[x] + s` ends with `x`. */
  lemma DrainedCons(x: Notification, s: seq<Notification>)
    ensures Drained([x] + s) == Drained(s) + [Notified(x)]
  {
  }

  /**
   * An idle wakeup emits one `None` when `yield_on_timeout` is set and
   * nothing otherwise; never a notification and never `False`.
   */
  lemma IdleWakeup(yieldOnTimeout: bool, handleInterrupt: bool, queue: seq<Notification>)
    ensures IterationEvents(yieldOnTimeout, handleInterrupt, {}, queue)
         == if yieldOnTimeout then [IdleTimeout] else []
  {
  }

  /** `None` is emitted exactly when nothing was readable and `yield_on_timeout` is set. */
  lemma IdleTimeoutOnlyWhenIdle(yieldOnTimeout: bool, handleInterrupt: bool,
                                 r: set<Fd>, queue: seq<Notification>)
    ensures IdleTimeout in IterationEvents(yieldOnTimeout, handleInterrupt, r, queue)
        <==> r == {} && yieldOnTimeout
  {
  }

  /**
   * The notifications an iteration emits are the queue reversed when the
   * connection is readable, and none otherwise.
   */
  lemma NotificationsOfIteration(yieldOnTimeout: bool, handleInterrupt: bool,
                                 r: set<Fd>, queue: seq<Notification>)
    ensures NotificationsIn(IterationEvents(yieldOnTimeout, handleInterrupt, r, queue))
         == if Connection in r then Reversed(queue) else []
  {
    var timeout: seq<Event> := if r == {} && yieldOnTimeout then [IdleTimeout] else [];
    var drained := if Connection in r then Drained(queue) else [];
    var interrupt: seq<Event> := if handleInterrupt && WakeupPipe in r then [Interrupted] else [];
    assert IterationEvents(yieldOnTimeout, handleInterrupt, r, queue) == timeout + drained + interrupt;
    NotificationsInConcat(timeout + drained, interrupt);
    NotificationsInConcat(timeout, drained);
    NoNotifications(timeout);
    NoNotifications(interrupt);
    NotificationsInAsEvents(Reversed(queue));
    assert NotificationsIn(drained) == if Connection in r then Reversed(queue) else [];
  }

  lemma NoNotifications(e: seq<Event>)
    requires e == [] || e == [IdleTimeout] || e == [Interrupted]
    ensures NotificationsIn(e) == []
  {
  }

  /**
   * When the connection is readable, every queued notification is emitted
   * exactly once: as a multiset the emitted notifications are the queue.
   */
  lemma DrainDeliversEachOnce(yieldOnTimeout: bool, handleInterrupt: bool,
                              r: set<Fd>, queue: seq<Notification>)
    requires Connection in r
    ensures multiset(NotificationsIn(IterationEvents(yieldOnTimeout, handleInterrupt, r, queue)))
         == multiset(queue)
  {
    NotificationsOfIteration(yieldOnTimeout, handleInterrupt, r, queue);
    ReversedMultiset(queue);
  }

  /**
   * When the connection is readable, the iteration opens with the queue's
   * notifications in reverse queue order: `pop()` takes the newest first.
   */
  lemma DrainOrder(yieldOnTimeout: bool, handleInterrupt: bool,
                   r: set<Fd>, queue: seq<Notification>, k: nat)
    requires Connection in r && k < |queue|
    ensures var events := IterationEvents(yieldOnTimeout, handleInterrupt, r, queue);
      k < |events| && events[k] == Notified(queue[|queue| - 1 - k])
  {
    var interrupt: seq<Event> := if handleInterrupt && WakeupPipe in r then [Interrupted] else [];
    ReversedAt(queue, k);
    assert IterationEvents(yieldOnTimeout, handleInterrupt, r, queue) == Drained(queue) + interrupt;
  }

  /**
   * `False` is emitted exactly when SIGINT handling is on and the wakeup pipe
   * is readable; it is then the last event of the iteration and appears once.
   */
  lemma InterruptedLast(yieldOnTimeout: bool, handleInterrupt: bool,
                        r: set<Fd>, queue: seq<Notification>)
    ensures var events := IterationEvents(yieldOnTimeout, handleInterrupt, r, queue);
      && (Interrupted in events <==> handleInterrupt && WakeupPipe in r)
      && (Interrupted in events ==>
            events[|events| - 1] == Interrupted &&
            forall i :: 0 <= i < |events| - 1 ==> events[i] != Interrupted)
  {
  }

  /** `cc.notifies` after `poll`: what was pending plus what arrived. */
  function Polled(queue: seq<Notification>, w: Wakeup): (polled: seq<Notification>)
  {
    if w.Ready? && Connection in w.readable then queue + w.arrived else queue
  }

  /** `cc.notifies` at the end of an iteration: emptied when the connection was readable. */
  function QueueAfter(queue: seq<Notification>, w: Wakeup): (after: seq<Notification>)
  {
    if w.Ready? && Connection in w.readable then [] else queue
  }

  /** The events of one iteration; a `select.error` or an exception emits nothing. */
  function StepEvents(yieldOnTimeout: bool, handleInterrupt: bool,
                      queue: seq<Notification>, w: Wakeup): (events: seq<Event>)
  {
    if w.Ready? then IterationEvents(yieldOnTimeout, handleInterrupt, w.readable, Polled(queue, w))
    else []
  }

  /** The events of successive iterations, up to the first exception. */
  function RunEvents(yieldOnTimeout: bool, handleInterrupt: bool,
                     queue: seq<Notification>, ws: seq<Wakeup>): (events: seq<Event>)
    decreases |ws|
  {
    if ws == [] || ws[0].Raised? then []
    else StepEvents(yieldOnTimeout, handleInterrupt, queue, ws[0])
         + RunEvents(yieldOnTimeout, handleInterrupt, QueueAfter(queue, ws[0]), ws[1..])
  }

  /** `cc.notifies` after those iterations. */
  function FinalQueue(queue: seq<Notification>, ws: seq<Wakeup>): (final: seq<Notification>)
    decreases |ws|
  {
    if ws == [] || ws[0].Raised? then queue
    else FinalQueue(QueueAfter(queue, ws[0]), ws[1..])
  }

  /** Whether some `select` outcome of the run raises an exception that ends the generator. */
  predicate Raises(ws: seq<Wakeup>): (b: bool)
    ensures b <==> exists i :: 0 <= i < |ws| && ws[i].Raised?
    decreases |ws|
  {
    if ws == [] then false
    else if ws[0].Raised? then true
    else
      assert forall i :: 0 < i < |ws| ==> ws[i] == ws[1..][i - 1];
      Raises(ws[1..])
  }

  /**
   * How many `select` calls a run makes: one per outcome, up to and including
   * the first one that raises.
   */
  function Iterations(ws: seq<Wakeup>): (n: nat)
    ensures n <= |ws|
    ensures forall i :: 0 <= i < n - 1 ==> !ws[i].Raised?
    ensures n < |ws| ==> 0 < n && ws[n - 1].Raised?
    ensures n == 0 <==> ws == []
    decreases |ws|
  {
    if ws == [] then 0
    else if ws[0].Raised? then 1
    else
      assert forall i :: 0 < i < |ws| ==> ws[i] == ws[1..][i - 1];
      1 + Iterations(ws[1..])
  }

  /** A run is its first iteration followed by the rest, or nothing once it raises. */
  lemma RunEventsUnfold(yieldOnTimeout: bool, handleInterrupt: bool,
                        queue: seq<Notification>, ws: seq<Wakeup>)
    requires ws != []
    ensures RunEvents(yieldOnTimeout, handleInterrupt, queue, ws)
         == if ws[0].Raised? then []
            else StepEvents(yieldOnTimeout, handleInterrupt, queue, ws[0])
                 + RunEvents(yieldOnTimeout, handleInterrupt, QueueAfter(queue, ws[0]), ws[1..])
    ensures FinalQueue(queue, ws)
         == if ws[0].Raised? then queue else FinalQueue(QueueAfter(queue, ws[0]), ws[1..])
  {
  }

  /** The notifications `poll` receives in one iteration. */
  function Arrived(w: Wakeup): (arrived: seq<Notification>)
  {
    if w.Ready? && Connection in w.readable then w.arrived else []
  }

  /** Everything `poll` received during those iterations, in arrival order. */
  function Received(ws: seq<Wakeup>): (received: seq<Notification>)
    decreases |ws|
  {
    if ws == [] || ws[0].Raised? then []
    else Arrived(ws[0]) + Received(ws[1..])
  }

  /** One iteration neither loses nor duplicates a notification. */
  lemma StepConservesNotifications(yieldOnTimeout: bool, handleInterrupt: bool,
                                   queue: seq<Notification>, w: Wakeup)
    ensures multiset(NotificationsIn(StepEvents(yieldOnTimeout, handleInterrupt, queue, w)))
            + multiset(QueueAfter(queue, w))
         == multiset(queue) + multiset(Arrived(w))
  {
    if w.Ready? {
      NotificationsOfIteration(yieldOnTimeout, handleInterrupt, w.readable, Polled(queue, w));
      if Connection in w.readable {
        ReversedMultiset(Polled(queue, w));
      }
    }
  }

  /**
   * No loss and no duplication over a whole run: the notifications emitted,
   * together with those still queued, are exactly those initially pending plus
   * those that arrived.
   */
  lemma {:induction false} RunConservesNotifications(yieldOnTimeout: bool, handleInterrupt: bool,
                                                     queue: seq<Notification>, ws: seq<Wakeup>)
    ensures multiset(NotificationsIn(RunEvents(yieldOnTimeout, handleInterrupt, queue, ws)))
            + multiset(FinalQueue(queue, ws))
         == multiset(queue) + multiset(Received(ws))
    decreases |ws|
  {
    if ws != [] && !ws[0].Raised? {
      var w := ws[0];
      var after := QueueAfter(queue, w);
      var step := StepEvents(yieldOnTimeout, handleInterrupt, queue, w);
      var rest := RunEvents(yieldOnTimeout, handleInterrupt, after, ws[1..]);
      var final := FinalQueue(after, ws[1..]);
      assert RunEvents(yieldOnTimeout, handleInterrupt, queue, ws) == step + rest;
      assert FinalQueue(queue, ws) == final;
      assert Received(ws) == Arrived(w) + Received(ws[1..]);
      RunConservesNotifications(yieldOnTimeout, handleInterrupt, after, ws[1..]);
      NotificationsInConcat(step, rest);
      StepConservesNotifications(yieldOnTimeout, handleInterrupt, queue, w);
      calc {
        multiset(NotificationsIn(step + rest)) + multiset(final);
        multiset(NotificationsIn(step)) + (multiset(NotificationsIn(rest)) + multiset(final));
        multiset(NotificationsIn(step)) + multiset(after) + multiset(Received(ws[1..]));
        multiset(queue) + multiset(Arrived(w)) + multiset(Received(ws[1..]));
        multiset(queue) + multiset(Arrived(w) + Received(ws[1..]));
      }
    }
  }

  /**
   * With both flags at their defaults (`yield_on_timeout=False`,
   * `handle_keyboardinterrupt=False`) a run yields notifications only: no
   * `None` and no `False`.
   */
  lemma {:induction false} DefaultRunOnlyNotifies(queue: seq<Notification>, ws: seq<Wakeup>)
    ensures forall e :: e in RunEvents(false, false, queue, ws) ==> e.Notified?
    decreases |ws|
  {
    if ws != [] && !ws[0].Raised? {
      var step := StepEvents(false, false, queue, ws[0]);
      var rest := RunEvents(false, false, QueueAfter(queue, ws[0]), ws[1..]);
      DefaultRunOnlyNotifies(QueueAfter(queue, ws[0]), ws[1..]);
      if ws[0].Ready? {
        IdleTimeoutOnlyWhenIdle(false, false, ws[0].readable, Polled(queue, ws[0]));
        InterruptedLast(false, false, ws[0].readable, Polled(queue, ws[0]));
      }
      assert forall e :: e in step ==> e.Notified?;
      assert RunEvents(false, false, queue, ws) == step + rest;
    }
  }

  /**
   * The wakeup pipe is never read, so once `select` has reported it readable
   * it reports it readable on every later wakeup.
   */
  ghost predicate PipeStaysReadable(ws: seq<Wakeup>)
  {
    forall i, j :: 0 <= i < j < |ws| && ws[i].Ready? && ws[j].Ready? && WakeupPipe in ws[i].readable
      ==> WakeupPipe in ws[j].readable
  }

  /**
   * With SIGINT handled and the pipe left unread, every iteration after one
   * that yielded `False` yields `False` again as its last value, and never an
   * idle `None`.
   */
  lemma InterruptRepeats(yieldOnTimeout: bool, ws: seq<Wakeup>, i: nat, j: nat,
                         before: seq<Notification>, queue: seq<Notification>)
    requires PipeStaysReadable(ws) && i < j < |ws| && ws[j].Ready?
    requires Interrupted in StepEvents(yieldOnTimeout, true, before, ws[i])
    ensures var events := StepEvents(yieldOnTimeout, true, queue, ws[j]);
      && |events| > 0 && events[|events| - 1] == Interrupted
      && IdleTimeout !in events
  {
    InterruptedLast(yieldOnTimeout, true, ws[i].readable, Polled(before, ws[i]));
    InterruptedLast(yieldOnTimeout, true, ws[j].readable, Polled(queue, ws[j]));
    IdleTimeoutOnlyWhenIdle(yieldOnTimeout, true, ws[j].readable, Polled(queue, ws[j]));
  }

  /**
   * The repository's test: a tick, then the published notification, then
   * `False` once SIGINT has been sent, with both flags set.
   */
  lemma TickNotifyInterruptScenario(n: Notification)
    ensures RunEvents(true, true, [],
                      [Ready({}, []), Ready({Connection}, [n]), Ready({WakeupPipe}, [])])
         == [IdleTimeout, Notified(n), Interrupted]
  {
    var ws := [Ready({}, []), Ready({Connection}, [n]), Ready({WakeupPipe}, [])];
    DrainedCons(n, []);
    assert [n] + [] == [n];
    assert StepEvents(true, true, [], ws[0]) == [IdleTimeout];
    assert Polled([], ws[1]) == [n];
    assert Connection in ws[1].readable && WakeupPipe !in ws[1].readable;
    assert IterationEvents(true, true, {Connection}, [n]) == [] + Drained([n]) + [];
    assert StepEvents(true, true, [], ws[1]) == [Notified(n)];
    assert StepEvents(true, true, [], ws[2]) == [Interrupted];
    RunEventsUnfold(true, true, [], ws);
    RunEventsUnfold(true, true, [], ws[1..]);
    RunEventsUnfold(true, true, [], ws[2..]);
    assert ws[1..][1..] == ws[2..] && ws[2..][1..] == [];
  }
}

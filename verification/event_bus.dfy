/** The publish/subscribe bus (core/event_bus).  Publishers, the background worker and the
    destructor interleave one critical section, or one handler call, at a time. */
module Events {

  type SubId = nat

  /** What the worker thread is doing.  Waiting: in the wait, about to evaluate its predicate.
      Dozing: found it false and holds queue_mutex_, about to block.  Asleep: blocked.
      Calling(e, pending): it took a snapshot of the handlers for e and has yet to call those in
      `pending`. */
  datatype Worker<E> =
    | NotStarted | Waiting | Dozing | Asleep
    | Holding(event: E) | Calling(event: E, pending: set<SubId>) | Exited

  datatype Call<E> = Call(sub: SubId, event: E, async: bool)

  /** The fields of the bus, with the history of what was queued (published), what the worker
      has finished dispatching (completed), and every handler call made (calls). */
  datatype Bus<E> = Bus(
    handlers: set<SubId>,
    nextId: SubId,
    queue: seq<E>,
    stop: bool,
    notifies: nat,        // notifications still to come: each follows its change of queue or flag
    worker: Worker<E>,
    published: seq<E>,
    completed: seq<E>,
    calls: seq<Call<E>>)

  // ---- Specification -----------------------------------------------------------------

  datatype Step<E> =
    | Subscribe
    | Unsubscribe(id: SubId)
    | SyncCall(id: SubId, e: E)   // one handler call by a synchronous publish on another thread
    | EnsureWorker
    | Push(e: E)
    | Notify
    | Take
    | Doze
    | Sleep
    | Stir                        // a spurious wakeup
    | Snapshot
    | Invoke(id: SubId)
    | Finish
    | Stop

  /** A step that is not enabled in a state leaves it unchanged. */
  function Apply<E>(b: Bus<E>, s: Step<E>): Bus<E> {
    match s
    case Subscribe => b.(handlers := b.handlers + {b.nextId}, nextId := b.nextId + 1)
    case Unsubscribe(id) => b.(handlers := b.handlers - {id})
    case SyncCall(id, e) => b.(calls := b.calls + [Call(id, e, false)])
    case EnsureWorker => if b.worker.NotStarted? then b.(worker := Waiting) else b
    case Push(e) =>
      if b.worker.NotStarted? || b.worker.Dozing? then b
      else b.(queue := b.queue + [e], published := b.published + [e], notifies := b.notifies + 1)
    case Notify =>
      if b.notifies == 0 then b
      else b.(notifies := b.notifies - 1, worker := if b.worker.Asleep? then Waiting else b.worker)
    case Take =>
      if !b.worker.Waiting? then b
      else if b.queue != [] then b.(worker := Holding(b.queue[0]), queue := b.queue[1..])
      else if b.stop then b.(worker := Exited)
      else b
    case Doze => if b.worker.Waiting? && b.queue == [] && !b.stop then b.(worker := Dozing) else b
    case Sleep => if b.worker.Dozing? then b.(worker := Asleep) else b
    case Stir => if b.worker.Asleep? then b.(worker := Waiting) else b
    case Snapshot =>
      if b.worker.Holding? then b.(worker := Calling(b.worker.event, b.handlers)) else b
    case Invoke(id) =>
      if b.worker.Calling? && id in b.worker.pending then
        b.(worker := Calling(b.worker.event, b.worker.pending - {id}),
           calls := b.calls + [Call(id, b.worker.event, true)])
      else b
    case Finish =>
      if b.worker.Calling? && b.worker.pending == {} then
        b.(worker := Waiting, completed := b.completed + [b.worker.event])
      else b
    case Stop =>
      if b.worker.NotStarted? || b.worker.Dozing? then b else b.(stop := true, notifies := b.notifies + 1)
  }

  function Run<E>(b: Bus<E>, steps: seq<Step<E>>): Bus<E> {
    if steps == [] then b else Apply(Run(b, steps[..|steps| - 1]), steps[|steps| - 1])
  }

  function Initial<E>(): Bus<E> {
    Bus({}, 1, [], false, 0, NotStarted, [], [], [])
  }

  /** What the callers of the bus do to it: a subscriber is added under the next id or removed, an
      event goes to the end of the queue with a notification to come, and a notification wakes a
      worker that is asleep. */
  lemma CallerEffects<E>(b: Bus<E>, id: SubId, e: E)
    ensures var s := Apply(b, Subscribe);
            && s.handlers - b.handlers == {b.nextId} - b.handlers && b.handlers <= s.handlers
            && s.nextId == b.nextId + 1 && s.(handlers := b.handlers, nextId := b.nextId) == b
    ensures var u := Apply(b, Unsubscribe(id));
            && u.(handlers := b.handlers) == b
            && forall other :: other in u.handlers <==> other in b.handlers && other != id
    ensures !b.worker.NotStarted? && !b.worker.Dozing? ==>
              var p := Apply(b, Push(e));
              && p.published == b.published + [e] && p.queue == b.queue + [e] && p.notifies == b.notifies + 1
              && p.(published := b.published, queue := b.queue, notifies := b.notifies) == b
    ensures Apply(b, EnsureWorker).worker == if b.worker.NotStarted? then Waiting else b.worker
    ensures b.notifies >= 1 ==>
              var n := Apply(b, Notify);
              && n.notifies == b.notifies - 1 && n.(notifies := b.notifies, worker := b.worker) == b
              && n.worker == if b.worker == Asleep then Waiting else b.worker
    ensures !b.worker.NotStarted? && !b.worker.Dozing? ==>
              var s := Apply(b, Stop);
              s.stop && s.notifies == b.notifies + 1 && s.(stop := b.stop, notifies := b.notifies) == b
  {
  }

  // ---- FIFO, exactly once, drained ---------------------------------------------------

  function InHand<E>(w: Worker<E>): seq<E> {
    if w.Holding? || w.Calling? then [w.event] else []
  }

  ghost predicate Ordered<E>(b: Bus<E>) {
    && b.published == b.completed + InHand(b.worker) + b.queue
    && (b.worker.NotStarted? ==> b.queue == [] && !b.stop)
    && (b.worker.Exited? ==> b.stop)
    && (forall id :: id in b.handlers ==> id < b.nextId)
  }

  lemma OrderedStep<E>(b: Bus<E>, s: Step<E>)
    requires Ordered(b)
    ensures Ordered(Apply(b, s))
    ensures b.published <= Apply(b, s).published && b.completed <= Apply(b, s).completed
    ensures s.Take? && Apply(b, s).worker.Exited? && !b.worker.Exited? ==>
              b.stop && Apply(b, s).completed == Apply(b, s).published
  {
    if s.Take? && b.worker.Waiting? && b.queue != [] {
      assert b.queue == [b.queue[0]] + b.queue[1..];
    }
    if s.Push? && !b.worker.NotStarted? {
      assert b.completed + InHand(b.worker) + b.queue + [s.e]
          == b.completed + InHand(b.worker) + (b.queue + [s.e]);
    }
  }

  /** Under every interleaving, the events dispatched, then the one in hand, then the queue, are
      the publish sequence: asynchronous delivery is first-in first-out, loses nothing and
      repeats nothing. */
  lemma {:induction false} FifoExactlyOnce<E>(steps: seq<Step<E>>)
    ensures Ordered(Run(Initial<E>(), steps))
  {
    if steps != [] {
      FifoExactlyOnce(steps[..|steps| - 1]);
      OrderedStep(Run(Initial<E>(), steps[..|steps| - 1]), steps[|steps| - 1]);
    }
  }

  /** Once the worker has exited, everything published before its exit has been dispatched: what
      is missing was pushed after the destructor had already stopped it. */
  lemma {:induction false} ExitDrains<E>(b: Bus<E>, steps: seq<Step<E>>)
    requires Ordered(b) && !b.worker.Exited?
    requires forall i :: 0 <= i < |steps| ==> !steps[i].Push?
    requires Run(b, steps).worker.Exited?
    ensures Run(b, steps).completed == b.published
    ensures Run(b, steps).queue == []
  {
    if steps != [] {
      var before := Run(b, steps[..|steps| - 1]);
      OrderedRun(b, steps[..|steps| - 1]);
      if before.worker.Exited? {
        ExitDrains(b, steps[..|steps| - 1]);
      } else {
        OrderedStep(before, steps[|steps| - 1]);
      }
    }
  }

  lemma HistoryStep<E>(b: Bus<E>, s: Step<E>)
    ensures b.calls <= Apply(b, s).calls
    ensures !s.Push? ==> Apply(b, s).published == b.published
  {
  }

  lemma {:induction false} OrderedRun<E>(b: Bus<E>, steps: seq<Step<E>>)
    requires Ordered(b)
    ensures Ordered(Run(b, steps))
    ensures b.published <= Run(b, steps).published && b.completed <= Run(b, steps).completed
    ensures b.calls <= Run(b, steps).calls
    ensures (forall i :: 0 <= i < |steps| ==> !steps[i].Push?) ==> Run(b, steps).published == b.published
  {
    if steps != [] {
      OrderedRun(b, steps[..|steps| - 1]);
      OrderedStep(Run(b, steps[..|steps| - 1]), steps[|steps| - 1]);
      HistoryStep(Run(b, steps[..|steps| - 1]), steps[|steps| - 1]);
    }
  }

  // ---- What one subscriber hears -----------------------------------------------------

  /** The events of the asynchronous calls made to one subscriber, in order. */
  function Heard<E>(calls: seq<Call<E>>, id: SubId): seq<E> {
    if calls == [] then []
    else
      var last := calls[|calls| - 1];
      Heard(calls[..|calls| - 1], id) + (if last.sub == id && last.async then [last.event] else [])
  }

  lemma HeardAppend<E>(calls: seq<Call<E>>, c: Call<E>, id: SubId)
    ensures Heard(calls + [c], id) == Heard(calls, id) + (if c.sub == id && c.async then [c.event] else [])
  {
    assert (calls + [c])[..|calls|] == calls;
  }

  /** Between two call histories each of the handlers heard `es`, and nobody else anything. */
  ghost predicate HeardBetween<E>(before: seq<Call<E>>, after: seq<Call<E>>, handlers: set<SubId>, es: seq<E>) {
    forall id :: Heard(after, id) == Heard(before, id) + (if id in handlers then es else [])
  }

  lemma HeardBetweenCall<E>(before: seq<Call<E>>, after: seq<Call<E>>, called: set<SubId>, id: SubId, e: E)
    requires HeardBetween(before, after, called, [e]) && id !in called
    ensures HeardBetween(before, after + [Call(id, e, true)], called + {id}, [e])
  {
    forall other
      ensures Heard(after + [Call(id, e, true)], other)
           == Heard(before, other) + (if other in called + {id} then [e] else [])
    {
      HeardAppend(after, Call(id, e, true), other);
    }
  }

  lemma HeardBetweenThen<E>(c0: seq<Call<E>>, c1: seq<Call<E>>, c2: seq<Call<E>>,
                            handlers: set<SubId>, es: seq<E>, fs: seq<E>)
    requires HeardBetween(c0, c1, handlers, es) && HeardBetween(c1, c2, handlers, fs)
    ensures HeardBetween(c0, c2, handlers, es + fs)
  {
    forall id ensures Heard(c2, id) == Heard(c0, id) + (if id in handlers then es + fs else []) {
      assert Heard(c1, id) + fs == Heard(c0, id) + (es + fs) || id !in handlers;
    }
  }

  /** The event in hand, unless the subscriber is still to be called with it: it has been, or it
      subscribed after the snapshot. */
  function HeardInHand<E>(w: Worker<E>, id: SubId): seq<E> {
    if w.Calling? && id !in w.pending then [w.event] else []
  }

  /** Since state b the subscriber has heard what was dispatched since b, except for an event in
      hand in b that it is not called with. */
  ghost predicate KeepsUp<E>(b: Bus<E>, now: Bus<E>, id: SubId) {
    && id in now.handlers
    && b.calls <= now.calls && b.completed <= now.completed
    && HeardInHand(b.worker, id) + Heard(now.calls[|b.calls|..], id)
       == now.completed[|b.completed|..] + HeardInHand(now.worker, id)
  }

  lemma KeepsUpCall<E>(b: Bus<E>, now: Bus<E>, id: SubId, c: Call<E>, next: Bus<E>)
    requires KeepsUp(b, now, id)
    requires next.handlers == now.handlers && next.completed == now.completed && next.calls == now.calls + [c]
    requires HeardInHand(next.worker, id)
          == HeardInHand(now.worker, id) + (if c.sub == id && c.async then [c.event] else [])
    ensures KeepsUp(b, next, id)
  {
    var first, since := HeardInHand(b.worker, id), now.calls[|b.calls|..];
    var more := if c.sub == id && c.async then [c.event] else [];
    assert next.calls[|b.calls|..] == since + [c];
    HeardAppend(since, c, id);
    assert first + (Heard(since, id) + more) == (first + Heard(since, id)) + more;
    var done := now.completed[|b.completed|..];
    assert done + (HeardInHand(now.worker, id) + more) == (done + HeardInHand(now.worker, id)) + more;
  }

  lemma KeepsUpFinish<E>(b: Bus<E>, now: Bus<E>, id: SubId)
    requires KeepsUp(b, now, id)
    ensures KeepsUp(b, Apply(now, Finish), id)
  {
    var next := Apply(now, Finish);
    if next.completed != now.completed {
      assert next.completed[|b.completed|..] == now.completed[|b.completed|..] + [now.worker.event];
    }
  }

  lemma KeepsUpStep<E>(b: Bus<E>, now: Bus<E>, id: SubId, s: Step<E>)
    requires KeepsUp(b, now, id) && s != Unsubscribe(id)
    ensures KeepsUp(b, Apply(now, s), id)
  {
    match s
    case SyncCall(other, e) => KeepsUpCall(b, now, id, Call(other, e, false), Apply(now, s));
    case Invoke(other) =>
      if now.worker.Calling? && other in now.worker.pending {
        KeepsUpCall(b, now, id, Call(other, now.worker.event, true), Apply(now, s));
      }
    case Finish => KeepsUpFinish(b, now, id);
    case _ =>
  }

  /** A handler subscribed in state b and not unsubscribed since has been called, in order and
      once each, with exactly the events dispatched since b.  If b is in the middle of a dispatch
      these begin with the event in hand exactly when the handler is in its snapshot and has not
      been called yet. */
  lemma {:induction false} SubscriberKeepsUp<E>(b: Bus<E>, id: SubId, steps: seq<Step<E>>)
    requires id in b.handlers
    requires Unsubscribe(id) !in steps
    ensures KeepsUp(b, Run(b, steps), id)
  {
    if steps != [] {
      SubscriberKeepsUp(b, id, steps[..|steps| - 1]);
      KeepsUpStep(b, Run(b, steps[..|steps| - 1]), id, steps[|steps| - 1]);
    }
  }

  /** A handler subscribed during a dispatch that has since finished: it hears the event in hand and
      what follows if it was in the snapshot and still to be called, and only what follows if not. */
  lemma SubscribedDuringDispatch<E>(b: Bus<E>, id: SubId, steps: seq<Step<E>>)
    requires b.worker.Calling? && id in b.handlers && Unsubscribe(id) !in steps
    requires b.completed < Run(b, steps).completed
    ensures var now := Run(b, steps);
            && b.calls <= now.calls
            && Heard(now.calls[|b.calls|..], id)
               == now.completed[|b.completed| + (if id in b.worker.pending then 0 else 1)..]
                  + HeardInHand(now.worker, id)
  {
    SubscriberKeepsUp(b, id, steps);
    var now := Run(b, steps);
    var heard, since := Heard(now.calls[|b.calls|..], id), now.completed[|b.completed|..];
    if id !in b.worker.pending {
      assert heard == ([b.worker.event] + heard)[1..];
      assert (since + HeardInHand(now.worker, id))[1..] == since[1..] + HeardInHand(now.worker, id);
      assert since[1..] == now.completed[|b.completed| + 1..];
    }
  }

  /** End to end: a handler subscribed from state b until the destructor returns hears exactly
      what was still undelivered in b followed by everything published afterwards; if it subscribed
      during a dispatch, after the snapshot, all of that but the event in hand. */
  lemma SubscriberHearsAll<E>(b: Bus<E>, id: SubId, steps: seq<Step<E>>, shutdown: seq<Step<E>>)
    requires Ordered(b) && id in b.handlers
    requires Unsubscribe(id) !in steps + shutdown
    requires forall i :: 0 <= i < |shutdown| ==> !shutdown[i].Push?
    requires !Run(b, steps).worker.Exited? && Run(Run(b, steps), shutdown).worker.Exited?
    ensures var final := Run(Run(b, steps), shutdown);
            && b.calls <= final.calls
            && b.completed + HeardInHand(b.worker, id) + Heard(final.calls[|b.calls|..], id)
               == Run(b, steps).published
  {
    var middle := Run(b, steps);
    RunConcat(b, steps, shutdown);
    OrderedRun(b, steps);
    ExitDrains(middle, shutdown);
    SubscriberKeepsUp(b, id, steps + shutdown);
    HeardAtRest(b, Run(middle, shutdown), id);
  }

  lemma HeardAtRest<E>(b: Bus<E>, now: Bus<E>, id: SubId)
    requires KeepsUp(b, now, id) && !now.worker.Calling?
    ensures b.completed + HeardInHand(b.worker, id) + Heard(now.calls[|b.calls|..], id) == now.completed
  {
    var first, since := HeardInHand(b.worker, id), Heard(now.calls[|b.calls|..], id);
    assert b.completed + first + since == b.completed + (first + since);
    assert now.completed == b.completed + now.completed[|b.completed|..];
  }

  lemma {:induction false} RunConcat<E>(b: Bus<E>, s: seq<Step<E>>, t: seq<Step<E>>)
    ensures Run(b, s + t) == Run(Run(b, s), t)
  {
    if t == [] {
      assert s + t == s;
    } else {
      assert (s + t)[..|s + t| - 1] == s + t[..|t| - 1];
      RunConcat(b, s, t[..|t| - 1]);
    }
  }

  /** What a handler is still to be called with if it is not subscribed any more: the event in hand,
      if it is in the snapshot and has not been called yet. */
  function Owed<E>(b: Bus<E>, id: SubId): seq<E> {
    match b.worker
    case Holding(event) => if id in b.handlers then [event] else []
    case Calling(event, pending) => if id in pending then [event] else []
    case _ => []
  }

  ghost predicate Settled<E>(b: Bus<E>, now: Bus<E>, id: SubId) {
    b.calls <= now.calls && Heard(now.calls[|b.calls|..], id) + Owed(now, id) == Owed(b, id)
  }

  lemma SettledCall<E>(b: Bus<E>, now: Bus<E>, id: SubId, c: Call<E>, next: Bus<E>)
    requires Settled(b, now, id) && next.calls == now.calls + [c]
    requires Owed(now, id) == (if c.sub == id && c.async then [c.event] else []) + Owed(next, id)
    ensures Settled(b, next, id)
  {
    var since := now.calls[|b.calls|..];
    assert next.calls[|b.calls|..] == since + [c];
    HeardAppend(since, c, id);
  }

  lemma SettledStep<E>(b: Bus<E>, now: Bus<E>, id: SubId, s: Step<E>)
    requires Settled(b, now, id) && id !in now.handlers && id < now.nextId
    ensures Settled(b, Apply(now, s), id)
  {
    match s
    case SyncCall(other, e) => SettledCall(b, now, id, Call(other, e, false), Apply(now, s));
    case Invoke(other) =>
      if now.worker.Calling? && other in now.worker.pending {
        SettledCall(b, now, id, Call(other, now.worker.event, true), Apply(now, s));
      }
    case _ => assert Owed(Apply(now, s), id) == Owed(now, id);
  }

  /** A handler whose handle was destroyed before state b hears at most one event after it: exactly
      the one it is owed, and that only once. */
  lemma {:induction false} AfterUnsubscribe<E>(b: Bus<E>, id: SubId, steps: seq<Step<E>>)
    requires id !in b.handlers && id < b.nextId
    ensures var now := Run(b, steps);
            b.calls <= now.calls && Heard(now.calls[|b.calls|..], id) + Owed(now, id) == Owed(b, id)
  {
    if steps != [] {
      var before := steps[..|steps| - 1];
      AfterUnsubscribe(b, id, before);
      IdsAreFresh(b, before, id);
      SettledStep(b, Run(b, before), id, steps[|steps| - 1]);
    }
  }

  // ---- The destructor returns --------------------------------------------------------

  /** A worker that is about to block has nothing to do, and a sleeping worker with something to do
      has a notification coming. */
  ghost predicate Roused<E>(b: Bus<E>) {
    && (b.worker.Dozing? ==> b.queue == [] && !b.stop)
    && (b.worker.Asleep? && (b.queue != [] || b.stop) ==> b.notifies > 0)
  }

  /** In every run: flag and queue change only under queue_mutex_, so no wakeup is lost. */
  lemma {:induction false} NoLostWakeup<E>(steps: seq<Step<E>>)
    ensures Roused(Run(Initial<E>(), steps))
  {
    if steps != [] {
      NoLostWakeup(steps[..|steps| - 1]);
    }
  }

  predicate DeliveryStep<E>(s: Step<E>) {
    s.Notify? || s.Take? || s.Snapshot? || s.Invoke? || s.Finish?
  }

  function Stage<E>(w: Worker<E>): nat {
    match w
    case Holding(_) => 3
    case Calling(_, _) => 2
    case Asleep => 1
    case _ => 0
  }

  function Pending<E>(w: Worker<E>): set<SubId> {
    if w.Calling? then w.pending else {}
  }

  /** A stopped bus has a delivery step until its worker exits, and each brings the exit closer. */
  lemma OneCloser<E>(b: Bus<E>) returns (s: Step<E>)
    requires Roused(b) && b.stop && !b.worker.NotStarted? && !b.worker.Exited?
    ensures DeliveryStep(s)
    ensures var c := Apply(b, s);
            && Roused(c) && c.stop && !c.worker.NotStarted?
            && (c.worker.Exited?
                || |c.queue| < |b.queue|
                || (|c.queue| == |b.queue| && Stage(c.worker) < Stage(b.worker))
                || (|c.queue| == |b.queue| && Stage(c.worker) == Stage(b.worker)
                    && |Pending(c.worker)| < |Pending(b.worker)|))
  {
    match b.worker
    case Waiting => s := Take;
    case Asleep => s := Notify;
    case Holding(_) => s := Snapshot;
    case Calling(_, pending) =>
      if pending == {} {
        s := Finish;
      } else {
        var id :| id in pending;
        s := Invoke(id);
      }
  }

  lemma {:induction false} RunStepFirst<E>(b: Bus<E>, s: Step<E>, steps: seq<Step<E>>)
    ensures Run(b, [s] + steps) == Run(Apply(b, s), steps)
  {
    assert [s][..0] == [];
    assert Run(b, [s]) == Apply(b, s);
    RunConcat(b, [s], steps);
  }

  /** Once stop is set the worker can always come to its exit, and with it the destructor: in
      every reachable state some notification, delivery step or exit is due. */
  lemma {:induction false} DestructorReturns<E>(b: Bus<E>) returns (steps: seq<Step<E>>)
    requires Roused(b) && b.stop && !b.worker.NotStarted?
    ensures (forall i :: 0 <= i < |steps| ==> DeliveryStep(steps[i])) && Run(b, steps).worker.Exited?
    decreases if b.worker.Exited? then 0 else 1, |b.queue|, Stage(b.worker), |Pending(b.worker)|
  {
    steps := [];
    if !b.worker.Exited? {
      var s := OneCloser(b);
      var rest := DestructorReturns(Apply(b, s));
      RunStepFirst(b, s, rest);
      steps := [s] + rest;
    }
  }

  /** Subscription ids are never reused. */
  lemma {:induction false} IdsAreFresh<E>(b: Bus<E>, steps: seq<Step<E>>, id: SubId)
    requires id < b.nextId && id !in b.handlers
    ensures id < Run(b, steps).nextId && id !in Run(b, steps).handlers
  {
    if steps != [] {
      IdsAreFresh(b, steps[..|steps| - 1], id);
    }
  }

  // ---- Implementation ----------------------------------------------------------------

  lemma MoveFront<E>(front: seq<E>, queue: seq<E>)
    requires queue != []
    ensures front + queue == (front + [queue[0]]) + queue[1..]
  {
  }

  /** The handlers that the dispatch in progress is still to call. */
  function Due<E>(w: Worker<E>, handlers: set<SubId>): set<SubId> {
    match w
    case Holding(_) => handlers
    case Calling(_, pending) => pending
    case _ => {}
  }

  lemma HeardOwedThen<E>(c0: seq<Call<E>>, c1: seq<Call<E>>, c2: seq<Call<E>>,
                         due: set<SubId>, handlers: set<SubId>, owed: seq<E>, queue: seq<E>)
    requires HeardBetween(c0, c1, due, owed) && HeardBetween(c1, c2, handlers, queue)
    ensures forall id :: Heard(c2, id) == Heard(c0, id) + (if id in due then owed else [])
                                          + (if id in handlers then queue else [])
  {
  }

  class EventBus<E> {
    var handlers: set<SubId>
    var nextId: SubId
    var eventQueue: seq<E>
    var stopWorker: bool
    var worker: Worker<E>
    ghost var notifies: nat
    ghost var published: seq<E>
    ghost var completed: seq<E>
    ghost var calls: seq<Call<E>>

    ghost function Model(): Bus<E>
      reads this
    {
      Bus(handlers, nextId, eventQueue, stopWorker, notifies, worker, published, completed, calls)
    }

    constructor ()
      ensures Model() == Initial<E>()
    {
      handlers, nextId, eventQueue, stopWorker, worker := {}, 1, [], false, NotStarted;
      notifies, published, completed, calls := 0, [], [], [];
    }

    method SubscribeHandler() returns (id: SubId)
      modifies this
      ensures Model() == Apply(old(Model()), Subscribe)
      ensures id == old(nextId) && handlers == old(handlers) + {id} && nextId == id + 1
    {
      id := nextId;
      nextId := nextId + 1;
      handlers := handlers + {id};
    }

    method UnsubscribeHandler(id: SubId)
      modifies this
      ensures Model() == Apply(old(Model()), Unsubscribe(id))
      ensures handlers == old(handlers) - {id}
    {
      handlers := handlers - {id};
    }

    /** Synchronous publish: every handler of the snapshot is called before it returns. */
    method Publish(e: E)
      modifies this`calls
      ensures |calls| == |old(calls)| + |handlers| && old(calls) <= calls
      ensures forall i :: |old(calls)| <= i < |calls| ==>
                calls[i].event == e && !calls[i].async && calls[i].sub in handlers
      ensures forall id :: id in handlers ==> Call(id, e, false) in calls[|old(calls)|..]
      ensures forall id :: Heard(calls, id) == Heard(old(calls), id)
    {
      var pending := handlers;
      while pending != {}
        invariant pending <= handlers && old(calls) <= calls
        invariant |calls| + |pending| == |old(calls)| + |handlers|
        invariant forall i :: |old(calls)| <= i < |calls| ==>
                    calls[i].event == e && !calls[i].async && calls[i].sub in handlers
        invariant forall id :: id in handlers && id !in pending ==> Call(id, e, false) in calls[|old(calls)|..]
        invariant forall id :: Heard(calls, id) == Heard(old(calls), id)
        decreases |pending|
      {
        var id :| id in pending;
        pending := pending - {id};
        ghost var before := calls;
        calls := calls + [Call(id, e, false)];
        assert calls[|old(calls)|..] == before[|old(calls)|..] + [Call(id, e, false)];
        forall other {
          HeardAppend(before, Call(id, e, false), other);
        }
      }
    }

    /** The two critical sections of publish_async, and the notification that follows them. */
    method PublishAsync(e: E)
      requires !worker.Dozing?
      modifies this
      ensures Model() == Apply(Apply(Apply(old(Model()), EnsureWorker), Push(e)), Notify)
      ensures published == old(published) + [e] && eventQueue == old(eventQueue) + [e]
      ensures !worker.Asleep?
    {
      if worker.NotStarted? {
        worker := Waiting;
      }
      eventQueue := eventQueue + [e];
      published := published + [e];
      if worker.Asleep? {
        worker := Waiting;
      }
    }

    /** One turn of the worker up to the dispatch; false when the loop breaks. */
    method WorkerTake() returns (more: bool)
      requires worker.Waiting? && (eventQueue != [] || stopWorker)
      modifies this`worker, this`eventQueue
      ensures Model() == Apply(old(Model()), Take)
      ensures more <==> old(eventQueue) != []
      ensures more ==> worker == Holding(old(eventQueue)[0]) && eventQueue == old(eventQueue)[1..]
      ensures !more ==> worker.Exited? && eventQueue == []
    {
      if stopWorker && eventQueue == [] {
        worker := Exited;
        return false;
      }
      var event := eventQueue[0];
      eventQueue := eventQueue[1..];
      worker := Holding(event);
      return true;
    }

    /** The handler loop of dispatch() on the worker thread. */
    method CallPending(event: E, ghost due: set<SubId>)
      requires worker == Calling(event, due)
      modifies this`worker, this`calls
      ensures worker == Calling(event, {})
      ensures HeardBetween(old(calls), calls, due, [event])
    {
      while worker.pending != {}
        invariant worker.Calling? && worker.event == event && worker.pending <= due
        invariant HeardBetween(old(calls), calls, due - worker.pending, [event])
        decreases |worker.pending|
      {
        var id :| id in worker.pending;
        HeardBetweenCall(old(calls), calls, due - worker.pending, id, event);
        assert due - worker.pending + {id} == due - (worker.pending - {id});
        calls := calls + [Call(id, event, true)];
        worker := Calling(event, worker.pending - {id});
      }
      assert due - {} == due;
    }

    /** dispatch() on the worker thread, from the snapshot or from the middle of its loop: every
        handler still to be called is called once. */
    method WorkerDispatch()
      requires worker.Holding? || worker.Calling?
      modifies this`worker, this`calls, this`completed
      ensures worker == Waiting
      ensures completed == old(completed) + [old(worker).event]
      ensures HeardBetween(old(calls), calls, Due(old(worker), handlers), [old(worker).event])
    {
      var event := worker.event;
      worker := Calling(event, Due(worker, handlers));
      CallPending(event, worker.pending);
      completed := completed + [event];
      worker := Waiting;
    }

    /** The destructor: once it has the mutex, set the stop flag and notify; then join the worker,
        which finishes what it is doing and dispatches everything still queued, to every subscriber
        in order, before it exits. */
    method Destroy()
      requires Ordered(Model()) && !worker.Exited?
      modifies this`stopWorker, this`worker, this`eventQueue, this`calls, this`completed
      ensures worker.NotStarted? || worker.Exited?
      ensures eventQueue == [] && completed == published
      ensures forall id ::
                Heard(calls, id) == Heard(old(calls), id) + old(Owed(Model(), id))
                                    + (if id in handlers then old(eventQueue) else [])
    {
      if worker.NotStarted? {
        return;
      }
      ghost var owed := if worker.Holding? || worker.Calling? then [worker.event] else [];
      ghost var due := Due(worker, handlers);
      stopWorker := true;
      if worker.Holding? || worker.Calling? {
        WorkerDispatch();
      }
      worker := Waiting;
      ghost var middle := calls;
      Drain();
      HeardOwedThen(old(calls), middle, calls, due, handlers, owed, old(eventQueue));
    }

    /** The worker's loop from its wait to its exit, with the stop flag set. */
    method Drain()
      requires stopWorker && worker.Waiting? && published == completed + eventQueue
      modifies this`worker, this`eventQueue, this`calls, this`completed
      ensures worker.Exited? && eventQueue == [] && completed == published
      ensures HeardBetween(old(calls), calls, handlers, old(eventQueue))
    {
      var more := true;
      ghost var delivered: seq<E> := [];
      while more
        invariant stopWorker && published == completed + eventQueue
        invariant if more then worker.Waiting? else worker.Exited? && eventQueue == []
        invariant old(eventQueue) == delivered + eventQueue
        invariant HeardBetween(old(calls), calls, handlers, delivered)
        decreases if more then 1 else 0, |eventQueue|
      {
        ghost var heard := calls;
        if eventQueue != [] {
          MoveFront(completed, eventQueue);
          MoveFront(delivered, eventQueue);
        }
        more := WorkerTake();
        if more {
          ghost var event := worker.event;
          WorkerDispatch();
          HeardBetweenThen(old(calls), heard, calls, handlers, delivered, [event]);
          delivered := delivered + [event];
        }
      }
    }
  }
}

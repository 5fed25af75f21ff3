/** The agent controller (agents/controller): a priority queue served by a pool of worker
    threads.  One step is one critical section of one thread. */
module Agents {

  datatype Priority = HIGH | NORMAL | LOW

  function Urgency(p: Priority): nat {
    match p
    case HIGH => 0
    case NORMAL => 1
    case LOW => 2
  }

  /** Task "task_<id>" for an agent. */
  datatype Task = Task(id: nat, agent: string, input: string, priority: Priority)

  datatype AgentState = IDLE | RUNNING | COMPLETED | FAILED
  datatype Status = Status(state: AgentState, lastTask: nat, completed: nat, failed: nat)

  /** Where a worker thread is in its loop. */
  datatype Pc =
    | Top                              // about to test running_
    | Waiting                          // in cv_.wait, about to evaluate the predicate
    | Dozing                           // found it false and holds mutex_, about to block
    | Asleep                           // blocked until notified
    | Popped(task: Task)
    | Executing(task: Task)
    | Executed(task: Task, ok: bool)   // about to update the status
    | Exited

  /** History: personas loaded and tasks finished, in order. */
  datatype Entry = Loaded(agent: string) | Done(task: Task, ok: bool)

  datatype Pool = Pool(
    workerCount: nat,
    statuses: map<string, Status>,   // its keys are also the keys of personas_
    queue: multiset<Task>,
    nextId: nat,
    running: bool,
    notify: bool,                    // stop() has cleared running_ and not yet called notify_all
    workers: seq<Pc>,
    submitted: seq<Task>,
    journal: seq<Entry>)

  // ---- Specification -----------------------------------------------------------------

  /** What priority_queue::top may return: nothing queued is more urgent. */
  ghost predicate IsTop(queue: multiset<Task>, t: Task) {
    t in queue && forall u :: u in queue ==> Urgency(t.priority) <= Urgency(u.priority)
  }

  datatype Step =
    | Load(name: string)
    | Submit(name: string, input: string, priority: Priority, woken: nat)
    | Start
    | RequestStop
    | NotifyAll
    | Join
    | Check(w: nat)
    | Wake(w: nat, top: Task)
    | Doze(w: nat)
    | Sleep(w: nat)
    | Stir(w: nat)                   // a spurious wakeup
    | Mark(w: nat)
    | Execute(w: nat, ok: bool)
    | Record(w: nat)

  function Move(p: Pool, w: nat, pc: Pc): Pool
    requires w < |p.workers|
  {
    p.(workers := p.workers[w := pc])
  }

  function Finish(s: Status, t: Task, ok: bool): Status {
    if ok then Status(COMPLETED, t.id, s.completed + 1, s.failed)
    else Status(FAILED, t.id, s.completed, s.failed + 1)
  }

  /** Nobody holds mutex_ across steps: only a worker about to block does. */
  predicate MutexFree(workers: seq<Pc>) {
    Dozing !in workers
  }

  predicate AllExited(p: Pool) {
    forall i :: 0 <= i < |p.workers| ==> p.workers[i] == Exited
  }

  /** notify_one wakes a sleeping worker if there is one. */
  predicate MayWake(workers: seq<Pc>, woken: nat) {
    Asleep in workers ==> woken < |workers| && workers[woken] == Asleep
  }

  /** running_ and notify_all need no mutex; everything that reads or writes the queue or the
      statuses does. */
  ghost predicate Enabled(p: Pool, s: Step) {
    match s
    case Load(_) => MutexFree(p.workers)
    case Submit(name, _, _, woken) => MutexFree(p.workers) && name in p.statuses && MayWake(p.workers, woken)
    case Start => !p.running
    case RequestStop => p.running
    case NotifyAll => p.notify
    case Join => !p.running && !p.notify && AllExited(p)
    case Check(w) => w < |p.workers| && p.workers[w] == Top
    case Wake(w, top) =>
      && w < |p.workers| && p.workers[w] == Waiting && MutexFree(p.workers)
      && if p.queue == multiset{} then !p.running else IsTop(p.queue, top)
    case Doze(w) =>
      && w < |p.workers| && p.workers[w] == Waiting && MutexFree(p.workers)
      && p.queue == multiset{} && p.running
    case Sleep(w) => w < |p.workers| && p.workers[w] == Dozing
    case Stir(w) => w < |p.workers| && p.workers[w] == Asleep
    case Mark(w) => w < |p.workers| && p.workers[w].Popped? && MutexFree(p.workers)
    case Execute(w, _) => w < |p.workers| && p.workers[w].Executing?
    case Record(w) => w < |p.workers| && p.workers[w].Executed? && MutexFree(p.workers)
  }

  function Woken(workers: seq<Pc>, woken: nat): seq<Pc> {
    if woken < |workers| && workers[woken] == Asleep then workers[woken := Waiting] else workers
  }

  function AllWoken(workers: seq<Pc>): (awake: seq<Pc>)
    ensures |awake| == |workers|
  {
    seq(|workers|, i requires 0 <= i < |workers| => if workers[i] == Asleep then Waiting else workers[i])
  }

  ghost function Effect(p: Pool, s: Step): Pool
    requires Enabled(p, s)
  {
    match s
    case Load(name) =>
      p.(statuses := p.statuses[name := Status(IDLE, 0, 0, 0)], journal := p.journal + [Loaded(name)])
    case Submit(name, input, priority, woken) =>
      var t := Task(p.nextId, name, input, priority);
      p.(queue := p.queue + multiset{t}, nextId := p.nextId + 1, submitted := p.submitted + [t],
         workers := Woken(p.workers, woken))
    case Start => p.(running := true, workers := p.workers + seq(p.workerCount, _ => Top))
    case RequestStop => p.(running := false, notify := true)
    case NotifyAll => p.(notify := false, workers := AllWoken(p.workers))
    case Join => p.(workers := [])
    case Check(w) => Move(p, w, if p.running then Waiting else Exited)
    case Wake(w, top) =>
      if p.queue == multiset{} then Move(p, w, Exited)
      else Move(p, w, Popped(top)).(queue := p.queue - multiset{top})
    case Doze(w) => Move(p, w, Dozing)
    case Sleep(w) => Move(p, w, Asleep)
    case Stir(w) => Move(p, w, Waiting)
    case Mark(w) =>
      var t := p.workers[w].task;
      var q := Move(p, w, Executing(t));
      if t.agent in p.statuses then q.(statuses := p.statuses[t.agent := p.statuses[t.agent].(state := RUNNING)])
      else q
    case Execute(w, ok) => Move(p, w, Executed(p.workers[w].task, ok))
    case Record(w) =>
      var t, ok := p.workers[w].task, p.workers[w].ok;
      var old' := if t.agent in p.statuses then p.statuses[t.agent] else Status(IDLE, 0, 0, 0);
      Move(p, w, Top).(statuses := p.statuses[t.agent := Finish(old', t, ok)], journal := p.journal + [Done(t, ok)])
  }

  ghost function Apply(p: Pool, s: Step): Pool {
    if Enabled(p, s) then Effect(p, s) else p
  }

  ghost function Run(p: Pool, steps: seq<Step>): Pool {
    if steps == [] then p else Apply(Run(p, steps[..|steps| - 1]), steps[|steps| - 1])
  }

  function Initial(workerCount: int): Pool {
    Pool(if workerCount > 0 then workerCount else 1, map[], multiset{}, 1, false, false, [], [], [])
  }

  // ---- Where the tasks are -----------------------------------------------------------

  predicate HeldBy(pc: Pc, t: Task) {
    (pc.Popped? || pc.Executing? || pc.Executed?) && pc.task == t
  }

  /** The number of workers holding the task. */
  function Held(workers: seq<Pc>, t: Task): nat {
    if workers == [] then 0
    else Held(workers[..|workers| - 1], t) + (if HeldBy(workers[|workers| - 1], t) then 1 else 0)
  }

  /** The number of times the task has finished. */
  function Finished(journal: seq<Entry>, t: Task): nat {
    if journal == [] then 0
    else
      var last := journal[|journal| - 1];
      Finished(journal[..|journal| - 1], t) + (if last.Done? && last.task == t then 1 else 0)
  }

  /** How many tasks of the agent finished with this outcome since it was last loaded. */
  function Recorded(journal: seq<Entry>, agent: string, ok: bool): nat {
    if journal == [] then 0
    else
      var last := journal[|journal| - 1];
      var before := Recorded(journal[..|journal| - 1], agent, ok);
      match last
      case Loaded(name) => if name == agent then 0 else before
      case Done(t, o) => if t.agent == agent && o == ok then before + 1 else before
  }

  lemma FinishedAppend(journal: seq<Entry>, e: Entry, t: Task)
    ensures Finished(journal + [e], t) == Finished(journal, t) + (if e.Done? && e.task == t then 1 else 0)
  {
    assert (journal + [e])[..|journal|] == journal;
  }

  lemma RecordedAppend(journal: seq<Entry>, e: Entry, agent: string, ok: bool)
    ensures Recorded(journal + [e], agent, ok) ==
              if e.Loaded? then (if e.agent == agent then 0 else Recorded(journal, agent, ok))
              else Recorded(journal, agent, ok) + (if e.task.agent == agent && e.ok == ok then 1 else 0)
  {
    assert (journal + [e])[..|journal|] == journal;
  }

  lemma {:induction false} HeldUpdate(workers: seq<Pc>, w: nat, pc: Pc, t: Task)
    requires w < |workers|
    ensures Held(workers[w := pc], t) + (if HeldBy(workers[w], t) then 1 else 0)
         == Held(workers, t) + (if HeldBy(pc, t) then 1 else 0)
  {
    var n := |workers| - 1;
    if w == n {
      assert workers[w := pc][..n] == workers[..n];
    } else {
      HeldUpdate(workers[..n], w, pc, t);
      assert workers[w := pc][..n] == workers[..n][w := pc];
    }
  }

  lemma {:induction false} NothingHeld(workers: seq<Pc>, t: Task)
    requires forall i :: 0 <= i < |workers| ==> workers[i] == Exited
    ensures Held(workers, t) == 0
  {
    if workers != [] {
      NothingHeld(workers[..|workers| - 1], t);
    }
  }

  lemma {:induction false} HeldByNewcomers(workers: seq<Pc>, more: seq<Pc>, t: Task)
    requires forall i :: 0 <= i < |more| ==> more[i] == Top
    ensures Held(workers + more, t) == Held(workers, t)
  {
    if more == [] {
      assert workers + more == workers;
    } else {
      HeldByNewcomers(workers, more[..|more| - 1], t);
      assert (workers + more)[..|workers + more| - 1] == workers + more[..|more| - 1];
    }
  }

  lemma {:induction false} HeldByWoken(workers: seq<Pc>, t: Task)
    ensures Held(AllWoken(workers), t) == Held(workers, t)
  {
    if workers != [] {
      var n := |workers| - 1;
      HeldByWoken(workers[..n], t);
      assert AllWoken(workers)[..n] == AllWoken(workers[..n]);
    }
  }

  // ---- Every task is in exactly one place --------------------------------------------

  ghost predicate Accounted(p: Pool, t: Task) {
    multiset(p.submitted)[t] == p.queue[t] + Held(p.workers, t) + Finished(p.journal, t)
  }

  ghost predicate Numbered(p: Pool) {
    && p.nextId == |p.submitted| + 1
    && forall i :: 0 <= i < |p.submitted| ==> p.submitted[i].id == i + 1
  }

  lemma AccountedMove(p: Pool, w: nat, pc: Pc, t: Task)
    requires Accounted(p, t) && w < |p.workers|
    requires HeldBy(pc, t) <==> HeldBy(p.workers[w], t)
    ensures Accounted(Move(p, w, pc), t)
  {
    HeldUpdate(p.workers, w, pc, t);
  }

  lemma AccountedWake(p: Pool, w: nat, top: Task, t: Task)
    requires Accounted(p, t) && w < |p.workers| && p.workers[w] == Waiting && top in p.queue
    ensures Accounted(Move(p, w, Popped(top)).(queue := p.queue - multiset{top}), t)
  {
    HeldUpdate(p.workers, w, Popped(top), t);
  }

  lemma AccountedRecord(p: Pool, w: nat, ok: bool, done: Task, t: Task)
    requires Accounted(p, t) && w < |p.workers| && p.workers[w] == Executed(done, ok)
    ensures Accounted(Move(p, w, Top).(journal := p.journal + [Done(done, ok)]), t)
  {
    HeldUpdate(p.workers, w, Top, t);
    FinishedAppend(p.journal, Done(done, ok), t);
  }

  /** A worker's step keeps the account of every task. */
  lemma AccountedWorker(p: Pool, s: Step, t: Task)
    requires Accounted(p, t) && WorkerStep(s) && Enabled(p, s)
    ensures Accounted(Effect(p, s), t)
  {
    match s
    case Check(w) => AccountedMove(p, w, if p.running then Waiting else Exited, t);
    case Wake(w, top) =>
      if p.queue == multiset{} {
        AccountedMove(p, w, Exited, t);
      } else {
        AccountedWake(p, w, top, t);
      }
    case Doze(w) => AccountedMove(p, w, Dozing, t);
    case Sleep(w) => AccountedMove(p, w, Asleep, t);
    case Mark(w) => AccountedMove(p, w, Executing(p.workers[w].task), t);
    case Execute(w, ok) => AccountedMove(p, w, Executed(p.workers[w].task, ok), t);
    case Record(w) => AccountedRecord(p, w, p.workers[w].ok, p.workers[w].task, t);
  }

  lemma AccountedPool(p: Pool, s: Step, t: Task)
    requires Accounted(p, t) && !WorkerStep(s) && Enabled(p, s)
    ensures Accounted(Effect(p, s), t)
  {
    match s
    case Load(name) => FinishedAppend(p.journal, Loaded(name), t);
    case Submit(_, _, _, woken) =>
      if Woken(p.workers, woken) != p.workers {
        HeldUpdate(p.workers, woken, Waiting, t);
      }
    case Start => HeldByNewcomers(p.workers, seq(p.workerCount, _ => Top), t);
    case NotifyAll => HeldByWoken(p.workers, t);
    case Join => NothingHeld(p.workers, t);
    case Stir(w) => AccountedMove(p, w, Waiting, t);
    case RequestStop =>
  }

  lemma AccountedStep(p: Pool, s: Step, t: Task)
    requires Accounted(p, t)
    ensures Accounted(Apply(p, s), t)
  {
    if Enabled(p, s) {
      if WorkerStep(s) {
        AccountedWorker(p, s, t);
      } else {
        AccountedPool(p, s, t);
      }
    }
  }

  lemma NumberedStep(p: Pool, s: Step)
    requires Numbered(p)
    ensures Numbered(Apply(p, s))
  {
  }

  /** Under every interleaving, each task was submitted as often as it is queued, held or
      finished. */
  lemma {:induction false} AccountedAlways(workerCount: int, steps: seq<Step>, t: Task)
    ensures Accounted(Run(Initial(workerCount), steps), t)
  {
    if steps != [] {
      AccountedAlways(workerCount, steps[..|steps| - 1], t);
      AccountedStep(Run(Initial(workerCount), steps[..|steps| - 1]), steps[|steps| - 1], t);
    }
  }

  /** Ids number the submissions from 1, so they are distinct. */
  lemma {:induction false} NumberedAlways(workerCount: int, steps: seq<Step>)
    ensures Numbered(Run(Initial(workerCount), steps))
  {
    if steps != [] {
      NumberedAlways(workerCount, steps[..|steps| - 1]);
      NumberedStep(Run(Initial(workerCount), steps[..|steps| - 1]), steps[|steps| - 1]);
    }
  }

  lemma {:induction false} OnceInSubmitted(tasks: seq<Task>, i: nat)
    requires forall j :: 0 <= j < |tasks| ==> tasks[j].id == j + 1
    requires i < |tasks|
    ensures multiset(tasks)[tasks[i]] == 1
  {
    var n := |tasks| - 1;
    assert tasks == tasks[..n] + [tasks[n]];
    if i < n {
      OnceInSubmitted(tasks[..n], i);
      assert tasks[..n][i] == tasks[i];
    } else {
      assert tasks[n] !in tasks[..n];
    }
  }

  /** At every moment each submitted task is in exactly one place, once: queued, held by one
      worker, or finished.  So no task is executed twice, and none is lost. */
  lemma ExactlyOnce(workerCount: int, steps: seq<Step>, i: nat)
    requires i < |Run(Initial(workerCount), steps).submitted|
    ensures var p := Run(Initial(workerCount), steps);
            p.queue[p.submitted[i]] + Held(p.workers, p.submitted[i]) + Finished(p.journal, p.submitted[i]) == 1
  {
    var submitted := Run(Initial(workerCount), steps).submitted;
    AccountedAlways(workerCount, steps, submitted[i]);
    NumberedAlways(workerCount, steps);
    OnceInSubmitted(submitted, i);
  }

  /** HIGH goes before NORMAL and LOW, NORMAL before LOW. */
  predicate MoreUrgent(a: Priority, b: Priority) {
    (a == HIGH && b != HIGH) || (a == NORMAL && b == LOW)
  }

  lemma UrgentStep(p: Pool, s: Step, t: Task, u: Task)
    requires MoreUrgent(u.priority, t.priority) && u.id < p.nextId
    requires u in Apply(p, s).queue
    ensures u in p.queue && Apply(p, s).queue[t] >= p.queue[t] && p.nextId <= Apply(p, s).nextId
  {
  }

  lemma NextIdStep(p: Pool, s: Step)
    ensures Apply(p, s).nextId >= p.nextId
  {
  }

  lemma {:induction false} NextIdGrows(p: Pool, steps: seq<Step>)
    ensures Run(p, steps).nextId >= p.nextId
  {
    if steps != [] {
      NextIdGrows(p, steps[..|steps| - 1]);
      NextIdStep(Run(p, steps[..|steps| - 1]), steps[|steps| - 1]);
    }
  }

  lemma {:induction false} UrgentRun(p: Pool, steps: seq<Step>, t: Task, u: Task)
    requires MoreUrgent(u.priority, t.priority) && u.id < p.nextId
    requires u in Run(p, steps).queue
    ensures u in p.queue && Run(p, steps).queue[t] >= p.queue[t]
  {
    if steps != [] {
      NextIdGrows(p, steps[..|steps| - 1]);
      UrgentStep(Run(p, steps[..|steps| - 1]), steps[|steps| - 1], t, u);
      UrgentRun(p, steps[..|steps| - 1], t, u);
    }
  }

  /** Under every interleaving no less urgent task leaves the queue while a more urgent one that
      was submitted before is waiting: as long as u is still queued, so is t. */
  lemma UrgentFirst(workerCount: int, before: seq<Step>, steps: seq<Step>, t: Task, u: Task)
    requires var p := Run(Initial(workerCount), before); u in p.submitted && u in Run(p, steps).queue
    requires MoreUrgent(u.priority, t.priority)
    ensures var p := Run(Initial(workerCount), before); Run(p, steps).queue[t] >= p.queue[t]
  {
    NumberedAlways(workerCount, before);
    UrgentRun(Run(Initial(workerCount), before), steps, t, u);
  }

  // ---- Counters ----------------------------------------------------------------------

  ghost predicate Tallied(p: Pool, agent: string) {
    agent in p.statuses ==>
      && p.statuses[agent].completed == Recorded(p.journal, agent, true)
      && p.statuses[agent].failed == Recorded(p.journal, agent, false)
  }

  /** Every submitted task is for a loaded agent. */
  ghost predicate Known(p: Pool) {
    forall i :: 0 <= i < |p.submitted| ==> p.submitted[i].agent in p.statuses
  }

  lemma KnownStep(p: Pool, s: Step)
    requires Known(p)
    ensures Known(Apply(p, s))
  {
  }

  lemma {:induction false} KnownAlways(workerCount: int, steps: seq<Step>)
    ensures Known(Run(Initial(workerCount), steps))
  {
    if steps != [] {
      KnownAlways(workerCount, steps[..|steps| - 1]);
      KnownStep(Run(Initial(workerCount), steps[..|steps| - 1]), steps[|steps| - 1]);
    }
  }

  lemma HeldIsKnown(p: Pool, w: nat, t: Task)
    requires w < |p.workers| && HeldBy(p.workers[w], t)
    requires Accounted(p, t) && Known(p)
    ensures t.agent in p.statuses
  {
    HeldUpdate(p.workers, w, Exited, t);
    assert multiset(p.submitted)[t] > 0;
    assert t in p.submitted;
  }

  lemma TalliedDone(p: Pool, done: Task, ok: bool, agent: string)
    requires Tallied(p, agent) && done.agent in p.statuses
    ensures Tallied(p.(statuses := p.statuses[done.agent := Finish(p.statuses[done.agent], done, ok)],
                       journal := p.journal + [Done(done, ok)]), agent)
  {
    RecordedAppend(p.journal, Done(done, ok), agent, true);
    RecordedAppend(p.journal, Done(done, ok), agent, false);
  }

  lemma TalliedRecord(p: Pool, w: nat, agent: string)
    requires Enabled(p, Record(w)) && p.workers[w].task.agent in p.statuses
    requires Tallied(p, agent)
    ensures Tallied(Effect(p, Record(w)), agent)
  {
    TalliedDone(p, p.workers[w].task, p.workers[w].ok, agent);
  }

  lemma TalliedOther(p: Pool, s: Step, agent: string)
    requires Tallied(p, agent) && Enabled(p, s) && !s.Record?
    ensures Tallied(Effect(p, s), agent)
  {
    if s.Load? {
      RecordedAppend(p.journal, Loaded(s.name), agent, true);
      RecordedAppend(p.journal, Loaded(s.name), agent, false);
    }
  }

  /** In every run, for every loaded agent: tasks_completed and tasks_failed are the numbers of
      its tasks recorded as finished with that outcome since it was last loaded. */
  lemma {:induction false} CountersAreExact(workerCount: int, steps: seq<Step>, agent: string)
    ensures Tallied(Run(Initial(workerCount), steps), agent)
  {
    if steps != [] {
      var before, s := steps[..|steps| - 1], steps[|steps| - 1];
      var p := Run(Initial(workerCount), before);
      CountersAreExact(workerCount, before, agent);
      if Enabled(p, s) {
        if s.Record? {
          KnownAlways(workerCount, before);
          AccountedAlways(workerCount, before, p.workers[s.w].task);
          HeldIsKnown(p, s.w, p.workers[s.w].task);
          TalliedRecord(p, s.w, agent);
        } else {
          TalliedOther(p, s, agent);
        }
      }
    }
  }

  // ---- Stopping ----------------------------------------------------------------------

  /** In cv_.wait: after stop() such a worker pops one more task or leaves. */
  predicate InWait(pc: Pc) {
    pc == Waiting || pc == Dozing || pc == Asleep
  }

  function Waiters(workers: seq<Pc>): nat {
    if workers == [] then 0
    else Waiters(workers[..|workers| - 1]) + (if InWait(workers[|workers| - 1]) then 1 else 0)
  }

  lemma {:induction false} WaitersUpdate(workers: seq<Pc>, w: nat, pc: Pc)
    requires w < |workers|
    ensures Waiters(workers[w := pc])
         == Waiters(workers) - (if InWait(workers[w]) then 1 else 0) + (if InWait(pc) then 1 else 0)
  {
    var n := |workers| - 1;
    if w == n {
      assert workers[w := pc][..n] == workers[..n];
    } else {
      WaitersUpdate(workers[..n], w, pc);
      assert workers[w := pc][..n] == workers[..n][w := pc];
    }
  }

  lemma {:induction false} WaitersWoken(workers: seq<Pc>)
    ensures Waiters(AllWoken(workers)) == Waiters(workers)
  {
    if workers != [] {
      var n := |workers| - 1;
      WaitersWoken(workers[..n]);
      assert AllWoken(workers)[..n] == AllWoken(workers[..n]);
    }
  }

  lemma {:induction false} NoWaiters(workers: seq<Pc>)
    requires forall i :: 0 <= i < |workers| ==> workers[i] == Exited
    ensures Waiters(workers) == 0
  {
    if workers != [] {
      NoWaiters(workers[..|workers| - 1]);
    }
  }

  predicate WorkerStep(s: Step) {
    s.Check? || s.Wake? || s.Doze? || s.Sleep? || s.Mark? || s.Execute? || s.Record?
  }

  ghost predicate WorkersOnly(steps: seq<Step>) {
    forall i :: 0 <= i < |steps| ==> WorkerStep(steps[i])
  }

  /** What will still be queued when the workers are gone, if nothing is submitted meanwhile. */
  function Stranded(p: Pool): nat {
    if |p.queue| > Waiters(p.workers) then |p.queue| - Waiters(p.workers) else 0
  }

  /** From p to q, both stopped: each submission adds to the queue, and only workers in the wait
      take from it. */
  ghost predicate Settles(p: Pool, q: Pool) {
    && !q.running && |q.submitted| >= |p.submitted|
    && |q.queue| - Waiters(q.workers) >= |p.queue| - Waiters(p.workers) + |q.submitted| - |p.submitted|
    && (q.submitted == p.submitted ==> Stranded(q) == Stranded(p))
    && (|q.submitted| == |p.submitted| ==> q.submitted == p.submitted)
  }

  lemma SettlesSubmit(p: Pool, s: Step)
    requires !p.running && s.Submit? && Enabled(p, s)
    ensures Settles(p, Effect(p, s))
  {
    if Woken(p.workers, s.woken) != p.workers {
      WaitersUpdate(p.workers, s.woken, Waiting);
    }
  }

  lemma SettlesMove(p: Pool, q: Pool, w: nat, pc: Pc)
    requires !p.running && w < |p.workers| && InWait(pc) == InWait(p.workers[w])
    requires !q.running && q.queue == p.queue && q.submitted == p.submitted && q.workers == p.workers[w := pc]
    ensures Settles(p, q)
  {
    WaitersUpdate(p.workers, w, pc);
  }

  lemma SettlesWake(p: Pool, w: nat, top: Task)
    requires !p.running && Enabled(p, Wake(w, top))
    ensures Settles(p, Effect(p, Wake(w, top)))
  {
    WaitersUpdate(p.workers, w, Exited);
    WaitersUpdate(p.workers, w, Popped(top));
  }

  lemma SettlesWorker(p: Pool, s: Step)
    requires !p.running && (WorkerStep(s) || s.Stir?) && Enabled(p, s)
    ensures Settles(p, Effect(p, s))
  {
    match s
    case Wake(w, top) => SettlesWake(p, w, top);
    case Check(w) => SettlesMove(p, Effect(p, s), w, Exited);
    case Sleep(w) => SettlesMove(p, Effect(p, s), w, Asleep);
    case Stir(w) => SettlesMove(p, Effect(p, s), w, Waiting);
    case Mark(w) => SettlesMove(p, Effect(p, s), w, Executing(p.workers[w].task));
    case Execute(w, ok) => SettlesMove(p, Effect(p, s), w, Executed(p.workers[w].task, ok));
    case Record(w) => SettlesMove(p, Effect(p, s), w, Top);
  }

  lemma SettlesStep(p: Pool, s: Step)
    requires !p.running && !s.Start?
    ensures Settles(p, Apply(p, s))
  {
    if Enabled(p, s) {
      match s
      case Submit(_, _, _, _) => SettlesSubmit(p, s);
      case NotifyAll => WaitersWoken(p.workers);
      case Join => NoWaiters(p.workers);
      case Load(_) =>
      case RequestStop =>
      case _ => SettlesWorker(p, s);
    }
  }

  lemma {:induction false} SettlesRun(p: Pool, steps: seq<Step>)
    requires !p.running && Start !in steps
    ensures Settles(p, Run(p, steps))
  {
    if steps != [] {
      SettlesRun(p, steps[..|steps| - 1]);
      SettlesStep(Run(p, steps[..|steps| - 1]), steps[|steps| - 1]);
    }
  }

  /** stop() is documented to drain the queue.  From the moment it clears running_, however the
      threads interleave until all workers have left: if nothing is submitted meanwhile, the queue
      ends empty exactly when at most as many tasks were queued as workers were in the wait, and
      every task beyond that stays queued; every submission leaves one more behind. */
  lemma StopDrainsIff(p: Pool, steps: seq<Step>)
    requires !p.running && Start !in steps && AllExited(Run(p, steps))
    ensures var q := Run(p, steps);
            && |q.queue| >= |p.queue| + (|q.submitted| - |p.submitted|) - Waiters(p.workers)
            && (q.submitted == p.submitted ==>
                  |q.queue| == Stranded(p) && (q.queue == multiset{} <==> |p.queue| <= Waiters(p.workers)))
  {
    SettlesRun(p, steps);
    NoWaiters(Run(p, steps).workers);
  }

  /** From p to q nothing but submissions happened, and they are all still queued. */
  ghost predicate Grown(p: Pool, q: Pool, added: seq<Task>) {
    && !q.running && AllExited(q)
    && q.submitted == p.submitted + added && q.queue == p.queue + multiset(added)
  }

  lemma GrownThen(p: Pool, m: Pool, q: Pool, a: seq<Task>, b: seq<Task>)
    requires Grown(p, m, a) && Grown(m, q, b)
    ensures Grown(p, q, a + b)
  {
    assert p.submitted + a + b == p.submitted + (a + b);
  }

  lemma TooLateStep(p: Pool, s: Step) returns (added: seq<Task>)
    requires !p.running && s != Start && AllExited(p)
    ensures Grown(p, Apply(p, s), added)
  {
    added := [];
    if s.Submit? && Enabled(p, s) {
      added := [Task(p.nextId, s.name, s.input, s.priority)];
    }
  }

  /** Once the last worker has left, nothing leaves the queue: it grows by exactly what is
      submitted. */
  lemma {:induction false} SubmittedTooLate(p: Pool, steps: seq<Step>) returns (added: seq<Task>)
    requires !p.running && Start !in steps && AllExited(p)
    ensures Grown(p, Run(p, steps), added)
  {
    added := [];
    if steps != [] {
      var m := Run(p, steps[..|steps| - 1]);
      var before := SubmittedTooLate(p, steps[..|steps| - 1]);
      var last := TooLateStep(m, steps[|steps| - 1]);
      GrownThen(p, m, Run(p, steps), before, last);
      added := before + last;
    }
  }

  // ---- Whether stop() returns --------------------------------------------------------

  /** How many steps a worker still has to take after stop(). */
  function Distance(pc: Pc): nat {
    match pc
    case Exited => 0
    case Top => 1
    case Executed(_, _) => 2
    case Executing(_) => 3
    case Popped(_) => 4
    case Waiting => 5
    case Dozing => 6
    case Asleep => 6
  }

  function Remaining(workers: seq<Pc>): nat {
    if workers == [] then 0 else Remaining(workers[..|workers| - 1]) + Distance(workers[|workers| - 1])
  }

  lemma {:induction false} RemainingUpdate(workers: seq<Pc>, w: nat, pc: Pc)
    requires w < |workers|
    ensures Remaining(workers[w := pc]) == Remaining(workers) - Distance(workers[w]) + Distance(pc)
  {
    var n := |workers| - 1;
    if w == n {
      assert workers[w := pc][..n] == workers[..n];
    } else {
      RemainingUpdate(workers[..n], w, pc);
      assert workers[w := pc][..n] == workers[..n][w := pc];
    }
  }

  lemma {:induction false} TopExists(queue: multiset<Task>) returns (top: Task)
    requires queue != multiset{}
    ensures IsTop(queue, top)
    decreases |queue|
  {
    top :| top in queue;
    var rest := queue - multiset{top};
    if rest != multiset{} {
      var best := TopExists(rest);
      if Urgency(best.priority) < Urgency(top.priority) {
        top := best;
      }
    }
  }

  predicate Awake(workers: seq<Pc>) {
    Dozing !in workers && Asleep !in workers
  }

  lemma Closer(workers: seq<Pc>, w: nat, pc: Pc)
    requires w < |workers| && Awake(workers) && Awake([pc]) && Distance(pc) < Distance(workers[w])
    ensures Awake(workers[w := pc]) && Remaining(workers[w := pc]) < Remaining(workers)
  {
    assert pc in [pc];
    RemainingUpdate(workers, w, pc);
  }

  lemma WakeCloser(p: Pool, w: nat, top: Task)
    requires !p.running && Awake(p.workers) && Enabled(p, Wake(w, top))
    ensures var q := Effect(p, Wake(w, top));
            !q.running && Awake(q.workers) && Remaining(q.workers) < Remaining(p.workers)
  {
    Closer(p.workers, w, Exited);
    Closer(p.workers, w, Popped(top));
  }

  /** Every step that a stopped and awake worker takes brings it closer to its exit. */
  lemma WorkerCloser(p: Pool, s: Step)
    requires !p.running && Awake(p.workers) && WorkerStep(s) && Enabled(p, s)
    ensures var q := Effect(p, s);
            !q.running && Awake(q.workers) && Remaining(q.workers) < Remaining(p.workers)
  {
    match s
    case Check(w) => Closer(p.workers, w, Exited);
    case Wake(w, top) => WakeCloser(p, w, top);
    case Mark(w) => Closer(p.workers, w, Executing(p.workers[w].task));
    case Execute(w, ok) => Closer(p.workers, w, Executed(p.workers[w].task, ok));
    case Record(w) => Closer(p.workers, w, Top);
  }

  /** And it has such a step until it has left. */
  lemma OneCloser(p: Pool, w: nat) returns (s: Step)
    requires !p.running && Awake(p.workers) && w < |p.workers| && p.workers[w] != Exited
    ensures WorkerStep(s) && Enabled(p, s)
  {
    match p.workers[w]
    case Top => s := Check(w);
    case Waiting =>
      var top := Task(0, "", "", LOW);
      if p.queue != multiset{} {
        top := TopExists(p.queue);
      }
      s := Wake(w, top);
    case Popped(_) => s := Mark(w);
    case Executing(_) => s := Execute(w, true);
    case Executed(_, _) => s := Record(w);
  }

  /** Every step of the run is due when it is taken. */
  ghost predicate AllEnabled(p: Pool, steps: seq<Step>) {
    steps == [] ||
    (var before := steps[..|steps| - 1];
     AllEnabled(p, before) && Enabled(Run(p, before), steps[|steps| - 1]))
  }

  lemma {:induction false} StopBounded(p: Pool, steps: seq<Step>)
    requires !p.running && Awake(p.workers) && WorkersOnly(steps) && AllEnabled(p, steps)
    ensures var q := Run(p, steps);
            !q.running && Awake(q.workers) && |steps| + Remaining(q.workers) <= Remaining(p.workers)
  {
    if steps != [] {
      StopBounded(p, steps[..|steps| - 1]);
      WorkerCloser(Run(p, steps[..|steps| - 1]), steps[|steps| - 1]);
    }
  }

  /** stop() does return once all workers are awake: under every schedule they take at most Remaining
      steps, and when they can take no more they have all left. */
  lemma StopReturns(p: Pool, steps: seq<Step>)
    requires !p.running && Awake(p.workers) && WorkersOnly(steps) && AllEnabled(p, steps)
    ensures |steps| <= Remaining(p.workers)
    ensures (forall s :: WorkerStep(s) ==> !Enabled(Run(p, steps), s)) ==> AllExited(Run(p, steps))
  {
    StopBounded(p, steps);
    var q := Run(p, steps);
    if w :| 0 <= w < |q.workers| && q.workers[w] != Exited {
      var s := OneCloser(q, w);
    }
  }

  /** Stopped workers that are all awake can all leave. */
  lemma {:induction false} WorkersLeaveFrom(start: Pool, before: seq<Step>, p: Pool) returns (steps: seq<Step>)
    requires Run(start, before) == p && WorkersOnly(before)
    requires !p.running && Awake(p.workers)
    ensures WorkersOnly(steps) && AllExited(Run(start, steps))
    decreases Remaining(p.workers)
  {
    steps := before;
    if w :| 0 <= w < |p.workers| && p.workers[w] != Exited {
      var s := OneCloser(p, w);
      WorkerCloser(p, s);
      var q;
      q, steps := ExtendFrom(start, before, p, s);
      steps := WorkersLeaveFrom(start, steps, q);
    }
  }

  lemma WorkersLeave(p: Pool) returns (steps: seq<Step>)
    requires !p.running && Awake(p.workers)
    ensures WorkersOnly(steps) && AllExited(Run(p, steps))
  {
    steps := WorkersLeaveFrom(p, [], p);
  }

  predicate Sleeps(p: Pool, w: nat) {
    !p.running && w < |p.workers| && (p.workers[w] == Dozing || p.workers[w] == Asleep)
  }

  /** A worker's step moves that worker alone. */
  lemma MovesItself(p: Pool, s: Step, w: nat)
    requires WorkerStep(s) && Enabled(p, s) && w < |p.workers| && w != s.w
    ensures var q := Effect(p, s);
            |q.workers| == |p.workers| && q.workers[w] == p.workers[w] && q.running == p.running
  {
  }

  lemma SleeperStep(p: Pool, s: Step, w: nat)
    requires Sleeps(p, w) && WorkerStep(s)
    ensures Sleeps(Apply(p, s), w)
  {
    if Enabled(p, s) && s.w != w {
      MovesItself(p, s, w);
    }
  }

  /** Nobody wakes a sleeper after the one notify_all. */
  lemma {:induction false} SleeperStays(p: Pool, steps: seq<Step>, w: nat)
    requires Sleeps(p, w) && WorkersOnly(steps)
    ensures Sleeps(Run(p, steps), w)
  {
    if steps != [] {
      SleeperStays(p, steps[..|steps| - 1], w);
      SleeperStep(Run(p, steps[..|steps| - 1]), steps[|steps| - 1], w);
    }
  }

  /** stop() clears running_ without taking mutex_.  Short of a submission or a spurious wakeup
      afterwards, its join can return exactly when no worker was between its test of the predicate
      and its sleep at the moment of notify_all. */
  lemma StopReturnsIff(p: Pool)
    requires !p.running && p.notify
    ensures (exists steps :: WorkersOnly(steps) && AllExited(Run(Apply(p, NotifyAll), steps)))
       <==> MutexFree(p.workers)
  {
    var q := Apply(p, NotifyAll);
    if MutexFree(p.workers) {
      var steps := WorkersLeave(q);
    } else {
      var w :| 0 <= w < |p.workers| && p.workers[w] == Dozing;
      forall steps | WorkersOnly(steps) ensures !AllExited(Run(q, steps)) {
        SleeperStays(q, steps, w);
      }
    }
  }

  /** Stopped and notified, every run of the workers drains the queue exactly when no more tasks
      are queued than workers are in the wait. */
  lemma AlwaysDrainsIff(p: Pool)
    requires !p.running && Awake(p.workers)
    ensures (forall steps :: WorkersOnly(steps) && AllExited(Run(p, steps)) ==> Run(p, steps).queue == multiset{})
       <==> |p.queue| <= Waiters(p.workers)
  {
    var leaving := WorkersLeave(p);
    forall steps | WorkersOnly(steps) && AllExited(Run(p, steps))
      ensures Run(p, steps).queue == multiset{} <==> |p.queue| <= Waiters(p.workers)
    {
      OnlyWorkersSubmitNothing(p, steps);
      StopDrainsIff(p, steps);
    }
  }

  lemma WorkerSubmitsNothing(p: Pool, s: Step)
    requires WorkerStep(s)
    ensures Apply(p, s).submitted == p.submitted
  {
  }

  lemma {:induction false} OnlyWorkersSubmitNothing(p: Pool, steps: seq<Step>)
    requires WorkersOnly(steps)
    ensures Run(p, steps).submitted == p.submitted && Start !in steps
  {
    if steps != [] {
      var before := steps[..|steps| - 1];
      OnlyWorkersSubmitNothing(p, before);
      WorkerSubmitsNothing(Run(p, before), steps[|steps| - 1]);
    }
  }

  /** With a submission after running_ is cleared there is no such condition: from every stopped
      pool one late submission can be left behind. */
  lemma SubmissionStrands(p: Pool) returns (steps: seq<Step>)
    requires !p.running && Awake(p.workers)
    ensures Start !in steps && AllExited(Run(p, steps))
    ensures |Run(p, steps).submitted| == |p.submitted| + 1 && Run(p, steps).queue != multiset{}
  {
    steps := WorkersLeave(p);
    OnlyWorkersSubmitNothing(p, steps);
    SettlesRun(p, steps);
    var _, late := LoadAndSubmit(p, steps, Run(p, steps));
    steps := late;
  }

  lemma ExtendFrom(start: Pool, steps: seq<Step>, p: Pool, s: Step) returns (p': Pool, steps': seq<Step>)
    requires Run(start, steps) == p && Enabled(p, s)
    ensures steps' == steps + [s] && p' == Effect(p, s) && Run(start, steps') == p'
  {
    p', steps' := Effect(p, s), steps + [s];
    assert steps'[..|steps|] == steps;
  }

  /** One worker, a loaded agent, a queued task, and the worker about to test running_. */
  lemma OneTaskQueued() returns (p: Pool, steps: seq<Step>)
    ensures Run(Initial(1), steps) == p
    ensures p.running && p.workers == [Top] && |p.queue| == 1 && p.journal == [Loaded("a")]
  {
    var start := Initial(1);
    p, steps := ExtendFrom(start, [], start, Start);
    assert p.workers == [Top];
    p, steps := LoadAndSubmit(start, steps, p);
  }

  /** An agent is loaded and given a task while nobody is asleep or holds the mutex. */
  lemma LoadAndSubmit(start: Pool, steps: seq<Step>, p: Pool) returns (q: Pool, steps': seq<Step>)
    requires Run(start, steps) == p && MutexFree(p.workers) && Asleep !in p.workers
    ensures steps' == steps + [Load("a"), Submit("a", "", NORMAL, 0)] && Run(start, steps') == q
    ensures var t := Task(p.nextId, "a", "", NORMAL);
            && q.queue == p.queue + multiset{t} && q.submitted == p.submitted + [t]
            && q.running == p.running && q.workers == p.workers && q.journal == p.journal + [Loaded("a")]
  {
    q, steps' := ExtendFrom(start, steps, p, Load("a"));
    q, steps' := ExtendFrom(start, steps', q, Submit("a", "", NORMAL, 0));
  }

  lemma StopNow(start: Pool, before: seq<Step>, p: Pool) returns (q: Pool, steps: seq<Step>)
    requires Run(start, before) == p && p.running
    ensures Run(start, steps) == q && q == p.(running := false, workers := AllWoken(p.workers), notify := false)
  {
    q, steps := ExtendFrom(start, before, p, RequestStop);
    q, steps := ExtendFrom(start, steps, q, NotifyAll);
  }

  /** A run in which stop() leaves a task behind: the only worker had not reached the wait. */
  lemma StopCanStrand() returns (steps: seq<Step>)
    ensures var p := Run(Initial(1), steps);
            !p.running && p.workers == [] && |p.queue| == 1 && p.journal == [Loaded("a")]
  {
    var p;
    p, steps := OneTaskQueued();
    p, steps := StopNow(Initial(1), steps, p);
    assert p.workers == [Top];
    p, steps := ExtendFrom(Initial(1), steps, p, Check(0));
    assert p.workers == [Exited];
    p, steps := ExtendFrom(Initial(1), steps, p, Join);
  }

  lemma OneDozes() returns (p: Pool, steps: seq<Step>)
    ensures Run(Initial(1), steps) == p && p.running && p.workers == [Dozing]
  {
    var start := Initial(1);
    p, steps := ExtendFrom(start, [], start, Start);
    assert p.workers == [Top];
    p, steps := ExtendFrom(start, steps, p, Check(0));
    assert p.workers == [Waiting] && p.queue == multiset{} && p.running;
    p, steps := ExtendFrom(start, steps, p, Doze(0));
  }

  /** A run in which stop() misses its worker: the worker tests the predicate, stop() clears
      running_ and notifies nobody, and the worker falls asleep for good. */
  lemma StopCanHang() returns (steps: seq<Step>)
    ensures var p := Run(Initial(1), steps);
            && !p.running && !p.notify && p.workers == [Asleep]
            && forall more :: WorkersOnly(more) ==> !AllExited(Run(p, more))
  {
    var p;
    p, steps := OneDozes();
    p, steps := StopNow(Initial(1), steps, p);
    p, steps := ExtendFrom(Initial(1), steps, p, Sleep(0));
    forall more | WorkersOnly(more) ensures !AllExited(Run(p, more)) {
      SleeperStays(p, more, 0);
    }
  }

  // ---- Implementation ----------------------------------------------------------------

  class AgentController {
    const workerCount: nat
    var statuses: map<string, Status>
    var queue: multiset<Task>
    var nextTaskId: nat
    var running: bool
    var notify: bool
    var workers: seq<Pc>
    ghost var submitted: seq<Task>
    ghost var journal: seq<Entry>

    ghost function Model(): Pool
      reads this
    {
      Pool(workerCount, statuses, queue, nextTaskId, running, notify, workers, submitted, journal)
    }

    constructor (workerCount: int)
      ensures Model() == Initial(workerCount)
      ensures this.workerCount == (if workerCount > 0 then workerCount else 1) && nextTaskId == 1
      ensures statuses == map[] && queue == multiset{} && workers == [] && !running && !notify
    {
      this.workerCount := if workerCount > 0 then workerCount else 1;
      statuses, queue, nextTaskId, running, notify, workers := map[], multiset{}, 1, false, false, [];
      submitted, journal := [], [];
    }

    /** Methods that take mutex_ require that no worker holds it. */
    method LoadPersona(name: string)
      requires MutexFree(workers)
      modifies this
      ensures Model() == Apply(old(Model()), Load(name))
      ensures statuses == old(statuses)[name := Status(IDLE, 0, 0, 0)] && queue == old(queue)
    {
      statuses := statuses[name := Status(IDLE, 0, 0, 0)];
      journal := journal + [Loaded(name)];
    }

    /** The worker that notify_one wakes, if there is one asleep. */
    method Sleeper() returns (w: nat)
      ensures MayWake(workers, w)
    {
      w := 0;
      while w < |workers| && workers[w] != Asleep
        invariant w <= |workers| && Asleep !in workers[..w]
      {
        w := w + 1;
      }
      assert w == |workers| ==> workers[..w] == workers;
    }

    /** Zero stands for the empty id of an unknown agent. */
    method SubmitTask(name: string, input: string, priority: Priority) returns (id: nat, woken: nat)
      requires Numbered(Model()) && MutexFree(workers)
      modifies this
      ensures MayWake(old(workers), woken)
      ensures Model() == Apply(old(Model()), Submit(name, input, priority, woken))
      ensures Numbered(Model())
      ensures id == if name in statuses then old(nextTaskId) else 0
      ensures forall i :: 0 <= i < |old(submitted)| ==> old(submitted)[i].id != id
      ensures var new' := if name in statuses then [Task(id, name, input, priority)] else [];
              && queue == old(queue) + multiset(new') && submitted == old(submitted) + new'
              && nextTaskId == old(nextTaskId) + |new'| && statuses == old(statuses)
      ensures name in statuses && Asleep in old(workers) ==> workers == old(workers)[woken := Waiting]
      ensures name !in statuses || Asleep !in old(workers) ==> workers == old(workers)
    {
      woken := Sleeper();
      if name !in statuses {
        return 0, woken;
      }
      id := nextTaskId;
      nextTaskId := nextTaskId + 1;
      var t := Task(id, name, input, priority);
      queue := queue + multiset{t};
      submitted := submitted + [t];
      NotifyOne(woken);
    }

    /** cv_.notify_one, if worker w is asleep. */
    method NotifyOne(w: nat)
      modifies this`workers
      ensures workers == Woken(old(workers), w)
    {
      if w < |workers| && workers[w] == Asleep {
        workers := workers[w := Waiting];
      }
    }

    method StartWorkers()
      modifies this
      ensures Model() == Apply(old(Model()), Start)
      ensures running && |workers| == |old(workers)| + (if old(running) then 0 else workerCount)
      ensures old(workers) <= workers && forall i :: |old(workers)| <= i < |workers| ==> workers[i] == Top
    {
      if running {
        return;
      }
      running := true;
      var i := 0;
      while i < workerCount
        invariant i <= workerCount && running
        invariant workers == old(workers) + seq(i, _ => Top)
        invariant Model() == old(Model()).(running := true, workers := workers)
      {
        workers := workers + [Top];
        i := i + 1;
      }
    }

    /** stop() up to the notification: running_ is atomic and mutex_ is not taken. */
    method StopWorkers()
      modifies this
      ensures Model() == Apply(old(Model()), RequestStop)
      ensures !running && notify == (old(notify) || old(running))
      ensures workers == old(workers) && queue == old(queue) && statuses == old(statuses)
    {
      if !running {
        return;
      }
      running := false;
      notify := true;
    }

    /** notify_all in stop(): every sleeping worker evaluates the predicate again. */
    method NotifyWorkers()
      requires notify
      modifies this
      ensures Model() == Apply(old(Model()), NotifyAll)
      ensures !notify && |workers| == |old(workers)| && queue == old(queue)
      ensures forall i :: 0 <= i < |workers| ==>
                workers[i] == if old(workers)[i] == Asleep then Waiting else old(workers)[i]
    {
      var i := 0;
      while i < |workers|
        invariant i <= |workers| == |old(workers)|
        invariant forall k :: 0 <= k < |workers| ==>
                    workers[k] == if k < i then AllWoken(old(workers))[k] else old(workers)[k]
        invariant Model() == old(Model()).(workers := workers)
      {
        if workers[i] == Asleep {
          workers := workers[i := Waiting];
        }
        i := i + 1;
      }
      notify := false;
      assert workers == AllWoken(old(workers));
    }

    method CheckRunning(w: nat)
      requires w < |workers| && workers[w] == Top
      modifies this
      ensures Model() == Apply(old(Model()), Check(w))
      ensures workers == old(workers)[w := if running then Waiting else Exited]
      ensures running == old(running) && queue == old(queue)
    {
      workers := workers[w := if running then Waiting else Exited];
    }

    /** priority_queue::top, which leaves the choice among equals open. */
    method QueueTop() returns (top: Task)
      requires queue != multiset{}
      ensures IsTop(queue, top)
    {
      top :| top in queue;
      var rest := queue - multiset{top};
      while rest != multiset{}
        invariant rest <= queue && top in queue
        invariant forall u :: u in queue && u !in rest ==> Urgency(top.priority) <= Urgency(u.priority)
        decreases |rest|
      {
        var u :| u in rest;
        if Urgency(u.priority) < Urgency(top.priority) {
          top := u;
        }
        rest := rest[u := 0];
      }
    }

    /** The wait of worker w succeeds: it pops the top task, or leaves when stopped with an empty
        queue. */
    method WakeUp(w: nat) returns (ghost top: Task)
      requires w < |workers| && workers[w] == Waiting && MutexFree(workers)
      requires queue != multiset{} || !running
      modifies this
      ensures Enabled(old(Model()), Wake(w, top))
      ensures Model() == Apply(old(Model()), Wake(w, top))
      ensures old(queue) == multiset{} ==> workers == old(workers)[w := Exited] && queue == multiset{}
      ensures old(queue) != multiset{} ==>
                && IsTop(old(queue), top) && queue == old(queue) - multiset{top}
                && workers == old(workers)[w := Popped(top)]
    {
      if !running && queue == multiset{} {
        workers := workers[w := Exited];
        top := Task(0, "", "", LOW);
        return;
      }
      var t := QueueTop();
      queue := queue - multiset{t};
      workers := workers[w := Popped(t)];
      top := t;
    }

    /** The wait of worker w finds its predicate false, and blocks: two steps, because running_ can
        change in between. */
    method FallAsleep(w: nat)
      requires w < |workers| && workers[w] == Waiting && MutexFree(workers)
      requires queue == multiset{} && running
      modifies this`workers
      ensures Model() == Apply(Apply(old(Model()), Doze(w)), Sleep(w))
      ensures workers == old(workers)[w := Asleep]
    {
      workers := workers[w := Dozing];
      workers := workers[w := Asleep];
    }

    method MarkRunning(w: nat)
      requires w < |workers| && workers[w].Popped? && MutexFree(workers)
      modifies this
      ensures Model() == Apply(old(Model()), Mark(w))
      ensures var t := old(workers[w].task);
              && workers == old(workers)[w := Executing(t)] && queue == old(queue)
              && (t.agent !in old(statuses) ==> statuses == old(statuses))
              && (t.agent in old(statuses) ==>
                    && statuses.Keys == old(statuses).Keys && statuses - {t.agent} == old(statuses) - {t.agent}
                    && statuses[t.agent].state == RUNNING
                    && statuses[t.agent].(state := IDLE) == old(statuses)[t.agent].(state := IDLE))
    {
      var t := workers[w].task;
      if t.agent in statuses {
        statuses := statuses[t.agent := statuses[t.agent].(state := RUNNING)];
      }
      workers := workers[w := Executing(t)];
    }

    /** execute_task returned with `ok`; the model call itself is abstract. */
    method FinishExecution(w: nat, ok: bool)
      requires w < |workers| && workers[w].Executing?
      modifies this`workers
      ensures Model() == Apply(old(Model()), Execute(w, ok))
      ensures workers == old(workers)[w := Executed(old(workers[w].task), ok)]
    {
      workers := workers[w := Executed(workers[w].task, ok)];
    }

    /** The status update of worker_loop. */
    method RecordResult(w: nat)
      requires w < |workers| && workers[w].Executed? && MutexFree(workers)
      modifies this
      ensures Model() == Apply(old(Model()), Record(w))
      ensures var t, ok := old(workers[w].task), old(workers[w].ok);
              var known := t.agent in old(statuses);
              && workers == old(workers)[w := Top] && queue == old(queue)
              && statuses.Keys == old(statuses).Keys + {t.agent}
              && statuses - {t.agent} == old(statuses) - {t.agent}
              && statuses[t.agent].state == (if ok then COMPLETED else FAILED)
              && statuses[t.agent].lastTask == t.id
              && statuses[t.agent].completed
                 == (if known then old(statuses)[t.agent].completed else 0) + (if ok then 1 else 0)
              && statuses[t.agent].failed
                 == (if known then old(statuses)[t.agent].failed else 0) + (if ok then 0 else 1)
    {
      var t, ok := workers[w].task, workers[w].ok;
      var st := if t.agent in statuses then statuses[t.agent] else Status(IDLE, 0, 0, 0);
      st := st.(state := if ok then COMPLETED else FAILED, lastTask := t.id);
      if ok {
        st := st.(completed := st.completed + 1);
      } else {
        st := st.(failed := st.failed + 1);
      }
      statuses := statuses[t.agent := st];
      workers := workers[w := Top];
      journal := journal + [Done(t, ok)];
    }
  }
}

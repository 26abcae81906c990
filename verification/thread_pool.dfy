/**
 `ThreadPool` as a state machine.  Every lock, unlock, test, block, wake, push, pop and flag access
 is one step; any number of enqueuers, any number of workers, any schedule, spurious wake-ups included.
 */
module ThreadPool {

  datatype Owner = Free | Enqueuer | Worker(id: nat)

  /** Where a worker is in `worker_loop`.  A ticket numbers the tasks in the order they were enqueued. */
  datatype Pc<T> =
    | Top                              // while (running_)
    | Locking                          // unique_lock lock(mtx_)
    | Testing                          // holds the mutex, evaluates the predicate
    | Blocking                         // predicate was false: still holds the mutex, about to block
    | Asleep                           // blocked in cv_.wait
    | Woken                            // notified, must take the mutex again
    | Passed                           // predicate was true: if (!running_ && tasks_.empty()) return
    | Dequeuing                        // task = front; pop
    | Unlocking(ticket: nat, task: T)  // end of the locked block
    | Running(ticket: nat, task: T)    // task()
    | Exited

  /** The enqueuer that holds the mutex, if one does. */
  datatype EnqueuePc<T> = NoEnqueue | Locked(task: T) | Pushed

  datatype StopPc = Serving | Flagged | Notified | Joined

  datatype Pool<T> = Pool(
    running: bool,
    tasks: seq<T>,
    owner: Owner,
    enqueue: EnqueuePc<T>,
    owed: nat,                 // enqueuers past the unlock that still have to call notify_one
    workers: seq<Pc<T>>,
    stop: StopPc,
    enqueued: seq<T>,          // every task ever pushed, in order
    takers: seq<nat>,          // which worker popped the k-th task
    finished: set<nat>,        // tickets whose task() has returned
    stoppedAt: nat,            // how many tasks had been popped when running_ became false
    missed: set<nat>)          // workers found Blocking by notify_all in stop

  datatype Step<T> =
    | Work(w: nat)             // worker w performs its next action
    | SpuriousWake(w: nat)
    | Lock(task: T)            // an enqueuer takes the mutex
    | Push                     // tasks_.push
    | Unlock
    | NotifyOne(w: nat)        // wakes the sleeping worker w
    | NotifyNobody             // notify_one with nobody asleep
    | StopFlag                 // running_ = false
    | StopNotify               // cv_.notify_all
    | StopJoin                 // every worker joined

  function Init<T>(n: nat): Pool<T> {
    Pool(true, [], Free, NoEnqueue, 0, seq(n, _ => Top), Serving, [], [], {}, 0, {})
  }

  predicate NobodyAsleep<T>(s: Pool<T>) {
    forall w :: 0 <= w < |s.workers| ==> !s.workers[w].Asleep?
  }

  predicate Enabled<T>(s: Pool<T>, st: Step<T>) {
    match st
    case Work(w) =>
      && w < |s.workers|
      && (match s.workers[w]
          case Locking => s.owner.Free?
          case Woken => s.owner.Free?
          case Asleep => false
          case Exited => false
          case _ => true)
    case SpuriousWake(w) => w < |s.workers| && s.workers[w].Asleep?
    case Lock(_) => s.owner.Free?
    case Push => s.enqueue.Locked?
    case Unlock => s.enqueue.Pushed?
    case NotifyOne(w) => s.owed > 0 && w < |s.workers| && s.workers[w].Asleep?
    case NotifyNobody => s.owed > 0 && NobodyAsleep(s)
    case StopFlag => s.stop.Serving?
    case StopNotify => s.stop.Flagged?
    case StopJoin => s.stop.Notified? && forall w :: 0 <= w < |s.workers| ==> s.workers[w].Exited?
  }

  function Apply<T>(s: Pool<T>, st: Step<T>): Pool<T>
    requires Enabled(s, st)
  {
    match st
    case Work(w) => WorkerStep(s, w)
    case SpuriousWake(w) => s.(workers := s.workers[w := Woken])
    case Lock(task) => s.(owner := Enqueuer, enqueue := Locked(task))
    case Push => s.(tasks := s.tasks + [s.enqueue.task], enqueued := s.enqueued + [s.enqueue.task], enqueue := Pushed)
    case Unlock => s.(owner := Free, enqueue := NoEnqueue, owed := s.owed + 1)
    case NotifyOne(w) => s.(owed := s.owed - 1, workers := s.workers[w := Woken])
    case NotifyNobody => s.(owed := s.owed - 1)
    case StopFlag => s.(running := false, stop := Flagged, stoppedAt := |s.takers|)
    case StopNotify =>
      s.(stop := Notified, workers := WakeAll(s.workers),
         missed := set w | 0 <= w < |s.workers| && s.workers[w].Blocking?)
    case StopJoin => s.(stop := Joined)
  }

  function WakeAll<T>(ws: seq<Pc<T>>): (r: seq<Pc<T>>)
    ensures |r| == |ws|
    ensures forall w :: 0 <= w < |ws| ==> r[w] == if ws[w].Asleep? then Woken else ws[w]
  {
    seq(|ws|, w requires 0 <= w < |ws| => if ws[w].Asleep? then Woken else ws[w])
  }

  function WorkerStep<T>(s: Pool<T>, w: nat): Pool<T>
    requires Enabled(s, Work(w))
  {
    match s.workers[w]
    case Top => s.(workers := s.workers[w := if s.running then Locking else Exited])
    case Locking => s.(owner := Worker(w), workers := s.workers[w := Testing])
    case Testing => s.(workers := s.workers[w := if s.tasks != [] || !s.running then Passed else Blocking])
    case Blocking => s.(owner := Free, workers := s.workers[w := Asleep])
    case Woken => s.(owner := Worker(w), workers := s.workers[w := Testing])
    case Passed =>
      if !s.running && s.tasks == [] then s.(owner := Free, workers := s.workers[w := Exited])
      else s.(workers := s.workers[w := Dequeuing])
    case Dequeuing =>
      if s.tasks == [] then s else  // popping an empty queue: proved not to happen
        s.(tasks := s.tasks[1..], takers := s.takers + [w],
           workers := s.workers[w := Unlocking(|s.takers|, s.tasks[0])])
    case Unlocking(k, t) => s.(owner := Free, workers := s.workers[w := Running(k, t)])
    case Running(k, t) => s.(finished := s.finished + {k}, workers := s.workers[w := Top])
  }

  predicate CanRun<T>(s: Pool<T>, steps: seq<Step<T>>)
    decreases |steps|
  {
    steps == [] || (Enabled(s, steps[0]) && CanRun(Apply(s, steps[0]), steps[1..]))
  }

  function Run<T>(s: Pool<T>, steps: seq<Step<T>>): Pool<T>
    requires CanRun(s, steps)
    decreases |steps|
  {
    if steps == [] then s else Run(Apply(s, steps[0]), steps[1..])
  }
}

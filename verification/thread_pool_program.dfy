/**
 The class `ThreadPool`, in the source's own form: `Enqueue`, `WorkerLoop` and `Stop` are the source's
 statements in the source's order, and before each of them every other thread may run any number of
 its own steps.  A thread that would wait for ever (for the mutex, for a wake-up, for a join) is
 watched for as long as its `patience` lasts.
 */
module ThreadPoolProgram {
  import opened ThreadPool
  import Safety = ThreadPoolSafety
  import Theorems = ThreadPoolTheorems

  /** The thread whose code we follow; everybody else interferes. */
  datatype Me = IAmWorker(w: nat) | IAmEnqueuer(holding: bool, owing: bool) | IAmStopper

  predicate Foreign<T>(s: Pool<T>, st: Step<T>, me: Me) {
    match me
    case IAmWorker(w) => !(st.Work? && st.w == w)
    case IAmEnqueuer(holding, owing) =>
      && (holding ==> !st.Push? && !st.Unlock?)
      && (owing && (st.NotifyOne? || st.NotifyNobody?) ==> s.owed > 1)
    case IAmStopper => !st.StopFlag? && !st.StopNotify? && !st.StopJoin?
  }

  /** What a thread may rely on while the others run. */
  ghost predicate Undisturbed<T>(s: Pool<T>, s': Pool<T>, me: Me) {
    && |s'.workers| == |s.workers| && s.enqueued <= s'.enqueued && s.takers <= s'.takers && s.finished <= s'.finished
    && (!s.running ==> !s'.running)
    && (match me
        case IAmWorker(w) =>
          w < |s.workers| ==> s'.workers[w] == s.workers[w] || (s.workers[w].Asleep? && s'.workers[w].Woken?)
        case IAmEnqueuer(holding, owing) =>
          && (holding && s.owner.Enqueuer? ==> s'.owner.Enqueuer? && s'.enqueue == s.enqueue)
          && (owing && s.owed > 0 ==> s'.owed > 0)
        case IAmStopper => s'.stop == s.stop)
  }

  lemma ForeignStepUndisturbed<T>(s: Pool<T>, st: Step<T>, me: Me)
    requires Safety.Inv(s) && Enabled(s, st) && Foreign(s, st, me)
    ensures Undisturbed(s, Apply(s, st), me)
  {
    if st.Work? {
      assert Safety.HoldsMutex(s.workers[st.w]) <==> s.owner == Worker(st.w);
    }
  }

  lemma UndisturbedTransitive<T>(a: Pool<T>, b: Pool<T>, c: Pool<T>, me: Me)
    requires Undisturbed(a, b, me) && Undisturbed(b, c, me)
    ensures Undisturbed(a, c, me)
  {
  }

  lemma OnePush<T>(enqueuedThen: seq<T>, othersThen: seq<T>, task: T, e: seq<seq<T>>, o: seq<seq<T>>) returns (k: nat)
    requires |e| == |o| == 4
    requires othersThen <= o[0] && e[0] == enqueuedThen + o[0][|othersThen|..]
    requires o[0] <= o[1] && e[1] == e[0] + o[1][|o[0]|..]
    requires o[1] <= o[2] && e[2] == e[1] + [task] + o[2][|o[1]|..]
    requires o[2] <= o[3] && e[3] == e[2] + o[3][|o[2]|..]
    ensures othersThen <= o[3] && |othersThen| <= k <= |o[3]|
    ensures e[3] == enqueuedThen + o[3][|othersThen|..k] + [task] + o[3][k..]
  {
    k := |o[1]|;
    assert o[3][|othersThen|..k] == o[0][|othersThen|..] + o[1][|o[0]|..];
    assert o[3][k..] == o[2][k..] + o[3][|o[2]|..];
  }

  class WorkerPool<T(0)> {
    var running: bool
    var tasks: seq<T>
    var owner: Owner
    var enqueue: EnqueuePc<T>
    var owed: nat
    var workers: seq<Pc<T>>
    var stop: StopPc
    var enqueued: seq<T>
    var takers: seq<nat>
    var finished: set<nat>
    var stoppedAt: nat
    var missed: set<nat>
    ghost var history: seq<Step<T>>
    ghost var others: seq<T>    // what enqueuers other than the one followed have pushed

    function Model(): Pool<T>
      reads this
    {
      Pool(running, tasks, owner, enqueue, owed, workers, stop, enqueued, takers, finished, stoppedAt, missed)
    }

    /** The pool is where its history leads the state machine. */
    ghost predicate Valid()
      reads this
    {
      && CanRun(Init<T>(|workers|), history)
      && Model() == Run(Init<T>(|workers|), history)
    }

    lemma ValidMeansInv()
      requires Valid()
      ensures Safety.Inv(Model())
    {
      Safety.InitInv<T>(|workers|);
      Safety.RunKeepsInv(Init<T>(|workers|), history);
    }

    lemma Extend(st: Step<T>)
      requires Valid() && Enabled(Model(), st)
      ensures CanRun(Init<T>(|workers|), history + [st])
      ensures Run(Init<T>(|workers|), history + [st]) == Apply(Model(), st)
    {
      Theorems.RunSnoc(Init<T>(|workers|), history, st);
    }

    constructor (numWorkers: nat)
      ensures Valid() && Model() == Init<T>(numWorkers)
    {
      running, tasks, owner, enqueue, owed := true, [], Free, NoEnqueue, 0;
      workers := seq(numWorkers, _ => Top);
      stop, enqueued, takers, finished, stoppedAt, missed := Serving, [], [], {}, 0, {};
      history, others := [], [];
    }

    /** Since some moment, others did all the pushing. */
    ghost predicate OnlyOthersPushed(enqueuedThen: seq<T>, othersThen: seq<T>)
      reads this
    {
      othersThen <= others && enqueued == enqueuedThen + others[|othersThen|..]
    }

    /** Since some moment, task was pushed exactly once besides what others pushed. */
    ghost predicate PushedOnce(enqueuedThen: seq<T>, othersThen: seq<T>, task: T)
      reads this
    {
      othersThen <= others &&
      exists k :: |othersThen| <= k <= |others|
                  && enqueued == enqueuedThen + others[|othersThen|..k] + [task] + others[k..]
    }

    /** One step of another thread. */
    method Perform(st: Step<T>)
      requires Valid() && Enabled(Model(), st)
      modifies this
      ensures Valid() && Model() == Apply(old(Model()), st) && history == old(history) + [st]
      ensures others == old(others) + if st.Push? then [old(enqueue.task)] else []
    {
      Extend(st);
      others := others + if st.Push? then [enqueue.task] else [];
      Become(Apply(Model(), st));
      history := history + [st];
    }

    method Become(s: Pool<T>)
      modifies this
      ensures Model() == s && history == old(history) && others == old(others)
    {
      BecomeQueue(s);
      stop, enqueued, takers, finished, stoppedAt, missed := s.stop, s.enqueued, s.takers, s.finished, s.stoppedAt,
          s.missed;
    }

    method BecomeQueue(s: Pool<T>)
      modifies this`running, this`tasks, this`owner, this`enqueue, this`owed, this`workers
      ensures running == s.running && tasks == s.tasks && owner == s.owner
      ensures enqueue == s.enqueue && owed == s.owed && workers == s.workers
    {
      running, tasks, owner, enqueue, owed, workers := s.running, s.tasks, s.owner, s.enqueue, s.owed, s.workers;
    }

    method OthersRun(me: Me)
      requires Valid()
      modifies this
      ensures Valid() && Undisturbed(old(Model()), Model(), me)
      ensures old(history) <= history && OnlyOthersPushed(old(enqueued), old(others))
    {
      var budget: nat := *;
      while budget > 0
        invariant Valid() && Undisturbed(old(Model()), Model(), me)
        invariant old(history) <= history && OnlyOthersPushed(old(enqueued), old(others))
      {
        budget := budget - 1;
        var st: Step<T> := *;
        if Enabled(Model(), st) && Foreign(Model(), st, me) {
          OthersStep(st, me, old(Model()), old(others));
        }
      }
    }

    method OthersStep(st: Step<T>, me: Me, ghost before: Pool<T>, ghost othersThen: seq<T>)
      requires Valid() && Enabled(Model(), st) && Foreign(Model(), st, me)
      requires Undisturbed(before, Model(), me) && OnlyOthersPushed(before.enqueued, othersThen)
      modifies this
      ensures Valid() && Undisturbed(before, Model(), me) && OnlyOthersPushed(before.enqueued, othersThen)
      ensures old(history) <= history
    {
      ghost var now, soFar := Model(), others;
      ValidMeansInv();
      ForeignStepUndisturbed(now, st, me);
      Perform(st);
      UndisturbedTransitive(before, now, Model(), me);
      assert others[|othersThen|..] == soFar[|othersThen|..] + others[|soFar|..];
    }

    /** The others run before worker w's next statement. */
    method WorkerYields(w: nat)
      requires Valid() && w < |workers|
      modifies this
      ensures Valid() && |workers| == |old(workers)|
      ensures workers[w] == old(workers)[w] || (old(workers)[w].Asleep? && workers[w].Woken?)
      ensures old(takers) <= takers && old(finished) <= finished && (running ==> old(running))
    {
      OthersRun(IAmWorker(w));
    }

    /** The others run while an enqueuer holds the mutex, or still waits for it. */
    method EnqueuerYields(holding: bool)
      requires Valid() && (holding ==> owner.Enqueuer?)
      modifies this
      ensures Valid() && (holding ==> owner.Enqueuer? && enqueue == old(enqueue))
      ensures OnlyOthersPushed(old(enqueued), old(others))
    {
      OthersRun(IAmEnqueuer(holding, false));
    }

    /** The others run while an enqueuer owes its notification. */
    method DebtorYields()
      requires Valid() && owed > 0
      modifies this
      ensures Valid() && owed > 0 && OnlyOthersPushed(old(enqueued), old(others))
    {
      OthersRun(IAmEnqueuer(false, true));
    }

    /** The others run before the next statement of stop. */
    method StopperYields()
      requires Valid()
      modifies this
      ensures Valid() && stop == old(stop) && (running ==> old(running)) && old(history) <= history
    {
      OthersRun(IAmStopper);
    }

    // ----- the worker's own steps

    method CheckRunning(w: nat) returns (goOn: bool)
      requires Valid() && w < |workers| && workers[w].Top?
      modifies this`workers, this`history
      ensures Valid() && history == old(history) + [Work(w)]
      ensures workers == old(workers)[w := if running then Locking else Exited]
      ensures goOn == running
    {
      Extend(Work(w));
      goOn := running;
      workers := workers[w := if goOn then Locking else Exited];
      history := history + [Work(w)];
    }

    method TakeMutex(w: nat)
      requires Valid() && w < |workers| && (workers[w].Locking? || workers[w].Woken?) && owner.Free?
      modifies this`workers, this`owner, this`history
      ensures Valid() && history == old(history) + [Work(w)]
      ensures owner == Worker(w) && workers == old(workers)[w := Testing]
    {
      Extend(Work(w));
      owner := Worker(w);
      workers := workers[w := Testing];
      history := history + [Work(w)];
    }

    method TestPredicate(w: nat) returns (holds: bool)
      requires Valid() && w < |workers| && workers[w].Testing?
      modifies this`workers, this`history
      ensures Valid() && history == old(history) + [Work(w)]
      ensures workers == old(workers)[w := if holds then Passed else Blocking]
      ensures holds <==> tasks != [] || !running
    {
      Extend(Work(w));
      holds := tasks != [] || !running;
      workers := workers[w := if holds then Passed else Blocking];
      history := history + [Work(w)];
    }

    method Block(w: nat)
      requires Valid() && w < |workers| && workers[w].Blocking?
      modifies this`workers, this`owner, this`history
      ensures Valid() && history == old(history) + [Work(w)]
      ensures owner.Free? && workers == old(workers)[w := Asleep]
    {
      Extend(Work(w));
      owner := Free;
      workers := workers[w := Asleep];
      history := history + [Work(w)];
    }

    method Decide(w: nat) returns (leaves: bool)
      requires Valid() && w < |workers| && workers[w].Passed?
      modifies this`workers, this`owner, this`history
      ensures Valid() && history == old(history) + [Work(w)]
      ensures workers == old(workers)[w := if leaves then Exited else Dequeuing]
      ensures leaves <==> !running && tasks == []
    {
      Extend(Work(w));
      leaves := !running && |tasks| == 0;
      if leaves {
        owner := Free;
      }
      workers := workers[w := if leaves then Exited else Dequeuing];
      history := history + [Work(w)];
    }

    method Dequeue(w: nat)
      requires Valid() && w < |workers| && workers[w].Dequeuing?
      modifies this`workers, this`tasks, this`takers, this`history
      ensures Valid() && history == old(history) + [Work(w)]
      ensures old(tasks) != [] && workers == old(workers)[w := Unlocking(|old(takers)|, old(tasks)[0])]
      ensures takers == old(takers) + [w] && tasks == old(tasks)[1..]
    {
      ValidMeansInv();
      assert Safety.GoodTest(Model(), workers[w]);
      Extend(Work(w));
      var task := tasks[0];
      workers := workers[w := Unlocking(|takers|, task)];
      tasks := tasks[1..];
      takers := takers + [w];
      history := history + [Work(w)];
    }

    method ReleaseMutex(w: nat)
      requires Valid() && w < |workers| && workers[w].Unlocking?
      modifies this`workers, this`owner, this`history
      ensures Valid() && history == old(history) + [Work(w)]
      ensures owner.Free? && workers == old(workers)[w := Running(old(workers)[w].ticket, old(workers)[w].task)]
    {
      Extend(Work(w));
      owner := Free;
      workers := workers[w := Running(workers[w].ticket, workers[w].task)];
      history := history + [Work(w)];
    }

    method FinishTask(w: nat)
      requires Valid() && w < |workers| && workers[w].Running?
      modifies this`workers, this`finished, this`history
      ensures Valid() && history == old(history) + [Work(w)]
      ensures finished == old(finished) + {old(workers)[w].ticket} && workers == old(workers)[w := Top]
    {
      Extend(Work(w));
      finished := finished + {workers[w].ticket};
      workers := workers[w := Top];
      history := history + [Work(w)];
    }

    // ----- the methods of the class

    /** Waits for the mutex, while the others run; it is taken the first time it is found free. */
    method LockOrGiveUp(w: nat, patience: nat) returns (locked: bool)
      requires Valid() && w < |workers| && (workers[w].Locking? || workers[w].Woken?)
      modifies this
      ensures Valid() && w < |workers| && |workers| == |old(workers)|
      ensures old(takers) <= takers && old(finished) <= finished
      ensures if locked then workers[w].Testing? else workers[w] == old(workers)[w]
      ensures !locked ==> patience == 0 || !owner.Free?
    {
      for i := 0 to patience
        invariant Valid() && |workers| == |old(workers)| && workers[w] == old(workers)[w]
        invariant old(takers) <= takers && old(finished) <= finished
        invariant i == 0 || !owner.Free?
      {
        WorkerYields(w);
        if owner.Free? {
          TakeMutex(w);
          return true;
        }
      }
      return false;
    }

    /** `cv_.wait(lock, predicate)`: a worker that does not pass is asleep, or woken and waiting for the mutex. */
    method WaitOrGiveUp(w: nat, patience: nat) returns (passed: bool)
      requires Valid() && w < |workers| && workers[w].Testing?
      modifies this
      ensures Valid() && w < |workers| && |workers| == |old(workers)|
      ensures old(takers) <= takers && old(finished) <= finished
      ensures if passed then workers[w].Passed? else workers[w].Asleep? || workers[w].Woken?
    {
      var left := patience;
      while true
        invariant Valid() && |workers| == |old(workers)| && workers[w].Testing?
        invariant old(takers) <= takers && old(finished) <= finished
        decreases left
      {
        WorkerYields(w);
        var holds := TestPredicate(w);
        if holds {
          return true;
        }
        WorkerYields(w);
        Block(w);
        WorkerYields(w);
        if workers[w].Asleep? || left == 0 {
          return false;
        }
        var locked := LockOrGiveUp(w, patience);
        if !locked {
          return false;
        }
        left := left - 1;
      }
    }

    /**
     `worker_loop()`.  The tickets it returns are the tasks this worker took and finished, in the
     order it took them, which is the order they were enqueued.  It exits only after running_ fell, and
     short of that it has run `patience` tasks, or sleeps, or waits for the mutex.
     */
    method WorkerLoop(w: nat, patience: nat) returns (exited: bool, done: seq<nat>)
      requires Valid() && w < |workers| && workers[w].Top?
      modifies this
      ensures Valid() && w < |workers|
      ensures exited ==> workers[w].Exited? && !running
      ensures !exited ==> if workers[w].Top? then |done| == patience else Waits(workers[w])
      ensures forall i :: 0 <= i < |done| ==> done[i] < |takers| && takers[done[i]] == w && done[i] in finished
      ensures forall i, j :: 0 <= i < j < |done| ==> done[i] < done[j]
    {
      done := [];
      for turn := 0 to patience
        invariant Valid() && w < |workers| && workers[w].Top?
        invariant Taken(w, done) && |done| == turn
      {
        WorkerYields(w);
        var goOn := CheckRunning(w);
        if !goOn {
          return true, done;
        }
        var locked := LockOrGiveUp(w, patience);
        if !locked {
          return false, done;
        }
        var passed := WaitOrGiveUp(w, patience);
        if !passed {
          return false, done;
        }
        WorkerYields(w);
        var leaves := Decide(w);
        if leaves {
          return true, done;
        }
        done := TakeAndRun(w, done);
      }
      return false, done;
    }

    ghost predicate Taken(w: nat, done: seq<nat>)
      reads this
    {
      && (forall i :: 0 <= i < |done| ==> done[i] < |takers| && takers[done[i]] == w && done[i] in finished)
      && (forall i, j :: 0 <= i < j < |done| ==> done[i] < done[j])
    }

    /** From the pop to the end of the task. */
    method TakeAndRun(w: nat, done: seq<nat>) returns (done': seq<nat>)
      requires Valid() && w < |workers| && workers[w].Dequeuing? && Taken(w, done)
      modifies this
      ensures Valid() && w < |workers| && workers[w].Top? && Taken(w, done')
      ensures |done'| == |done| + 1
    {
      WorkerYields(w);
      var ticket := |takers|;
      Dequeue(w);
      RunTask(w);
      done' := done + [ticket];
    }

    /** The task runs outside the mutex. */
    method RunTask(w: nat)
      requires Valid() && w < |workers| && workers[w].Unlocking?
      modifies this
      ensures Valid() && w < |workers| && workers[w].Top?
      ensures old(takers) <= takers && old(finished) + {old(workers)[w].ticket} <= finished
    {
      WorkerYields(w);
      ReleaseMutex(w);
      WorkerYields(w);
      FinishTask(w);
    }

    /**
     `enqueue(task)`: the task enters the queue exactly once, among whatever others push meanwhile, and
     one sleeping worker is woken if there is one.  It fails to return only while the mutex is held.
     */
    method Enqueue(task: T, patience: nat) returns (ok: bool)
      requires Valid()
      modifies this
      ensures Valid()
      ensures ok ==> PushedOnce(old(enqueued), old(others), task)
      ensures !ok ==> OnlyOthersPushed(old(enqueued), old(others)) && !owner.Free?
    {
      var waited := 0;
      while waited < patience && !owner.Free?
        invariant Valid() && OnlyOthersPushed(old(enqueued), old(others))
      {
        WaitAMoment(old(enqueued), old(others));
        waited := waited + 1;
      }
      if !owner.Free? {
        return false;
      }
      LockForPush(task);
      PushAndNotify(task, old(enqueued), old(others));
      return true;
    }

    method WaitAMoment(ghost enqueuedThen: seq<T>, ghost othersThen: seq<T>)
      requires Valid() && OnlyOthersPushed(enqueuedThen, othersThen)
      modifies this
      ensures Valid() && OnlyOthersPushed(enqueuedThen, othersThen)
    {
      ghost var soFar := others;
      EnqueuerYields(false);
      assert others[|othersThen|..] == soFar[|othersThen|..] + others[|soFar|..];
    }

    /** `lock_guard lock(mtx_)`. */
    method LockForPush(task: T)
      requires Valid() && owner.Free?
      modifies this`owner, this`enqueue, this`history
      ensures Valid() && history == old(history) + [Lock(task)]
      ensures owner.Enqueuer? && enqueue == Locked(task)
    {
      Extend(Lock(task));
      owner, enqueue := Enqueuer, Locked(task);
      history := history + [Lock(task)];
    }

    /** The locked block and the notification. */
    method PushAndNotify(task: T, ghost enqueuedThen: seq<T>, ghost othersThen: seq<T>)
      requires Valid() && owner.Enqueuer? && enqueue == Locked(task) && OnlyOthersPushed(enqueuedThen, othersThen)
      modifies this
      ensures Valid() && PushedOnce(enqueuedThen, othersThen, task)
    {
      EnqueuerYields(true);
      ghost var e0, o0 := old(enqueued), old(others);
      ghost var e1, o1 := enqueued, others;
      PushTask();
      EnqueuerYields(true);
      ghost var e2, o2 := enqueued, others;
      UnlockAfterPush();
      DebtorYields();
      ghost var k := OnePush(enqueuedThen, othersThen, task, [e0, e1, e2, enqueued], [o0, o1, o2, others]);
      NotifyOneWorker();
    }

    /** `tasks_.push(std::move(task))`. */
    method PushTask()
      requires Valid() && enqueue.Locked?
      modifies this`tasks, this`enqueued, this`enqueue, this`history
      ensures Valid() && history == old(history) + [Push]
      ensures enqueue.Pushed? && old(enqueue).Locked?
      ensures tasks == old(tasks) + [old(enqueue.task)] && enqueued == old(enqueued) + [old(enqueue.task)]
    {
      Extend(Push);
      var task := enqueue.task;
      tasks, enqueued, enqueue := tasks + [task], enqueued + [task], Pushed;
      history := history + [Push];
    }

    /** The lock_guard goes out of scope. */
    method UnlockAfterPush()
      requires Valid() && enqueue.Pushed?
      modifies this`owner, this`enqueue, this`owed, this`history
      ensures Valid() && history == old(history) + [Unlock]
      ensures owner.Free? && enqueue.NoEnqueue? && owed == old(owed) + 1
    {
      Extend(Unlock);
      owner, enqueue, owed := Free, NoEnqueue, owed + 1;
      history := history + [Unlock];
    }

    /** `cv_.notify_one()`. */
    method NotifyOneWorker()
      requires Valid() && owed > 0
      modifies this`workers, this`owed, this`history
      ensures Valid() && owed == old(owed) - 1
      ensures (forall w :: 0 <= w < |old(workers)| ==> !old(workers)[w].Asleep?) ==> workers == old(workers)
      ensures (exists w :: 0 <= w < |old(workers)| && old(workers)[w].Asleep?) ==>
                exists w :: 0 <= w < |old(workers)| && old(workers)[w].Asleep? && workers == old(workers)[w := Woken]
    {
      if w: nat :| w < |workers| && workers[w].Asleep? {
        Extend(NotifyOne(w));
        workers := workers[w := Woken];
        owed := owed - 1;
        history := history + [NotifyOne(w)];
      } else {
        Extend(NotifyNobody);
        owed := owed - 1;
        history := history + [NotifyNobody];
      }
    }

    /** `running_ = false`. */
    method ClearRunning()
      requires Valid() && stop.Serving?
      modifies this`running, this`stop, this`stoppedAt, this`history
      ensures Valid() && history == old(history) + [StopFlag]
      ensures !running && stop.Flagged? && stoppedAt == |takers|
    {
      Extend(StopFlag);
      running, stop, stoppedAt := false, Flagged, |takers|;
      history := history + [StopFlag];
    }

    /** `cv_.notify_all()`. */
    method NotifyAll()
      requires Valid() && stop.Flagged?
      modifies this`workers, this`stop, this`missed, this`history
      ensures Valid() && history == old(history) + [StopNotify]
      ensures stop.Notified? && workers == WakeAll(old(workers))
    {
      Extend(StopNotify);
      missed := set w | 0 <= w < |workers| && workers[w].Blocking?;
      workers := WakeAll(workers);
      stop := Notified;
      history := history + [StopNotify];
    }

    /** The joins succeed once every worker has left its loop. */
    method JoinIfExited() returns (joined: bool)
      requires Valid() && stop.Notified?
      modifies this`stop, this`history
      ensures old(history) <= history
      ensures Valid() && (joined <==> forall w :: 0 <= w < |workers| ==> workers[w].Exited?)
      ensures stop == if joined then Joined else old(stop)
    {
      joined := forall w :: 0 <= w < |workers| ==> workers[w].Exited?;
      if joined {
        Extend(StopJoin);
        stop := Joined;
        history := history + [StopJoin];
      }
    }

    /** Since `past`, the flag was cleared and after that the sleepers were notified. */
    ghost predicate FlaggedThenNotified(past: seq<Step<T>>)
      reads this
    {
      exists i, j :: |past| <= i < j < |history| && history[i] == StopFlag && history[j] == StopNotify
    }

    /**
     `stop()`: the flag is cleared, then every sleeper is woken, then the joins are waited for; it
     returns once every worker has left its loop, and not while one has not.
     */
    method Stop(patience: nat) returns (joined: bool)
      requires Valid() && stop.Serving?
      modifies this
      ensures Valid() && !running && FlaggedThenNotified(old(history))
      ensures stop == if joined then Joined else Notified
      ensures joined <==> AllExited()
    {
      FlagAndNotify();
      joined := LookAtWorkers(old(history));
      var waited := 0;
      while !joined && waited < patience
        invariant Valid() && !running && FlaggedThenNotified(old(history))
        invariant stop == (if joined then Joined else Notified) && (joined <==> AllExited())
      {
        joined := LookAtWorkers(old(history));
        waited := waited + 1;
      }
    }

    ghost predicate AllExited()
      reads this
    {
      forall w :: 0 <= w < |workers| ==> workers[w].Exited?
    }

    /** The others run, and the joins are tried. */
    method LookAtWorkers(ghost past: seq<Step<T>>) returns (joined: bool)
      requires Valid() && stop.Notified? && !running && FlaggedThenNotified(past)
      modifies this
      ensures Valid() && !running && FlaggedThenNotified(past)
      ensures stop == (if joined then Joined else Notified) && (joined <==> AllExited())
    {
      StopperYields();
      joined := JoinIfExited();
    }

    method FlagAndNotify()
      requires Valid() && stop.Serving?
      modifies this
      ensures Valid() && stop.Notified? && !running && FlaggedThenNotified(old(history))
    {
      StopperYields();
      ghost var i := |history|;
      ClearRunning();
      StopperYields();
      NotifyAll();
      assert history[i] == StopFlag && history[|history| - 1] == StopNotify;
    }
  }

  /** A worker that is asleep or waits for the mutex. */
  predicate Waits<T>(pc: Pc<T>) {
    pc.Asleep? || pc.Locking? || pc.Woken?
  }
}

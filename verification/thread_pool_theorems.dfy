/** What the pool promises its users, on every state that any run from the start reaches. */
module ThreadPoolTheorems {
  import opened ThreadPool
  import opened ThreadPoolSafety

  ghost predicate Reachable<T(!new)>(s: Pool<T>) {
    exists steps :: CanRun(Init<T>(|s.workers|), steps) && Run(Init<T>(|s.workers|), steps) == s
  }

  lemma ReachableMeansInv<T(!new)>(s: Pool<T>)
    requires Reachable(s)
    ensures Inv(s)
  {
    var steps :| CanRun(Init<T>(|s.workers|), steps) && Run(Init<T>(|s.workers|), steps) == s;
    InitInv<T>(|s.workers|);
    RunKeepsInv(Init<T>(|s.workers|), steps);
  }

  lemma {:induction false} RunSnoc<T>(s: Pool<T>, a: seq<Step<T>>, st: Step<T>)
    requires CanRun(s, a) && Enabled(Run(s, a), st)
    ensures CanRun(s, a + [st]) && Run(s, a + [st]) == Apply(Run(s, a), st)
    decreases |a|
  {
    if a == [] {
      assert CanRun(Apply(s, st), []) && (a + [st])[1..] == [];
    } else {
      RunSnoc(Apply(s, a[0]), a[1..], st);
      assert (a + [st])[0] == a[0] && (a + [st])[1..] == a[1..] + [st];
    }
  }

  lemma InitReachable<T(!new)>(n: nat)
    ensures Reachable(Init<T>(n))
  {
    assert |Init<T>(n).workers| == n;
    assert CanRun(Init<T>(n), []) && Run(Init<T>(n), []) == Init<T>(n);
  }

  lemma StepReachable<T(!new)>(s: Pool<T>, st: Step<T>)
    requires Reachable(s) && Enabled(s, st)
    ensures Reachable(Apply(s, st))
  {
    var steps :| CanRun(Init<T>(|s.workers|), steps) && Run(Init<T>(|s.workers|), steps) == s;
    RunSnoc(Init<T>(|s.workers|), steps, st);
    assert |Apply(s, st).workers| == |s.workers|;
  }

  predicate Holds<T>(s: Pool<T>, w: nat, k: nat) {
    w < |s.workers| && HasTask(s.workers[w]) && s.workers[w].ticket == k
  }

  /**
   Tasks leave the queue in the order they entered, and every task is in exactly one place: queued,
   finished, or with exactly one worker, which runs that very task.
   */
  lemma EachTaskOnce<T(!new)>(s: Pool<T>, k: nat)
    requires Reachable(s) && k < |s.enqueued|
    ensures |s.takers| <= |s.enqueued| && s.tasks == s.enqueued[|s.takers|..]
    ensures k in s.finished ==> k < |s.takers|
    ensures (exists w: nat :: Holds(s, w, k)) <==> k < |s.takers| && k !in s.finished
    ensures forall v: nat, w: nat :: Holds(s, v, k) && Holds(s, w, k) ==> v == w
    ensures forall w: nat :: Holds(s, w, k) ==> s.workers[w].task == s.enqueued[k]
  {
    ReachableMeansInv(s);
    forall w: nat | Holds(s, w, k)
      ensures k < |s.takers| && k !in s.finished && s.takers[k] == w && s.workers[w].task == s.enqueued[k]
    {
      assert GoodHolder(s, w, s.workers[w]);
    }
    if k < |s.takers| && k !in s.finished {
      assert Accounted(s, k, s.takers[k]);
      assert Holds(s, s.takers[k], k);
    }
  }

  /** A worker that reaches the pop finds a task, and at most one thread is ever between lock and unlock. */
  lemma PopsUnderMutex<T(!new)>(s: Pool<T>)
    requires Reachable(s)
    ensures forall w :: 0 <= w < |s.workers| && s.workers[w].Dequeuing? ==> s.tasks != []
    ensures forall v, w ::
              0 <= v < |s.workers| && 0 <= w < |s.workers| && HoldsMutex(s.workers[v]) && HoldsMutex(s.workers[w]) ==>
                v == w
    ensures forall w :: 0 <= w < |s.workers| && HoldsMutex(s.workers[w]) ==> s.enqueue.NoEnqueue?
  {
    ReachableMeansInv(s);
    forall w | 0 <= w < |s.workers| && s.workers[w].Dequeuing? ensures s.tasks != [] {
      assert GoodTest(s, s.workers[w]);
    }
  }

  /**
   No lost wake-up: a queue with work in it and every worker asleep means an enqueuer still owes
   its notify_one, one for each queued task.
   */
  lemma NoLostWakeup<T(!new)>(s: Pool<T>)
    requires Reachable(s) && s.running && s.workers != [] && s.tasks != []
    requires forall w :: 0 <= w < |s.workers| ==> s.workers[w].Asleep?
    ensures |s.tasks| <= s.owed + (if s.enqueue.Pushed? then 1 else 0)
    ensures s.owed > 0 || s.enqueue.Pushed?
  {
    ReachableMeansInv(s);
    AllAsleepCountsZero(s.workers);
    assert s.workers[0].Asleep?;
  }

  lemma {:induction false} AllAsleepCountsZero<T>(ws: seq<Pc<T>>)
    requires forall w :: 0 <= w < |ws| ==> ws[w].Asleep?
    ensures CountLooking(ws) == 0
    decreases |ws|
  {
    if ws != [] {
      assert ws[0].Asleep?;
      AllAsleepCountsZero(ws[1..]);
    }
  }

  /** A worker never sleeps through a queue longer than the wake-ups owed and the workers about to look. */
  lemma SleepersAreNotNeeded<T(!new)>(s: Pool<T>, w: nat)
    requires Reachable(s) && s.running && w < |s.workers| && s.workers[w].Asleep?
    ensures |s.tasks| <= s.owed + (if s.enqueue.Pushed? then 1 else 0) + CountLooking(s.workers)
  {
    ReachableMeansInv(s);
  }

  // ----- after running_ became false

  /** Each worker pops at most one more task, so at most as many as there are workers. */
  lemma FewTasksAfterStop<T(!new)>(s: Pool<T>)
    requires Reachable(s) && !s.running
    ensures s.stoppedAt <= |s.takers| <= s.stoppedAt + |s.workers|
    ensures forall j, k :: s.stoppedAt <= j < k < |s.takers| ==> s.takers[j] != s.takers[k]
  {
    ReachableMeansInv(s);
    var late := s.takers[s.stoppedAt..];
    forall k | 0 <= k < |late| ensures late[k] < |s.workers| {
      assert LateTaker(s, s.stoppedAt + k, s.takers[s.stoppedAt + k]);
    }
    forall j, k | 0 <= j < k < |late| ensures late[j] != late[k] {
      assert LateTaker(s, s.stoppedAt + k, s.takers[s.stoppedAt + k]);
    }
    forall j, k | s.stoppedAt <= j < k < |s.takers| ensures s.takers[j] != s.takers[k] {
      assert late[j - s.stoppedAt] != late[k - s.stoppedAt];
    }
    Pigeonhole(late, |s.workers|);
  }

  lemma {:induction false} Pigeonhole(xs: seq<nat>, n: nat)
    requires forall k :: 0 <= k < |xs| ==> xs[k] < n
    requires forall j, k :: 0 <= j < k < |xs| ==> xs[j] != xs[k]
    ensures |xs| <= n
    decreases n
  {
    if xs != [] {
      assert 0 <= xs[0] < n;
      if n - 1 in xs {
        var i :| 0 <= i < |xs| && xs[i] == n - 1;
        Pigeonhole(xs[..i] + xs[i + 1..], n - 1);
      } else {
        Pigeonhole(xs, n - 1);
      }
    }
  }

  /** How far a worker is from its exit or, through the window before it blocks, from its sleep. */
  function Rank<T>(pc: Pc<T>): nat {
    match pc
    case Exited => 0
    case Asleep => 0
    case Blocking => 1
    case Top => 1
    case Running(_, _) => 2
    case Unlocking(_, _) => 3
    case Dequeuing => 4
    case Passed => 5
    case Testing => 6
    case Locking => 7
    case Woken => 7
  }

  /** Every step of a worker after the flag brings it closer, and if it must wait for the mutex the holder can move. */
  lemma WorkerHeadsForExit<T>(s: Pool<T>, w: nat)
    requires Inv(s) && !s.running && w < |s.workers| && !s.workers[w].Asleep? && !s.workers[w].Exited?
    ensures Enabled(s, Work(w)) ==> Rank(Apply(s, Work(w)).workers[w]) < Rank(s.workers[w])
    ensures !Enabled(s, Work(w)) ==>
              || Enabled(s, Push) || Enabled(s, Unlock)
              || (s.owner.Worker? && Enabled(s, Work(s.owner.id)))
  {
    assert GoodTest(s, s.workers[w]);
    if !Enabled(s, Work(w)) && s.owner.Worker? {
      assert HoldsMutex(s.workers[s.owner.id]);
    }
  }

  /** A worker on its way out: not asleep, and not in the window before the wait. */
  predicate Leaving<T>(pc: Pc<T>) {
    !pc.Asleep? && !pc.Blocking?
  }

  function OwnSteps<T>(steps: seq<Step<T>>, w: nat): nat
    decreases |steps|
  {
    if steps == [] then 0 else (if steps[0] == Work(w) then 1 else 0) + OwnSteps(steps[1..], w)
  }

  /**
   After the flag, such a worker never goes to sleep again: whatever the others do, each of its own
   steps takes at least one from its rank and nothing adds to it.  Rank 0 is its exit.
   */
  lemma {:induction false} LeavingWorkerExits<T>(s: Pool<T>, steps: seq<Step<T>>, w: nat)
    requires Inv(s) && !s.running && w < |s.workers| && Leaving(s.workers[w]) && CanRun(s, steps)
    ensures var s' := Run(s, steps);
            && w < |s'.workers| && Leaving(s'.workers[w])
            && Rank(s'.workers[w]) + OwnSteps(steps, w) <= Rank(s.workers[w]) <= 7
            && (Rank(s'.workers[w]) == 0 <==> s'.workers[w].Exited?)
    decreases |steps|
  {
    if steps != [] {
      StepKeepsInv(s, steps[0]);
      LeavingStep(s, steps[0], w);
      LeavingWorkerExits(Apply(s, steps[0]), steps[1..], w);
    }
  }

  lemma LeavingStep<T>(s: Pool<T>, st: Step<T>, w: nat)
    requires Inv(s) && !s.running && w < |s.workers| && Leaving(s.workers[w]) && Enabled(s, st)
    ensures var s' := Apply(s, st);
            && !s'.running && w < |s'.workers| && Leaving(s'.workers[w])
            && (if st == Work(w) then Rank(s'.workers[w]) < Rank(s.workers[w]) else s'.workers[w] == s.workers[w])
  {
    assert GoodTest(s, s.workers[w]);
  }

  // ----- when stop() can return

  /** Everything but the wake-ups that notify_all no longer provides. */
  predicate NoWake<T>(steps: seq<Step<T>>) {
    forall i :: 0 <= i < |steps| ==> !steps[i].SpuriousWake? && !steps[i].NotifyOne?
  }

  /** A worker inside the window when notify_all was called blocks, or will block, for good. */
  lemma {:induction false} MissedWorkerStays<T>(s: Pool<T>, steps: seq<Step<T>>, w: nat)
    requires s.stop.Notified? || s.stop.Joined?
    requires w < |s.workers| && (s.workers[w].Blocking? || s.workers[w].Asleep?)
    requires NoWake(steps) && CanRun(s, steps)
    ensures w < |Run(s, steps).workers| && !Run(s, steps).workers[w].Exited?
    decreases |steps|
  {
    if steps != [] {
      assert !steps[0].SpuriousWake? && !steps[0].NotifyOne?;
      var s' := Apply(s, steps[0]);
      assert NoWake(steps[1..]) by {
        forall i | 0 <= i < |steps[1..]| ensures !steps[1..][i].SpuriousWake? && !steps[1..][i].NotifyOne? {
          assert steps[1..][i] == steps[i + 1];
        }
      }
      MissedWorkerStays(s', steps[1..], w);
    }
  }

  function TotalRank<T>(ws: seq<Pc<T>>): nat {
    if ws == [] then 0 else Rank(ws[0]) + TotalRank(ws[1..])
  }

  lemma {:induction false} TotalRankUpdate<T>(ws: seq<Pc<T>>, w: nat, pc: Pc<T>)
    requires w < |ws|
    ensures TotalRank(ws[w := pc]) + Rank(ws[w]) == TotalRank(ws) + Rank(pc)
    decreases |ws|
  {
    if w == 0 {
      assert ws[0 := pc][1..] == ws[1..];
    } else {
      assert ws[w := pc][1..] == ws[1..][w - 1 := pc];
      TotalRankUpdate(ws[1..], w - 1, pc);
    }
  }

  function EnqueuerRank<T>(s: Pool<T>): nat {
    if s.enqueue.Locked? then 2 else if s.enqueue.Pushed? then 1 else 0
  }

  /** With nobody missed, the workers can all run to their exit without any further wake-up. */
  lemma {:induction false} AllCanExit<T>(s: Pool<T>) returns (steps: seq<Step<T>>)
    requires Inv(s) && s.stop.Notified? && s.missed == {}
    ensures NoWake(steps) && CanRun(s, steps) && Enabled(Run(s, steps), StopJoin)
    decreases TotalRank(s.workers) + EnqueuerRank(s)
  {
    if Enabled(s, StopJoin) {
      steps := [];
    } else {
      var st := SomeMove(s);
      StepKeepsInv(s, st);
      if st.Work? {
        TotalRankUpdate(s.workers, st.w, Apply(s, st).workers[st.w]);
        assert Apply(s, st).workers == s.workers[st.w := Apply(s, st).workers[st.w]];
      }
      var rest := AllCanExit(Apply(s, st));
      steps := [st] + rest;
      assert steps[1..] == rest;
    }
  }

  lemma SomeMove<T>(s: Pool<T>) returns (st: Step<T>)
    requires Inv(s) && s.stop.Notified? && s.missed == {} && !Enabled(s, StopJoin)
    ensures Enabled(s, st)
    ensures st.Push? || st.Unlock? || (st.Work? && Rank(Apply(s, st).workers[st.w]) < Rank(s.workers[st.w]))
  {
    var w :| 0 <= w < |s.workers| && !s.workers[w].Exited?;
    WorkerHeadsForExit(s, w);
    if Enabled(s, Work(w)) {
      st := Work(w);
    } else if s.enqueue.Locked? {
      st := Push;
    } else if s.enqueue.Pushed? {
      st := Unlock;
    } else {
      st := Work(s.owner.id);
      assert HoldsMutex(s.workers[s.owner.id]);
      WorkerHeadsForExit(s, s.owner.id);
    }
  }

  /** stop() can return after its notify_all with no further wake-up. */
  ghost predicate CanReturn<T(!new)>(s: Pool<T>) {
    exists steps :: NoWake(steps) && CanRun(s, steps) && Enabled(Run(s, steps), StopJoin)
  }

  /**
   `running_` is cleared and notified without the mutex, so a worker between its test of the
   predicate and the wait is not woken.  stop() can return without some later wake-up if and only
   if no worker is in that window at the moment of notify_all; at most one can be.
   */
  lemma StopReturnsExactly<T(!new)>(s: Pool<T>)
    requires Reachable(s) && s.stop.Flagged?
    ensures CanReturn(Apply(s, StopNotify)) <==> forall w :: 0 <= w < |s.workers| ==> !s.workers[w].Blocking?
    ensures forall v, w ::
              0 <= v < |s.workers| && 0 <= w < |s.workers| && s.workers[v].Blocking? && s.workers[w].Blocking? ==>
                v == w
  {
    ReachableMeansInv(s);
    StepKeepsInv(s, StopNotify);
    var s' := Apply<T>(s, StopNotify);
    forall v, w | 0 <= v < |s.workers| && 0 <= w < |s.workers| && s.workers[v].Blocking? && s.workers[w].Blocking?
      ensures v == w
    {
      assert HoldsMutex(s.workers[v]) && HoldsMutex(s.workers[w]);
    }
    if w :| 0 <= w < |s.workers| && s.workers[w].Blocking? {
      assert s'.workers[w].Blocking?;
      forall steps | NoWake(steps) && CanRun(s', steps) ensures !Enabled(Run(s', steps), StopJoin) {
        MissedWorkerStays(s', steps, w);
      }
    } else {
      assert s'.missed == {};
      var steps := AllCanExit(s');
    }
  }

  lemma OnlyWorkerAboutToBlock() returns (s: Pool<int>)
    ensures Reachable(s) && s.stop.Serving? && s.workers == [Blocking] && s.owner == Worker(0)
  {
    s := Init(1);
    InitReachable<int>(1);
    s := Take(s, Work(0));
    s := Take(s, Work(0));
    s := Take(s, Work(0));
  }

  /**
   A run in which stop() hangs: the only worker tests an empty queue, stop sets the flag and
   notifies, the worker blocks.
   */
  lemma StopCanHang() returns (s: Pool<int>)
    ensures Reachable(s) && s.stop.Notified? && s.workers == [Asleep] && !CanReturn(s)
  {
    s := OnlyWorkerAboutToBlock();
    s := Take(s, StopFlag);
    s := Take(s, StopNotify);
    s := Take(s, Work(0));
    forall more | NoWake(more) && CanRun(s, more) ensures !Enabled(Run(s, more), StopJoin) {
      MissedWorkerStays(s, more, 0);
    }
  }

  lemma Take<T(!new)>(s: Pool<T>, st: Step<T>) returns (s': Pool<T>)
    requires Reachable(s) && Enabled(s, st)
    ensures Reachable(s') && s' == Apply(s, st)
  {
    StepReachable(s, st);
    s' := Apply(s, st);
  }
}

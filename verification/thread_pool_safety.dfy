/** What every schedule keeps true of the pool. */
module ThreadPoolSafety {
  import opened ThreadPool

  predicate HoldsMutex<T>(pc: Pc<T>) {
    pc.Testing? || pc.Blocking? || pc.Passed? || pc.Dequeuing? || pc.Unlocking?
  }

  predicate HasTask<T>(pc: Pc<T>) {
    pc.Unlocking? || pc.Running?
  }

  /** Awake, without a task, and certain to test the queue before it blocks. */
  predicate WillLook<T>(pc: Pc<T>) {
    pc.Top? || pc.Locking? || pc.Testing? || pc.Woken? || pc.Passed? || pc.Dequeuing?
  }

  function CountLooking<T>(ws: seq<Pc<T>>): nat {
    if ws == [] then 0 else (if WillLook(ws[0]) then 1 else 0) + CountLooking(ws[1..])
  }

  ghost predicate Mutex<T>(s: Pool<T>) {
    && (forall w :: 0 <= w < |s.workers| ==> (HoldsMutex(s.workers[w]) <==> s.owner == Worker(w)))
    && (s.owner.Worker? ==> s.owner.id < |s.workers|)
    && (s.owner.Enqueuer? <==> !s.enqueue.NoEnqueue?)
  }

  ghost predicate Tickets<T>(s: Pool<T>) {
    && |s.takers| <= |s.enqueued| && s.tasks == s.enqueued[|s.takers|..]
    && (forall w :: 0 <= w < |s.workers| ==> GoodHolder(s, w, s.workers[w]))
    && (forall k :: 0 <= k < |s.takers| ==> Accounted(s, k, s.takers[k]))
    && (forall k :: k in s.finished ==> k < |s.takers|)
  }

  /** A worker with a task is the one that popped it, and the task has not finished. */
  ghost predicate GoodHolder<T>(s: Pool<T>, w: nat, pc: Pc<T>) {
    HasTask(pc) ==>
      && pc.ticket < |s.takers| <= |s.enqueued| && s.takers[pc.ticket] == w
      && pc.task == s.enqueued[pc.ticket] && pc.ticket !in s.finished
  }

  /** A popped task has finished or is still with the worker that popped it. */
  ghost predicate Accounted<T>(s: Pool<T>, k: nat, w: nat) {
    && w < |s.workers|
    && (k in s.finished || (HasTask(s.workers[w]) && s.workers[w].ticket == k))
  }

  ghost predicate Tests<T>(s: Pool<T>) {
    && (s.running <==> s.stop.Serving?)
    && (forall w :: 0 <= w < |s.workers| ==> GoodTest(s, s.workers[w]))
  }

  ghost predicate GoodTest<T>(s: Pool<T>, pc: Pc<T>) {
    && (pc.Blocking? ==> s.tasks == [])
    && (pc.Dequeuing? ==> s.tasks != [])
    && (pc.Passed? ==> s.tasks != [] || !s.running)
    && (pc.Exited? ==> !s.running)
    && (s.stop.Joined? ==> pc.Exited?)
  }

  /**
   While the pool serves, if any worker sleeps then every queued task is matched by a notification
   still owed or by an awake worker without a task: none is stranded behind a running one.
   */
  ghost predicate NoneStranded<T>(s: Pool<T>) {
    s.running && !NobodyAsleep(s) ==>
      |s.tasks| <= s.owed + (if s.enqueue.Pushed? then 1 else 0) + CountLooking(s.workers)
  }

  ghost predicate Stopping<T>(s: Pool<T>) {
    && (forall a, b :: a in s.missed && b in s.missed ==> a == b)
    && (s.stop.Notified? || s.stop.Joined? ==>
          forall w :: 0 <= w < |s.workers| && (s.workers[w].Asleep? || s.workers[w].Blocking?) ==> w in s.missed)
    && (!s.running ==> s.stoppedAt <= |s.takers|)
    && (!s.running ==> forall k :: s.stoppedAt <= k < |s.takers| ==> LateTaker(s, k, s.takers[k]))
  }

  /** Whoever popped task k after the flag fell is done popping. */
  ghost predicate LateTaker<T>(s: Pool<T>, k: nat, w: nat) {
    && w < |s.workers|
    && (var pc := s.workers[w]; pc.Top? || pc.Exited? || (HasTask(pc) && pc.ticket == k))
    && (forall j :: s.stoppedAt <= j < k < |s.takers| ==> s.takers[j] != w)
  }

  ghost predicate Inv<T>(s: Pool<T>) {
    Mutex(s) && Tickets(s) && Tests(s) && NoneStranded(s) && Stopping(s)
  }

  lemma InitInv<T>(n: nat)
    ensures Inv(Init<T>(n))
  {
  }

  // ----- counting

  lemma {:induction false} CountUpdate<T>(ws: seq<Pc<T>>, w: nat, pc: Pc<T>)
    requires w < |ws|
    ensures CountLooking(ws[w := pc]) + (if WillLook(ws[w]) then 1 else 0)
         == CountLooking(ws) + (if WillLook(pc) then 1 else 0)
    decreases |ws|
  {
    if w == 0 {
      assert ws[0 := pc][1..] == ws[1..];
    } else {
      assert ws[w := pc][1..] == ws[1..][w - 1 := pc];
      CountUpdate(ws[1..], w - 1, pc);
    }
  }

  // ----- every step keeps every part

  lemma WorkKeepsMutex<T>(s: Pool<T>, w: nat)
    requires Mutex(s) && Enabled(s, Work(w))
    ensures Mutex(WorkerStep(s, w))
  {
  }

  lemma WorkKeepsTests<T>(s: Pool<T>, w: nat)
    requires Mutex(s) && Tests(s) && Enabled(s, Work(w))
    ensures Tests(WorkerStep(s, w))
  {
    var s' := WorkerStep(s, w);
    forall v | 0 <= v < |s'.workers| ensures GoodTest(s', s'.workers[v]) {
      assert GoodTest(s, s.workers[v]) && GoodTest(s, s.workers[w]);
    }
  }

  lemma WorkKeepsTickets<T>(s: Pool<T>, w: nat)
    requires Tickets(s) && Enabled(s, Work(w))
    ensures Tickets(WorkerStep(s, w))
  {
    var s' := WorkerStep(s, w);
    assert GoodHolder(s, w, s.workers[w]);
    forall v | 0 <= v < |s'.workers| ensures GoodHolder(s', v, s'.workers[v]) {
      assert GoodHolder(s, v, s.workers[v]);
    }
    forall k | 0 <= k < |s'.takers| ensures Accounted(s', k, s'.takers[k]) {
      if k < |s.takers| {
        assert Accounted(s, k, s.takers[k]);
      }
    }
  }

  lemma WorkKeepsNoneStranded<T>(s: Pool<T>, w: nat)
    requires Tests(s) && NoneStranded(s) && Enabled(s, Work(w))
    ensures NoneStranded(WorkerStep(s, w))
  {
    var s' := WorkerStep(s, w);
    assert GoodTest(s, s.workers[w]);
    if s'.workers != s.workers {
      CountUpdate(s.workers, w, s'.workers[w]);
      assert s'.workers == s.workers[w := s'.workers[w]];
    }
  }

  lemma WorkKeepsStopping<T>(s: Pool<T>, w: nat)
    requires Tests(s) && Tickets(s) && Stopping(s) && Enabled(s, Work(w))
    ensures Stopping(WorkerStep(s, w))
  {
    var s' := WorkerStep(s, w);
    assert GoodTest(s, s.workers[w]);
    if !s'.running {
      forall k | s'.stoppedAt <= k < |s'.takers| ensures LateTaker(s', k, s'.takers[k]) {
        if k < |s.takers| {
          assert LateTaker(s, k, s.takers[k]);
        } else {
          forall j | s'.stoppedAt <= j < k ensures s'.takers[j] != w {
            assert LateTaker(s, j, s.takers[j]);
          }
        }
      }
    }
  }

  /** Waking a sleeper, with or without paying an owed notification. */
  lemma WakeKeepsInv<T>(s: Pool<T>, w: nat, s': Pool<T>)
    requires Inv(s) && w < |s.workers| && s.workers[w].Asleep?
    requires s' == s.(workers := s.workers[w := Woken])
               || (s.owed > 0 && s' == s.(owed := s.owed - 1, workers := s.workers[w := Woken]))
    ensures Inv(s')
  {
    CountUpdate(s.workers, w, Woken);
    forall v | 0 <= v < |s'.workers| ensures GoodHolder(s', v, s'.workers[v]) && GoodTest(s', s'.workers[v]) {
      assert GoodHolder(s, v, s.workers[v]) && GoodTest(s, s.workers[v]);
    }
    forall k | 0 <= k < |s'.takers| ensures Accounted(s', k, s'.takers[k]) {
      assert Accounted(s, k, s.takers[k]);
    }
    if !s'.running {
      forall k | s'.stoppedAt <= k < |s'.takers| ensures LateTaker(s', k, s'.takers[k]) {
        assert LateTaker(s, k, s.takers[k]);
      }
    }
  }

  /** Steps of the enqueuers and of stop that leave every worker where it is. */
  lemma QuietKeepsInv<T>(s: Pool<T>, st: Step<T>)
    requires Inv(s) && Enabled(s, st)
    requires !st.Work? && !st.SpuriousWake? && !st.NotifyOne? && !st.StopNotify?
    ensures Inv(Apply(s, st))
  {
    var s' := Apply(s, st);
    forall v | 0 <= v < |s'.workers| ensures GoodHolder(s', v, s'.workers[v]) && GoodTest(s', s'.workers[v]) {
      assert GoodHolder(s, v, s.workers[v]) && GoodTest(s, s.workers[v]);
    }
    forall k | 0 <= k < |s'.takers| ensures Accounted(s', k, s'.takers[k]) {
      assert Accounted(s, k, s.takers[k]);
    }
    if !s.running {
      forall k | s'.stoppedAt <= k < |s'.takers| ensures LateTaker(s', k, s'.takers[k]) {
        assert LateTaker(s, k, s.takers[k]);
      }
    }
  }

  lemma StopNotifyKeepsInv<T>(s: Pool<T>)
    requires Inv(s) && s.stop.Flagged?
    ensures Inv(Apply(s, StopNotify))
  {
    var s' := Apply<T>(s, StopNotify);
    forall v | 0 <= v < |s'.workers| ensures GoodHolder(s', v, s'.workers[v]) && GoodTest(s', s'.workers[v]) {
      assert GoodHolder(s, v, s.workers[v]) && GoodTest(s, s.workers[v]);
    }
    forall k | 0 <= k < |s'.takers| ensures Accounted(s', k, s'.takers[k]) {
      assert Accounted(s, k, s.takers[k]);
    }
    forall k | s'.stoppedAt <= k < |s'.takers| ensures LateTaker(s', k, s'.takers[k]) {
      assert LateTaker(s, k, s.takers[k]);
    }
    forall a, b | a in s'.missed && b in s'.missed ensures a == b {
      assert HoldsMutex(s.workers[a]) && HoldsMutex(s.workers[b]);
    }
  }

  lemma StepKeepsInv<T>(s: Pool<T>, st: Step<T>)
    requires Inv(s) && Enabled(s, st)
    ensures Inv(Apply(s, st))
  {
    match st {
      case Work(w) =>
        WorkKeepsMutex(s, w);
        WorkKeepsTests(s, w);
        WorkKeepsTickets(s, w);
        WorkKeepsNoneStranded(s, w);
        WorkKeepsStopping(s, w);
      case SpuriousWake(w) => WakeKeepsInv(s, w, Apply(s, st));
      case NotifyOne(w) => WakeKeepsInv(s, w, Apply(s, st));
      case StopNotify => StopNotifyKeepsInv(s);
      case _ => QuietKeepsInv(s, st);
    }
  }

  lemma {:induction false} RunKeepsInv<T>(s: Pool<T>, steps: seq<Step<T>>)
    requires Inv(s) && CanRun(s, steps)
    ensures Inv(Run(s, steps)) && |Run(s, steps).workers| == |s.workers|
    decreases |steps|
  {
    if steps != [] {
      StepKeepsInv(s, steps[0]);
      RunKeepsInv(Apply(s, steps[0]), steps[1..]);
    }
  }
}

/**
 What holds for any number of workers and any schedule, with no assumption on the order of the
 tasks: no connection is closed twice, a close task closes the connection whose end was read even
 when descriptors are reused, and no event names a descriptor that has been closed.
 */
module EchoServerAlways {
  import P = ThreadPool
  import PoolSafety = ThreadPoolSafety
  import opened EchoServer
  import opened EchoServerSafety

  ghost predicate Known(s: Server) {
    forall k :: 0 <= k < |Tasks(s)| ==> Tasks(s)[k].conn < |s.input|
  }

  /** A close task still to run names an open descriptor that stands for its connection, and nobody watches it. */
  ghost predicate CloseTargets(s: Server) {
    forall k :: 0 <= k < |Tasks(s)| && Tasks(s)[k].Close? && k !in s.pool.finished ==> Closable(s, Tasks(s)[k])
  }

  predicate Closable(s: Server, t: Task) {
    t.fd in s.open && s.open[t.fd] == t.conn && t.fd !in s.watched
  }

  ghost predicate Open(s: Server, c: nat) {
    exists fd :: fd in s.open && s.open[fd] == c
  }

  /** Every connection ever accepted is open or has been closed. */
  ghost predicate Accounted(s: Server) {
    forall c :: 0 <= c < |s.input| ==> c in s.closes || Open(s, c)
  }

  ghost predicate Always(s: Server) {
    && NetAndPool(s) && Descriptors(s) && Known(s) && CloseTargets(s) && CloseIsLast(s) && Closes(s) && Accounted(s)
  }

  lemma InitAlways(listenFd: int, workers: nat)
    ensures Always(Init(listenFd, workers))
  {
    PoolSafety.InitInv<Task>(workers);
  }

  /** Steps that make no task and open and close nothing. */
  lemma SameDescriptorsKeep(s: Server, s': Server)
    requires Known(s) && CloseTargets(s) && CloseIsLast(s) && Closes(s) && Accounted(s)
    requires Tasks(s') == Tasks(s) && s.pool.finished <= s'.pool.finished
    requires s'.open == s.open && s'.watched == s.watched && |s'.input| == |s.input| && s'.closes == s.closes
    ensures Known(s') && CloseTargets(s') && CloseIsLast(s') && Closes(s') && Accounted(s')
  {
    forall c | 0 <= c < |s'.input| ensures c in s'.closes || Open(s', c) {
      assert c in s.closes || Open(s, c);
    }
  }

  lemma NetKeepsAlways(s: Server, st: Step)
    requires Always(s) && Enabled(s, st)
    requires st.WaitReturns? || st.EventsDone? || st.SkipEvent? || st.ReadNothing?
               || st.AcceptStart? || st.AcceptDone? || st.WriteAgain? || st.Write?
    ensures Always(Apply(s, st))
  {
    SameDescriptorsKeep(s, Apply(s, st));
  }

  lemma AcceptKeepsAlways(s: Server, fd: int, registered: bool)
    requires Always(s) && Enabled(s, AcceptOne(fd, registered))
    ensures Always(Apply(s, AcceptOne(fd, registered)))
  {
    var s' := Apply(s, AcceptOne(fd, registered));
    assert Tasks(s') == Tasks(s);
    AcceptKeepsCloses(s, fd, registered);
    AcceptKeepsAccounted(s, fd, registered);
  }

  lemma AcceptKeepsAccounted(s: Server, fd: int, registered: bool)
    requires Accounted(s) && Enabled(s, AcceptOne(fd, registered))
    ensures Accounted(Apply(s, AcceptOne(fd, registered)))
  {
    var s' := Apply(s, AcceptOne(fd, registered));
    forall c | 0 <= c < |s'.input| ensures c in s'.closes || Open(s', c) {
      if c == |s.input| {
        assert if registered then s'.open[fd] == c else s'.closes[|s.closes|] == c;
      } else if c !in s.closes {
        var f :| f in s.open && s.open[f] == c;
        assert s'.open[f] == c;
      } else {
        assert s.closes <= s'.closes;
      }
    }
  }

  /** An error event closes a watched descriptor, so no close task names it. */
  lemma ErrorKeepsAlways(s: Server)
    requires Always(s) && Enabled(s, ErrorEvent)
    ensures Always(Apply(s, ErrorEvent))
  {
    var s' := Apply(s, ErrorEvent);
    assert Tasks(s') == Tasks(s);
    ErrorKeepsDescriptors(s);
    ErrorKeepsCloseTargets(s);
    ErrorKeepsAccounted(s);
  }

  lemma ErrorKeepsCloseTargets(s: Server)
    requires Descriptors(s) && CloseTargets(s) && Enabled(s, ErrorEvent)
    ensures CloseTargets(Apply(s, ErrorEvent))
  {
    var s' := Apply(s, ErrorEvent);
    assert Tasks(s') == Tasks(s);
    forall k | 0 <= k < |Tasks(s')| && Tasks(s')[k].Close? && k !in s'.pool.finished
      ensures Closable(s', Tasks(s')[k])
    {
      assert Closable(s, Tasks(s)[k]);
      assert Expected(s, s.events[0].fd);
    }
  }

  lemma ErrorKeepsAccounted(s: Server)
    requires Accounted(s) && Enabled(s, ErrorEvent)
    ensures Accounted(Apply(s, ErrorEvent))
  {
    var s' := Apply(s, ErrorEvent);
    forall c | 0 <= c < |s'.input| ensures c in s'.closes || Open(s', c) {
      if c in s.closes {
        assert s.closes <= s'.closes;
      } else {
        var f :| f in s.open && s.open[f] == c;
        if f in s'.open {
          assert s'.open[f] == c;
        } else {
          assert s'.closes[|s.closes|] == c;
        }
      }
    }
  }

  lemma ReadKeepsAlways(s: Server, st: Step)
    requires Always(s) && Enabled(s, st) && (st.ReadData? || st.ReadEnd?)
    ensures Always(Apply(s, st))
  {
    var s' := Apply(s, st);
    assert Tasks(s') == Tasks(s) + [s'.net.task];
    ReadKeepsDescriptors(s, st);
    forall c | 0 <= c < |s'.input| ensures c in s'.closes || Open(s', c) {
      assert c in s.closes || Open(s, c);
    }
  }

  lemma EnqueueKeepsAlways(s: Server, p: P.Step<Task>)
    requires Always(s) && Enabled(s, Enqueue(p))
    ensures Always(Apply(s, Enqueue(p)))
  {
    var s' := Apply(s, Enqueue(p));
    PoolSafety.StepKeepsInv(s.pool, p);
    assert Tasks(s') == Tasks(s);
    SameDescriptorsKeep(s, s');
  }

  lemma PoolKeepsAlways(s: Server, p: P.Step<Task>)
    requires Always(s) && Enabled(s, Pool(p))
    ensures Always(Apply(s, Pool(p)))
  {
    PoolSafety.StepKeepsInv(s.pool, p);
    PoolKeepsTasks(s, p);
    if p.Work? && s.pool.workers[p.w].Running? && s.pool.workers[p.w].task.Close? {
      CloseKeepsAlways(s, p.w);
    } else {
      OtherPoolStepKeepsAlways(s, p);
    }
  }

  lemma OtherPoolStepKeepsAlways(s: Server, p: P.Step<Task>)
    requires Always(s) && Enabled(s, Pool(p))
    requires !(p.Work? && s.pool.workers[p.w].Running? && s.pool.workers[p.w].task.Close?)
    requires PoolSafety.Inv(P.Apply(s.pool, p))
    ensures Always(Apply(s, Pool(p)))
  {
    PoolKeepsTasks(s, p);
    PoolStepEnqueuesNothing(s.pool, p);
    SameDescriptorsKeep(s, Apply(s, Pool(p)));
  }

  lemma PoolKeepsTasks(s: Server, p: P.Step<Task>)
    requires NetAndPool(s) && Enabled(s, Pool(p))
    ensures Tasks(Apply(s, Pool(p))) == Tasks(s) && s.pool.finished <= Apply(s, Pool(p)).pool.finished
  {
    PoolStepEnqueuesNothing(s.pool, p);
  }

  lemma PoolStepEnqueuesNothing(s: P.Pool<Task>, p: P.Step<Task>)
    requires P.Enabled(s, p) && !IsEnqueueStep(p)
    ensures var s' := P.Apply(s, p);
            && s'.enqueued == s.enqueued && s'.enqueue == s.enqueue && s'.owed == s.owed
            && s.finished <= s'.finished && |s'.workers| == |s.workers|
  {
  }

  lemma HeldClose(s: Server, w: nat)
    requires NetAndPool(s) && w < |s.pool.workers| && s.pool.workers[w].Running? && s.pool.workers[w].task.Close?
    ensures var k := s.pool.workers[w].ticket;
            k < |Tasks(s)| && Tasks(s)[k] == s.pool.workers[w].task && k !in s.pool.finished
  {
    assert PoolSafety.GoodHolder(s.pool, w, s.pool.workers[w]);
  }

  lemma CloseKeepsAlways(s: Server, w: nat)
    requires Always(s) && Enabled(s, Pool(P.Work(w))) && s.pool.workers[w].Running? && s.pool.workers[w].task.Close?
    requires var s' := Apply(s, Pool(P.Work(w))); PoolSafety.Inv(s'.pool) && Tasks(s') == Tasks(s)
    ensures Always(Apply(s, Pool(P.Work(w))))
  {
    var s' := Apply(s, Pool(P.Work(w)));
    HeldClose(s, w);
    CloseKeepsTargets(s, w);
    CloseKeepsAccounted(s, w);
  }

  lemma CloseKeepsTargets(s: Server, w: nat)
    requires CloseTargets(s) && CloseIsLast(s) && NetAndPool(s)
    requires Enabled(s, Pool(P.Work(w))) && s.pool.workers[w].Running? && s.pool.workers[w].task.Close?
    requires Tasks(Apply(s, Pool(P.Work(w)))) == Tasks(s)
    ensures CloseTargets(Apply(s, Pool(P.Work(w))))
  {
    var s' := Apply(s, Pool(P.Work(w)));
    HeldClose(s, w);
    var t := s.pool.workers[w].ticket;
    assert Closable(s, Tasks(s)[t]);
    forall k | 0 <= k < |Tasks(s')| && Tasks(s')[k].Close? && k !in s'.pool.finished
      ensures Closable(s', Tasks(s')[k])
    {
      assert k != t && Closable(s, Tasks(s)[k]);
      assert Tasks(s)[k].conn != Tasks(s)[t].conn;
    }
  }

  lemma CloseKeepsAccounted(s: Server, w: nat)
    requires NetAndPool(s) && CloseTargets(s) && Accounted(s) && Descriptors(s) && Closes(s)
    requires Enabled(s, Pool(P.Work(w))) && s.pool.workers[w].Running? && s.pool.workers[w].task.Close?
    ensures var s' := Apply(s, Pool(P.Work(w))); Accounted(s') && Descriptors(s') && Closes(s')
  {
    var s' := Apply(s, Pool(P.Work(w)));
    HeldClose(s, w);
    var t := s.pool.workers[w].task;
    assert Closable(s, t);
    forall c | 0 <= c < |s'.input| ensures c in s'.closes || Open(s', c) {
      if c == t.conn {
        assert s'.closes[|s.closes|] == c;
      } else if c !in s.closes {
        var f :| f in s.open && s.open[f] == c;
        assert s'.open[f] == c;
      } else {
        assert s.closes <= s'.closes;
      }
    }
  }

  lemma FailureKeepsAlways(s: Server, w: nat)
    requires Always(s) && Enabled(s, WriteFails(w))
    ensures Always(Apply(s, WriteFails(w)))
  {
    var s' := Apply(s, WriteFails(w));
    PoolSafety.StepKeepsInv(s.pool, P.Work(w));
    assert Tasks(s') == Tasks(s);
    SameDescriptorsKeep(s, s');
  }

  lemma StepKeepsAlways(s: Server, st: Step)
    requires Always(s) && Enabled(s, st)
    ensures Always(Apply(s, st))
  {
    match st {
      case ErrorEvent => ErrorKeepsAlways(s);
      case AcceptOne(fd, registered) => AcceptKeepsAlways(s, fd, registered);
      case ReadData(_) => ReadKeepsAlways(s, st);
      case ReadEnd => ReadKeepsAlways(s, st);
      case Enqueue(p) => EnqueueKeepsAlways(s, p);
      case Pool(p) => PoolKeepsAlways(s, p);
      case WriteFails(w) => FailureKeepsAlways(s, w);
      case _ => NetKeepsAlways(s, st);
    }
  }

  lemma {:induction false} RunKeepsAlways(s: Server, steps: seq<Step>)
    requires Always(s) && CanRun(s, steps)
    ensures Always(Run(s, steps))
    decreases |steps|
  {
    if steps != [] {
      StepKeepsAlways(s, steps[0]);
      RunKeepsAlways(Apply(s, steps[0]), steps[1..]);
    }
  }

  // ----- every byte read is handed over once, in order

  function BytesFor(tasks: seq<Task>, c: nat): seq<Byte> {
    if tasks == [] then []
    else
      var last := tasks[|tasks| - 1];
      BytesFor(tasks[..|tasks| - 1], c) + if last.Echo? && last.conn == c then last.data else []
  }

  ghost predicate HandedOver(s: Server) {
    forall c :: 0 <= c < |s.input| ==> BytesFor(Tasks(s), c) == s.input[c]
  }

  lemma {:induction false} NoBytesForUnknown(tasks: seq<Task>, c: nat)
    requires forall k :: 0 <= k < |tasks| ==> tasks[k].conn < c
    ensures BytesFor(tasks, c) == []
    decreases |tasks|
  {
    if tasks != [] {
      NoBytesForUnknown(tasks[..|tasks| - 1], c);
    }
  }

  lemma StepKeepsHandedOver(s: Server, st: Step)
    requires NetAndPool(s) && Known(s) && HandedOver(s) && Enabled(s, st)
    ensures HandedOver(Apply(s, st))
  {
    var s' := Apply(s, st);
    if st.ReadData? || st.ReadEnd? {
      ReadMakesTask(s, st);
      assert Tasks(s')[..|Tasks(s)|] == Tasks(s);
    } else {
      OtherStepKeepsTasks(s, st);
      NoBytesForUnknown(Tasks(s), |s.input|);
    }
  }

  lemma OtherStepKeepsTasks(s: Server, st: Step)
    requires NetAndPool(s) && Enabled(s, st) && !st.ReadData? && !st.ReadEnd?
    ensures var s' := Apply(s, st); Tasks(s') == Tasks(s) && (s'.input == s.input || s'.input == s.input + [[]])
  {
    if st.Pool? {
      PoolKeepsTasks(s, st.st);
    }
  }

  lemma {:induction false} RunKeepsHandedOver(s: Server, steps: seq<Step>)
    requires Always(s) && HandedOver(s) && CanRun(s, steps)
    ensures HandedOver(Run(s, steps))
    decreases |steps|
  {
    if steps != [] {
      StepKeepsAlways(s, steps[0]);
      StepKeepsHandedOver(s, steps[0]);
      RunKeepsHandedOver(Apply(s, steps[0]), steps[1..]);
    }
  }

  // ----- what it means

  ghost predicate Reachable(listenFd: int, workers: nat, s: Server) {
    exists steps :: CanRun(Init(listenFd, workers), steps) && Run(Init(listenFd, workers), steps) == s
  }

  lemma {:induction false} RunSnoc(s: Server, a: seq<Step>, st: Step)
    requires CanRun(s, a) && Enabled(Run(s, a), st)
    ensures CanRun(s, a + [st]) && Run(s, a + [st]) == Apply(Run(s, a), st)
    decreases |a|
  {
    if a == [] {
      assert CanRun(Apply(s, st), []) && (a + [st])[1..] == [];
    } else {
      RunSnoc(Apply(s, a[0]), a[1..], st);
      assert (a + [st])[0] == a[0] && (a + [st])[1..] == a[1..] + [st];
    }
  }

  lemma ReachableMeansAlways(listenFd: int, workers: nat, s: Server)
    requires Reachable(listenFd, workers, s)
    ensures Always(s)
  {
    var steps :| CanRun(Init(listenFd, workers), steps) && Run(Init(listenFd, workers), steps) == s;
    InitAlways(listenFd, workers);
    RunKeepsAlways(Init(listenFd, workers), steps);
  }

  /** A connection is closed at most once, and until then it keeps a descriptor of its own. */
  lemma ClosedOnceOrOpen(listenFd: int, workers: nat, s: Server, c: nat)
    requires Reachable(listenFd, workers, s) && c < |s.input|
    ensures c in s.closes <==> !Open(s, c)
    ensures forall i, j :: 0 <= i < |s.closes| && 0 <= j < |s.closes| && s.closes[i] == c == s.closes[j] ==> i == j
    ensures forall f, g :: f in s.open && g in s.open && s.open[f] == c == s.open[g] ==> f == g
  {
    ReachableMeansAlways(listenFd, workers, s);
  }

  /** handle_read is never called with a descriptor that has been closed or handed to a later connection unseen. */
  lemma EventsNameOpenConnections(listenFd: int, workers: nat, s: Server)
    requires Reachable(listenFd, workers, s)
    ensures forall i :: 0 <= i < |s.events| && s.events[i].fd != listenFd ==>
              s.events[i].fd in s.open && s.open[s.events[i].fd] !in s.closes
    ensures s.net.Dispatching? && s.events != [] && IsRead(s.events[0], listenFd) ==> ReadsHead(s)
  {
    var steps :| CanRun(Init(listenFd, workers), steps) && Run(Init(listenFd, workers), steps) == s;
    ReachableMeansAlways(listenFd, workers, s);
    ListenFdStays(Init(listenFd, workers), steps);
    forall i | 0 <= i < |s.events| && s.events[i].fd != listenFd
      ensures s.events[i].fd in s.open && s.open[s.events[i].fd] !in s.closes
    {
      assert Expected(s, s.events[i].fd);
    }
  }

  lemma {:induction false} ListenFdStays(s: Server, steps: seq<Step>)
    requires CanRun(s, steps)
    ensures Run(s, steps).listenFd == s.listenFd
    decreases |steps|
  {
    if steps != [] {
      assert Apply(s, steps[0]).listenFd == s.listenFd;
      ListenFdStays(Apply(s, steps[0]), steps[1..]);
    }
  }

  /** When a close task runs, it closes the connection whose end was read, and no other. */
  lemma CloseReachesItsConnection(listenFd: int, workers: nat, s: Server, w: nat)
    requires Reachable(listenFd, workers, s)
    requires w < |s.pool.workers| && s.pool.workers[w].Running? && s.pool.workers[w].task.Close?
    ensures var t := s.pool.workers[w].task;
            var s' := Apply(s, Pool(P.Work(w)));
            Open(s, t.conn) && s'.closes == s.closes + [t.conn] && !Open(s', t.conn)
  {
    ReachableMeansAlways(listenFd, workers, s);
    HeldClose(s, w);
    assert Closable(s, Tasks(s)[s.pool.workers[w].ticket]);
  }

  /** With any number of workers: the tasks of a connection, in queue order, carry exactly the bytes read from it. */
  lemma EveryByteHandedOver(listenFd: int, workers: nat, s: Server, c: nat)
    requires Reachable(listenFd, workers, s) && c < |s.input|
    ensures BytesFor(Tasks(s), c) == s.input[c]
  {
    var steps :| CanRun(Init(listenFd, workers), steps) && Run(Init(listenFd, workers), steps) == s;
    InitAlways(listenFd, workers);
    RunKeepsHandedOver(Init(listenFd, workers), steps);
  }
}

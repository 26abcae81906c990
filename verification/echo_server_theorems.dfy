/** What the epoll and kqueue servers promise their clients, over all runs. */
module EchoServerTheorems {
  import P = ThreadPool
  import PoolSafety = ThreadPoolSafety
  import opened EchoServer
  import opened EchoServerSafety
  import Always = EchoServerAlways

  /**
   In a calm run every connection without a hard write error gets its own bytes back in order, with
   none skipped or repeated; it is closed at most once, and only after its last byte was written,
   whatever later connection reuses the descriptor.
   */
  lemma EchoInOrder(listenFd: int, workers: nat, steps: seq<Step>)
    requires CanRun(Init(listenFd, workers), steps) && CalmRun(Init(listenFd, workers), steps)
    ensures var s := Run(Init(listenFd, workers), steps);
            && |s.output| == |s.input|
            && (forall c :: 0 <= c < |s.input| && c !in s.failed ==> s.output[c] <= s.input[c])
            && (forall c :: c in s.closes && c !in s.failed ==> c < |s.input| && s.output[c] == s.input[c])
            && (forall i, j :: 0 <= i < j < |s.closes| ==> s.closes[i] != s.closes[j])
            && (forall w :: 0 <= w < |s.pool.workers| && Writing(s, w) ==>
                  var t := s.pool.workers[w].task; t.fd in s.open && s.open[t.fd] == t.conn)
  {
    InitInv(listenFd, workers);
    CalmRunKeepsInv(Init(listenFd, workers), steps);
    var s := Run(Init(listenFd, workers), steps);
    forall c | 0 <= c < |s.input| && c !in s.failed ensures s.output[c] <= s.input[c] {
      assert s.output[c] + Unwritten(s, c) == s.input[c];
    }
    forall c | c in s.closes && c !in s.failed ensures c < |s.input| && s.output[c] == s.input[c] {
      ClosedHasNothingLeft(s, c);
      assert s.output[c] + Unwritten(s, c) == s.input[c];
    }
    forall w | 0 <= w < |s.pool.workers| && Writing(s, w)
      ensures var t := s.pool.workers[w].task; t.fd in s.open && s.open[t.fd] == t.conn
    {
      WriteReachesItsConnection(s, w);
    }
  }

  lemma ClosedHasNothingLeft(s: Server, c: nat)
    requires Inv(s) && c in s.closes
    ensures c < |s.input| && Unwritten(s, c) == []
  {
    var i :| 0 <= i < |s.closes| && s.closes[i] == c;
    assert forall fd :: fd in s.open ==> s.open[fd] != c;
    forall k | 0 <= k < |Tasks(s)| ensures Rest(Tasks(s), s.pool.finished, s.written, c, k) == [] {
      if Tasks(s)[k].conn == c {
        assert Drained(s, k);
        DrainedHasNoRest(s, k, c);
      }
    }
    PendingNothing(Tasks(s), s.pool.finished, s.written, c, 0);
  }

  // ----- one worker

  lemma OneWorkerStepIsCalm(s: Server, st: Step)
    requires Inv(s) && Enabled(s, st) && |s.pool.workers| <= 1 && ErrorsInTurn(s, st)
    ensures Calm(s, st)
  {
    if st.Pool? && st.st.Work? && s.pool.workers[st.st.w].Dequeuing? && |s.pool.takers| < |Tasks(s)| {
      forall j | 0 <= j < |s.pool.takers| ensures Drained(s, j) {
        assert PoolSafety.Accounted(s.pool, j, s.pool.takers[j]);
      }
    }
  }

  lemma StepKeepsWorkers(s: Server, st: Step)
    requires Enabled(s, st)
    ensures |Apply(s, st).pool.workers| == |s.pool.workers|
  {
    match st {
      case Pool(p) => PoolStepKeepsWorkers(s.pool, p);
      case Enqueue(p) => PoolStepKeepsWorkers(s.pool, p);
      case _ =>
    }
  }

  lemma PoolStepKeepsWorkers(s: P.Pool<Task>, p: P.Step<Task>)
    requires P.Enabled(s, p)
    ensures |P.Apply(s, p).workers| == |s.workers|
  {
  }

  lemma {:induction false} OneWorkerIsCalm(s: Server, steps: seq<Step>)
    requires Inv(s) && |s.pool.workers| <= 1 && CanRun(s, steps) && ErrorsInTurnRun(s, steps)
    ensures CalmRun(s, steps)
    decreases |steps|
  {
    if steps != [] {
      OneWorkerStepIsCalm(s, steps[0]);
      StepKeepsInv(s, steps[0]);
      StepKeepsWorkers(s, steps[0]);
      OneWorkerIsCalm(Apply(s, steps[0]), steps[1..]);
    }
  }

  /**
   With one worker, which is the default, order needs no hypothesis on the schedule: only that error
   events, if there are any, close connections that are owed nothing.
   */
  lemma OneWorkerEchoesInOrder(listenFd: int, workers: nat, steps: seq<Step>)
    requires workers <= 1
    requires CanRun(Init(listenFd, workers), steps) && ErrorsInTurnRun(Init(listenFd, workers), steps)
    ensures var s := Run(Init(listenFd, workers), steps);
            && |s.output| == |s.input|
            && (forall c :: 0 <= c < |s.input| && c !in s.failed ==> s.output[c] <= s.input[c])
            && (forall c :: c in s.closes && c !in s.failed ==> c < |s.input| && s.output[c] == s.input[c])
  {
    InitInv(listenFd, workers);
    OneWorkerIsCalm(Init(listenFd, workers), steps);
    EchoInOrder(listenFd, workers, steps);
  }

  // ----- many workers, spaced reads

  /** A connection is read, found ended or found in error only after every byte of its earlier tasks was written. */
  predicate Spaced(s: Server, st: Step)
    requires Enabled(s, st)
  {
    st.ReadData? || st.ReadEnd? || (st.ErrorEvent? && s.events[0].fd in s.open) ==>
      forall j :: 0 <= j < |Tasks(s)| && Tasks(s)[j].conn == s.open[s.events[0].fd] ==> Drained(s, j)
  }

  predicate SpacedRun(s: Server, steps: seq<Step>)
    requires CanRun(s, steps)
    decreases |steps|
  {
    steps == [] || (Spaced(s, steps[0]) && SpacedRun(Apply(s, steps[0]), steps[1..]))
  }

  /** At most the last task of a connection has anything left. */
  ghost predicate LastOnly(s: Server) {
    forall j, k :: 0 <= j < k < |Tasks(s)| && Tasks(s)[j].conn == Tasks(s)[k].conn ==> Drained(s, j)
  }

  lemma StepKeepsDrained(s: Server, st: Step)
    requires Inv(s) && Enabled(s, st)
    ensures Tasks(s) <= Tasks(Apply(s, st))
    ensures |Tasks(Apply(s, st))| > |Tasks(s)| ==>
              && (st.ReadData? || st.ReadEnd?) && |Tasks(Apply(s, st))| == |Tasks(s)| + 1
              && Tasks(Apply(s, st))[|Tasks(s)|].conn == s.open[s.events[0].fd]
    ensures forall k :: 0 <= k < |Tasks(s)| && Drained(s, k) ==> Drained(Apply(s, st), k)
  {
    var s' := Apply(s, st);
    if st.ReadData? || st.ReadEnd? {
      assert Tasks(s') == Tasks(s) + [s'.net.task];
    } else {
      Always.OtherStepKeepsTasks(s, st);
    }
    StepKeepsProgress(s, st);
  }

  /** Nothing written is unwritten and no finished task runs again. */
  lemma StepKeepsProgress(s: Server, st: Step)
    requires Enabled(s, st)
    ensures s.pool.finished <= Apply(s, st).pool.finished
    ensures forall k: nat :: Written(s, k) <= Written(Apply(s, st), k)
  {
  }

  lemma {:induction false} SpacedRunIsCalm(s: Server, steps: seq<Step>)
    requires Inv(s) && LastOnly(s) && CanRun(s, steps) && SpacedRun(s, steps)
    ensures CalmRun(s, steps)
    decreases |steps|
  {
    if steps != [] {
      var s' := Apply(s, steps[0]);
      StepKeepsInv(s, steps[0]);
      StepKeepsDrained(s, steps[0]);
      SpacedStepKeepsLastOnly(s, steps[0]);
      SpacedRunIsCalm(s', steps[1..]);
    }
  }

  lemma SpacedStepKeepsLastOnly(s: Server, st: Step)
    requires Enabled(s, st) && LastOnly(s) && Spaced(s, st)
    requires Tasks(s) <= Tasks(Apply(s, st))
    requires |Tasks(Apply(s, st))| > |Tasks(s)| ==>
              && (st.ReadData? || st.ReadEnd?) && |Tasks(Apply(s, st))| == |Tasks(s)| + 1
              && Tasks(Apply(s, st))[|Tasks(s)|].conn == s.open[s.events[0].fd]
    requires forall k :: 0 <= k < |Tasks(s)| && Drained(s, k) ==> Drained(Apply(s, st), k)
    ensures LastOnly(Apply(s, st))
  {
    var s' := Apply(s, st);
    forall j, k | 0 <= j < k < |Tasks(s')| && Tasks(s')[j].conn == Tasks(s')[k].conn ensures Drained(s', j) {
      assert Tasks(s')[j] == Tasks(s)[j];
      if k < |Tasks(s)| {
        assert Tasks(s')[k] == Tasks(s)[k];
      }
    }
  }

  /** Any number of workers, provided no connection is read while its earlier bytes are unwritten. */
  lemma SpacedReadsEchoInOrder(listenFd: int, workers: nat, steps: seq<Step>)
    requires CanRun(Init(listenFd, workers), steps) && SpacedRun(Init(listenFd, workers), steps)
    ensures var s := Run(Init(listenFd, workers), steps);
            && |s.output| == |s.input|
            && (forall c :: 0 <= c < |s.input| && c !in s.failed ==> s.output[c] <= s.input[c])
            && (forall c :: c in s.closes && c !in s.failed ==> c < |s.input| && s.output[c] == s.input[c])
            && (forall w :: 0 <= w < |s.pool.workers| && Writing(s, w) ==>
                  var t := s.pool.workers[w].task; t.fd in s.open && s.open[t.fd] == t.conn)
  {
    InitInv(listenFd, workers);
    SpacedRunIsCalm(Init(listenFd, workers), steps);
    EchoInOrder(listenFd, workers, steps);
  }

  // ----- why the discipline is needed

  lemma RunCons(s: Server, st: Step, rest: seq<Step>)
    requires Enabled(s, st) && CanRun(Apply(s, st), rest)
    ensures CanRun(s, [st] + rest) && Run(s, [st] + rest) == Run(Apply(s, st), rest)
  {
    assert ([st] + rest)[1..] == rest;
  }

  /**
   If a worker pops an echo task that does not begin with the byte its connection is owed next,
   three more steps put the bytes out of order.
   */
  lemma EarlyPopReorders(s: Server, w: nat) returns (steps: seq<Step>)
    requires Inv(s) && w < |s.pool.workers| && s.pool.workers[w].Dequeuing?
    requires |s.pool.takers| < |Tasks(s)|
    requires var t := Tasks(s)[|s.pool.takers|];
             && t.Echo? && t.data != [] && t.conn < |s.input| && t.conn !in s.failed
             && Unwritten(s, t.conn) != [] && Unwritten(s, t.conn)[0] != t.data[0]
    ensures |steps| == 3 && CanRun(s, steps) && !Calm(s, steps[0])
    ensures var c := Tasks(s)[|s.pool.takers|].conn;
            c < |Run(s, steps).input| == |Run(s, steps).output| && !(Run(s, steps).output[c] <= Run(s, steps).input[c])
  {
    var t := Tasks(s)[|s.pool.takers|];
    var work, write := Pool(P.Work(w)), Write(w, 1);
    var s1 := Pop(s, w);
    var s2 := UnlockPopped(s1, w, |s.pool.takers|, t);
    steps := [work] + ([work] + ([write] + []));
    RunCons(s2, write, []);
    RunCons(s1, work, [write] + []);
    RunCons(s, work, [work] + ([write] + []));
    assert Run(s, steps) == Apply(s2, write);
    WrongByte(s.output[t.conn], Unwritten(s, t.conn), t.data[0]);
    assert t.data[0..1] == [t.data[0]];
    if Calm(s, work) {
      CalmPopStartsWithNextByte(s, w);
    }
  }

  lemma WrongByte(out: seq<Byte>, rest: seq<Byte>, b: Byte)
    requires rest != [] && rest[0] != b
    ensures !(out + [b] <= out + rest)
  {
    assert (out + [b])[|out|] != (out + rest)[|out|];
  }

  /** The first of the three steps. */
  lemma Pop(s: Server, w: nat) returns (s1: Server)
    requires Inv(s) && w < |s.pool.workers| && s.pool.workers[w].Dequeuing? && |s.pool.takers| < |Tasks(s)|
    requires Tasks(s)[|s.pool.takers|].Echo? && Tasks(s)[|s.pool.takers|].data != []
    ensures Enabled(s, Pool(P.Work(w))) && s1 == Apply(s, Pool(P.Work(w)))
    ensures s1 == s.(pool := s1.pool) && |s1.pool.workers| == |s.pool.workers|
    ensures var t := Tasks(s)[|s.pool.takers|];
            && s1.pool.workers[w] == P.Unlocking(|s.pool.takers|, t)
            && Written(s, |s.pool.takers|) == 0 && t.fd in s.open && s.open[t.fd] == t.conn < |s.output|
  {
    PoppedIsKnown(s, w);
    assert s.pool.tasks[0] == Tasks(s)[|s.pool.takers|];
    assert !Drained(s, |s.pool.takers|);
    s1 := Apply(s, Pool(P.Work(w)));
  }

  /** The second: the task is about to be written. */
  lemma UnlockPopped(s1: Server, w: nat, k: nat, t: Task) returns (s2: Server)
    requires w < |s1.pool.workers| && s1.pool.workers[w] == P.Unlocking(k, t)
    requires t.Echo? && t.data != [] && Written(s1, k) == 0 && t.fd in s1.open && s1.open[t.fd] < |s1.output|
    ensures Enabled(s1, Pool(P.Work(w))) && s2 == Apply(s1, Pool(P.Work(w)))
    ensures s2 == s1.(pool := s2.pool) && w < |s2.pool.workers| && s2.pool.workers[w] == P.Running(k, t)
    ensures Enabled(s2, Write(w, 1))
  {
    s2 := Apply(s1, Pool(P.Work(w)));
  }

  /** A calm pop yields the task that begins with the byte owed next. */
  lemma CalmPopStartsWithNextByte(s: Server, w: nat)
    requires Inv(s) && w < |s.pool.workers| && s.pool.workers[w].Dequeuing? && |s.pool.takers| < |Tasks(s)|
    requires Tasks(s)[|s.pool.takers|].Echo? && Tasks(s)[|s.pool.takers|].data != []
    requires Calm(s, Pool(P.Work(w)))
    ensures var t := Tasks(s)[|s.pool.takers|]; Unwritten(s, t.conn) != [] && Unwritten(s, t.conn)[0] == t.data[0]
  {
    var k := |s.pool.takers|;
    var t := Tasks(s)[k];
    forall j | 0 <= j < k ensures Rest(Tasks(s), s.pool.finished, s.written, t.conn, j) == [] {
      if Tasks(s)[j].conn == t.conn {
        DrainedHasNoRest(s, j, t.conn);
      }
    }
    PendingWrite(Tasks(s), s.pool.finished, s.written, k, 1);
    assert CountAt(s.written, k) == 0;
  }
}

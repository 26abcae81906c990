/**
 Hard write errors: the task is given up and the next one starts, so bytes are skipped.  Exactly
 which bytes leave a connection, and exactly when none is skipped.
 */
module EchoServerGiveUps {
  import P = ThreadPool
  import opened Gaps
  import opened EchoServer
  import opened EchoServerSafety
  import Always = EchoServerAlways
  import Theorems = EchoServerTheorems

  /** How many bytes of task k have left for connection c. */
  function Share(tasks: seq<Task>, written: map<nat, nat>, c: nat, k: nat): (n: nat)
    requires k < |tasks|
    ensures n > 0 ==> tasks[k].Echo? && tasks[k].conn == c && n <= |tasks[k].data|
  {
    if tasks[k].Echo? && tasks[k].conn == c && CountAt(written, k) <= |tasks[k].data| then CountAt(written, k) else 0
  }

  /** What the first n tasks have sent to c. */
  function Sent(tasks: seq<Task>, written: map<nat, nat>, c: nat, n: nat): seq<Byte>
    requires n <= |tasks|
  {
    if n == 0 then []
    else
      var share := Share(tasks, written, c, n - 1);
      Sent(tasks, written, c, n - 1) + if share > 0 then tasks[n - 1].data[..share] else []
  }

  /** A worker takes a task only when the earlier ones of that connection are done with. */
  ghost predicate PoppedInLine(s: Server) {
    forall k :: 0 <= k < |s.pool.takers| ==> HeadOfLine(s, k)
  }

  ghost predicate OutputIsSent(s: Server) {
    |s.output| == |s.input| && forall c :: 0 <= c < |s.input| ==>
        s.output[c] == Sent(Tasks(s), s.written, c, |Tasks(s)|)
  }

  /** No task has had more than its data written. */
  ghost predicate Fits(tasks: seq<Task>, written: map<nat, nat>) {
    forall k :: 0 <= k < |tasks| && tasks[k].Echo? ==> CountAt(written, k) <= |tasks[k].data|
  }

  ghost predicate Kept(s: Server) {
    Inv(s) && PoppedInLine(s) && OutputIsSent(s) && Always.HandedOver(s) && Fits(Tasks(s), s.written)
  }

  // ----- what Sent depends on

  lemma {:induction false} SentSame(a: seq<Task>, b: seq<Task>, v: map<nat, nat>, w: map<nat, nat>, c: nat, n: nat)
    requires n <= |a| && n <= |b| && a[..n] == b[..n]
    requires forall k :: 0 <= k < n ==> Share(a, v, c, k) == Share(b, w, c, k)
    ensures Sent(a, v, c, n) == Sent(b, w, c, n)
    decreases n
  {
    if n > 0 {
      assert a[n - 1] == a[..n][n - 1] == b[..n][n - 1] == b[n - 1];
      assert a[..n - 1] == a[..n][..n - 1] == b[..n][..n - 1] == b[..n - 1];
      SentSame(a, b, v, w, c, n - 1);
    }
  }

  lemma {:induction false} SentStops(tasks: seq<Task>, written: map<nat, nat>, c: nat, m: nat, n: nat)
    requires m <= n <= |tasks| && forall k :: m <= k < n ==> Share(tasks, written, c, k) == 0
    ensures Sent(tasks, written, c, n) == Sent(tasks, written, c, m)
    decreases n - m
  {
    if m < n {
      SentStops(tasks, written, c, m, n - 1);
    }
  }

  // ----- every step of a calm run

  lemma StepKeepsLine(s: Server, st: Step)
    requires Inv(s) && PoppedInLine(s) && Enabled(s, st) && Calm(s, st)
    ensures PoppedInLine(Apply(s, st))
  {
    var s' := Apply(s, st);
    Theorems.StepKeepsDrained(s, st);
    StepKeepsInv(s, st);
    StepPopsAtMostOne(s, st);
    forall k | 0 <= k < |s'.pool.takers| ensures HeadOfLine(s', k) {
      if k < |s.pool.takers| {
        LineStays(s, s', k);
      } else {
        PoppedIsKnown(s, st.st.w);
        assert HeadOfLine(s, k);
        LineStays(s, s', k);
      }
    }
  }

  lemma LineStays(s: Server, s': Server, k: nat)
    requires k < |Tasks(s)| && HeadOfLine(s, k) && Tasks(s) <= Tasks(s')
    requires forall j :: 0 <= j < |Tasks(s)| && Drained(s, j) ==> Drained(s', j)
    ensures HeadOfLine(s', k)
  {
  }

  lemma StepPopsAtMostOne(s: Server, st: Step)
    requires Enabled(s, st)
    ensures var takers := Apply(s, st).pool.takers;
            takers == s.pool.takers
            || (st.Pool? && st.st.Work? && s.pool.workers[st.st.w].Dequeuing? && takers == s.pool.takers + [st.st.w])
  {
    match st {
      case Pool(p) => PoolStepPopsAtMostOne(s.pool, p);
      case Enqueue(p) => PoolStepPopsAtMostOne(s.pool, p);
      case _ =>
    }
  }

  lemma PoolStepPopsAtMostOne(s: P.Pool<Task>, p: P.Step<Task>)
    requires P.Enabled(s, p)
    ensures var takers := P.Apply(s, p).takers;
            takers == s.takers || (p.Work? && s.workers[p.w].Dequeuing? && takers == s.takers + [p.w])
  {
  }

  /** The write of n bytes of task k reached its connection. */
  ghost predicate Writes(s: Server, s': Server, k: nat, n: nat) {
    && k < |Tasks(s)| && !Drained(s, k) && Tasks(s') == Tasks(s)
    && var t, from := Tasks(s)[k], Written(s, k);
    && t.Echo? && from + n <= |t.data| && s'.written == s.written[k := from + n]
    && t.conn < |s.output| && s'.output == s.output[t.conn := s.output[t.conn] + t.data[from..from + n]]
  }

  lemma WriteStepWrites(s: Server, w: nat, n: nat)
    requires NetAndPool(s) && Targets(s) && Serial(s) && Enabled(s, Write(w, n))
    ensures Writes(s, Apply(s, Write(w, n)), s.pool.workers[w].ticket, n)
  {
    HeldTask(s, w);
    WriteReachesItsConnection(s, w);
    WriteTouchesNoTask(s, w, n);
  }

  /** A write extends the share of the first task of its connection that is not done with. */
  lemma WriteKeepsSent(s: Server, s': Server, k: nat, n: nat)
    requires Targets(s) && PoppedInLine(s) && OutputIsSent(s) && Writes(s, s', k, n) && |s'.input| == |s.input|
    ensures OutputIsSent(s')
  {
    var tasks, total := Tasks(s), |Tasks(s)|;
    LaterHaveNoShare(s, k);
    WriteExtendsSent(tasks, s.written, k, n);
    forall c | 0 <= c < |s'.input| ensures s'.output[c] == Sent(tasks, s'.written, c, total) {
      if c != tasks[k].conn {
        SentSame(tasks, tasks, s.written, s'.written, c, total);
      }
    }
  }

  lemma WriteExtendsSent(tasks: seq<Task>, written: map<nat, nat>, k: nat, n: nat)
    requires k < |tasks| && tasks[k].Echo? && CountAt(written, k) + n <= |tasks[k].data|
    requires forall j :: k < j < |tasks| && tasks[j].conn == tasks[k].conn ==> j !in written
    ensures var c, from := tasks[k].conn, CountAt(written, k);
            Sent(tasks, written[k := from + n], c, |tasks|) ==
            Sent(tasks, written, c, |tasks|) + tasks[k].data[from..from + n]
  {
    ShareGrows(tasks, written, k, n);
    SentStops(tasks, written, tasks[k].conn, k + 1, |tasks|);
    SentStops(tasks, written[k := CountAt(written, k) + n], tasks[k].conn, k + 1, |tasks|);
  }

  lemma LaterHaveNoShare(s: Server, k: nat)
    requires Targets(s) && PoppedInLine(s) && k < |Tasks(s)| && !Drained(s, k)
    ensures forall j :: k < j < |Tasks(s)| && Tasks(s)[j].conn == Tasks(s)[k].conn ==> j !in s.written
  {
    forall j | k < j < |Tasks(s)| && Tasks(s)[j].conn == Tasks(s)[k].conn ensures j !in s.written {
      assert j in s.written ==> HeadOfLine(s, j);
    }
  }

  lemma ShareGrows(tasks: seq<Task>, written: map<nat, nat>, k: nat, n: nat)
    requires k < |tasks| && tasks[k].Echo? && CountAt(written, k) + n <= |tasks[k].data|
    ensures var c, from := tasks[k].conn, CountAt(written, k);
            Sent(tasks, written[k := from + n], c, k + 1) == Sent(tasks, written, c, k + 1)
                + tasks[k].data[from..from + n]
  {
    var written' := written[k := CountAt(written, k) + n];
    SentSame(tasks, tasks, written, written', tasks[k].conn, k);
    SentByOne(tasks, written, k);
    SentByOne(tasks, written', k);
    TakesMore(Sent(tasks, written, tasks[k].conn, k), tasks[k].data, CountAt(written, k), n);
  }

  lemma TakesMore(before: seq<Byte>, data: seq<Byte>, from: nat, n: nat)
    requires from + n <= |data|
    ensures before + data[..from + n] == (before + data[..from]) + data[from..from + n]
  {
  }

  lemma SentByOne(tasks: seq<Task>, written: map<nat, nat>, k: nat)
    requires k < |tasks| && tasks[k].Echo? && CountAt(written, k) <= |tasks[k].data|
    ensures var c := tasks[k].conn;
            Sent(tasks, written, c, k + 1) == Sent(tasks, written, c, k) + tasks[k].data[..CountAt(written, k)]
  {
    assert tasks[k].data[..0] == [];
  }

  lemma ReadKeepsSent(s: Server, st: Step)
    requires Inv(s) && OutputIsSent(s) && Enabled(s, st) && (st.ReadData? || st.ReadEnd?)
    ensures OutputIsSent(Apply(s, st))
  {
    var s' := Apply(s, st);
    ReadMakesTask(s, st);
    var n := |Tasks(s)|;
    assert n !in s.written;
    forall c | 0 <= c < |s'.input| ensures s'.output[c] == Sent(Tasks(s'), s'.written, c, |Tasks(s')|) {
      assert Tasks(s')[..n] == Tasks(s)[..n];
      SentSame(Tasks(s), Tasks(s'), s.written, s'.written, c, n);
    }
  }

  /** The other steps write nothing and make no task; a new connection has no task yet. */
  lemma OtherKeepsSent(s: Server, st: Step)
    requires Inv(s) && OutputIsSent(s) && Enabled(s, st) && !st.ReadData? && !st.ReadEnd? && !st.Write?
    ensures OutputIsSent(Apply(s, st))
  {
    var s' := Apply(s, st);
    Always.OtherStepKeepsTasks(s, st);
    OtherStepWritesNothing(s, st);
    SentStops(Tasks(s), s.written, |s.input|, 0, |Tasks(s)|);
  }

  lemma OtherStepWritesNothing(s: Server, st: Step)
    requires Enabled(s, st) && !st.Write?
    ensures var s' := Apply(s, st);
            && s'.written == s.written
            && (s'.output == s.output || (st.AcceptOne? && s'.output == s.output + [[]]))
            && (st.AcceptOne? || |s'.input| == |s.input|)
            && (st.AcceptOne? ==> s'.output == s.output + [[]] && s'.input == s.input + [[]])
  {
  }

  lemma StepKeepsSent(s: Server, st: Step)
    requires Inv(s) && PoppedInLine(s) && OutputIsSent(s) && Enabled(s, st)
    ensures OutputIsSent(Apply(s, st))
  {
    if st.Write? {
      WriteStepWrites(s, st.w, st.count);
      WriteKeepsSent(s, Apply(s, st), s.pool.workers[st.w].ticket, st.count);
    } else if st.ReadData? || st.ReadEnd? {
      ReadKeepsSent(s, st);
    } else {
      OtherKeepsSent(s, st);
    }
  }

  lemma StepKeepsFits(s: Server, st: Step)
    requires Inv(s) && Fits(Tasks(s), s.written) && Enabled(s, st)
    ensures Fits(Tasks(Apply(s, st)), Apply(s, st).written)
  {
    if st.Write? {
      HeldTask(s, st.w);
      WriteTouchesNoTask(s, st.w, st.count);
    } else if st.ReadData? || st.ReadEnd? {
      ReadMakesTask(s, st);
      assert |Tasks(s)| !in s.written;
    } else {
      Always.OtherStepKeepsTasks(s, st);
      OtherStepWritesNothing(s, st);
    }
  }

  lemma {:induction false} CalmRunKeeps(s: Server, steps: seq<Step>)
    requires Kept(s) && CanRun(s, steps) && CalmRun(s, steps)
    ensures Kept(Run(s, steps))
    decreases |steps|
  {
    if steps != [] {
      StepKeepsInv(s, steps[0]);
      StepKeepsLine(s, steps[0]);
      StepKeepsSent(s, steps[0]);
      StepKeepsFits(s, steps[0]);
      Always.StepKeepsHandedOver(s, steps[0]);
      CalmRunKeeps(Apply(s, steps[0]), steps[1..]);
    }
  }

  // ----- which bytes left

  /** Where in the input the bytes that the first n tasks sent to c came from. */
  function Offsets(tasks: seq<Task>, written: map<nat, nat>, c: nat, n: nat): seq<nat>
    requires n <= |tasks|
  {
    if n == 0 then []
    else
      Offsets(tasks, written, c, n - 1)
      + Interval(|Always.BytesFor(tasks[..n - 1], c)|, Share(tasks, written, c, n - 1))
  }

  predicate IsEchoFor(t: Task, c: nat) {
    t.Echo? && t.conn == c
  }

  /** Once a task of c was left with bytes unwritten, no later one lets anything out. */
  ghost predicate NothingAfterGivingUp(tasks: seq<Task>, written: map<nat, nat>, c: nat, n: nat)
    requires n <= |tasks|
  {
    forall j, k :: 0 <= j < k < n && IsEchoFor(tasks[j], c) && IsEchoFor(tasks[k], c) && CountAt(written, k) > 0 ==>
      CountAt(written, j) == |tasks[j].data|
  }

  ghost predicate AllFull(tasks: seq<Task>, written: map<nat, nat>, c: nat, n: nat)
    requires n <= |tasks|
  {
    forall j :: 0 <= j < n && IsEchoFor(tasks[j], c) ==> CountAt(written, j) == |tasks[j].data|
  }

  lemma BytesOfOneMore(tasks: seq<Task>, c: nat, n: nat)
    requires 0 < n <= |tasks|
    ensures Always.BytesFor(tasks[..n], c) ==
            Always.BytesFor(tasks[..n - 1], c) + if IsEchoFor(tasks[n - 1], c) then tasks[n - 1].data else []
  {
    assert tasks[..n][..n - 1] == tasks[..n - 1];
  }

  lemma {:induction false} OffsetsLength(tasks: seq<Task>, written: map<nat, nat>, c: nat, n: nat)
    requires n <= |tasks| && Fits(tasks, written)
    ensures |Offsets(tasks, written, c, n)| <= |Always.BytesFor(tasks[..n], c)|
    ensures |Offsets(tasks, written, c, n)| == |Always.BytesFor(tasks[..n], c)| <==> AllFull(tasks, written, c, n)
    decreases n
  {
    if n > 0 {
      OffsetsLength(tasks, written, c, n - 1);
      BytesOfOneMore(tasks, c, n);
    }
  }

  lemma {:induction false} NoGapExactly(tasks: seq<Task>, written: map<nat, nat>, c: nat, n: nat)
    requires n <= |tasks| && Fits(tasks, written)
    ensures NoGap(Offsets(tasks, written, c, n)) <==> NothingAfterGivingUp(tasks, written, c, n)
    decreases n
  {
    if n > 0 {
      NoGapExactly(tasks, written, c, n - 1);
      OffsetsLength(tasks, written, c, n - 1);
      NoGapAppend(Offsets(tasks, written, c, n - 1), |Always.BytesFor(tasks[..n - 1], c)|,
          Share(tasks, written, c, n - 1));
      OneMoreTask(tasks, written, c, n);
    }
  }

  lemma OneMoreTask(tasks: seq<Task>, written: map<nat, nat>, c: nat, n: nat)
    requires 0 < n <= |tasks| && Fits(tasks, written)
    ensures NothingAfterGivingUp(tasks, written, c, n) <==>
              && NothingAfterGivingUp(tasks, written, c, n - 1)
              && (Share(tasks, written, c, n - 1) > 0 ==> AllFull(tasks, written, c, n - 1))
  {
    var share := Share(tasks, written, c, n - 1);
    assert share > 0 <==> IsEchoFor(tasks[n - 1], c) && CountAt(written, n - 1) > 0;
    if NothingAfterGivingUp(tasks, written, c, n) && share > 0 {
      forall j | 0 <= j < n - 1 && IsEchoFor(tasks[j], c) ensures CountAt(written, j) == |tasks[j].data| {
      }
    }
  }

  lemma {:induction false} SentIsLocated(tasks: seq<Task>, written: map<nat, nat>, c: nat, n: nat)
    requires n <= |tasks|
    ensures Located(Sent(tasks, written, c, n), Offsets(tasks, written, c, n), Always.BytesFor(tasks[..n], c))
    decreases n
  {
    if n > 0 {
      SentIsLocated(tasks, written, c, n - 1);
      BytesOfOneMore(tasks, c, n);
      var share := Share(tasks, written, c, n - 1);
      var payload := if IsEchoFor(tasks[n - 1], c) then tasks[n - 1].data else [];
      LocatedAppend(Sent(tasks, written, c, n - 1), Offsets(tasks, written, c, n - 1),
                    Always.BytesFor(tasks[..n - 1], c), payload, share);
      assert payload[..share] == if share > 0 then tasks[n - 1].data[..share] else [];
    }
  }

  /**
   In a calm run, hard errors included: each byte sent is the byte of the input at its offset, and
   there is no gap, so that the output is a prefix of the input, if and only if nothing was let out
   after a task was given up with bytes left.
   */
  lemma GivingUpLeavesGaps(listenFd: int, workers: nat, steps: seq<Step>, c: nat)
    requires CanRun(Init(listenFd, workers), steps) && CalmRun(Init(listenFd, workers), steps)
    requires c < |Run(Init(listenFd, workers), steps).input|
    ensures var s := Run(Init(listenFd, workers), steps);
            var tasks, n := Tasks(s), |Tasks(s)|;
            && c < |s.output|
            && Located(s.output[c], Offsets(tasks, s.written, c, n), s.input[c])
            && (NoGap(Offsets(tasks, s.written, c, n)) <==> NothingAfterGivingUp(tasks, s.written, c, n))
            && (NothingAfterGivingUp(tasks, s.written, c, n) ==> s.output[c] <= s.input[c])
  {
    var init := Init(listenFd, workers);
    InitInv(listenFd, workers);
    CalmRunKeeps(init, steps);
    var s := Run(init, steps);
    var tasks, n := Tasks(s), |Tasks(s)|;
    assert tasks[..n] == tasks;
    SentIsLocated(tasks, s.written, c, n);
    NoGapExactly(tasks, s.written, c, n);
    if NoGap(Offsets(tasks, s.written, c, n)) {
      NoGapMeansPrefix(s.output[c], Offsets(tasks, s.written, c, n), s.input[c]);
    }
  }

  /** With at most one worker the schedule needs no discipline. */
  lemma OneWorkerLeavesGaps(listenFd: int, workers: nat, steps: seq<Step>, c: nat)
    requires workers <= 1
    requires CanRun(Init(listenFd, workers), steps) && ErrorsInTurnRun(Init(listenFd, workers), steps)
    requires c < |Run(Init(listenFd, workers), steps).input|
    ensures var s := Run(Init(listenFd, workers), steps);
            var tasks, n := Tasks(s), |Tasks(s)|;
            && c < |s.output|
            && Located(s.output[c], Offsets(tasks, s.written, c, n), s.input[c])
            && (NoGap(Offsets(tasks, s.written, c, n)) <==> NothingAfterGivingUp(tasks, s.written, c, n))
            && (NothingAfterGivingUp(tasks, s.written, c, n) ==> s.output[c] <= s.input[c])
  {
    InitInv(listenFd, workers);
    Theorems.OneWorkerIsCalm(Init(listenFd, workers), steps);
    GivingUpLeavesGaps(listenFd, workers, steps, c);
  }
}

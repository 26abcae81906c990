/** What every calm run of the echo server keeps. */
module EchoServerSafety {
  import P = ThreadPool
  import PoolSafety = ThreadPoolSafety
  import opened EchoServer

  /** The network thread is the only enqueuer. */
  ghost predicate NetAndPool(s: Server) {
    && PoolSafety.Inv(s.pool)
    && (!s.pool.enqueue.NoEnqueue? ==> s.net.Holding?)
    && (s.net.Holding? ==> !s.pool.enqueue.NoEnqueue?)
    && s.pool.owed == (if s.net.Owing? then 1 else 0)
  }

  /** A descriptor that an event may name. */
  predicate Expected(s: Server, fd: int) {
    fd in s.watched || (fd == s.listenFd && s.listening)
  }

  ghost predicate Descriptors(s: Server) {
    && |s.output| == |s.input| && s.listenFd !in s.open
    && (forall fd :: fd in s.open ==> s.open[fd] < |s.input|)
    && (forall a, b :: a in s.open && b in s.open && s.open[a] == s.open[b] ==> a == b)
    && s.watched <= s.open.Keys
    && Distinct(s.events) && (forall i :: 0 <= i < |s.events| ==> Expected(s, s.events[i].fd))
    && (s.net.Accepting? ==> s.listening)
  }

  /** A task with something left to do names an open descriptor that still stands for its connection. */
  ghost predicate Targets(s: Server) {
    && (forall k :: 0 <= k < |Tasks(s)| ==> Tasks(s)[k].conn < |s.input|)
    && (forall k :: 0 <= k < |Tasks(s)| && !Drained(s, k) ==>
          Tasks(s)[k].fd in s.open && s.open[Tasks(s)[k].fd] == Tasks(s)[k].conn)
    && (forall k :: k in s.written ==> k < |s.pool.takers|)
  }

  /** A connection's close task is its last task, and its descriptor is no longer watched. */
  ghost predicate CloseIsLast(s: Server) {
    && (forall j, k :: 0 <= j < k < |Tasks(s)| && Tasks(s)[j].conn == Tasks(s)[k].conn ==> Tasks(s)[j].Echo?)
    && (forall k, fd :: 0 <= k < |Tasks(s)| && Tasks(s)[k].Close? && fd in s.watched && fd in s.open ==>
          s.open[fd] != Tasks(s)[k].conn)
  }

  /** A worker holds a task only when the earlier tasks of that connection have been written. */
  ghost predicate Serial(s: Server) {
    forall w :: 0 <= w < |s.pool.workers| && PoolSafety.HasTask(s.pool.workers[w]) ==>
        HeadOfLine(s, s.pool.workers[w].ticket)
  }

  ghost predicate HeadOfLine(s: Server, k: nat) {
    k < |Tasks(s)| ==> forall j :: 0 <= j < k && Tasks(s)[j].conn == Tasks(s)[k].conn ==> Drained(s, j)
  }

  /** Bytes of connection c read but not yet written, from task k on. */
  function Pending(tasks: seq<Task>, finished: set<nat>, written: map<nat, nat>, c: nat, k: nat): seq<Byte>
    decreases |tasks| - k
  {
    if k >= |tasks| then []
    else Rest(tasks, finished, written, c, k) + Pending(tasks, finished, written, c, k + 1)
  }

  function Rest(tasks: seq<Task>, finished: set<nat>, written: map<nat, nat>, c: nat, k: nat): seq<Byte>
    requires k < |tasks|
  {
    if tasks[k].Echo? && tasks[k].conn == c && k !in finished && CountAt(written, k) <= |tasks[k].data|
    then tasks[k].data[CountAt(written, k)..] else []
  }

  function Unwritten(s: Server, c: nat): seq<Byte> {
    Pending(Tasks(s), s.pool.finished, s.written, c, 0)
  }

  /** Conservation, per connection: what was written, then what is still to be written, is what was read. */
  ghost predicate Streams(s: Server) {
    |s.output| == |s.input| && forall c :: 0 <= c < |s.input| && c !in s.failed ==>
        s.output[c] + Unwritten(s, c) == s.input[c]
  }

  ghost predicate Closes(s: Server) {
    && (forall i, j :: 0 <= i < j < |s.closes| ==> s.closes[i] != s.closes[j])
    && (forall i :: 0 <= i < |s.closes| ==> s.closes[i] < |s.input| && forall fd :: fd in s.open ==>
          s.open[fd] != s.closes[i])
  }

  ghost predicate Inv(s: Server) {
    NetAndPool(s) && Descriptors(s) && Targets(s) && CloseIsLast(s) && Serial(s) && Streams(s) && Closes(s)
  }

  lemma InitInv(listenFd: int, workers: nat)
    ensures Inv(Init(listenFd, workers))
  {
    PoolSafety.InitInv<Task>(workers);
  }

  // ----- lemmas about what is pending

  /** Nothing of c is pending when no task has anything left for c. */
  lemma {:induction false} PendingNothing(tasks: seq<Task>, f: set<nat>, w: map<nat, nat>, c: nat, k: nat)
    requires forall j :: k <= j < |tasks| ==> Rest(tasks, f, w, c, j) == []
    ensures Pending(tasks, f, w, c, k) == []
    decreases |tasks| - k
  {
    if k < |tasks| {
      PendingNothing(tasks, f, w, c, k + 1);
    }
  }

  /** A task made later is pending last. */
  lemma {:induction false} PendingAppend(tasks: seq<Task>, t: Task, f: set<nat>, w: map<nat, nat>, c: nat, k: nat)
    requires k <= |tasks| && |tasks| !in f && |tasks| !in w
    ensures Pending(tasks + [t], f, w, c, k) ==
            Pending(tasks, f, w, c, k) + (if t.Echo? && t.conn == c then t.data else [])
    decreases |tasks| - k
  {
    if k < |tasks| {
      PendingAppend(tasks, t, f, w, c, k + 1);
      assert Rest(tasks + [t], f, w, c, k) == Rest(tasks, f, w, c, k);
    } else {
      PendingLast(tasks, t, f, w, c);
    }
  }

  lemma PendingLast(tasks: seq<Task>, t: Task, f: set<nat>, w: map<nat, nat>, c: nat)
    requires |tasks| !in f && |tasks| !in w
    ensures Pending(tasks + [t], f, w, c, |tasks|) == if t.Echo? && t.conn == c then t.data else []
  {
    assert Pending(tasks + [t], f, w, c, |tasks| + 1) == [];
    assert (tasks + [t])[|tasks|] == t;
  }

  /** Two bookkeepings that leave the same rest for c leave the same bytes pending. */
  lemma {:induction false} PendingSame(tasks: seq<Task>, f: set<nat>, f': set<nat>, w: map<nat, nat>, w': map<nat, nat>,
      c: nat, k: nat)
    requires forall j :: k <= j < |tasks| ==> Rest(tasks, f, w, c, j) == Rest(tasks, f', w', c, j)
    ensures Pending(tasks, f, w, c, k) == Pending(tasks, f', w', c, k)
    decreases |tasks| - k
  {
    if k < |tasks| {
      PendingSame(tasks, f, f', w, w', c, k + 1);
    }
  }

  /** Taking a chunk off the front of the first task of c with anything left takes it off what is pending. */
  lemma PendingTakesFront(tasks: seq<Task>, f: set<nat>, w: map<nat, nat>, w': map<nat, nat>, c: nat, t: nat,
      chunk: seq<Byte>)
    requires t < |tasks| && Rest(tasks, f, w, c, t) == chunk + Rest(tasks, f, w', c, t)
    requires forall j :: 0 <= j < t ==> Rest(tasks, f, w, c, j) == []
    requires forall j :: 0 <= j < t ==> Rest(tasks, f, w', c, j) == []
    requires forall j :: t < j < |tasks| ==> Rest(tasks, f, w, c, j) == Rest(tasks, f, w', c, j)
    ensures Pending(tasks, f, w, c, 0) == chunk + Pending(tasks, f, w', c, 0)
  {
    PendingSkips(tasks, f, w, c, 0, t);
    PendingSkips(tasks, f, w', c, 0, t);
    PendingSame(tasks, f, f, w, w', c, t + 1);
    PendingFront(tasks, f, w, w', c, t, chunk);
  }

  lemma PendingFront(tasks: seq<Task>, f: set<nat>, w: map<nat, nat>, w': map<nat, nat>, c: nat, t: nat,
      chunk: seq<Byte>)
    requires t < |tasks| && Rest(tasks, f, w, c, t) == chunk + Rest(tasks, f, w', c, t)
    requires Pending(tasks, f, w, c, t + 1) == Pending(tasks, f, w', c, t + 1)
    ensures Pending(tasks, f, w, c, t) == chunk + Pending(tasks, f, w', c, t)
  {
    Associative(chunk, Rest(tasks, f, w', c, t), Pending(tasks, f, w', c, t + 1));
  }

  lemma {:induction false} PendingSkips(tasks: seq<Task>, f: set<nat>, w: map<nat, nat>, c: nat, k: nat, t: nat)
    requires k <= t <= |tasks| && forall j :: k <= j < t ==> Rest(tasks, f, w, c, j) == []
    ensures Pending(tasks, f, w, c, k) == Pending(tasks, f, w, c, t)
    decreases t - k
  {
    if k < t {
      PendingSkips(tasks, f, w, c, k + 1, t);
    }
  }

  lemma Associative(a: seq<Byte>, b: seq<Byte>, c: seq<Byte>)
    ensures (a + b) + c == a + (b + c)
  {
  }

  /** Writing n bytes of the first task of its connection with anything left. */
  lemma PendingWrite(tasks: seq<Task>, f: set<nat>, w: map<nat, nat>, t: nat, n: nat)
    requires t < |tasks| && tasks[t].Echo? && t !in f && CountAt(w, t) + n <= |tasks[t].data|
    requires forall j :: 0 <= j < t ==> Rest(tasks, f, w, tasks[t].conn, j) == []
    ensures var w' := w[t := CountAt(w, t) + n];
            Pending(tasks, f, w, tasks[t].conn, 0) ==
            tasks[t].data[CountAt(w, t)..CountAt(w, t) + n] + Pending(tasks, f, w', tasks[t].conn, 0)
  {
    var w' := w[t := CountAt(w, t) + n];
    var c := tasks[t].conn;
    assert forall j: nat :: j < |tasks| && j != t ==> Rest(tasks, f, w, c, j) == Rest(tasks, f, w', c, j);
    RestAfterWrite(tasks, f, w, t, n);
    PendingTakesFront(tasks, f, w, w', c, t, tasks[t].data[CountAt(w, t)..CountAt(w, t) + n]);
  }

  lemma RestAfterWrite(tasks: seq<Task>, f: set<nat>, w: map<nat, nat>, t: nat, n: nat)
    requires t < |tasks| && tasks[t].Echo? && t !in f && CountAt(w, t) + n <= |tasks[t].data|
    ensures var w' := w[t := CountAt(w, t) + n];
            Rest(tasks, f, w, tasks[t].conn, t) ==
            tasks[t].data[CountAt(w, t)..CountAt(w, t) + n] + Rest(tasks, f, w', tasks[t].conn, t)
  {
    var w' := w[t := CountAt(w, t) + n];
    var from, data := CountAt(w, t), tasks[t].data;
    assert CountAt(w', t) == from + n;
    assert data[from..] == data[from..from + n] + data[from + n..];
  }

  // ----- every step

  /** A step that changes neither the tasks nor the streams keeps everything about them. */
  lemma SameTasksKeepInv(s: Server, s': Server)
    requires Targets(s) && CloseIsLast(s) && Serial(s) && Streams(s) && Closes(s)
    requires Tasks(s') == Tasks(s) && s'.pool.finished == s.pool.finished && s'.written == s.written
    requires s'.pool.takers == s.pool.takers
    requires forall w :: 0 <= w < |s'.pool.workers| && PoolSafety.HasTask(s'.pool.workers[w]) ==>
               w < |s.pool.workers| && PoolSafety.HasTask(s.pool.workers[w])
                   && s.pool.workers[w].ticket == s'.pool.workers[w].ticket
    requires s'.open == s.open && s'.watched <= s.watched && s'.input == s.input && s'.output == s.output
    requires s'.closes == s.closes && s'.failed == s.failed
    ensures Targets(s') && CloseIsLast(s') && Serial(s') && Streams(s') && Closes(s')
  {
    assert forall k: nat :: Drained(s', k) == Drained(s, k);
    forall w | 0 <= w < |s'.pool.workers| && PoolSafety.HasTask(s'.pool.workers[w])
      ensures HeadOfLine(s', s'.pool.workers[w].ticket)
    {
      assert HeadOfLine(s, s.pool.workers[w].ticket);
    }
    assert forall c :: Unwritten(s', c) == Unwritten(s, c);
  }

  lemma NetKeepsInv(s: Server, st: Step)
    requires Inv(s) && Enabled(s, st)
    requires st.WaitReturns? || st.EventsDone? || st.SkipEvent? || st.ReadNothing?
               || st.AcceptStart? || st.AcceptDone? || st.WriteAgain?
    ensures Inv(Apply(s, st))
  {
    var s' := Apply(s, st);
    assert Tasks(s') == Tasks(s);
    SameTasksKeepInv(s, s');
  }

  lemma AcceptKeepsTasks(s: Server, fd: int, registered: bool)
    requires Targets(s) && CloseIsLast(s) && Serial(s) && Descriptors(s) && Enabled(s, AcceptOne(fd, registered))
    ensures var s' := Apply(s, AcceptOne(fd, registered)); Targets(s') && CloseIsLast(s') && Serial(s')
  {
    var s' := Apply(s, AcceptOne(fd, registered));
    assert Tasks(s') == Tasks(s);
    assert forall k: nat :: Drained(s', k) == Drained(s, k);
    forall w | 0 <= w < |s'.pool.workers| && PoolSafety.HasTask(s'.pool.workers[w])
      ensures HeadOfLine(s', s'.pool.workers[w].ticket)
    {
      assert HeadOfLine(s, s.pool.workers[w].ticket);
    }
  }

  lemma AcceptKeepsStreams(s: Server, fd: int, registered: bool)
    requires Targets(s) && Streams(s) && Enabled(s, AcceptOne(fd, registered))
    ensures Streams(Apply(s, AcceptOne(fd, registered)))
  {
    var s' := Apply(s, AcceptOne(fd, registered));
    var c := |s.input|;
    assert Tasks(s') == Tasks(s);
    PendingNothing(Tasks(s), s.pool.finished, s.written, c, 0);
    forall d | 0 <= d < |s'.input| && d !in s'.failed ensures s'.output[d] + Unwritten(s', d) == s'.input[d] {
      assert Unwritten(s', d) == Unwritten(s, d);
    }
  }

  lemma AcceptKeepsInv(s: Server, fd: int, registered: bool)
    requires Inv(s) && Enabled(s, AcceptOne(fd, registered))
    ensures Inv(Apply(s, AcceptOne(fd, registered)))
  {
    AcceptKeepsTasks(s, fd, registered);
    AcceptKeepsStreams(s, fd, registered);
    AcceptKeepsCloses(s, fd, registered);
  }

  lemma AcceptKeepsCloses(s: Server, fd: int, registered: bool)
    requires Closes(s) && Descriptors(s) && Enabled(s, AcceptOne(fd, registered))
    ensures Closes(Apply(s, AcceptOne(fd, registered)))
  {
  }

  /** A read makes one task and extends one input, or makes the close task. */
  lemma ReadKeepsTasks(s: Server, st: Step)
    requires Inv(s) && Enabled(s, st) && (st.ReadData? || st.ReadEnd?)
    ensures var s' := Apply(s, st); Targets(s') && CloseIsLast(s') && Serial(s')
  {
    var s' := Apply(s, st);
    ReadMakesTask(s, st);
    assert Tasks(s')[|Tasks(s)|] == s'.net.task;
    forall w | 0 <= w < |s'.pool.workers| && PoolSafety.HasTask(s'.pool.workers[w])
      ensures HeadOfLine(s', s'.pool.workers[w].ticket)
    {
      HeldTask(s, w);
    }
  }

  lemma ReadMakesTask(s: Server, st: Step)
    requires NetAndPool(s) && Enabled(s, st) && (st.ReadData? || st.ReadEnd?)
    ensures var s' := Apply(s, st);
            && s'.net.Submitting? && Tasks(s') == Tasks(s) + [s'.net.task]
            && forall k: nat :: k < |Tasks(s)| ==> Drained(s', k) == Drained(s, k) && Tasks(s')[k] == Tasks(s)[k]
  {
    var s' := Apply(s, st);
    assert Tasks(s') == Tasks(s) + [s'.net.task];
  }

  lemma ReadKeepsStreams(s: Server, st: Step)
    requires Inv(s) && Enabled(s, st) && (st.ReadData? || st.ReadEnd?)
    ensures Streams(Apply(s, st))
  {
    var s' := Apply(s, st);
    forall d | 0 <= d < |s'.input| && d !in s'.failed ensures s'.output[d] + Unwritten(s', d) == s'.input[d] {
      ReadMakesWork(s, st, d);
      Associative(s.output[d], Unwritten(s, d), DataFor(s'.net.task, d));
    }
  }

  function DataFor(t: Task, c: nat): seq<Byte> {
    if t.Echo? && t.conn == c then t.data else []
  }

  /** What is read is what is still to be written in addition. */
  lemma ReadMakesWork(s: Server, st: Step, c: nat)
    requires NetAndPool(s) && Targets(s) && Streams(s) && Enabled(s, st) && (st.ReadData? || st.ReadEnd?)
    requires c < |s.input|
    ensures var s' := Apply(s, st);
            && s'.net.Submitting? && s'.input[c] == s.input[c] + DataFor(s'.net.task, c)
            && Unwritten(s', c) == Unwritten(s, c) + DataFor(s'.net.task, c)
  {
    ReadMakesTask(s, st);
    NewTaskIsUntouched(s);
    PendingAppend(Tasks(s), Apply(s, st).net.task, s.pool.finished, s.written, c, 0);
  }

  lemma NewTaskIsUntouched(s: Server)
    requires NetAndPool(s) && Targets(s)
    ensures |Tasks(s)| !in s.pool.finished && |Tasks(s)| !in s.written
  {
  }

  lemma ReadKeepsInv(s: Server, st: Step)
    requires Inv(s) && Enabled(s, st) && (st.ReadData? || st.ReadEnd?)
    ensures Inv(Apply(s, st))
  {
    ReadKeepsTasks(s, st);
    ReadKeepsStreams(s, st);
    ReadKeepsDescriptors(s, st);
  }

  lemma ReadKeepsDescriptors(s: Server, st: Step)
    requires Descriptors(s) && Closes(s) && Enabled(s, st) && (st.ReadData? || st.ReadEnd?)
    ensures Descriptors(Apply(s, st)) && Closes(Apply(s, st))
  {
    var s' := Apply(s, st);
    forall i | 0 <= i < |s'.events| ensures Expected(s', s'.events[i].fd) {
      assert s'.events[i].fd == s.events[i + 1].fd != s.events[0].fd;
    }
  }

  lemma EnqueueKeepsInv(s: Server, p: P.Step<Task>)
    requires Inv(s) && Enabled(s, Enqueue(p))
    ensures Inv(Apply(s, Enqueue(p)))
  {
    var s' := Apply(s, Enqueue(p));
    PoolSafety.StepKeepsInv(s.pool, p);
    assert Tasks(s') == Tasks(s);
    SameTasksKeepInv(s, s');
  }

  /** An error event on a connection whose bytes were all written. */
  lemma ErrorKeepsInv(s: Server)
    requires Inv(s) && Enabled(s, ErrorEvent) && ErrorsInTurn(s, ErrorEvent)
    ensures Inv(Apply(s, ErrorEvent))
  {
    ErrorKeepsDescriptors(s);
    ErrorKeepsTasks(s);
    ErrorKeepsStreams(s);
  }

  lemma ErrorKeepsDescriptors(s: Server)
    requires Descriptors(s) && Closes(s) && CloseIsLast(s) && Enabled(s, ErrorEvent)
    ensures var s' := Apply(s, ErrorEvent); Descriptors(s') && Closes(s') && CloseIsLast(s')
  {
    var s' := Apply(s, ErrorEvent);
    assert Tasks(s') == Tasks(s);
    forall i | 0 <= i < |s'.events| ensures Expected(s', s'.events[i].fd) {
      assert s'.events[i].fd == s.events[i + 1].fd != s.events[0].fd;
    }
  }

  lemma ErrorKeepsTasks(s: Server)
    requires Descriptors(s) && Targets(s) && Serial(s) && Enabled(s, ErrorEvent) && ErrorsInTurn(s, ErrorEvent)
    ensures var s' := Apply(s, ErrorEvent); Targets(s') && Serial(s')
  {
    var s' := Apply(s, ErrorEvent);
    assert Tasks(s') == Tasks(s);
    assert forall k: nat :: Drained(s', k) == Drained(s, k);
    forall w | 0 <= w < |s'.pool.workers| && PoolSafety.HasTask(s'.pool.workers[w])
      ensures HeadOfLine(s', s'.pool.workers[w].ticket)
    {
      assert HeadOfLine(s, s.pool.workers[w].ticket);
    }
  }

  lemma ErrorKeepsStreams(s: Server)
    requires Streams(s) && Enabled(s, ErrorEvent)
    ensures Streams(Apply(s, ErrorEvent))
  {
    var s' := Apply(s, ErrorEvent);
    assert Tasks(s') == Tasks(s);
    assert forall c :: Unwritten(s', c) == Unwritten(s, c);
  }

  // ----- steps of the workers

  lemma DrainedHasNoRest(s: Server, k: nat, c: nat)
    requires k < |Tasks(s)| && Drained(s, k)
    ensures Rest(Tasks(s), s.pool.finished, s.written, c, k) == []
  {
  }

  /** The task a worker holds, and its place in the line of its connection. */
  lemma HeldTask(s: Server, w: nat)
    requires NetAndPool(s) && Serial(s) && w < |s.pool.workers| && PoolSafety.HasTask(s.pool.workers[w])
    ensures var k := s.pool.workers[w].ticket;
            && k < |s.pool.takers| && k < |Tasks(s)| && Tasks(s)[k] == s.pool.workers[w].task
            && k !in s.pool.finished && HeadOfLine(s, k)
  {
    assert PoolSafety.GoodHolder(s.pool, w, s.pool.workers[w]);
  }

  /** Popping a task. */
  lemma PopKeepsInv(s: Server, w: nat)
    requires Inv(s) && Enabled(s, Pool(P.Work(w))) && Calm(s, Pool(P.Work(w)))
    requires s.pool.workers[w].Dequeuing?
    ensures Inv(Apply(s, Pool(P.Work(w))))
  {
    var s' := Apply(s, Pool(P.Work(w)));
    PoolSafety.StepKeepsInv(s.pool, P.Work(w));
    PoppedIsKnown(s, w);
    PopKeepsSerial(s, w);
  }

  lemma PoppedIsKnown(s: Server, w: nat)
    requires NetAndPool(s) && Enabled(s, Pool(P.Work(w))) && s.pool.workers[w].Dequeuing?
    ensures |s.pool.takers| < |Tasks(s)| && s.pool.tasks != []
  {
    assert PoolSafety.GoodTest(s.pool, s.pool.workers[w]);
  }

  lemma PopKeepsSerial(s: Server, w: nat)
    requires Targets(s) && CloseIsLast(s) && Serial(s) && Streams(s) && Closes(s)
    requires Enabled(s, Pool(P.Work(w))) && Calm(s, Pool(P.Work(w)))
    requires s.pool.workers[w].Dequeuing? && |s.pool.takers| < |Tasks(s)| && s.pool.tasks != []
    ensures var s' := Apply(s, Pool(P.Work(w)));
            Targets(s') && CloseIsLast(s') && Serial(s') && Streams(s') && Closes(s')
  {
    var s' := Apply(s, Pool(P.Work(w)));
    assert Tasks(s') == Tasks(s);
    assert forall k: nat :: Drained(s', k) == Drained(s, k);
    forall v | 0 <= v < |s'.pool.workers| && PoolSafety.HasTask(s'.pool.workers[v])
      ensures HeadOfLine(s', s'.pool.workers[v].ticket)
    {
      if v != w {
        assert HeadOfLine(s, s.pool.workers[v].ticket);
      }
    }
    assert forall c :: Unwritten(s', c) == Unwritten(s, c);
  }

  /** A task returns: an echo that has written everything, an echo that gave up, or a close. */
  ghost predicate Finishes(s: Server, s': Server, w: nat) {
    && w < |s.pool.workers| && s.pool.workers[w].Running?
    && s'.pool == P.Apply(s.pool, P.Work(w))
    && s'.written == s.written && s'.input == s.input && s'.output == s.output
    && s'.net == s.net && s.failed <= s'.failed
  }

  lemma FinishKeepsSerial(s: Server, s': Server, w: nat)
    requires NetAndPool(s) && Serial(s) && Finishes(s, s', w)
    ensures Tasks(s') == Tasks(s) && Serial(s')
  {
    assert Tasks(s') == Tasks(s);
    forall v | 0 <= v < |s'.pool.workers| && PoolSafety.HasTask(s'.pool.workers[v])
      ensures HeadOfLine(s', s'.pool.workers[v].ticket)
    {
      assert HeadOfLine(s, s.pool.workers[v].ticket);
    }
  }

  lemma FinishKeepsStreams(s: Server, s': Server, w: nat)
    requires NetAndPool(s) && Serial(s) && Streams(s) && Finishes(s, s', w)
    requires !Writing(s, w) || s.pool.workers[w].task.conn in s'.failed
    ensures Streams(s')
  {
    HeldTask(s, w);
    var k := s.pool.workers[w].ticket;
    assert Tasks(s') == Tasks(s);
    forall c | 0 <= c < |s'.input| && c !in s'.failed ensures s'.output[c] + Unwritten(s', c) == s'.input[c] {
      assert forall j: nat :: j < |Tasks(s)| ==>
        Rest(Tasks(s), s.pool.finished, s.written, c, j) == Rest(Tasks(s), s'.pool.finished, s'.written, c, j);
      PendingSame(Tasks(s), s.pool.finished, s'.pool.finished, s.written, s'.written, c, 0);
    }
  }

  /** An echo task returns. */
  lemma EchoReturnsKeepsInv(s: Server, s': Server, w: nat)
    requires Inv(s) && Finishes(s, s', w) && s.pool.workers[w].task.Echo?
    requires !Writing(s, w) || s.pool.workers[w].task.conn in s'.failed
    requires s' == s.(pool := s'.pool, failed := s'.failed)
    ensures Inv(s')
  {
    PoolSafety.StepKeepsInv(s.pool, P.Work(w));
    FinishKeepsSerial(s, s', w);
    FinishKeepsStreams(s, s', w);
    EchoReturnsKeepsTargets(s, s', w);
  }

  lemma EchoReturnsKeepsTargets(s: Server, s': Server, w: nat)
    requires NetAndPool(s) && Targets(s) && CloseIsLast(s) && Finishes(s, s', w)
    requires s' == s.(pool := s'.pool, failed := s'.failed)
    ensures Targets(s') && CloseIsLast(s')
  {
    assert Tasks(s') == Tasks(s);
    assert forall k: nat :: Drained(s, k) ==> Drained(s', k);
  }

  /** A close task returns: its connection has nothing left, and the descriptor becomes free for reuse. */
  lemma CloseReturnsKeepsInv(s: Server, w: nat)
    requires Inv(s) && Enabled(s, Pool(P.Work(w))) && s.pool.workers[w].Running? && s.pool.workers[w].task.Close?
    ensures Inv(Apply(s, Pool(P.Work(w))))
  {
    var s' := Apply(s, Pool(P.Work(w)));
    PoolSafety.StepKeepsInv(s.pool, P.Work(w));
    FinishKeepsSerial(s, s', w);
    FinishKeepsStreams(s, s', w);
    CloseReturnsKeepsTargets(s, w);
    CloseReturnsKeepsDescriptors(s, w);
  }

  lemma CloseTarget(s: Server, w: nat)
    requires NetAndPool(s) && Targets(s) && CloseIsLast(s) && Serial(s)
    requires w < |s.pool.workers| && s.pool.workers[w].Running? && s.pool.workers[w].task.Close?
    ensures var t := s.pool.workers[w].task; t.fd in s.open && s.open[t.fd] == t.conn && t.fd !in s.watched
    ensures var k, c := s.pool.workers[w].ticket, s.pool.workers[w].task.conn;
            forall j :: 0 <= j < |Tasks(s)| && j != k && Tasks(s)[j].conn == c ==> Drained(s, j)
  {
    HeldTask(s, w);
    var k := s.pool.workers[w].ticket;
    assert !Drained(s, k);
    forall j | 0 <= j < |Tasks(s)| && j != k && Tasks(s)[j].conn == Tasks(s)[k].conn ensures Drained(s, j) {
      assert HeadOfLine(s, k);
    }
  }

  lemma CloseReturnsKeepsTargets(s: Server, w: nat)
    requires NetAndPool(s) && Descriptors(s) && Targets(s) && CloseIsLast(s) && Serial(s)
    requires Enabled(s, Pool(P.Work(w))) && s.pool.workers[w].Running? && s.pool.workers[w].task.Close?
    ensures var s' := Apply(s, Pool(P.Work(w))); Targets(s') && CloseIsLast(s')
  {
    var s' := Apply(s, Pool(P.Work(w)));
    CloseTarget(s, w);
    HeldTask(s, w);
    assert Tasks(s') == Tasks(s);
    assert forall k: nat :: Drained(s, k) ==> Drained(s', k);
    forall k | 0 <= k < |Tasks(s')| && !Drained(s', k)
      ensures Tasks(s')[k].fd in s'.open && s'.open[Tasks(s')[k].fd] == Tasks(s')[k].conn
    {
      assert !Drained(s, k);
    }
  }

  lemma CloseReturnsKeepsDescriptors(s: Server, w: nat)
    requires NetAndPool(s) && Descriptors(s) && Targets(s) && CloseIsLast(s) && Serial(s) && Closes(s)
    requires Enabled(s, Pool(P.Work(w))) && s.pool.workers[w].Running? && s.pool.workers[w].task.Close?
    ensures var s' := Apply(s, Pool(P.Work(w))); Descriptors(s') && Closes(s')
  {
    CloseTarget(s, w);
  }

  lemma PoolKeepsInv(s: Server, p: P.Step<Task>)
    requires Inv(s) && Enabled(s, Pool(p)) && Calm(s, Pool(p))
    ensures Inv(Apply(s, Pool(p)))
  {
    var s' := Apply(s, Pool(p));
    if p.Work? && s.pool.workers[p.w].Dequeuing? {
      PopKeepsInv(s, p.w);
    } else if p.Work? && s.pool.workers[p.w].Running? {
      if s.pool.workers[p.w].task.Close? {
        CloseReturnsKeepsInv(s, p.w);
      } else {
        EchoReturnsKeepsInv(s, s', p.w);
      }
    } else {
      OtherPoolStepKeepsInv(s, p);
    }
  }

  /** Pool steps that neither pop nor finish a task. */
  lemma OtherPoolStepKeepsInv(s: Server, p: P.Step<Task>)
    requires Inv(s) && Enabled(s, Pool(p))
    requires p.Work? ==> !s.pool.workers[p.w].Dequeuing? && !s.pool.workers[p.w].Running?
    ensures Inv(Apply(s, Pool(p)))
  {
    PoolSafety.StepKeepsInv(s.pool, p);
    OtherPoolStepTouchesNoTask(s, p);
    SameTasksKeepInv(s, Apply(s, Pool(p)));
  }

  lemma OtherPoolStepTouchesNoTask(s: Server, p: P.Step<Task>)
    requires Enabled(s, Pool(p))
    requires p.Work? ==> !s.pool.workers[p.w].Dequeuing? && !s.pool.workers[p.w].Running?
    ensures var s' := Apply(s, Pool(p));
            && s' == s.(pool := s'.pool) && Tasks(s') == Tasks(s)
            && s'.pool.finished == s.pool.finished && s'.pool.takers == s.pool.takers
            && s'.pool.enqueue == s.pool.enqueue && s'.pool.owed == s.pool.owed
            && (forall w :: 0 <= w < |s'.pool.workers| && PoolSafety.HasTask(s'.pool.workers[w]) ==>
                  w < |s.pool.workers| && PoolSafety.HasTask(s.pool.workers[w])
                      && s.pool.workers[w].ticket == s'.pool.workers[w].ticket)
  {
  }

  // ----- write()

  /** A write always reaches the connection its bytes were read from. */
  lemma WriteReachesItsConnection(s: Server, w: nat)
    requires NetAndPool(s) && Targets(s) && Serial(s) && Writing(s, w)
    ensures var t := s.pool.workers[w].task; t.fd in s.open && s.open[t.fd] == t.conn
  {
    HeldTask(s, w);
    assert !Drained(s, s.pool.workers[w].ticket);
  }

  lemma WriteKeepsTasks(s: Server, w: nat, n: nat)
    requires NetAndPool(s) && Targets(s) && CloseIsLast(s) && Serial(s) && Enabled(s, Write(w, n))
    ensures var s' := Apply(s, Write(w, n)); Targets(s') && CloseIsLast(s') && Serial(s')
  {
    var s' := Apply(s, Write(w, n));
    HeldTask(s, w);
    assert Tasks(s') == Tasks(s);
    assert forall k: nat :: Drained(s, k) ==> Drained(s', k);
    forall v | 0 <= v < |s'.pool.workers| && PoolSafety.HasTask(s'.pool.workers[v])
      ensures HeadOfLine(s', s'.pool.workers[v].ticket)
    {
      assert HeadOfLine(s, s.pool.workers[v].ticket);
    }
  }

  lemma WriteKeepsStreams(s: Server, w: nat, n: nat)
    requires NetAndPool(s) && Targets(s) && Serial(s) && Streams(s) && Enabled(s, Write(w, n))
    ensures Streams(Apply(s, Write(w, n)))
  {
    var s' := Apply(s, Write(w, n));
    HeldTask(s, w);
    WriteReachesItsConnection(s, w);
    WriteMovesBytes(s, w, n);
    var k := s.pool.workers[w].ticket;
    var c := Tasks(s)[k].conn;
    forall d | 0 <= d < |s'.input| && d !in s'.failed ensures s'.output[d] + Unwritten(s', d) == s'.input[d] {
      if d == c {
        Associative(s.output[c], Tasks(s)[k].data[Written(s, k)..Written(s, k) + n], Unwritten(s', c));
      } else {
        PendingSame(Tasks(s), s.pool.finished, s.pool.finished, s.written, s'.written, d, 0);
      }
    }
  }

  /** What is written comes off the front of what was still to be written. */
  lemma WriteMovesBytes(s: Server, w: nat, n: nat)
    requires NetAndPool(s) && Serial(s) && Enabled(s, Write(w, n))
    ensures var k, t := s.pool.workers[w].ticket, s.pool.workers[w].task;
            var s' := Apply(s, Write(w, n));
            && Tasks(s') == Tasks(s) && Written(s, k) + n <= |t.data|
            && Unwritten(s, t.conn) == t.data[Written(s, k)..Written(s, k) + n] + Unwritten(s', t.conn)
  {
    HeldTask(s, w);
    WriteTouchesNoTask(s, w, n);
    EarlierHaveNoRest(s, s.pool.workers[w].ticket);
    PendingWrite(Tasks(s), s.pool.finished, s.written, s.pool.workers[w].ticket, n);
  }

  lemma WriteTouchesNoTask(s: Server, w: nat, n: nat)
    requires Enabled(s, Write(w, n))
    ensures var k := s.pool.workers[w].ticket;
            var s' := Apply(s, Write(w, n));
            && Tasks(s') == Tasks(s) && s'.pool == s.pool && s'.written == s.written[k := Written(s, k) + n]
  {
  }

  lemma EarlierHaveNoRest(s: Server, k: nat)
    requires k < |Tasks(s)| && HeadOfLine(s, k)
    ensures forall j :: 0 <= j < k ==> Rest(Tasks(s), s.pool.finished, s.written, Tasks(s)[k].conn, j) == []
  {
    forall j | 0 <= j < k ensures Rest(Tasks(s), s.pool.finished, s.written, Tasks(s)[k].conn, j) == [] {
      if Tasks(s)[j].conn == Tasks(s)[k].conn {
        DrainedHasNoRest(s, j, Tasks(s)[k].conn);
      }
    }
  }

  lemma WriteKeepsInv(s: Server, w: nat, n: nat)
    requires Inv(s) && Enabled(s, Write(w, n))
    ensures Inv(Apply(s, Write(w, n)))
  {
    WriteKeepsTasks(s, w, n);
    WriteKeepsStreams(s, w, n);
  }

  lemma StepKeepsInv(s: Server, st: Step)
    requires Inv(s) && Enabled(s, st) && Calm(s, st)
    ensures Inv(Apply(s, st))
  {
    match st {
      case ErrorEvent => ErrorKeepsInv(s);
      case AcceptOne(fd, registered) => AcceptKeepsInv(s, fd, registered);
      case ReadData(_) => ReadKeepsInv(s, st);
      case ReadEnd => ReadKeepsInv(s, st);
      case Enqueue(p) => EnqueueKeepsInv(s, p);
      case Pool(p) => PoolKeepsInv(s, p);
      case Write(w, n) => WriteKeepsInv(s, w, n);
      case WriteFails(w) => EchoReturnsKeepsInv(s, Apply(s, st), w);
      case _ => NetKeepsInv(s, st);
    }
  }

  lemma {:induction false} CalmRunKeepsInv(s: Server, steps: seq<Step>)
    requires Inv(s) && CanRun(s, steps) && CalmRun(s, steps)
    ensures Inv(Run(s, steps))
    decreases |steps|
  {
    if steps != [] {
      StepKeepsInv(s, steps[0]);
      CalmRunKeepsInv(Apply(s, steps[0]), steps[1..]);
    }
  }
}

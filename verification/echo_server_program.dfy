/**
 The network thread of the epoll and kqueue servers in the source's own form: `EventLoop`,
 `AcceptConnection`, `HandleRead` and the `enqueue` of the pool it shares with the workers, each
 statement an update of the fields it changes.  Before each statement the workers, and the thread
 that stops the pool, may run any number of their steps; those are steps of the state machine.
 The thread is watched for as long as `patience` lasts.
 */
module EchoServerProgram {
  import opened Unused
  import P = ThreadPool
  import PoolSafety = ThreadPoolSafety
  import opened EchoServer
  import Safety = EchoServerSafety
  import Always = EchoServerAlways
  import Theorems = EchoServerTheorems

  type Chunk = b: seq<Byte> | 0 < |b| <= BUF_SIZE witness [0]

  /** What `read` returns: data, end of file, EAGAIN, or another error. */
  datatype ReadResult = Data(bytes: Chunk) | Eof | WouldBlock | Failure

  /**
   What the world answers during one turn of the event loop: the loop test, the wait, each descriptor's
   read, how many clients wait to be accepted, and whether each of them can be registered.
   */
  datatype Answers = Answers(
    running: bool,
    fails: bool,
    ready: seq<Event>,
    readOf: int -> ReadResult,
    arrivals: nat,
    registered: nat -> bool)

  // ----- what an event asks for

  function ServiceOfRead(r: ReadResult): Step {
    match r
    case Data(bytes) => ReadData(bytes)
    case WouldBlock => ReadNothing
    case _ => ReadEnd
  }

  /** The one step that serves an event. */
  function ServiceOf(e: Event, listenFd: int, readOf: int -> ReadResult): Step {
    if e.error then ErrorEvent
    else if e.fd == listenFd then AcceptStart
    else if e.readable then ServiceOfRead(readOf(e.fd))
    else SkipEvent
  }

  function ServicesOf(es: seq<Event>, listenFd: int, readOf: int -> ReadResult): seq<Step> {
    if es == [] then []
    else ServicesOf(es[..|es| - 1], listenFd, readOf) + [ServiceOf(es[|es| - 1], listenFd, readOf)]
  }

  predicate IsService(st: Step) {
    st.ErrorEvent? || st.AcceptStart? || st.ReadData? || st.ReadNothing? || st.ReadEnd? || st.SkipEvent?
  }

  /** The services among the steps taken, in order. */
  function Services(steps: seq<Step>): seq<Step> {
    if steps == [] then []
    else
      var last := steps[|steps| - 1];
      Services(steps[..|steps| - 1]) + if IsService(last) then [last] else []
  }

  /** The batches of events that the waits returned, in order. */
  function Batches(steps: seq<Step>): seq<seq<Event>> {
    if steps == [] then []
    else
      var last := steps[|steps| - 1];
      Batches(steps[..|steps| - 1]) + if last.WaitReturns? then [last.events] else []
  }

  /** All services that the batches of consecutive turns ask for. */
  function ServicesOfTurns(batches: seq<seq<Event>>, listenFd: int, world: nat -> Answers): seq<Step> {
    if batches == [] then []
    else
      var k := |batches| - 1;
      ServicesOfTurns(batches[..k], listenFd, world) + ServicesOf(batches[k], listenFd, world(k).readOf)
  }

  predicate IsForeign(st: Step) {
    st.Pool? || st.Write? || st.WriteAgain? || st.WriteFails?
  }

  /** What the network thread may rely on while the others run. */
  ghost predicate Undisturbed(s: Server, s': Server) {
    && s'.listenFd == s.listenFd && s'.listening == s.listening && s'.net == s.net && s'.events == s.events
    && s'.watched == s.watched && s'.input == s.input
    && s'.pool.enqueued == s.pool.enqueued && s'.pool.enqueue == s.pool.enqueue && s'.pool.owed == s.pool.owed
    && (s.pool.owner.Enqueuer? ==> s'.pool.owner.Enqueuer?)
    && |s'.pool.workers| == |s.pool.workers|
    && s.closes <= s'.closes && WatchedStay(s, s')
  }

  /** A descriptor that is watched stays open and keeps its connection. */
  ghost predicate WatchedStay(s: Server, s': Server) {
    forall fd :: fd in s.watched && fd in s.open ==> fd in s'.open && s'.open[fd] == s.open[fd]
  }

  lemma ForeignStepUndisturbed(s: Server, st: Step)
    requires Always.Always(s) && Enabled(s, st) && IsForeign(st)
    ensures Undisturbed(s, Apply(s, st))
  {
    if st.Pool? {
      PoolStepKeepsWatched(s, st.st);
      PoolStepUndisturbed(s, st.st);
    }
  }

  lemma PoolStepUndisturbed(s: Server, p: P.Step<Task>)
    requires Safety.NetAndPool(s) && Enabled(s, Pool(p)) && WatchedStay(s, Apply(s, Pool(p)))
    ensures Undisturbed(s, Apply(s, Pool(p)))
  {
    Always.PoolStepEnqueuesNothing(s.pool, p);
    if s.pool.owner.Enqueuer? {
      PoolStepRespectsMutex(s.pool, p);
    }
  }

  lemma PoolStepRespectsMutex(s: P.Pool<Task>, p: P.Step<Task>)
    requires PoolSafety.Mutex(s) && P.Enabled(s, p) && !IsEnqueueStep(p) && s.owner.Enqueuer?
    ensures P.Apply(s, p).owner.Enqueuer?
  {
    if p.Work? {
      assert PoolSafety.HoldsMutex(s.workers[p.w]) <==> s.owner == P.Worker(p.w);
    }
  }

  lemma PoolStepKeepsWatched(s: Server, p: P.Step<Task>)
    requires Safety.NetAndPool(s) && Always.CloseTargets(s) && Enabled(s, Pool(p))
    ensures WatchedStay(s, Apply(s, Pool(p)))
  {
    if p.Work? && s.pool.workers[p.w].Running? && s.pool.workers[p.w].task.Close? {
      Always.HeldClose(s, p.w);
      assert Always.Closable(s, s.pool.workers[p.w].task);
    }
  }

  class NetworkThread {
    var listenFd: int
    var listening: bool
    var pool: P.Pool<Task>
    var net: NetPc
    var events: seq<Event>
    var open: map<int, nat>
    var watched: set<int>
    var input: seq<seq<Byte>>
    var output: seq<seq<Byte>>
    var written: map<nat, nat>
    var closes: seq<nat>
    var failed: set<nat>
    ghost var history: seq<Step>
    ghost var served: seq<Step>            // the services among them
    ghost var batches: seq<seq<Event>>     // what the waits returned

    function Model(): Server
      reads this
    {
      Server(listenFd, listening, pool, net, events, open, watched, input, output, written, closes, failed)
    }

    ghost function Start(): Server
      reads this
    {
      Init(listenFd, |pool.workers|)
    }

    /** The server is where its history leads the state machine. */
    ghost predicate Valid()
      reads this
    {
      && CanRun(Start(), history) && Model() == Run(Start(), history)
      && served == Services(history) && batches == Batches(history)
    }

    lemma ValidMeansAlways()
      requires Valid()
      ensures Always.Reachable(listenFd, |pool.workers|, Model()) && Always.Always(Model())
    {
      Always.ReachableMeansAlways(listenFd, |pool.workers|, Model());
    }

    /** The step just taken is added to the records. */
    lemma Landed(start: Server, before: Server, past: seq<Step>, st: Step)
      requires CanRun(start, past) && before == Run(start, past) && start == Start()
      requires Enabled(before, st) && Model() == Apply(before, st) && history == past + [st]
      requires served == Services(past) + if IsService(st) then [st] else []
      requires batches == Batches(past) + if st.WaitReturns? then [st.events] else []
      ensures Valid()
    {
      Always.RunSnoc(start, past, st);
      assert history[..|past|] == past;
    }

    constructor (listenFd: int, workers: nat)
      ensures Valid() && Model() == Init(listenFd, workers)
    {
      this.listenFd, listening, pool, net, events := listenFd, true, P.Init(workers), Waiting, [];
      open, watched, input, output := map[], {}, [], [];
      written, closes, failed := map[], [], {};
      history, served, batches := [], [], [];
    }

    // ----- the other threads

    method Become(s: Server)
      requires s.listenFd == listenFd
      modifies this
      ensures Model() == s && history == old(history) && listenFd == old(listenFd)
      ensures served == old(served) && batches == old(batches)
    {
      BecomeNet(s);
      listening, output, written, closes, failed := s.listening, s.output, s.written, s.closes, s.failed;
    }

    method BecomeNet(s: Server)
      modifies this`pool, this`net, this`events, this`open, this`watched, this`input
      ensures pool == s.pool && net == s.net && events == s.events
      ensures open == s.open && watched == s.watched && input == s.input
    {
      pool, net, events, open, watched, input := s.pool, s.net, s.events, s.open, s.watched, s.input;
    }

    /** One step of a worker, or of the thread that stops the pool. */
    method Perform(st: Step)
      requires Valid() && Enabled(Model(), st) && IsForeign(st)
      modifies this
      ensures Valid() && Model() == Apply(old(Model()), st)
      ensures served == old(served) && batches == old(batches)
    {
      ghost var start, before, past := Start(), Model(), history;
      Theorems.StepKeepsWorkers(before, st);
      Always.ListenFdStays(before, [st]);
      Become(Apply(Model(), st));
      history := history + [st];
      Landed(start, before, past, st);
    }

    method OthersRun()
      requires Valid()
      modifies this
      ensures Valid() && Undisturbed(old(Model()), Model())
      ensures served == old(served) && batches == old(batches)
    {
      var budget: nat := *;
      while budget > 0
        invariant Valid() && Undisturbed(old(Model()), Model())
        invariant served == old(served) && batches == old(batches)
      {
        budget := budget - 1;
        var st: Step := *;
        if Enabled(Model(), st) && IsForeign(st) {
          ValidMeansAlways();
          ForeignStepUndisturbed(Model(), st);
          Perform(st);
        }
      }
    }

    // ----- pool_.enqueue(task)

    /** The network thread's own data, which no step of enqueue touches. */
    static ghost predicate Kept(s: Server, s': Server) {
      && s'.listenFd == s.listenFd && s'.events == s.events && s'.watched == s.watched && s'.input == s.input
      && s.closes <= s'.closes && |s'.pool.workers| == |s.pool.workers|
    }

    /** `lock_guard lock(mtx_)`: waits for the mutex while the others run. */
    method LockPool(task: Task, patience: nat) returns (ok: bool)
      requires Valid() && net == Submitting(task)
      modifies this
      ensures Valid() && Kept(old(Model()), Model()) && pool.enqueued == old(pool.enqueued)
      ensures served == old(served) && batches == old(batches)
      ensures !ok ==> patience == 0 || !pool.owner.Free?
      ensures ok ==> net.Holding? && pool.enqueue == P.Locked(task)
    {
      for i := 0 to patience
        invariant Valid() && Undisturbed(old(Model()), Model())
        invariant served == old(served) && batches == old(batches)
        invariant i == 0 || !pool.owner.Free?
      {
        OthersRun();
        if pool.owner.Free? {
          TakeMutex(task);
          return true;
        }
      }
      return false;
    }

    method TakeMutex(task: Task)
      requires Valid() && net == Submitting(task) && pool.owner.Free?
      modifies this`pool, this`net, this`history
      ensures Valid() && net.Holding? && pool == old(pool).(owner := P.Enqueuer, enqueue := P.Locked(task))
    {
      ghost var start, before, past := Start(), Model(), history;
      pool := pool.(owner := P.Enqueuer, enqueue := P.Locked(task));
      net := Holding;
      history := history + [Enqueue(P.Lock(task))];
      Landed(start, before, past, Enqueue(P.Lock(task)));
    }

    /** `tasks_.push(std::move(task))`. */
    method PushTask(task: Task)
      requires Valid() && net.Holding? && pool.enqueue == P.Locked(task)
      modifies this`pool, this`history
      ensures Valid()
      ensures pool == old(pool).(tasks := old(pool.tasks) + [task], enqueued := old(pool.enqueued) + [task],
                                 enqueue := P.Pushed)
    {
      ghost var start, before, past := Start(), Model(), history;
      pool := pool.(tasks := pool.tasks + [task], enqueued := pool.enqueued + [task], enqueue := P.Pushed);
      history := history + [Enqueue(P.Push)];
      Landed(start, before, past, Enqueue(P.Push));
    }

    /** The lock_guard goes out of scope. */
    method ReleaseMutex()
      requires Valid() && net.Holding? && pool.enqueue.Pushed?
      modifies this`pool, this`net, this`history
      ensures Valid() && net.Owing?
      ensures pool == old(pool).(owner := P.Free, enqueue := P.NoEnqueue, owed := old(pool.owed) + 1)
    {
      ghost var start, before, past := Start(), Model(), history;
      pool := pool.(owner := P.Free, enqueue := P.NoEnqueue, owed := pool.owed + 1);
      net := Owing;
      history := history + [Enqueue(P.Unlock)];
      Landed(start, before, past, Enqueue(P.Unlock));
    }

    /** `cv_.notify_one()`: one sleeping worker if there is one. */
    method NotifyOne()
      requires Valid() && net.Owing?
      modifies this`pool, this`net, this`history
      ensures Valid() && net.Dispatching? && pool.enqueued == old(pool.enqueued)
      ensures if P.NobodyAsleep(old(pool)) then pool.workers == old(pool.workers)
              else exists w :: 0 <= w < |old(pool.workers)| && old(pool.workers)[w].Asleep?
                               && pool.workers == old(pool.workers)[w := P.Woken]
    {
      ValidMeansAlways();
      if w: nat :| w < |pool.workers| && pool.workers[w].Asleep? {
        WakeWorker(w);
      } else {
        WakeNobody();
      }
    }

    method WakeWorker(w: nat)
      requires Valid() && net.Owing? && pool.owed > 0 && w < |pool.workers| && pool.workers[w].Asleep?
      modifies this`pool, this`net, this`history
      ensures Valid() && net.Dispatching?
      ensures pool == old(pool).(owed := old(pool.owed) - 1, workers := old(pool.workers)[w := P.Woken])
    {
      ghost var start, before, past := Start(), Model(), history;
      pool := pool.(owed := pool.owed - 1, workers := pool.workers[w := P.Woken]);
      net := Dispatching;
      history := history + [Enqueue(P.NotifyOne(w))];
      Landed(start, before, past, Enqueue(P.NotifyOne(w)));
    }

    method WakeNobody()
      requires Valid() && net.Owing? && pool.owed > 0 && P.NobodyAsleep(pool)
      modifies this`pool, this`net, this`history
      ensures Valid() && net.Dispatching? && pool == old(pool).(owed := old(pool.owed) - 1)
    {
      ghost var start, before, past := Start(), Model(), history;
      pool := pool.(owed := pool.owed - 1);
      net := Dispatching;
      history := history + [Enqueue(P.NotifyNobody)];
      Landed(start, before, past, Enqueue(P.NotifyNobody));
    }

    /** `pool_.enqueue(task)`: the task joins the end of the queue, whatever the workers do meanwhile. */
    method Submit(task: Task, patience: nat) returns (ok: bool)
      requires Valid() && net == Submitting(task)
      modifies this
      ensures Valid() && Kept(old(Model()), Model()) && served == old(served) && batches == old(batches)
      ensures ok ==> net.Dispatching? && pool.enqueued == old(pool.enqueued) + [task]
      ensures !ok ==> (patience == 0 || !pool.owner.Free?) && pool.enqueued == old(pool.enqueued)
    {
      ok := LockPool(task, patience);
      if ok {
        PushAndNotify(task);
      }
    }

    /** The locked block and the notification. */
    method PushAndNotify(task: Task)
      requires Valid() && net.Holding? && pool.enqueue == P.Locked(task)
      modifies this
      ensures Valid() && Kept(old(Model()), Model()) && served == old(served) && batches == old(batches)
      ensures net.Dispatching? && pool.enqueued == old(pool.enqueued) + [task]
    {
      OthersRun();
      PushTask(task);
      OthersRun();
      ReleaseMutex();
      OthersRun();
      NotifyOne();
    }

    // ----- handle_read

    /** Data arrived: `buf` is shrunk to it and moved into the closure about to be enqueued. */
    method TakeData(fd: int, bytes: Chunk)
      requires Valid() && ReadsHead(Model()) && events[0].fd == fd
      modifies this`events, this`input, this`net, this`history, this`served
      ensures Valid() && events == old(events)[1..] && net == Submitting(Echo(fd, open[fd], bytes))
      ensures input == old(input)[open[fd] := old(input)[open[fd]] + bytes]
      ensures served == old(served) + [ReadData(bytes)]
    {
      ghost var start, before, past := Start(), Model(), history;
      AppendInput(fd, bytes);
      history, served := history + [ReadData(bytes)], served + [ReadData(bytes)];
      Landed(start, before, past, ReadData(bytes));
    }

    method AppendInput(fd: int, bytes: Chunk)
      requires events != [] && fd in open && open[fd] < |input|
      modifies this`events, this`input, this`net
      ensures events == old(events)[1..] && net == Submitting(Echo(fd, open[fd], bytes))
      ensures input == old(input)[open[fd] := old(input)[open[fd]] + bytes]
    {
      events := events[1..];
      input := input[open[fd] := input[open[fd]] + bytes];
      net := Submitting(Echo(fd, open[fd], bytes));
    }

    /** The end, or an error: the descriptor is no longer watched and the close is about to be enqueued. */
    method TakeEnd(fd: int)
      requires Valid() && ReadsHead(Model()) && events[0].fd == fd
      modifies this`events, this`watched, this`net, this`history, this`served
      ensures Valid() && events == old(events)[1..] && net == Submitting(Close(fd, open[fd]))
      ensures watched == old(watched) - {fd} && served == old(served) + [ReadEnd]
    {
      ghost var start, before, past := Start(), Model(), history;
      EndWatch(fd);
      history, served := history + [ReadEnd], served + [ReadEnd];
      Landed(start, before, past, ReadEnd);
    }

    method EndWatch(fd: int)
      requires events != [] && fd in open
      modifies this`events, this`watched, this`net
      ensures events == old(events)[1..] && net == Submitting(Close(fd, open[fd]))
      ensures watched == old(watched) - {fd}
    {
      events := events[1..];
      watched := watched - {fd};
      net := Submitting(Close(fd, open[fd]));
    }

    /** EAGAIN: nothing to do. */
    method TakeNothing()
      requires Valid() && ReadsHead(Model())
      modifies this`events, this`history, this`served
      ensures Valid() && events == old(events)[1..] && served == old(served) + [ReadNothing]
    {
      ghost var start, before, past := Start(), Model(), history;
      events := events[1..];
      history, served := history + [ReadNothing], served + [ReadNothing];
      Landed(start, before, past, ReadNothing);
    }

    /** A client event without the error and the read flag. */
    method Skip()
      requires Valid() && net.Dispatching? && events != [] && IsSkip(events[0], listenFd)
      modifies this`events, this`history, this`served
      ensures Valid() && events == old(events)[1..] && served == old(served) + [SkipEvent]
    {
      ghost var start, before, past := Start(), Model(), history;
      events := events[1..];
      history, served := history + [SkipEvent], served + [SkipEvent];
      Landed(start, before, past, SkipEvent);
    }

    /**
     `handle_read(client_fd)`, given what `read` returns.  The descriptor is that of an open connection;
     data is handed over as one echo task, an end or an error as one close task after the descriptor left
     the watched set, and EAGAIN changes nothing.  It fails to return only while the mutex is held.
     */
    method HandleRead(clientFd: int, r: ReadResult, patience: nat) returns (ok: bool)
      requires Valid() && net.Dispatching?
      requires events != [] && IsRead(events[0], listenFd) && events[0].fd == clientFd
      modifies this
      ensures Valid() && listenFd == old(listenFd) && events == old(events)[1..]
      ensures served == old(served) + [ServiceOfRead(r)] && batches == old(batches)
      ensures old(clientFd in open && open[clientFd] < |input|)
      ensures if ok then net.Dispatching? else patience == 0 || !pool.owner.Free?
      ensures ok && r.Data? ==> HandedEcho(old(Model()), Model(), clientFd, r.bytes)
      ensures ok && (r.Eof? || r.Failure?) ==> HandedClose(old(Model()), Model(), clientFd)
      ensures r.WouldBlock? ==>
                ok && input == old(input) && pool.enqueued == old(pool.enqueued) && watched == old(watched)
    {
      HeadIsOpen();
      match r {
        case WouldBlock =>
          TakeNothing();
          ok := true;
        case Data(bytes) =>
          ok := HandOverData(clientFd, bytes, patience);
        case _ =>
          ok := HandOverEnd(clientFd, patience);
      }
    }

    lemma HeadIsOpen()
      requires Valid() && net.Dispatching? && events != []
      ensures IsRead(events[0], listenFd) ==> ReadsHead(Model())
      ensures events[0].fd != listenFd ==> events[0].fd in open
    {
      ValidMeansAlways();
      Always.EventsNameOpenConnections(listenFd, |pool.workers|, Model());
    }

    method HandOverData(fd: int, bytes: Chunk, patience: nat) returns (ok: bool)
      requires Valid() && ReadsHead(Model()) && events[0].fd == fd
      modifies this
      ensures Valid() && listenFd == old(listenFd) && events == old(events)[1..]
      ensures served == old(served) + [ReadData(bytes)] && batches == old(batches)
      ensures if ok then net.Dispatching? else patience == 0 || !pool.owner.Free?
      ensures ok ==> HandedEcho(old(Model()), Model(), fd, bytes)
    {
      var conn := open[fd];  // the closure captures the descriptor; conn says what it stands for
      TakeData(fd, bytes);
      ok := Submit(Echo(fd, conn, bytes), patience);
    }

    method HandOverEnd(fd: int, patience: nat) returns (ok: bool)
      requires Valid() && ReadsHead(Model()) && events[0].fd == fd
      modifies this
      ensures Valid() && listenFd == old(listenFd) && events == old(events)[1..]
      ensures served == old(served) + [ReadEnd] && batches == old(batches)
      ensures if ok then net.Dispatching? else patience == 0 || !pool.owner.Free?
      ensures ok ==> HandedClose(old(Model()), Model(), fd)
    {
      var conn := open[fd];
      TakeEnd(fd);
      ok := Submit(Close(fd, conn), patience);
    }

    static ghost predicate HandedEcho(s: Server, s': Server, fd: int, bytes: seq<Byte>)
      requires fd in s.open && s.open[fd] < |s.input|
    {
      var c := s.open[fd];
      && s'.input == s.input[c := s.input[c] + bytes] && s'.watched == s.watched
      && s'.pool.enqueued == s.pool.enqueued + [Echo(fd, c, bytes)]
    }

    static ghost predicate HandedClose(s: Server, s': Server, fd: int)
      requires fd in s.open
    {
      && s'.input == s.input && s'.watched == s.watched - {fd}
      && s'.pool.enqueued == s.pool.enqueued + [Close(fd, s.open[fd])]
    }

    // ----- accept_connection

    method StartAccepting()
      requires Valid() && net.Dispatching? && events != [] && IsAccept(events[0], listenFd)
      modifies this`net, this`events, this`history, this`served
      ensures Valid() && net.Accepting? && events == old(events)[1..] && served == old(served) + [AcceptStart]
    {
      ghost var start, before, past := Start(), Model(), history;
      events := events[1..];
      net := Accepting;
      history, served := history + [AcceptStart], served + [AcceptStart];
      Landed(start, before, past, AcceptStart);
    }

    /** A new client; when its descriptor cannot be registered it is closed at once. */
    method AcceptClient(fd: int, registered: bool)
      requires Valid() && net.Accepting? && listening && fd !in open && fd != listenFd
      modifies this`open, this`watched, this`input, this`output, this`closes, this`history
      ensures Valid() && input == old(input) + [[]]
      ensures registered ==>
                open == old(open)[fd := |old(input)|] && watched == old(watched) + {fd} && closes == old(closes)
      ensures !registered ==>
                open == old(open) && watched == old(watched) && closes == old(closes) + [|old(input)|]
    {
      if registered {
        WatchClient(fd);
      } else {
        RejectClient(fd);
      }
    }

    method WatchClient(fd: int)
      requires Valid() && net.Accepting? && listening && fd !in open && fd != listenFd
      modifies this`open, this`watched, this`input, this`output, this`history
      ensures Valid() && input == old(input) + [[]]
      ensures open == old(open)[fd := |old(input)|] && watched == old(watched) + {fd}
    {
      ghost var start, before, past := Start(), Model(), history;
      AddWatched(fd);
      history := history + [AcceptOne(fd, true)];
      Landed(start, before, past, AcceptOne(fd, true));
    }

    method AddWatched(fd: int)
      modifies this`open, this`watched, this`input, this`output
      ensures open == old(open)[fd := |old(input)|] && watched == old(watched) + {fd}
      ensures input == old(input) + [[]] && output == old(output) + [[]]
    {
      open := open[fd := |input|];
      watched := watched + {fd};
      input := input + [[]];
      output := output + [[]];
    }

    method RejectClient(fd: int)
      requires Valid() && net.Accepting? && listening && fd !in open && fd != listenFd
      modifies this`input, this`output, this`closes, this`history
      ensures Valid() && input == old(input) + [[]] && closes == old(closes) + [|old(input)|]
    {
      ghost var start, before, past := Start(), Model(), history;
      AddClosed();
      history := history + [AcceptOne(fd, false)];
      Landed(start, before, past, AcceptOne(fd, false));
    }

    method AddClosed()
      modifies this`input, this`output, this`closes
      ensures input == old(input) + [[]] && output == old(output) + [[]] && closes == old(closes) + [|old(input)|]
    {
      closes := closes + [|input|];
      input := input + [[]];
      output := output + [[]];
    }

    method StopAccepting()
      requires Valid() && net.Accepting?
      modifies this`net, this`history
      ensures Valid() && net.Dispatching?
    {
      ghost var start, before, past := Start(), Model(), history;
      net := Dispatching;
      history := history + [AcceptDone];
      Landed(start, before, past, AcceptDone);
    }

    /** Connection c is open on a descriptor that is watched. */
    ghost predicate Served(c: nat)
      reads this
    {
      exists fd :: fd in watched && fd in open && open[fd] == c
    }

    /** Connections from `first` on are new: nothing was read from them; those registered are served, others closed. */
    ghost predicate NewFrom(first: nat, registered: nat -> bool)
      reads this
    {
      forall c :: first <= c < |input| ==> input[c] == [] && if registered(c - first) then Served(c) else c in closes
    }

    /**
     `accept_connection(listen_fd)`, with `arrivals` clients waiting before `accept` first refuses: each
     of them gets a connection of its own, on a descriptor that was free and is now watched, or, if it
     cannot be registered, is closed.  It fails to return only when more wait than we care to watch.
     */
    method AcceptConnection(patience: nat, arrivals: nat, registered: nat -> bool) returns (ok: bool)
      requires Valid() && net.Dispatching? && events != [] && IsAccept(events[0], listenFd)
      modifies this
      ensures Valid() && listenFd == old(listenFd) && events == old(events)[1..]
      ensures served == old(served) + [AcceptStart] && batches == old(batches)
      ensures (ok <==> arrivals < patience) && (ok ==> net.Dispatching?)
      ensures |input| == |old(input)| + if ok then arrivals else patience
      ensures old(input) <= input && pool.enqueued == old(pool.enqueued)
      ensures old(watched) <= watched && NewFrom(|old(input)|, registered)
    {
      StartAccepting();
      ok := AcceptAll(patience, arrivals, registered);
    }

    /** The accept loop. */
    method AcceptAll(patience: nat, arrivals: nat, registered: nat -> bool) returns (ok: bool)
      requires Valid() && net.Accepting?
      modifies this
      ensures Valid() && SameRecords(old(Model()), Model()) && served == old(served) && batches == old(batches)
      ensures (ok <==> arrivals < patience) && (ok ==> net.Dispatching?)
      ensures |input| == |old(input)| + if ok then arrivals else patience
      ensures old(input) <= input && old(watched) <= watched && NewFrom(|old(input)|, registered)
    {
      ghost var first := |input|;
      for i := 0 to patience
        invariant first == |old(input)| && i <= arrivals && |input| == first + i
        invariant Valid() && net.Accepting? && SameRecords(old(Model()), Model())
        invariant served == old(served) && batches == old(batches)
        invariant old(input) <= input && old(watched) <= watched && NewFrom(first, registered)
      {
        OthersRunWhileAccepting(first, registered);
        if i == arrivals {
          StopAccepting();
          return true;
        }
        AcceptAnother(registered(i), first, registered);
      }
      return false;
    }

    static ghost predicate SameRecords(s: Server, s': Server) {
      s'.listenFd == s.listenFd && s'.events == s.events && s'.pool.enqueued == s.pool.enqueued
    }

    method OthersRunWhileAccepting(ghost first: nat, ghost registered: nat -> bool)
      requires Valid() && NewFrom(first, registered)
      modifies this
      ensures Valid() && NewFrom(first, registered) && Undisturbed(old(Model()), Model())
      ensures served == old(served) && batches == old(batches)
    {
      OthersRun();
      forall c | first <= c < |input| && registered(c - first) ensures Served(c) {
        assert old(Served(c));
        var fd :| fd in old(watched) && fd in old(open) && old(open)[fd] == c;
        assert open[fd] == c;
      }
    }

    /** The next client, on some descriptor that is not in use. */
    method AcceptAnother(isRegistered: bool, ghost first: nat, ghost registered: nat -> bool)
      requires Valid() && net.Accepting? && first <= |input| && isRegistered == registered(|input| - first)
      requires NewFrom(first, registered)
      modifies this`open, this`watched, this`input, this`output, this`closes, this`history
      ensures Valid() && NewFrom(first, registered) && input == old(input) + [[]] && old(watched) <= watched
    {
      ValidMeansAlways();
      ghost var _ := UnusedFrom(open.Keys + {listenFd}, 0);
      var fd :| fd !in open && fd != listenFd;
      AcceptClient(fd, isRegistered);
      forall c | first <= c < |input| ensures if registered(c - first) then Served(c) else c in closes {
        if c == |old(input)| {
          assert if isRegistered then open[fd] == c else closes[|old(closes)|] == c;
        } else if registered(c - first) {
          assert old(Served(c));
          var f :| f in old(watched) && f in old(open) && old(open)[f] == c;
          assert open[f] == c;
        }
      }
    }

    // ----- event_loop

    /** `epoll_wait` / `kevent`: distinct descriptors among those registered; none, that is a timeout, otherwise. */
    method Wait(fails: bool, ready: seq<Event>) returns (nfds: int)
      requires Valid() && net.Waiting?
      modifies this`net, this`events, this`history, this`batches
      ensures Valid() && (fails <==> nfds < 0)
      ensures fails ==> net.Waiting? && events == old(events) && batches == old(batches)
      ensures !fails ==> net.Dispatching? && |events| == nfds && batches == old(batches) + [events]
      ensures !fails ==> events == if Enabled(old(Model()), WaitReturns(ready)) then ready else []
    {
      if fails {
        return -1;
      }
      BeginBatch(if Enabled(Model(), WaitReturns(ready)) then ready else []);
      return |events|;
    }

    method BeginBatch(es: seq<Event>)
      requires Valid() && Enabled(Model(), WaitReturns(es))
      modifies this`net, this`events, this`history, this`batches
      ensures Valid() && net.Dispatching? && events == es && batches == old(batches) + [es]
    {
      ghost var start, before, past := Start(), Model(), history;
      events := es;
      net := Dispatching;
      history, batches := history + [WaitReturns(es)], batches + [es];
      Landed(start, before, past, WaitReturns(es));
    }

    /** An event with the error flag, `close(fd); continue`: it closes an open connection, or the listening socket. */
    method CloseInError()
      requires Valid() && net.Dispatching? && events != [] && events[0].error
      modifies this`events, this`listening, this`open, this`watched, this`closes, this`history, this`served
      ensures Valid() && events == old(events)[1..] && served == old(served) + [ErrorEvent]
      ensures old(events)[0].fd == listenFd ==>
                !listening && open == old(open) && watched == old(watched) && closes == old(closes)
      ensures var fd := old(events)[0].fd;
              fd != listenFd ==>
                && listening == old(listening) && fd in old(open) && open == old(open) - {fd}
                && watched == old(watched) - {fd} && closes == old(closes) + [old(open)[fd]]
    {
      HeadIsOpen();
      if events[0].fd == listenFd {
        CloseListener();
      } else {
        CloseClient(events[0].fd);
      }
    }

    method CloseListener()
      requires Valid() && net.Dispatching? && events != [] && events[0].error && events[0].fd == listenFd
      modifies this`events, this`listening, this`history, this`served
      ensures Valid() && events == old(events)[1..] && !listening && served == old(served) + [ErrorEvent]
    {
      ghost var start, before, past := Start(), Model(), history;
      events := events[1..];
      listening := false;
      history, served := history + [ErrorEvent], served + [ErrorEvent];
      Landed(start, before, past, ErrorEvent);
    }

    method CloseClient(fd: int)
      requires Valid() && net.Dispatching? && events != [] && events[0].error
      requires events[0].fd == fd != listenFd && fd in open
      modifies this`events, this`open, this`watched, this`closes, this`history, this`served
      ensures Valid() && events == old(events)[1..] && open == old(open) - {fd}
      ensures watched == old(watched) - {fd} && closes == old(closes) + [old(open)[fd]]
      ensures served == old(served) + [ErrorEvent]
    {
      ghost var start, before, past := Start(), Model(), history;
      DropClient(fd);
      history, served := history + [ErrorEvent], served + [ErrorEvent];
      Landed(start, before, past, ErrorEvent);
    }

    /** `close(fd)`, which also ends the watch on it. */
    method DropClient(fd: int)
      requires fd in open && events != []
      modifies this`events, this`open, this`watched, this`closes
      ensures events == old(events)[1..] && closes == old(closes) + [old(open)[fd]]
      ensures open == old(open) - {fd} && watched == old(watched) - {fd}
    {
      closes := closes + [open[fd]];
      open := open - {fd};
      watched := watched - {fd};
      events := events[1..];
    }

    /** The body of the for loop: the branch that the event's flags ask for. */
    method DispatchEvent(w: Answers, patience: nat) returns (ok: bool)
      requires Valid() && net.Dispatching? && events != []
      modifies this
      ensures Valid() && listenFd == old(listenFd) && events == old(events)[1..] && batches == old(batches)
      ensures served == old(served) + [ServiceOf(old(events)[0], listenFd, w.readOf)]
      ensures if ok then net.Dispatching? else patience <= w.arrivals || !pool.owner.Free?
    {
      OthersRun();
      var e := events[0];
      if e.error {
        CloseInError();
        return true;
      }
      if e.fd == listenFd {
        ok := AcceptConnection(patience, w.arrivals, w.registered);
      } else if e.readable {
        ok := HandleRead(e.fd, w.readOf(e.fd), patience);
      } else {
        Skip();
        ok := true;
      }
    }

    /**
     The for loop over the events that were returned.  Each of them is served, in order, by the step that
     its flags and the answer of its read ask for, and by nothing else.
     */
    method DispatchEvents(w: Answers, patience: nat) returns (ok: bool)
      requires Valid() && net.Dispatching?
      modifies this
      ensures Valid() && listenFd == old(listenFd) && batches == old(batches)
      ensures ok ==> net.Waiting? && served == old(served) + ServicesOf(old(events), listenFd, w.readOf)
      ensures !ok ==> patience <= w.arrivals || !pool.owner.Free?
    {
      ghost var es, before, k := events, served, 0;
      while events != []
        invariant k <= |es| && events == es[k..] && served == before + ServicesOf(es[..k], listenFd, w.readOf)
        invariant Valid() && net.Dispatching? && listenFd == old(listenFd) && batches == old(batches)
        decreases |events|
      {
        ok := DispatchEvent(w, patience);
        if !ok {
          return;
        }
        assert es[..k + 1][..k] == es[..k];
        k := k + 1;
      }
      assert es[..k] == es;
      FinishEvents();
      ok := true;
    }

    method FinishEvents()
      requires Valid() && net.Dispatching? && events == []
      modifies this`net, this`history
      ensures Valid() && net.Waiting?
    {
      ghost var start, before, past := Start(), Model(), history;
      net := Waiting;
      history := history + [EventsDone];
      Landed(start, before, past, EventsDone);
    }

    /** One turn of the loop; false when it is left, or a step of it is not seen to its end. */
    method Turn(w: Answers, patience: nat) returns (goesOn: bool)
      requires Valid() && net.Waiting?
      modifies this
      ensures Valid() && listenFd == old(listenFd)
      ensures goesOn ==>
                && w.running && !w.fails && net.Waiting? && |batches| == |old(batches)| + 1 && old(batches) <= batches
                && served == old(served) + ServicesOf(batches[|old(batches)|], listenFd, w.readOf)
      ensures !goesOn ==> !w.running || w.fails || patience <= w.arrivals || !pool.owner.Free?
    {
      OthersRun();
      if !w.running {
        return false;
      }
      var nfds := Wait(w.fails, w.ready);
      if nfds < 0 {
        return false;
      }
      goesOn := DispatchEvents(w, patience);
    }

    /**
     `event_loop()`, with `world` the answers turn by turn.  Every event that a wait returned is served in
     order, and the loop goes on until it is told to stop or the wait fails.  However long it ran and
     whatever the workers did: every byte read from a connection was handed over once, in order; no
     connection was closed twice; and with at most one worker, unless an error event closed a connection
     that was still owed bytes, every connection without a write error has been sent a prefix of what it
     sent.
     */
    method EventLoop(world: nat -> Answers, patience: nat) returns (turns: nat)
      requires Valid() && net.Waiting? && batches == []
      modifies this
      ensures Valid() && Sound() && turns <= patience
      ensures turns < patience ==>
                !world(turns).running || world(turns).fails || patience <= world(turns).arrivals || !pool.owner.Free?
      ensures turns == patience ==>
                |batches| == turns && served == old(served) + ServicesOfTurns(batches, listenFd, world)
    {
      turns := 0;
      while turns < patience
        invariant Valid() && net.Waiting? && turns <= patience && |batches| == turns
        invariant served == old(served) + ServicesOfTurns(batches, listenFd, world)
      {
        ghost var before := batches;
        var goesOn := Turn(world(turns), patience);
        if !goesOn {
          break;
        }
        assert batches[..turns] == before;
        turns := turns + 1;
      }
      SoundNow();
    }

    ghost predicate Sound()
      reads this
    {
      && (forall c :: 0 <= c < |input| ==> Always.BytesFor(Tasks(Model()), c) == input[c])
      && (forall i, j :: 0 <= i < j < |closes| ==> closes[i] != closes[j])
      && (CanRun(Start(), history) && |pool.workers| <= 1 && ErrorsInTurnRun(Start(), history) ==>
            |output| == |input| && forall c :: 0 <= c < |input| && c !in failed ==> output[c] <= input[c])
    }

    lemma SoundNow()
      requires Valid()
      ensures Sound()
    {
      ValidMeansAlways();
      forall c | 0 <= c < |input| ensures Always.BytesFor(Tasks(Model()), c) == input[c] {
        Always.EveryByteHandedOver(listenFd, |pool.workers|, Model(), c);
      }
      if |pool.workers| <= 1 && ErrorsInTurnRun(Start(), history) {
        Theorems.OneWorkerEchoesInOrder(listenFd, |pool.workers|, history);
      }
    }
  }
}

/**
 The echo server of the epoll and kqueue flavours: one network thread reads and hands tasks to the
 thread pool, the workers write the bytes back and close.  The machine embeds the pool machine; file
 descriptors are reused after close, so a connection has a number of its own.
 */
module EchoServer {
  import P = ThreadPool

  const BUF_SIZE: nat := 4096
  const MAX_EVENTS: nat := 1024

  type Byte = x: nat | x < 256

  /** The two closures the network thread enqueues; `conn` is the connection the descriptor stood for. */
  datatype Task = Echo(fd: int, conn: nat, data: seq<Byte>) | Close(fd: int, conn: nat)

  /** What epoll_wait or kevent reports of a descriptor: the error flag, and whether it can be read. */
  datatype Event = Event(fd: int, error: bool, readable: bool)

  datatype NetPc =
    | Waiting                  // epoll_wait / kevent
    | Dispatching              // the for loop over the returned events
    | Accepting                // accept_connection's loop
    | Submitting(task: Task)   // pool_.enqueue(task), before the mutex
    | Holding                  // inside the locked block
    | Owing                    // before notify_one

  datatype Server = Server(
    listenFd: int,
    listening: bool,            // the listening descriptor has not been closed
    pool: P.Pool<Task>,
    net: NetPc,
    events: seq<Event>,         // events not yet dispatched
    open: map<int, nat>,        // open client descriptors, and the connection each stands for
    watched: set<int>,          // client descriptors registered with epoll / kqueue
    input: seq<seq<Byte>>,      // per connection, every byte read so far
    output: seq<seq<Byte>>,     // per connection, every byte written so far
    written: map<nat, nat>,     // total_written of the task with this ticket, once it has written
    closes: seq<nat>,           // connections in the order they were closed
    failed: set<nat>)           // connections with a hard write error

  datatype Step =
    | WaitReturns(events: seq<Event>)
    | EventsDone
    | ErrorEvent                          // an event with the error flag: close(fd)
    | SkipEvent                           // a client event with neither flag
    | AcceptStart
    | AcceptOne(fd: int, registered: bool)
    | AcceptDone                          // EAGAIN or an error
    | ReadData(data: seq<Byte>)
    | ReadNothing                         // read() returns EAGAIN
    | ReadEnd                             // end of file, or a read error other than EAGAIN
    | Enqueue(st: P.Step<Task>)           // the network thread inside pool_.enqueue
    | Pool(st: P.Step<Task>)              // a worker outside write(), or stop()
    | Write(w: nat, count: nat)           // write() accepted this many bytes
    | WriteAgain(w: nat)                  // EAGAIN
    | WriteFails(w: nat)                  // any other error: the loop gives up

  function Init(listenFd: int, workers: nat): Server {
    Server(listenFd, true, P.Init(workers), Waiting, [], map[], {}, [], [], map[], [], {})
  }

  function CountAt(written: map<nat, nat>, ticket: nat): nat {
    if ticket in written then written[ticket] else 0
  }

  function Written(s: Server, ticket: nat): nat {
    CountAt(s.written, ticket)
  }

  predicate Distinct(es: seq<Event>) {
    forall i, j :: 0 <= i < j < |es| ==> es[i].fd != es[j].fd
  }

  /** The branches of the dispatch, in the source's order. */
  predicate IsAccept(e: Event, listenFd: int) {
    !e.error && e.fd == listenFd
  }

  predicate IsRead(e: Event, listenFd: int) {
    !e.error && e.fd != listenFd && e.readable
  }

  predicate IsSkip(e: Event, listenFd: int) {
    !e.error && e.fd != listenFd && !e.readable
  }

  /** Worker w is inside the write loop of an echo task with bytes left. */
  predicate Writing(s: Server, w: nat) {
    && w < |s.pool.workers| && s.pool.workers[w].Running? && s.pool.workers[w].task.Echo?
    && Written(s, s.pool.workers[w].ticket) < |s.pool.workers[w].task.data|
  }

  predicate ReadsHead(s: Server) {
    && s.net.Dispatching? && s.events != [] && IsRead(s.events[0], s.listenFd)
    && s.events[0].fd in s.open && s.open[s.events[0].fd] < |s.input|
  }

  predicate IsEnqueueStep(st: P.Step<Task>) {
    st.Lock? || st.Push? || st.Unlock? || st.NotifyOne? || st.NotifyNobody?
  }

  predicate Enabled(s: Server, st: Step) {
    match st
    case WaitReturns(es) =>
      && s.net.Waiting? && |es| <= MAX_EVENTS && Distinct(es)
      && forall i :: 0 <= i < |es| ==> es[i].fd in s.watched || (es[i].fd == s.listenFd && s.listening)
    case EventsDone => s.net.Dispatching? && s.events == []
    case ErrorEvent => s.net.Dispatching? && s.events != [] && s.events[0].error
    case SkipEvent => s.net.Dispatching? && s.events != [] && IsSkip(s.events[0], s.listenFd)
    case AcceptStart => s.net.Dispatching? && s.events != [] && IsAccept(s.events[0], s.listenFd)
    case AcceptOne(fd, _) => s.net.Accepting? && s.listening && fd !in s.open && fd != s.listenFd
    case AcceptDone => s.net.Accepting?
    case ReadData(data) => ReadsHead(s) && 0 < |data| <= BUF_SIZE
    case ReadNothing => ReadsHead(s)
    case ReadEnd => ReadsHead(s)
    case Enqueue(p) =>
      && IsEnqueueStep(p) && P.Enabled(s.pool, p)
      && (match p
          case Lock(t) => s.net == Submitting(t)
          case Push => s.net.Holding?
          case Unlock => s.net.Holding?
          case _ => s.net.Owing?)
    case Pool(p) => !IsEnqueueStep(p) && P.Enabled(s.pool, p) && (p.Work? ==> !Writing(s, p.w))
    case Write(w, n) =>
      && Writing(s, w) && s.pool.workers[w].task.fd in s.open && s.open[s.pool.workers[w].task.fd] < |s.output|
      && Written(s, s.pool.workers[w].ticket) + n <= |s.pool.workers[w].task.data|
    case WriteAgain(w) => Writing(s, w)
    case WriteFails(w) => Writing(s, w)
  }

  function Apply(s: Server, st: Step): Server
    requires Enabled(s, st)
  {
    match st
    case WaitReturns(es) => s.(net := Dispatching, events := es)
    case EventsDone => s.(net := Waiting)
    case ErrorEvent => StepError(s)
    case SkipEvent => s.(events := s.events[1..])
    case AcceptStart => s.(net := Accepting, events := s.events[1..])
    case AcceptOne(fd, registered) => StepAccept(s, fd, registered)
    case AcceptDone => s.(net := Dispatching)
    case ReadData(data) =>
      var fd := s.events[0].fd;
      var c := s.open[fd];
      s.(events := s.events[1..], input := s.input[c := s.input[c] + data], net := Submitting(Echo(fd, c, data)))
    case ReadNothing => s.(events := s.events[1..])
    case ReadEnd =>
      var fd := s.events[0].fd;
      s.(events := s.events[1..], watched := s.watched - {fd}, net := Submitting(Close(fd, s.open[fd])))
    case Enqueue(p) =>
      s.(pool := P.Apply(s.pool, p),
         net := match p
                case Lock(_) => Holding
                case Push => Holding
                case Unlock => Owing
                case _ => Dispatching)
    case Pool(p) => StepPool(s, p)
    case Write(w, n) => StepWrite(s, w, n)
    case WriteAgain(w) => s
    case WriteFails(w) =>
      s.(pool := P.Apply(s.pool, P.Work(w)), failed := s.failed + {s.pool.workers[w].task.conn})
  }

  /** The network thread itself closes the descriptor, which also ends the watch on it. */
  function StepError(s: Server): Server
    requires Enabled(s, ErrorEvent)
  {
    var fd := s.events[0].fd;
    var s' := s.(events := s.events[1..]);
    if fd == s.listenFd then s'.(listening := false)
    else if fd in s.open then
      s'.(open := s.open - {fd}, watched := s.watched - {fd}, closes := s.closes + [s.open[fd]])
    else s'
  }

  /** A new connection; when it cannot be registered it is closed at once. */
  function StepAccept(s: Server, fd: int, registered: bool): Server
    requires Enabled(s, AcceptOne(fd, registered))
  {
    var c := |s.input|;
    var s' := s.(input := s.input + [[]], output := s.output + [[]]);
    if registered then s'.(open := s.open[fd := c], watched := s.watched + {fd})
    else s'.(closes := s.closes + [c])
  }

  /** Running a close task closes the descriptor; every other pool step touches only the pool. */
  function StepPool(s: Server, p: P.Step<Task>): Server
    requires Enabled(s, Pool(p))
  {
    var s' := s.(pool := P.Apply(s.pool, p));
    if p.Work? && s.pool.workers[p.w].Running? && s.pool.workers[p.w].task.Close?
        && s.pool.workers[p.w].task.fd in s.open then
      var fd := s.pool.workers[p.w].task.fd;
      s'.(open := s.open - {fd}, closes := s.closes + [s.open[fd]])
    else s'
  }

  /** write() appends to whatever connection the descriptor stands for now. */
  function StepWrite(s: Server, w: nat, n: nat): Server
    requires Enabled(s, Write(w, n))
  {
    var pc := s.pool.workers[w];
    var from := Written(s, pc.ticket);
    var c := s.open[pc.task.fd];
    s.(output := s.output[c := s.output[c] + pc.task.data[from..from + n]],
       written := s.written[pc.ticket := from + n])
  }

  // ----- the task list and what is left of it

  /** Every task ever made, in the order of the reads that made them. */
  function Tasks(s: Server): seq<Task> {
    s.pool.enqueued
    + (if s.net.Submitting? then [s.net.task] else [])
    + (if s.pool.enqueue.Locked? then [s.pool.enqueue.task] else [])
  }

  /** Nothing is left to write, or the close has run. */
  predicate Drained(s: Server, k: nat) {
    k in s.pool.finished || (k < |Tasks(s)| && Tasks(s)[k].Echo? && Written(s, k) >= |Tasks(s)[k].data|)
  }

  /** When a worker pops a task, every byte of the earlier tasks of that connection has been written. */
  predicate PopsInTurn(s: Server, st: Step) {
    && st.Pool? && st.st.Work? && st.st.w < |s.pool.workers|
    && s.pool.workers[st.st.w].Dequeuing? && |s.pool.takers| < |Tasks(s)| ==>
      var k := |s.pool.takers|;
      forall j :: 0 <= j < k && Tasks(s)[j].conn == Tasks(s)[k].conn ==> Drained(s, j)
  }

  /** When an error event closes a connection, every byte of the tasks of that connection has been written. */
  predicate ErrorsInTurn(s: Server, st: Step) {
    st.ErrorEvent? && s.events != [] && s.events[0].fd in s.open ==>
      forall j :: 0 <= j < |Tasks(s)| && Tasks(s)[j].conn == s.open[s.events[0].fd] ==> Drained(s, j)
  }

  /** The discipline under which order is kept. */
  predicate Calm(s: Server, st: Step) {
    PopsInTurn(s, st) && ErrorsInTurn(s, st)
  }

  predicate CanRun(s: Server, steps: seq<Step>)
    decreases |steps|
  {
    steps == [] || (Enabled(s, steps[0]) && CanRun(Apply(s, steps[0]), steps[1..]))
  }

  function Run(s: Server, steps: seq<Step>): Server
    requires CanRun(s, steps)
    decreases |steps|
  {
    if steps == [] then s else Run(Apply(s, steps[0]), steps[1..])
  }

  predicate CalmRun(s: Server, steps: seq<Step>)
    requires CanRun(s, steps)
    decreases |steps|
  {
    steps == [] || (Calm(s, steps[0]) && CalmRun(Apply(s, steps[0]), steps[1..]))
  }

  predicate ErrorsInTurnRun(s: Server, steps: seq<Step>)
    requires CanRun(s, steps)
    decreases |steps|
  {
    steps == [] || (ErrorsInTurn(s, steps[0]) && ErrorsInTurnRun(Apply(s, steps[0]), steps[1..]))
  }
}

/**
 The io_uring echo server: one thread, a submission queue, a completion queue, and heap-allocated
 `Request` objects that change hands between the server and the kernel.

 A pointer is a key of the heap map, so that a double free, a use after free or a request queued
 twice can be said: each sets `fault`.  The allocator may return any address not in use, a freed one
 included.  The kernel may complete what it was given at any time, in any order, with any result
 the operation allows, also while the completion queue is being iterated.
 */
module IoUringServer {

  const SQ_ENTRIES: nat := 256
  const BUF_LEN: nat := 4096
  const EAGAIN: int := 11    // and EWOULDBLOCK, the same number on Linux

  type Byte = x: nat | x < 256

  datatype Op = ACCEPT | RECV | SEND

  datatype Request = Request(op: Op, clientFd: int, buf: seq<Byte>, len: nat)

  /** A submission: the operation as it was prepared, and the request it carries as user data. */
  datatype Sqe = Sqe(req: nat, op: Op, fd: int, len: nat)

  datatype Cqe = Cqe(req: nat, res: int)

  /** The life of one accepted connection. */
  datatype Conn = Conn(
    fd: int,
    received: seq<seq<Byte>>,   // chunks the kernel delivered
    prepared: seq<seq<Byte>>,   // payloads of the sends prepared
    sends: seq<int>,            // results of the sends completed
    output: seq<Byte>,          // bytes that left
    closed: bool)

  datatype Phase = Starting | Waiting | Scanning | Advancing | Flushing | Halted

  datatype Io = Io(
    heap: map<nat, Request>,
    sq: seq<Sqe>,               // prepared, not yet submitted
    flight: map<nat, Sqe>,      // submitted, not yet completed
    cq: seq<Cqe>,               // completions not yet consumed by cq_advance
    count: nat,                 // completions of this scan already handled
    tail: nat,                  // how many completions the wait saw; the scan's loads see no fewer
    acceptPending: bool,
    phase: Phase,
    open: map<int, nat>,        // open client descriptors, and the connection each stands for
    conns: seq<Conn>,
    posted: seq<Cqe>,           // every completion ever posted
    handled: seq<Cqe>,          // every completion ever handled
    fault: bool)

  datatype Step =
    | Prime(a: nat)                                      // the submit_accept before the loop
    | WaitReturns(ret: int)
    | StopSeen                                           // running_ is false
    | Handle(b: nat)                                     // one turn of io_uring_for_each_cqe
    | ScanEnd                                            // the tail last loaded is reached
    | Advance                                            // io_uring_cq_advance(count)
    | Flush(a: nat)                                      // phase 2
    | CompleteAccept(req: nat, res: int)                 // kernel
    | CompleteRecv(req: nat, res: int, data: seq<Byte>)  // kernel
    | CompleteSend(req: nat, res: int)                   // kernel

  function Zeros(): (z: seq<Byte>)
    ensures |z| == BUF_LEN
  {
    seq(BUF_LEN, _ => 0)
  }

  function Init(): Io {
    Io(map[], [], map[], [], 0, 0, false, Starting, map[], [], [], [], false)
  }

  /** The server's functions leave what is submitted or completed, and the loop's position, alone. */
  predicate SameQueues(s: Io, s': Io) {
    && s'.flight == s.flight && s'.cq == s.cq && s'.count == s.count && s'.tail == s.tail && s'.phase == s.phase
    && s'.posted == s.posted
    && s'.handled == s.handled
  }

  /** And touch no other request than the one they are given. */
  predicate OnlyRequest(s: Io, s': Io, a: nat) {
    && s'.heap.Keys <= s.heap.Keys && s'.acceptPending == s.acceptPending
    && forall x :: x in s.heap && x != a ==> x in s'.heap && s'.heap[x] == s.heap[x]
  }

  /** And no other connection than the one on this descriptor. */
  predicate OnlyConn(s: Io, s': Io, fd: int) {
    && |s'.conns| == |s.conns|
    && (forall g :: 0 <= g < |s.conns| && !(fd in s.open && s.open[fd] == g) ==> s'.conns[g] == s.conns[g])
    && (forall f :: f in s.open && f != fd ==> f in s'.open && s'.open[f] == s.open[f])
  }

  // ----- the server's functions

  function Delete(s: Io, a: nat): (s': Io)
    ensures SameQueues(s, s') && OnlyRequest(s, s', a) && a !in s'.heap && s'.conns == s.conns && s'.open == s.open
  {
    if a in s.heap then s.(heap := s.heap - {a}) else s.(fault := true)
  }

  function CloseFd(s: Io, fd: int): (s': Io)
    ensures OnlyConn(s, s', fd)
    ensures SameQueues(s, s') && s'.heap == s.heap && s'.acceptPending == s.acceptPending
  {
    if fd in s.open && s.open[fd] < |s.conns| then
      s.(open := s.open - {fd}, conns := s.conns[s.open[fd] := s.conns[s.open[fd]].(closed := true)])
    else s.(fault := true)
  }

  /** A request must not be queued while it is queued, in flight or completed and not yet handled. */
  predicate Queued(s: Io, a: nat) {
    (exists i :: 0 <= i < |s.sq| && s.sq[i].req == a) || a in s.flight || PendingFor(s, a)
  }

  predicate PendingFor(s: Io, a: nat) {
    exists i :: s.count <= i < |s.cq| && s.cq[i].req == a
  }

  /** io_uring_get_sqe returned an entry: fill it and attach the request. */
  function Prepare(s: Io, e: Sqe): Io {
    s.(sq := s.sq + [e], fault := s.fault || Queued(s, e.req))
  }

  function SubmitAccept(s: Io, a: nat): (s': Io)
    requires a !in s.heap
    ensures SameQueues(s, s') && s'.conns == s.conns && s'.open == s.open
    ensures forall x :: x in s'.heap ==>
              if x == a then s'.heap[x].op.ACCEPT? else x in s.heap && s'.heap[x] == s.heap[x]
  {
    var s1 := s.(heap := s.heap[a := Request(ACCEPT, -1, Zeros(), 0)]);
    if |s1.sq| >= SQ_ENTRIES then Delete(s1, a)
    else Prepare(s1, Sqe(a, ACCEPT, -1, 0)).(acceptPending := true)
  }

  function SubmitRecv(s: Io, a: nat): (s': Io)
    ensures SameQueues(s, s') && OnlyRequest(s, s', a) && (a in s'.heap ==> s'.heap[a] == s.heap[a])
    ensures s'.conns == s.conns && s'.open == s.open
  {
    if |s.sq| >= SQ_ENTRIES || a !in s.heap then Delete(s, a)
    else Prepare(s, Sqe(a, RECV, s.heap[a].clientFd, BUF_LEN))
  }

  function HandleAccept(s: Io, res: int, b: nat): (s': Io)
    requires b !in s.heap
    ensures SameQueues(s, s') && !s'.acceptPending && s'.heap.Keys <= s.heap.Keys + {b}
              && (b in s'.heap ==> s'.heap[b].op.RECV? && s'.heap[b].clientFd == res >= 0)
    ensures s'.conns == s.conns && s'.open == s.open
    ensures forall x :: x in s.heap ==> x in s'.heap && s'.heap[x] == s.heap[x]
  {
    var s1 := s.(acceptPending := false);
    if res < 0 then s1
    else SubmitRecv(s1.(heap := s1.heap[b := Request(RECV, res, Zeros(), 0)]), b)
  }

  function SubmitSend(s: Io, a: nat): (s': Io)
    ensures a in s.heap ==> OnlyConn(s, s', s.heap[a].clientFd)
    ensures SameQueues(s, s') && OnlyRequest(s, s', a) && (a in s'.heap ==> s'.heap[a] == s.heap[a])
  {
    if |s.sq| >= SQ_ENTRIES || a !in s.heap then Delete(s, a)
    else NotePrepared(Prepare(s, Sqe(a, SEND, s.heap[a].clientFd, s.heap[a].len)), a)
  }

  /** Bookkeeping: the payload joins the connection's record. */
  function NotePrepared(s: Io, a: nat): Io
    requires a in s.heap
  {
    var r := s.heap[a];
    if r.clientFd in s.open && s.open[r.clientFd] < |s.conns| && r.len <= |r.buf| then
      var g := s.open[r.clientFd];
      s.(conns := s.conns[g := s.conns[g].(prepared := s.conns[g].prepared + [r.buf[..r.len]])])
    else s.(fault := true)
  }

  function HandleRecv(s: Io, a: nat, nread: int): (s': Io)
    requires a in s.heap
    ensures SameQueues(s, s') && OnlyRequest(s, s', a) && OnlyConn(s, s', s.heap[a].clientFd)
    ensures a in s'.heap ==> s'.heap[a].op.SEND? && s'.heap[a].clientFd == s.heap[a].clientFd
  {
    if nread <= 0 then
      Delete(if nread == 0 || nread != -EAGAIN then CloseFd(s, s.heap[a].clientFd) else s, a)
    else
      SubmitSend(s.(heap := s.heap[a := s.heap[a].(op := SEND, len := nread)]), a)
  }

  function HandleSend(s: Io, a: nat): (s': Io)
    requires a in s.heap
    ensures SameQueues(s, s') && OnlyRequest(s, s', a) && s'.conns == s.conns && s'.open == s.open
    ensures a in s'.heap ==> s'.heap[a].op.RECV? && s'.heap[a].clientFd == s.heap[a].clientFd
  {
    SubmitRecv(s.(heap := s.heap[a := s.heap[a].(op := RECV, len := 0)]), a)
  }

  /** Everything a handler leaves alone. */
  predicate HandledOnly(s: Io, s': Io, c: Cqe, b: nat)
    requires c.req in s.heap
  {
    && SameQueues(s, s')
    && (forall x :: x in s'.heap && x !in s.heap ==>
          x == b && s.heap[c.req].op.ACCEPT? && s'.heap[x].clientFd == c.res >= 0)
    && (forall x :: x in s'.heap && x in s.heap ==>
          s'.heap[x].clientFd == s.heap[x].clientFd && (s'.heap[x].op.ACCEPT? <==> s.heap[x].op.ACCEPT?))
    && (if s.heap[c.req].op.ACCEPT? then s'.conns == s.conns else OnlyConn(s, s', s.heap[c.req].clientFd))
  }

  /** The switch over the operation of the completed request. */
  function Dispatch(s: Io, cqe: Cqe, b: nat): (s': Io)
    requires cqe.req in s.heap && b !in s.heap
    ensures HandledOnly(s, s', cqe, b)
  {
    match s.heap[cqe.req].op
    case ACCEPT => Delete(HandleAccept(s, cqe.res, b), cqe.req)
    case RECV => HandleRecv(s, cqe.req, cqe.res)
    case SEND => HandleSend(s, cqe.req)
  }

  function HandleCqe(s: Io, b: nat): Io
    requires s.count < |s.cq| && b !in s.heap
  {
    var cqe := s.cq[s.count];
    var s1 := s.(count := s.count + 1, handled := s.handled + [cqe]);
    if cqe.req in s1.heap then Dispatch(s1, cqe, b) else s1.(fault := true)
  }

  /** io_uring_submit: the kernel takes everything prepared. */
  function Submit(s: Io): Io {
    s.(sq := [], flight := TakenBy(s.flight, s.sq))
  }

  function TakenBy(flight: map<nat, Sqe>, sq: seq<Sqe>): map<nat, Sqe>
    decreases |sq|
  {
    if sq == [] then flight else TakenBy(flight[sq[0].req := sq[0]], sq[1..])
  }

  function FlushPhase(s: Io, a: nat): Io
    requires a !in s.heap
  {
    Submit(if !s.acceptPending then SubmitAccept(s, a) else s).(phase := Waiting)
  }

  // ----- the kernel

  function Post(s: Io, a: nat, res: int): Io {
    s.(flight := s.flight - {a}, cq := s.cq + [Cqe(a, res)], posted := s.posted + [Cqe(a, res)])
  }

  /** A completion is posted behind the others and the server's own state is not touched. */
  predicate JustPosts(s: Io, s': Io, c: Cqe) {
    && s'.cq == s.cq + [c] && s'.posted == s.posted + [c]
    && s'.sq == s.sq && s'.count == s.count && s'.tail == s.tail && s'.handled == s.handled && s'.phase == s.phase
    && s'.acceptPending == s.acceptPending
    && s'.heap.Keys == s.heap.Keys
    && forall x :: x in s.heap ==> s'.heap[x].op == s.heap[x].op && s'.heap[x].clientFd == s.heap[x].clientFd
  }

  function KernelAccepts(s: Io, a: nat, res: int): (s': Io)
    ensures JustPosts(s, s', Cqe(a, res))
  {
    var s1 := Post(s, a, res);
    if res < 0 then s1
    else s1.(open := s.open[res := |s.conns|], conns := s.conns + [Conn(res, [], [], [], [], false)])
  }

  /** The kernel stores the data in the request's buffer: memory it must still own. */
  function KernelReceives(s: Io, a: nat, res: int, data: seq<Byte>): (s': Io)
    requires a in s.flight
    ensures JustPosts(s, s', Cqe(a, res))
  {
    var s1 := Post(s, a, res);
    var fd := s.flight[a].fd;
    if res <= 0 then s1
    else if a !in s.heap || |data| > |s.heap[a].buf| || fd !in s.open || s.open[fd] >= |s.conns| then s1.(fault := true)
    else
      var g := s.open[fd];
      s1.(heap := s.heap[a := s.heap[a].(buf := data + s.heap[a].buf[|data|..])],
          conns := s.conns[g := s.conns[g].(received := s.conns[g].received + [data])])
  }

  /** The kernel takes the bytes from the request's buffer. */
  function KernelSends(s: Io, a: nat, res: int): (s': Io)
    requires a in s.flight
    ensures JustPosts(s, s', Cqe(a, res))
  {
    var s1 := Post(s, a, res);
    var fd := s.flight[a].fd;
    if a !in s.heap || res > |s.heap[a].buf| || fd !in s.open || s.open[fd] >= |s.conns| then s1.(fault := true)
    else
      var g := s.open[fd];
      s1.(conns := s.conns[g := s.conns[g].(sends := s.conns[g].sends + [res],
                                            output := s.conns[g].output + s.heap[a].buf[..Clip(res)])])
  }

  /** The bytes a result stands for: none for an error. */
  function Clip(res: int): nat {
    if res < 0 then 0 else res
  }

  // ----- the machine

  predicate Enabled(s: Io, st: Step) {
    match st
    case Prime(a) => s.phase.Starting? && a !in s.heap
    case WaitReturns(ret) => s.phase.Waiting? && ret <= 0 && (ret == 0 ==> s.cq != [])
    case StopSeen => s.phase.Waiting?
    case Handle(b) => s.phase.Scanning? && s.count < |s.cq| && b !in s.heap
    case ScanEnd => s.phase.Scanning? && s.tail <= s.count
    case Advance => s.phase.Advancing? && s.count <= |s.cq|
    case Flush(a) => s.phase.Flushing? && a !in s.heap
    case CompleteAccept(a, res) => a in s.flight && s.flight[a].op.ACCEPT? && (res < 0 || res !in s.open)
    case CompleteRecv(a, res, data) =>
      a in s.flight && s.flight[a].op.RECV? && |data| == Clip(res) && res <= s.flight[a].len
    case CompleteSend(a, res) => a in s.flight && s.flight[a].op.SEND? && res <= s.flight[a].len
  }

  const ETIME: int := 62
  const EINTR: int := 4

  function Apply(s: Io, st: Step): Io
    requires Enabled(s, st)
  {
    match st
    case Prime(a) => SubmitAccept(s, a).(phase := Waiting)
    case WaitReturns(ret) =>
      s.(phase := if ret == 0 then Scanning else if ret == -ETIME || ret == -EINTR then Flushing else Halted,
         tail := if ret == 0 then |s.cq| else 0)
    case StopSeen => s.(phase := Halted)
    case Handle(b) => HandleCqe(s, b)
    case ScanEnd => s.(phase := Advancing)
    case Advance => s.(cq := s.cq[s.count..], count := 0, tail := 0, phase := Flushing)
    case Flush(a) => FlushPhase(s, a)
    case CompleteAccept(a, res) => KernelAccepts(s, a, res)
    case CompleteRecv(a, res, data) => KernelReceives(s, a, res, data)
    case CompleteSend(a, res) => KernelSends(s, a, res)
  }

  predicate CanRun(s: Io, steps: seq<Step>)
    decreases |steps|
  {
    steps == [] || (Enabled(s, steps[0]) && CanRun(Apply(s, steps[0]), steps[1..]))
  }

  function Run(s: Io, steps: seq<Step>): Io
    requires CanRun(s, steps)
    decreases |steps|
  {
    if steps == [] then s else Run(Apply(s, steps[0]), steps[1..])
  }
}

/**
 The class `IoUringEchoServer`, in the source's own form: the handlers rewrite requests in place and
 `EventLoop` is the source's loop.  Each handler is proved equal to the function the theorems speak
 of, and the kernel may complete any number of operations before each turn of either loop.
 The loop is watched for as long as `patience` lasts.
 */
module IoUringProgram {
  import opened Unused
  import opened IoUringServer
  import Safety = IoUringSafety
  import Theorems = IoUringTheorems

  predicate IsKernelStep(st: Step) {
    st.CompleteAccept? || st.CompleteRecv? || st.CompleteSend?
  }

  /** What the server may rely on while the kernel works. */
  ghost predicate KernelOnly(s: Io, s': Io) {
    && s'.sq == s.sq && s'.count == s.count && s'.tail == s.tail && s'.acceptPending == s.acceptPending
    && s'.phase == s.phase && s'.handled == s.handled && s'.heap.Keys == s.heap.Keys
    && s.cq <= s'.cq && s.posted <= s'.posted
    && |s'.flight| + |s'.cq| == |s.flight| + |s.cq|
  }

  lemma KernelStepOnly(s: Io, st: Step)
    requires Enabled(s, st) && IsKernelStep(st)
    ensures KernelOnly(s, Apply(s, st))
  {
    var a := st.req;
    assert Apply(s, st).flight == s.flight - {a};
    assert (s.flight - {a}).Keys == s.flight.Keys - {a};
    assert |s.flight.Keys| == |s.flight| && |s.flight.Keys - {a}| == |s.flight.Keys| - 1;
    assert |(s.flight - {a}).Keys| == |s.flight - {a}|;
  }

  function Flushes(steps: seq<Step>): nat {
    if steps == [] then 0
    else Flushes(steps[..|steps| - 1]) + if steps[|steps| - 1].Flush? then 1 else 0
  }

  lemma NextCompletionIsLive(s: Io)
    requires Safety.Inv(s) && s.count < |s.cq|
    ensures s.cq[s.count].req in s.heap
  {
    assert Safety.Unhandled(s)[0] == s.cq[s.count];
    assert s.cq[s.count].req in Safety.CqReqs(Safety.Unhandled(s));
  }

  function Taken(s: Io): Io
    requires s.count < |s.cq|
  {
    s.(count := s.count + 1, handled := s.handled + [s.cq[s.count]])
  }

  lemma ServingIsHandling(s: Io, taken: Io, after: Io, cqe: Cqe, b: nat)
    requires s.phase.Scanning? && s.count < |s.cq| && cqe == s.cq[s.count] && taken == Taken(s)
    requires cqe.req in s.heap && b !in s.heap && after == Dispatch(taken, cqe, b)
    ensures Enabled(s, Handle(b)) && Apply(s, Handle(b)) == after
    ensures after.flight == s.flight && after.cq == s.cq && after.phase == s.phase && after.tail == s.tail
    ensures after.count == s.count + 1 && after.handled == s.handled + [cqe]
  {
    assert SameQueues(taken, after) by {
      assert HandledOnly(taken, after, cqe, b);
    }
  }

  class IoUringEchoServer {
    var heap: map<nat, Request>
    var sq: seq<Sqe>
    var flight: map<nat, Sqe>
    var cq: seq<Cqe>
    var count: nat
    var tail: nat
    var acceptPending: bool
    var phase: Phase
    var open: map<int, nat>
    var conns: seq<Conn>
    var posted: seq<Cqe>
    var handled: seq<Cqe>
    var fault: bool
    ghost var history: seq<Step>
    ghost var iterations: nat    // how often phase 2 has been reached

    function Model(): Io
      reads this
    {
      Io(heap, sq, flight, cq, count, tail, acceptPending, phase, open, conns, posted, handled, fault)
    }

    /** The server is where its history leads the state machine. */
    ghost predicate Valid()
      reads this
    {
      CanRun(Init(), history) && Model() == Run(Init(), history) && iterations == Flushes(history)
    }

    lemma ValidMeansInv()
      requires Valid()
      ensures Theorems.Reachable(Model()) && Safety.Inv(Model())
    {
      Theorems.ReachableMeansInv(Model());
    }

    lemma ValidMeansReachable(before: Io)
      requires CanRun(Init(), history) && before == Run(Init(), history)
      ensures Theorems.Reachable(before)
    {
    }

    lemma Extend(before: Io, st: Step)
      requires CanRun(Init(), history) && before == Run(Init(), history) && Enabled(before, st)
      ensures CanRun(Init(), history + [st]) && Run(Init(), history + [st]) == Apply(before, st)
      ensures Flushes(history + [st]) == Flushes(history) + if st.Flush? then 1 else 0
    {
      Theorems.RunSnoc(Init(), history, st);
    }

    constructor ()
      ensures Valid() && Model() == Init()
    {
      heap, sq, flight, cq, count, acceptPending := map[], [], map[], [], 0, false;
      phase, open, conns, posted, handled, fault, tail := Starting, map[], [], [], [], false, 0;
      history, iterations := [], 0;
    }

    // ----- the kernel

    method Become(s: Io)
      modifies this
      ensures Model() == s && history == old(history) && iterations == old(iterations)
    {
      BecomeQueues(s);
      tail := s.tail;
      phase, open, conns, posted, handled, fault := s.phase, s.open, s.conns, s.posted, s.handled, s.fault;
    }

    method BecomeQueues(s: Io)
      modifies this`heap, this`sq, this`flight, this`cq, this`count, this`acceptPending
      ensures heap == s.heap && sq == s.sq && flight == s.flight && cq == s.cq
      ensures count == s.count && acceptPending == s.acceptPending
    {
      heap, sq, flight, cq, count, acceptPending := s.heap, s.sq, s.flight, s.cq, s.count, s.acceptPending;
    }

    method Complete(st: Step)
      requires Valid() && Enabled(Model(), st) && IsKernelStep(st)
      modifies this
      ensures Valid() && Model() == Apply(old(Model()), st) && iterations == old(iterations)
    {
      Extend(Model(), st);
      Become(Apply(Model(), st));
      history := history + [st];
    }

    method KernelRuns()
      requires Valid()
      modifies this
      ensures Valid() && KernelOnly(old(Model()), Model()) && iterations == old(iterations)
    {
      var budget: nat := *;
      while budget > 0
        invariant Valid() && KernelOnly(old(Model()), Model()) && iterations == old(iterations)
      {
        budget := budget - 1;
        var st: Step := *;
        if Enabled(Model(), st) && IsKernelStep(st) {
          KernelStepOnly(Model(), st);
          Complete(st);
        }
      }
    }

    // ----- the heap, the descriptors and the submission queue

    /** `new Request{...}`: any address not in use, a freed one included. */
    method Allocate(r: Request) returns (a: nat)
      modifies this`heap
      ensures a !in old(heap) && heap == old(heap)[a := r]
    {
      ghost var _ := UnusedFrom(heap.Keys, 0);
      a :| a !in heap;
      heap := heap[a := r];
    }

    /** `delete req`. */
    method Delete(a: nat)
      modifies this`heap, this`fault
      ensures Model() == IoUringServer.Delete(old(Model()), a)
    {
      if a in heap {
        heap := heap - {a};
      } else {
        fault := true;
      }
    }

    /** `close(fd)`. */
    method Close(fd: int)
      modifies this`open, this`conns, this`fault
      ensures Model() == CloseFd(old(Model()), fd)
    {
      if fd in open && open[fd] < |conns| {
        var g := open[fd];
        open := open - {fd};
        conns := conns[g := conns[g].(closed := true)];
      } else {
        fault := true;
      }
    }

    /** `io_uring_get_sqe`, the prep call and `io_uring_sqe_set_data`; false when the ring is full. */
    method GetSqe(e: Sqe) returns (ok: bool)
      modifies this`sq, this`fault
      ensures ok <==> |old(sq)| < SQ_ENTRIES
      ensures Model() == if ok then Prepare(old(Model()), e) else old(Model())
    {
      ok := |sq| < SQ_ENTRIES;
      if ok {
        var twice := Queued(Model(), e.req);
        sq, fault := sq + [e], fault || twice;
      }
    }

    // ----- the server's methods

    /** `submit_accept()`; a full ring leaves it to the next iteration. */
    method SubmitAccept() returns (a: nat)
      modifies this
      ensures a !in old(heap) && Model() == IoUringServer.SubmitAccept(old(Model()), a)
      ensures history == old(history) && iterations == old(iterations)
    {
      a := Allocate(Request(ACCEPT, -1, Zeros(), 0));
      var ok := GetSqe(Sqe(a, ACCEPT, -1, 0));
      if !ok {
        Delete(a);
        return;
      }
      acceptPending := true;
    }

    /** `handle_accept(client_fd)`; `b` is the new request's address, or any free one if there is none. */
    method HandleAccept(clientFd: int) returns (b: nat)
      modifies this
      ensures b !in old(heap) && Model() == IoUringServer.HandleAccept(old(Model()), clientFd, b)
                && history == old(history) && iterations == old(iterations)
    {
      acceptPending := false;
      if clientFd < 0 {
        ghost var _ := UnusedFrom(heap.Keys, 0);
        b :| b !in heap;
        return;
      }
      b := Allocate(Request(RECV, clientFd, Zeros(), 0));
      SubmitRecv(b);
    }

    /** `submit_recv(req)`. */
    method SubmitRecv(a: nat)
      requires a in heap
      modifies this
      ensures Model() == IoUringServer.SubmitRecv(old(Model()), a)
      ensures history == old(history) && iterations == old(iterations)
    {
      var ok := GetSqe(Sqe(a, RECV, heap[a].clientFd, BUF_LEN));
      if !ok {
        Delete(a);
      }
    }

    /** `handle_recv(req, nread)`. */
    method HandleRecv(a: nat, nread: int)
      requires a in heap
      modifies this
      ensures Model() == IoUringServer.HandleRecv(old(Model()), a, nread)
      ensures history == old(history) && iterations == old(iterations)
    {
      if nread <= 0 {
        if nread == 0 {
          Close(heap[a].clientFd);
        } else if nread != -EAGAIN {
          Close(heap[a].clientFd);
        }
        Delete(a);
        return;
      }
      TurnIntoSend(a, nread);
      SubmitSend(a);
    }

    method TurnIntoSend(a: nat, nread: nat)
      requires a in heap
      modifies this`heap
      ensures heap == old(heap)[a := old(heap)[a].(op := SEND, len := nread)]
    {
      heap := heap[a := heap[a].(op := SEND)];
      heap := heap[a := heap[a].(len := nread)];
    }

    /** `submit_send(req)`, with the payload noted in the connection's record. */
    method SubmitSend(a: nat)
      requires a in heap
      modifies this
      ensures Model() == IoUringServer.SubmitSend(old(Model()), a)
      ensures history == old(history) && iterations == old(iterations)
    {
      var ok := GetSqe(Sqe(a, SEND, heap[a].clientFd, heap[a].len));
      if !ok {
        Delete(a);
        return;
      }
      Become(NotePrepared(Model(), a));
    }

    /** `handle_send(req)`. */
    method HandleSend(a: nat)
      requires a in heap
      modifies this
      ensures Model() == IoUringServer.HandleSend(old(Model()), a)
      ensures history == old(history) && iterations == old(iterations)
    {
      heap := heap[a := heap[a].(op := RECV)];
      heap := heap[a := heap[a].(len := 0)];
      SubmitRecv(a);
    }

    /** The switch of the scan. */
    method Serve(cqe: Cqe) returns (b: nat)
      requires cqe.req in heap
      modifies this
      ensures b !in old(heap) && Model() == Dispatch(old(Model()), cqe, b)
      ensures history == old(history) && iterations == old(iterations)
    {
      ghost var _ := UnusedFrom(heap.Keys, 0);
      b :| b !in heap;
      match heap[cqe.req].op {
        case ACCEPT =>
          b := HandleAccept(cqe.res);
          Delete(cqe.req);
        case RECV =>
          HandleRecv(cqe.req, cqe.res);
        case SEND =>
          HandleSend(cqe.req);
      }
    }

    /** The body of `io_uring_for_each_cqe`. */
    method HandleCompletion()
      requires Valid() && phase.Scanning? && count < |cq|
      modifies this
      ensures Valid() && phase.Scanning? && count == old(count) + 1
      ensures cq == old(cq) && flight == old(flight) && handled == old(handled) + [old(cq)[old(count)]]
      ensures tail == old(tail) && iterations == old(iterations)
    {
      ValidMeansInv();
      ghost var before := Model();
      NextCompletionIsLive(before);
      var cqe := TakeNext();
      ghost var taken := Model();
      var b := Serve(cqe);
      ServingIsHandling(before, taken, Model(), cqe, b);
      Extend(before, Handle(b));
      history := history + [Handle(b)];
    }

    method TakeNext() returns (cqe: Cqe)
      requires count < |cq|
      modifies this`count, this`handled
      ensures cqe == cq[old(count)] && Model() == Taken(old(Model()))
    {
      cqe := cq[count];
      count := count + 1;
      handled := handled + [cqe];
    }

    /**
     Phase 1.  Everything that was in the queue when the wait returned is handled, in order, and given
     back.  The kernel may append while the queue is scanned, and the scan ends all the same: what it
     can append was submitted before, and handlers only prepare.
     */
    method ProcessCompletions()
      requires Valid() && phase.Scanning? && count == 0 && tail == |cq|
      modifies this
      ensures Valid() && phase.Flushing? && count == 0 && iterations == old(iterations)
      ensures old(handled) + old(cq) <= handled && posted == handled + cq
    {
      ForEachCqe();
      EndScan();
      KernelRuns();
      CqAdvance();
    }

    /** `before` was handled before this scan, whose wait saw `waiting`. */
    ghost predicate ScanSoFar(before: seq<Cqe>, waiting: seq<Cqe>)
      reads this
    {
      && phase.Scanning? && count <= |cq| && tail == |waiting|
      && waiting <= cq && handled == before + cq[..count]
    }

    /** `io_uring_for_each_cqe`: the tail it loads may be behind the kernel's, not behind what the wait saw. */
    method ForEachCqe()
      requires Valid() && phase.Scanning? && count == 0 && tail == |cq|
      modifies this
      ensures Valid() && phase.Scanning? && tail <= count <= |cq| && iterations == old(iterations)
      ensures old(handled) + old(cq) <= handled
    {
      ghost var waiting, before := cq, handled;
      while true
        invariant Valid() && ScanSoFar(before, waiting) && iterations == old(iterations)
        decreases |flight| + |cq| - count
      {
        KernelAppends(before, waiting);
        var stale: bool := *;
        if count == |cq| || (stale && count >= tail) {
          break;
        }
        HandleNext(before, waiting);
      }
      assert waiting <= cq[..count];
    }

    method KernelAppends(ghost before: seq<Cqe>, ghost waiting: seq<Cqe>)
      requires Valid() && ScanSoFar(before, waiting)
      modifies this
      ensures Valid() && ScanSoFar(before, waiting) && iterations == old(iterations) && count == old(count)
      ensures |flight| + |cq| == old(|flight| + |cq|)
    {
      ghost var soFar := cq;
      KernelRuns();
      assert cq[..count] == soFar[..count];
    }

    method HandleNext(ghost before: seq<Cqe>, ghost waiting: seq<Cqe>)
      requires Valid() && ScanSoFar(before, waiting) && count < |cq|
      modifies this
      ensures Valid() && ScanSoFar(before, waiting) && iterations == old(iterations) && count == old(count) + 1
      ensures cq == old(cq) && flight == old(flight)
    {
      HandleCompletion();
      assert cq[..count] == cq[..count - 1] + [cq[count - 1]];
    }

    method EndScan()
      requires Valid() && phase.Scanning? && tail <= count
      modifies this`phase, this`history
      ensures Valid() && phase.Advancing?
    {
      Extend(Model(), ScanEnd);
      phase := Advancing;
      history := history + [ScanEnd];
    }

    /** `io_uring_cq_advance(&ring_, count)`: what is given back is what was handled. */
    method CqAdvance()
      requires Valid() && phase.Advancing? && count <= |cq|
      modifies this`cq, this`count, this`tail, this`phase, this`history
      ensures Valid() && phase.Flushing? && count == 0
      ensures posted == handled + cq
    {
      Extend(Model(), Advance);
      cq, count, tail, phase := cq[count..], 0, 0, Flushing;
      history := history + [Advance];
      ValidMeansInv();
      Theorems.EachCompletionHandledOnce(Model());
    }

    /** Phase 2: arm the accept again if need be, and submit everything. */
    method SubmitPrepared()
      requires Valid() && phase.Flushing?
      modifies this
      ensures Valid() && phase.Waiting? && count == old(count) && iterations == old(iterations) + 1
      ensures handled == old(handled)
      ensures sq == [] && (acceptPending <==> old(acceptPending) || |old(sq)| < SQ_ENTRIES)
      ensures forall e :: e in old(sq) ==> e.req in flight && flight[e.req] == e
    {
      ghost var before := Model();
      var a := ArmAndSubmit();
      ValidMeansReachable(before);
      Extend(before, Flush(a));
      Theorems.IterationEndsFlushed(before, a);
      history, iterations := history + [Flush(a)], iterations + 1;
    }

    method ArmAndSubmit() returns (a: nat)
      modifies this
      ensures a !in old(heap) && Model() == FlushPhase(old(Model()), a)
      ensures history == old(history) && iterations == old(iterations)
      ensures count == old(count) && handled == old(handled)
    {
      ghost var _ := UnusedFrom(heap.Keys, 0);
      a :| a !in heap;
      if !acceptPending {
        a := SubmitAccept();
      }
      SubmitAll();
    }

    /** `io_uring_submit(&ring_)`. */
    method SubmitAll()
      modifies this`sq, this`flight, this`phase
      ensures Model() == Submit(old(Model())).(phase := Waiting)
    {
      flight := TakenBy(flight, sq);
      sq, phase := [], Waiting;
    }

    /** `submit_accept()` before the loop. */
    method PrimeAccept()
      requires Valid() && phase.Starting?
      modifies this
      ensures Valid() && phase.Waiting? && count == old(count) && handled == old(handled)
      ensures iterations == old(iterations)
    {
      ghost var before := Model();
      var a := SubmitAccept();
      phase := Waiting;
      Extend(before, Prime(a));
      history := history + [Prime(a)];
    }

    /** `io_uring_wait_cqe_timeout`: with nothing in the queue it does not return 0 but times out. */
    method WaitCqe(answer: int) returns (ret: int)
      requires Valid() && phase.Waiting?
      modifies this`phase, this`tail, this`history
      ensures Valid() && ret == if answer > 0 || (answer == 0 && cq == []) then -ETIME else answer
      ensures phase == if ret == 0 then Scanning else if GoesOn(ret) then Flushing else Halted
      ensures ret == 0 ==> tail == |cq| > 0
    {
      ret := if answer > 0 || (answer == 0 && cq == []) then -ETIME else answer;
      Extend(Model(), WaitReturns(ret));
      phase := if ret == 0 then Scanning else if GoesOn(ret) then Flushing else Halted;
      tail := if ret == 0 then |cq| else 0;
      history := history + [WaitReturns(ret)];
    }

    /** The loop test found `running_` false. */
    method LeaveLoop()
      requires Valid() && phase.Waiting?
      modifies this`phase, this`history
      ensures Valid() && phase.Halted?
    {
      Extend(Model(), StopSeen);
      phase := Halted;
      history := history + [StopSeen];
    }

    /** The body of the loop, given what the wait answers; false after a hard error. */
    method Turn(answer: int) returns (goesOn: bool)
      requires Valid() && phase.Waiting? && count == 0
      modifies this
      ensures Valid() && count == 0 && (goesOn <==> GoesOn(answer))
      ensures goesOn ==> phase.Waiting? && sq == [] && iterations == old(iterations) + 1
      ensures goesOn && answer == 0 ==> old(handled) + old(cq) <= handled
      ensures !goesOn ==> phase.Halted? && sq == old(sq) && iterations == old(iterations)
    {
      var ret := WaitCqe(answer);
      if ret < 0 {
        if ret == -ETIME || ret == -EINTR {
        } else {
          return false;
        }
      }
      if ret == 0 {
        ProcessCompletions();
      }
      SubmitPrepared();
      return true;
    }

    /** One turn, the loop test included. */
    method TestAndTurn(running: bool, answer: int) returns (goesOn: bool)
      requires Valid() && phase.Waiting? && count == 0
      modifies this
      ensures Valid() && count == 0 && (goesOn <==> running && GoesOn(answer))
      ensures goesOn ==> phase.Waiting? && sq == [] && iterations == old(iterations) + 1
      ensures !goesOn ==> phase.Halted? && sq == old(sq) && iterations == old(iterations)
    {
      KernelRuns();
      if !running {
        LeaveLoop();
        return false;
      }
      goesOn := Turn(answer);
    }

    /**
     `event_loop()`: `running` and `waits` say what the loop test and the wait answer at each turn.  The
     loop is left only when told to stop or by a hard error of the wait, and every turn before reaches
     phase 2.  After any number of turns, nothing was freed twice, used after it was freed, or closed
     twice; every completion posted was handled once, in order, or is still in the queue; and nothing
     prepared is left unsubmitted.
     */
    method EventLoop(patience: nat, running: nat -> bool, waits: nat -> int) returns (turns: nat)
      requires Valid() && phase.Starting? && count == 0
      modifies this
      ensures Valid() && Sound()
      ensures turns <= patience && iterations == old(iterations) + turns
      ensures if turns < patience then phase.Halted? && !(running(turns) && GoesOn(waits(turns))) else phase.Waiting?
      ensures KeptGoing(running, waits, turns) && (turns > 0 ==> sq == [])
    {
      PrimeAccept();
      turns := WhileRunning(patience, running, waits);
      SoundNow();
    }

    method WhileRunning(patience: nat, running: nat -> bool, waits: nat -> int) returns (turns: nat)
      requires Valid() && phase.Waiting? && count == 0
      modifies this
      ensures Valid() && count == 0
      ensures turns <= patience && iterations == old(iterations) + turns
      ensures if turns < patience then phase.Halted? && !(running(turns) && GoesOn(waits(turns))) else phase.Waiting?
      ensures KeptGoing(running, waits, turns) && (turns > 0 ==> sq == [])
    {
      turns := 0;
      while turns < patience
        invariant Valid() && phase.Waiting? && count == 0
        invariant turns <= patience && iterations == old(iterations) + turns
        invariant KeptGoing(running, waits, turns) && (turns > 0 ==> sq == [])
      {
        var goesOn := TestAndTurn(running(turns), waits(turns));
        if !goesOn {
          break;
        }
        turns := turns + 1;
      }
    }

    /** Nothing was misused, every completion is accounted for, and every payload follows its chunk. */
    ghost predicate Sound()
      reads this
    {
      !fault && posted == handled + cq && forall g :: 0 <= g < |conns| ==> Level(conns[g])
    }

    lemma SoundNow()
      requires Valid() && count == 0
      ensures Sound()
    {
      ValidMeansInv();
      Settled(Model());
    }
  }

  /** The loop test and the wait let the first `turns` turns pass. */
  predicate KeptGoing(running: nat -> bool, waits: nat -> int, turns: nat) {
    forall k: nat :: k < turns ==> running(k) && GoesOn(waits(k))
  }

  /** A result of the wait after which the loop goes on. */
  predicate GoesOn(ret: int) {
    ret >= 0 || ret == -ETIME || ret == -EINTR
  }

  /** The payloads prepared are the chunks received, or all but the last of them. */
  predicate Level(c: Conn) {
    c.prepared == c.received || (c.received != [] && c.prepared == c.received[..|c.received| - 1])
  }

  lemma Settled(s: Io)
    requires Theorems.Reachable(s) && s.count == 0
    ensures !s.fault && s.posted == s.handled + s.cq
    ensures forall g :: 0 <= g < |s.conns| ==> Level(s.conns[g])
  {
    Theorems.EachRequestOnce(s, 0);
    Theorems.EachCompletionHandledOnce(s);
    assert s.cq[0..] == s.cq;
    forall g | 0 <= g < |s.conns| ensures Level(s.conns[g]) {
      Theorems.PreparedFollowsReceived(s, g);
    }
  }
}

/**
 A run in which a short send loses a byte: the client sends 1 2, the kernel takes one byte of the
 echo, the server goes back to receiving, the client sends 3, and the client has been sent 1 3.
 */
module IoUringShortSend {
  import opened IoUringServer
  import opened IoUringTheorems
  import Connections = IoUringConnections

  lemma Take(s: Io, st: Step) returns (s': Io)
    requires Reachable(s) && Enabled(s, st)
    ensures Reachable(s') && s' == Apply(s, st)
  {
    var steps :| CanRun(Init(), steps) && Run(Init(), steps) == s;
    RunSnoc(Init(), steps, st);
    s' := Apply(s, st);
  }

  /** One iteration that handles the single completion in the queue and has nothing to accept. */
  lemma Iterate(s: Io, b: nat) returns (s': Io)
    requires Reachable(s) && s.phase.Waiting? && |s.cq| == 1 && s.count == 0 && b !in s.heap
    requires HandleCqe(s.(phase := Scanning, tail := 1), b).acceptPending
               && b !in HandleCqe(s.(phase := Scanning, tail := 1), b).heap
    requires s.cq[0].req in s.heap
    ensures Reachable(s')
    ensures s' == Submit(HandleCqe(s.(phase := Scanning, tail := 1), b).(cq := [], count := 0,
              tail := 0)).(phase := Waiting)
  {
    s' := Take(s, WaitReturns(0));
    s' := Take(s', Handle(b));
    HandleKeepsTail(s.(phase := Scanning, tail := 1), b);
    s' := Take(s', ScanEnd);
    s' := Take(s', Advance);
    s' := Take(s', Flush(b));
  }

  /** Between iterations, with the one client on descriptor 5 and its request, at address 1, with the kernel. */
  ghost predicate Between(s: Io, c: Conn) {
    && Reachable(s) && s.phase.Waiting? && s.cq == [] && s.count == 0 && s.sq == [] && s.acceptPending
    && s.open == map[5 := 0] && s.conns == [c]
    && 1 in s.heap && s.heap[1].clientFd == 5 && |s.heap[1].buf| == BUF_LEN
    && 2 !in s.heap && 1 in s.flight
  }

  ghost predicate Receiving(s: Io, c: Conn) {
    Between(s, c) && s.heap[1].op.RECV? && s.flight[1] == Sqe(1, RECV, 5, BUF_LEN)
  }

  ghost predicate Sending(s: Io, c: Conn, data: seq<Byte>) {
    && Between(s, c) && s.heap[1].op.SEND? && 0 < |data| <= BUF_LEN
    && s.flight[1] == Sqe(1, SEND, 5, |data|) && s.heap[1].buf[..|data|] == data
  }

  lemma Primes() returns (s: Io)
    ensures Reachable(s) && s == Init().(heap := map[0 := Request(ACCEPT, -1, Zeros(), 0)],
              flight := map[0 := Sqe(0, ACCEPT, -1, 0)], acceptPending := true, phase := Waiting)
  {
    s := Init();
    assert CanRun(s, []) && Run(s, []) == s;
    s := Take(s, Prime(0));
    s := Take(s, WaitReturns(-ETIME));
    assert s.sq == [Sqe(0, ACCEPT, -1, 0)];
    assert TakenBy(map[], s.sq) == map[0 := Sqe(0, ACCEPT, -1, 0)];
    s := Take(s, Flush(1));
  }

  /** The client is accepted and its receive prepared; phase 2 is next. */
  lemma Accepts() returns (s: Io)
    ensures Reachable(s) && s.phase.Flushing? && s.cq == [] && s.count == 0 && !s.acceptPending
    ensures s.heap == map[1 := Request(RECV, 5, Zeros(), 0)] && s.sq == [Sqe(1, RECV, 5, BUF_LEN)] && s.flight == map[]
    ensures s.open == map[5 := 0] && s.conns == [Conn(5, [], [], [], [], false)]
  {
    s := Primes();
    s := Take(s, CompleteAccept(0, 5));
    assert s.cq == [Cqe(0, 5)] && s.flight == map[];
    s := HandlesAccept(s);
  }

  lemma HandlesAccept(s0: Io) returns (s: Io)
    requires Reachable(s0) && s0.phase.Waiting? && s0.cq == [Cqe(0, 5)] && s0.count == 0 && s0.sq == []
               && s0.flight == map[]
    requires s0.heap == map[0 := Request(ACCEPT, -1, Zeros(), 0)]
    ensures Reachable(s) && s.phase.Flushing? && s.cq == [] && s.count == 0 && !s.acceptPending
    ensures s.heap == map[1 := Request(RECV, 5, Zeros(), 0)] && s.sq == [Sqe(1, RECV, 5, BUF_LEN)] && s.flight == map[]
    ensures s.open == s0.open && s.conns == s0.conns
  {
    s := Take(s0, WaitReturns(0));
    AcceptHandled(s);
    s := Take(s, Handle(1));
    s := Take(s, ScanEnd);
    s := Take(s, Advance);
  }

  lemma AcceptHandled(s: Io)
    requires s.count == 0 && s.cq == [Cqe(0, 5)] && s.sq == [] && s.heap == map[0 := Request(ACCEPT, -1, Zeros(), 0)]
    ensures var s' := HandleCqe(s, 1);
            && s'.heap == map[1 := Request(RECV, 5, Zeros(), 0)] && s'.sq == [Sqe(1, RECV, 5, BUF_LEN)]
            && s'.flight == s.flight && s'.open == s.open && s'.conns == s.conns && !s'.acceptPending
            && s'.phase == s.phase && s'.count == 1 && s'.cq == s.cq
  {
    var accept, recv := Request(ACCEPT, -1, Zeros(), 0), Request(RECV, 5, Zeros(), 0);
    assert map[0 := accept][1 := recv] - {0} == map[1 := recv];
    var s1 := s.(count := 1, handled := s.handled + [Cqe(0, 5)]);
    assert HandleCqe(s, 1) == Delete(HandleAccept(s1, 5, 1), 0);
  }

  lemma Connects() returns (s: Io)
    ensures Receiving(s, Conn(5, [], [], [], [], false))
  {
    s := Accepts();
    var recv, accept := Sqe(1, RECV, 5, BUF_LEN), Sqe(0, ACCEPT, -1, 0);
    assert [recv, accept][1..] == [accept] && [accept][1..] == [];
    assert TakenBy(map[], [recv, accept]) == TakenBy(map[1 := recv], [accept]) == map[1 := recv, 0 := accept];
    assert SubmitAccept(s, 0).sq == [recv, accept];
    s := Take(s, Flush(0));
  }

  /** The client sends data; the server prepares and submits the echo. */
  lemma Receives(s: Io, c: Conn, data: seq<Byte>) returns (s': Io)
    requires Receiving(s, c) && 0 < |data| <= BUF_LEN
    ensures Sending(s', c.(received := c.received + [data], prepared := c.prepared + [data]), data)
  {
    var s1 := Take(s, CompleteRecv(1, |data|, data));
    var r := Request(SEND, 5, data + s.heap[1].buf[|data|..], |data|);
    assert s1.heap[1].buf == r.buf && r.buf[..|data|] == data;
    assert s1.cq == [Cqe(1, |data|)] && s1.flight == s.flight - {1};
    ReceiveHandled(s1.(phase := Scanning, tail := 1), |data|);
    var s2 := HandleCqe(s1.(phase := Scanning, tail := 1), 2);
    assert TakenBy(s2.flight, s2.sq) == s2.flight[1 := s2.sq[0]];
    s' := Iterate(s1, 2);
  }

  lemma ReceiveHandled(s: Io, n: nat)
    requires s.count == 0 && s.cq == [Cqe(1, n)] && s.sq == [] && 1 in s.heap && 2 !in s.heap && n > 0
    requires s.heap[1].op.RECV? && s.heap[1].clientFd == 5 && n <= |s.heap[1].buf| && s.open == map[5 := 0]
               && |s.conns| == 1
    ensures var s' := HandleCqe(s, 2);
            && s'.heap == s.heap[1 := s.heap[1].(op := SEND, len := n)] && s'.sq == [Sqe(1, SEND, 5, n)]
            && s'.flight == s.flight && s'.open == s.open && s'.acceptPending == s.acceptPending
            && s'.conns == [s.conns[0].(prepared := s.conns[0].prepared + [s.heap[1].buf[..n]])]
  {
    assert HandleCqe(s, 2) == HandleRecv(s.(count := 1, handled := s.handled + [Cqe(1, n)]), 1, n);
  }

  /** The kernel takes n bytes of the echo; the server goes back to receiving. */
  lemma Sends(s: Io, c: Conn, data: seq<Byte>, n: nat) returns (s': Io)
    requires Sending(s, c, data) && n <= |data|
    ensures Receiving(s', c.(sends := c.sends + [n], output := c.output + data[..n]))
  {
    var s1 := Take(s, CompleteSend(1, n));
    assert s.heap[1].buf[..n] == data[..n];
    assert s1.cq == [Cqe(1, n)] && s1.flight == s.flight - {1};
    var s2 := HandleCqe(s1.(phase := Scanning, tail := 1), 2);
    assert s2.sq == [Sqe(1, RECV, 5, BUF_LEN)];
    assert TakenBy(s2.flight, s2.sq) == s2.flight[1 := s2.sq[0]];
    s' := Iterate(s1, 2);
  }

  lemma ShortSendLosesByte() returns (s: Io)
    ensures Reachable(s) && |s.conns| == 1
    ensures s.conns[0].received == [[1, 2], [3]] && s.conns[0].sends == [1, 1] && s.conns[0].output == [1, 3]
  {
    var c := Conn(5, [], [], [], [], false);
    var first: seq<Byte>, second: seq<Byte> := [1, 2], [3];
    s := Connects();
    s := Receives(s, c, first);
    c := c.(received := c.received + [first], prepared := c.prepared + [first]);
    s := Sends(s, c, first, 1);
    c := c.(sends := c.sends + [1], output := c.output + first[..1]);
    s := Receives(s, c, second);
    c := c.(received := c.received + [second], prepared := c.prepared + [second]);
    s := Sends(s, c, second, 1);
    c := c.(sends := c.sends + [1], output := c.output + second[..1]);
    assert c.received == [first, second] && c.output == [1, 3] && c.sends == [1, 1];
  }

  /** A run in which a receive comes back with EAGAIN and the connection is never heard of again. */
  lemma EagainAbandons() returns (s: Io)
    ensures Reachable(s) && |s.conns| == 1 && Connections.Abandoned(s, 0)
  {
    s := Connects();
    s := Take(s, CompleteRecv(1, -EAGAIN, []));
    s := Take(s, WaitReturns(0));
    ReachableMeansInv(s);
    assert Connections.Live(s, 0, 1);
    Connections.AbandonedExactly(s, 2, 0);
    s := Take(s, Handle(2));
  }
}

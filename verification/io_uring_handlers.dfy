/**
 What the handling of one completion comes to, result by result: which submission it adds, what
 becomes of the request, and what becomes of the connection.
 */
module IoUringHandlers {
  import opened IoUringServer
  import opened IoUringSafety

  /** The next completion, and the state its handler leaves. */
  ghost predicate Handles(s: Io, b: nat, c: Cqe, s': Io) {
    Enabled(s, Handle(b)) && c == s.cq[s.count] && c.req in s.heap && s' == HandleCqe(s, b) && Inv(s)
  }

  /** What a handler may always rely on; the proofs below need no more. */
  ghost predicate Ready(s: Io, b: nat, c: Cqe) {
    && Enabled(s, Handle(b)) && c == s.cq[s.count] && GoodCompletion(s, c)
    && |s.sq| <= SQ_ENTRIES && (forall a :: a in s.heap ==> |s.heap[a].buf| == BUF_LEN)
  }

  lemma HandlesMeansReady(s: Io, b: nat, c: Cqe, s': Io)
    requires Handles(s, b, c, s')
    ensures Ready(s, b, c)
  {
    assert Unhandled(s)[0] == c;
  }

  // ----- RECV

  /** The completed receive brought data and there is room for the echo. */
  lemma ReceivedIsEchoed(s: Io, b: nat, c: Cqe, s': Io)
    requires Handles(s, b, c, s') && s.heap[c.req].op.RECV? && c.res > 0 && |s.sq| < SQ_ENTRIES
    ensures var fd := s.heap[c.req].clientFd;
            && s'.sq == s.sq + [Sqe(c.req, SEND, fd, c.res)]
            && s'.heap == s.heap[c.req := s.heap[c.req].(op := SEND, len := c.res)]
            && s'.open == s.open && s'.acceptPending == s.acceptPending && fd in s.open && EchoPrepared(s, s', c, fd)
  {
    HandlesMeansReady(s, b, c, s');
    EchoesWhatCame(s, b, c);
  }

  /**
   On that connection, and on no other, the payload prepared is the chunk received last: the echo
   is level with the input.
   */
  ghost predicate EchoPrepared(s: Io, s': Io, c: Cqe, fd: int)
    requires fd in s.open && c.req in s.heap
  {
    var g := s.open[fd];
    && g < |s.conns| && 0 <= c.res <= |s.heap[c.req].buf|
    && s'.conns == s.conns[g := s.conns[g].(prepared := s.conns[g].prepared + [s.heap[c.req].buf[..c.res]])]
    && s'.conns[g].prepared == s'.conns[g].received && s'.conns[g].fd == fd && !s'.conns[g].closed
  }

  lemma EchoesWhatCame(s: Io, b: nat, c: Cqe)
    requires Ready(s, b, c) && s.heap[c.req].op.RECV? && c.res > 0 && |s.sq| < SQ_ENTRIES
    ensures var s' := HandleCqe(s, b);
            var fd := s.heap[c.req].clientFd;
            && s'.sq == s.sq + [Sqe(c.req, SEND, fd, c.res)]
            && s'.heap == s.heap[c.req := s.heap[c.req].(op := SEND, len := c.res)]
            && s'.open == s.open && s'.acceptPending == s.acceptPending && fd in s.open && EchoPrepared(s, s', c, fd)
  {
  }

  /**
   End of file, or an error other than EAGAIN: the connection is closed and the request freed;
   nothing is submitted.
   */
  lemma EndIsClosed(s: Io, b: nat, c: Cqe, s': Io)
    requires Handles(s, b, c, s') && s.heap[c.req].op.RECV? && c.res <= 0 && c.res != -EAGAIN
    ensures var fd := s.heap[c.req].clientFd;
            && s'.sq == s.sq && s'.heap == s.heap - {c.req} && s'.acceptPending == s.acceptPending
            && fd in s.open && s.open[fd] < |s.conns| && s'.open == s.open - {fd}
            && s'.conns == s.conns[s.open[fd] := s.conns[s.open[fd]].(closed := true)]
  {
    HandlesMeansReady(s, b, c, s');
  }

  /** EAGAIN, or data with no room for its echo: the request is freed and the connection left as it is. */
  lemma DroppedIsLeftOpen(s: Io, b: nat, c: Cqe, s': Io)
    requires Handles(s, b, c, s') && s.heap[c.req].op.RECV?
    requires c.res == -EAGAIN || (c.res > 0 && |s.sq| == SQ_ENTRIES)
    ensures s'.sq == s.sq && s'.heap == s.heap - {c.req} && s'.open == s.open && s'.conns == s.conns
    ensures s'.acceptPending == s.acceptPending
  {
    HandlesMeansReady(s, b, c, s');
  }

  // ----- SEND

  /**
   After a send, whatever its result, the same request is submitted to receive a full buffer;
   without room it is freed.
   */
  lemma SentIsReceivedOn(s: Io, b: nat, c: Cqe, s': Io)
    requires Handles(s, b, c, s') && s.heap[c.req].op.SEND?
    ensures s'.open == s.open && s'.conns == s.conns && s'.acceptPending == s.acceptPending
    ensures |s.sq| < SQ_ENTRIES ==>
              && s'.sq == s.sq + [Sqe(c.req, RECV, s.heap[c.req].clientFd, BUF_LEN)]
              && s'.heap == s.heap[c.req := s.heap[c.req].(op := RECV, len := 0)]
    ensures |s.sq| == SQ_ENTRIES ==> s'.sq == s.sq && s'.heap == s.heap - {c.req}
  {
    HandlesMeansReady(s, b, c, s');
    ReceivesOn(s, b, c);
  }

  lemma ReceivesOn(s: Io, b: nat, c: Cqe)
    requires Ready(s, b, c) && s.heap[c.req].op.SEND?
    ensures var s' := HandleCqe(s, b);
            && s'.open == s.open && s'.conns == s.conns && s'.acceptPending == s.acceptPending
            && (|s.sq| < SQ_ENTRIES ==>
                  && s'.sq == s.sq + [Sqe(c.req, RECV, s.heap[c.req].clientFd, BUF_LEN)]
                  && s'.heap == s.heap[c.req := s.heap[c.req].(op := RECV, len := 0)])
            && (|s.sq| == SQ_ENTRIES ==> s'.sq == s.sq && s'.heap == s.heap - {c.req})
  {
    var h := s.heap[c.req := s.heap[c.req].(op := RECV, len := 0)];
    assert h - {c.req} == s.heap - {c.req};
  }

  // ----- ACCEPT

  /** A client arrived: its first receive is submitted, with a new request; without room both requests are freed. */
  lemma AcceptedIsReceivedFrom(s: Io, b: nat, c: Cqe, s': Io)
    requires Handles(s, b, c, s') && s.heap[c.req].op.ACCEPT? && c.res >= 0
    ensures !s'.acceptPending && s'.open == s.open && s'.conns == s.conns
    ensures |s.sq| < SQ_ENTRIES ==>
              && s'.sq == s.sq + [Sqe(b, RECV, c.res, BUF_LEN)]
              && s'.heap == s.heap[b := Request(RECV, c.res, Zeros(), 0)] - {c.req}
    ensures |s.sq| == SQ_ENTRIES ==> s'.sq == s.sq && s'.heap == s.heap - {c.req}
  {
    HandlesMeansReady(s, b, c, s');
    assert s.heap[b := Request(RECV, c.res, Zeros(), 0)] - {b} == s.heap;
  }

  /** The accept failed: another may be armed; nothing else changes. */
  lemma FailedAcceptIsForgotten(s: Io, b: nat, c: Cqe, s': Io)
    requires Handles(s, b, c, s') && s.heap[c.req].op.ACCEPT? && c.res < 0
    ensures !s'.acceptPending && s'.open == s.open && s'.conns == s.conns && s'.sq == s.sq
    ensures s'.heap == s.heap - {c.req}
  {
    HandlesMeansReady(s, b, c, s');
  }
}

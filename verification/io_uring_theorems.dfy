/** What the io_uring server promises, over all runs and all answers of the kernel. */
module IoUringTheorems {
  import opened Gaps
  import opened IoUringServer
  import opened IoUringSafety

  ghost predicate Reachable(s: Io) {
    exists steps :: CanRun(Init(), steps) && Run(Init(), steps) == s
  }

  lemma ReachableMeansInv(s: Io)
    requires Reachable(s)
    ensures Inv(s)
  {
    var steps :| CanRun(Init(), steps) && Run(Init(), steps) == s;
    InitInv();
    RunKeepsInv(Init(), steps);
  }

  lemma {:induction false} RunSnoc(s: Io, a: seq<Step>, st: Step)
    requires CanRun(s, a) && Enabled(Run(s, a), st)
    ensures CanRun(s, a + [st]) && Run(s, a + [st]) == Apply(Run(s, a), st)
    decreases |a|
  {
    if a == [] {
      assert CanRun(Apply(s, st), []) && (a + [st])[1..] == [];
    } else {
      RunSnoc(Apply(s, a[0]), a[1..], st);
      assert (a + [st])[0] == a[0] && (a + [st])[1..] == a[1..] + [st];
    }
  }

  // ----- ownership

  function CountSq(sq: seq<Sqe>, a: nat): nat {
    if sq == [] then 0 else (if sq[0].req == a then 1 else 0) + CountSq(sq[1..], a)
  }

  function CountCq(cq: seq<Cqe>, a: nat): nat {
    if cq == [] then 0 else (if cq[0].req == a then 1 else 0) + CountCq(cq[1..], a)
  }

  /** In how many places, and how often, a request is queued. */
  function Places(s: Io, a: nat): nat {
    CountSq(s.sq, a) + (if a in s.flight then 1 else 0) + CountCq(Unhandled(s), a)
  }

  lemma {:induction false} CountSqExact(sq: seq<Sqe>, a: nat)
    requires forall i, j :: 0 <= i < j < |sq| ==> sq[i].req != sq[j].req
    ensures CountSq(sq, a) == if a in SqReqs(sq) then 1 else 0
    decreases |sq|
  {
    if sq != [] {
      assert sq[0] in sq;
      SqFirst(sq);
      CountSqExact(sq[1..], a);
    }
  }

  lemma {:induction false} CountCqExact(cq: seq<Cqe>, a: nat)
    requires forall i, j :: 0 <= i < j < |cq| ==> cq[i].req != cq[j].req
    ensures CountCq(cq, a) == if a in CqReqs(cq) then 1 else 0
    decreases |cq|
  {
    if cq != [] {
      assert cq[0] in cq;
      CqFirst(cq);
      CountCqExact(cq[1..], a);
    }
  }

  /**
   Between handlers every live request is in exactly one place exactly once, no freed one is anywhere,
   and nothing was freed twice, used after it was freed, or closed twice.
   */
  lemma EachRequestOnce(s: Io, a: nat)
    requires Reachable(s)
    ensures !s.fault && Places(s, a) == if a in s.heap then 1 else 0
  {
    ReachableMeansInv(s);
    CountSqExact(s.sq, a);
    CountCqExact(Unhandled(s), a);
  }

  // ----- the accept flag, descriptors, and the two phases

  function LiveWith(s: Io, op: Op): set<nat> {
    set a | a in s.heap && s.heap[a].op == op
  }

  /** One ACCEPT request is live when the flag says so and none otherwise; the live requests add up. */
  lemma LiveRequestsAddUp(s: Io)
    requires Reachable(s)
    ensures && |LiveWith(s, ACCEPT)| == (if s.acceptPending then 1 else 0)
            && |s.heap.Keys| == |LiveWith(s, RECV)| + |LiveWith(s, SEND)| + (if s.acceptPending then 1 else 0)
  {
    ReachableMeansInv(s);
    AcceptsCount(s);
    CountByOp(s);
  }

  lemma CountByOp(s: Io)
    ensures |s.heap.Keys| == |LiveWith(s, RECV)| + |LiveWith(s, SEND)| + |LiveWith(s, ACCEPT)|
  {
    var recv, send, accept := LiveWith(s, RECV), LiveWith(s, SEND), LiveWith(s, ACCEPT);
    forall a | a in s.heap ensures a in recv + send + accept {
      match s.heap[a].op {
        case ACCEPT =>
        case RECV =>
        case SEND =>
      }
    }
    assert s.heap.Keys == recv + send + accept;
    assert |recv + send| == |recv| + |send|;
    assert |(recv + send) + accept| == |recv + send| + |accept|;
  }

  lemma AcceptsCount(s: Io)
    requires AcceptFlag(s)
    ensures |LiveWith(s, ACCEPT)| == if s.acceptPending then 1 else 0
  {
    if s.acceptPending {
      var a :| a in s.heap && s.heap[a].op.ACCEPT?;
      assert LiveWith(s, ACCEPT) == {a};
    } else {
      assert LiveWith(s, ACCEPT) == {};
    }
  }

  /** A live RECV or SEND has an open descriptor of an unclosed connection, shared with no other live request. */
  lemma OneRequestPerConnection(s: Io)
    requires Reachable(s)
    ensures && (forall a :: a in s.heap && !s.heap[a].op.ACCEPT? ==> IsOpen(s, s.heap[a].clientFd))
            && (forall a, b ::
                  a in s.heap && b in s.heap && a != b && !s.heap[a].op.ACCEPT? && !s.heap[b].op.ACCEPT? ==>
                    s.heap[a].clientFd != s.heap[b].clientFd)
            && (forall g :: 0 <= g < |s.conns| ==>
                  (s.conns[g].closed <==> !(s.conns[g].fd in s.open && s.open[s.conns[g].fd] == g)))
  {
    ReachableMeansInv(s);
    forall g | 0 <= g < |s.conns|
      ensures s.conns[g].closed <==> !(s.conns[g].fd in s.open && s.open[s.conns[g].fd] == g)
    {
      if s.conns[g].closed && s.conns[g].fd in s.open {
        assert IsOpen(s, s.conns[g].fd);
      }
    }
  }

  /** Completions are handled once each, in the order posted; when the ring is advanced exactly the handled ones go. */
  lemma EachCompletionHandledOnce(s: Io)
    requires Reachable(s)
    ensures && s.posted == s.handled + Unhandled(s)
            && (s.phase.Advancing? ==>
                  && Enabled(s, Advance)
                  && Unhandled(Apply(s, Advance)) == Unhandled(s) && Apply(s, Advance).cq == Unhandled(s))
            && (s.phase.Waiting? || s.phase.Flushing? ==> s.cq == Unhandled(s))
  {
    ReachableMeansInv(s);
  }

  /** A scan follows a wait that saw a completion, and does not end before everything the wait saw is handled. */
  ghost predicate Looked(s: Io) {
    && (s.phase.Scanning? || s.phase.Advancing? ==> 0 < s.tail <= |s.cq|)
    && (s.phase.Advancing? ==> s.tail <= s.count)
  }

  lemma StepKeepsLooked(s: Io, st: Step)
    requires Looked(s) && Enabled(s, st)
    ensures Looked(Apply(s, st))
  {
    if st.Handle? {
      HandleKeepsTail(s, st.b);
    }
  }

  lemma HandleKeepsTail(s: Io, b: nat)
    requires Enabled(s, Handle(b))
    ensures var s' := HandleCqe(s, b); s'.phase == s.phase && s'.tail == s.tail && s'.cq == s.cq
  {
    var c := s.cq[s.count];
    var s1 := s.(count := s.count + 1, handled := s.handled + [c]);
    assert c.req in s1.heap ==> HandledOnly(s1, Dispatch(s1, c, b), c, b);
  }

  lemma {:induction false} RunKeepsLooked(s: Io, steps: seq<Step>)
    requires Looked(s) && CanRun(s, steps)
    ensures Looked(Run(s, steps))
    decreases |steps|
  {
    if steps != [] {
      StepKeepsLooked(s, steps[0]);
      RunKeepsLooked(Apply(s, steps[0]), steps[1..]);
    }
  }

  /**
   Whenever the ring is advanced, everything that was in it when the wait returned has been
   handled, and that was something.
   */
  lemma EveryScanServesTheWait(s: Io)
    requires Reachable(s) && s.phase.Advancing?
    ensures 0 < s.tail <= s.count <= |s.cq|
  {
    var steps :| CanRun(Init(), steps) && Run(Init(), steps) == s;
    RunKeepsLooked(Init(), steps);
    ReachableMeansInv(s);
  }

  /**
   Whether the wait returned completions or timed out, the next wait finds nothing left unsubmitted,
   and an accept armed if and only if one already was or the submission queue still had room.
   */
  lemma IterationEndsFlushed(s: Io, a: nat)
    requires Reachable(s) && Enabled(s, Flush(a))
    ensures var s' := Apply(s, Flush(a));
            && s'.phase.Waiting? && s'.sq == []
            && (s'.acceptPending <==> s.acceptPending || |s.sq| < SQ_ENTRIES)
            && (forall e :: e in s.sq ==> e.req in s'.flight && s'.flight[e.req] == e)
  {
    ReachableMeansInv(s);
    if s.acceptPending {
      FlushTakesAll(s, s.sq);
    } else {
      SubmitAcceptKeeps(s, a);
      FlushTakesAll(SubmitAccept(s, a), s.sq);
    }
  }

  lemma FlushTakesAll(s1: Io, sq: seq<Sqe>)
    requires Owned(s1, {}) && sq <= s1.sq
    ensures forall e :: e in sq ==> e.req in Submit(s1).flight && Submit(s1).flight[e.req] == e
  {
    TakenBySpec(s1.flight, s1.sq);
    forall e | e in sq ensures e in s1.sq {
      var i :| 0 <= i < |sq| && sq[i] == e;
      assert s1.sq[i] == e;
    }
  }

  /**
   A submission prepared in an iteration never outlives it: only the priming accept waits in the
   queue, before the first flush.
   */
  lemma NothingWaitsUnsubmitted(s: Io)
    requires Reachable(s)
    ensures s.phase.Waiting? && s.sq != [] ==> |s.sq| == 1 && s.flight == map[] && s.posted == s.handled
  {
    ReachableMeansInv(s);
  }

  // ----- the echoed streams

  function Flatten(chunks: seq<seq<Byte>>): seq<Byte> {
    if chunks == [] then [] else Flatten(chunks[..|chunks| - 1]) + chunks[|chunks| - 1]
  }

  predicate AllFull(c: Conn, n: nat)
    requires n <= |c.sends| && n <= |c.prepared|
  {
    forall i :: 0 <= i < n ==> c.sends[i] == |c.prepared[i]|
  }

  lemma {:induction false} FullSendsSendEverything(c: Conn, n: nat)
    requires n <= |c.sends| <= |c.prepared| && AllFull(c, n)
    ensures Sent(c.prepared, c.sends, n) == Flatten(c.prepared[..n])
    decreases n
  {
    if n > 0 {
      FullSendsSendEverything(c, n - 1);
      assert c.prepared[..n][..n - 1] == c.prepared[..n - 1];
    }
  }

  lemma FlattenSnoc(chunks: seq<seq<Byte>>, x: seq<Byte>)
    ensures Flatten(chunks + [x]) == Flatten(chunks) + x
  {
    assert (chunks + [x])[..|chunks|] == chunks;
  }

  /** The payloads prepared are the chunks received, or all but the last of them. */
  lemma PreparedFollowsReceived(s: Io, g: nat)
    requires Reachable(s) && g < |s.conns|
    ensures var c := s.conns[g];
            c.prepared == c.received || (c.received != [] && c.prepared == c.received[..|c.received| - 1])
  {
    ReachableMeansInv(s);
    var c := s.conns[g];
    assert GoodStream(c);
    assert c.received[..|c.received|] == c.received;
  }

  /**
   If every send completed with its full length, what left is a prefix of what arrived, and lags it
   by at most one buffer.
   */
  lemma FullSendsEcho(s: Io, g: nat)
    requires Reachable(s) && g < |s.conns|
    requires var c := s.conns[g];
             forall i :: 0 <= i < |c.sends| && i < |c.prepared| ==> c.sends[i] == |c.prepared[i]|
    ensures var c := s.conns[g];
            c.output <= Flatten(c.received) && |Flatten(c.received)| <= |c.output| + BUF_LEN
  {
    ReachableMeansInv(s);
    FullSendsEchoOn(s.conns[g]);
  }

  lemma FullSendsEchoOn(c: Conn)
    requires GoodStream(c) && AllFull(c, |c.sends|)
    ensures c.output <= Flatten(c.received) && |Flatten(c.received)| <= |c.output| + BUF_LEN
  {
    var n := |c.sends|;
    FullSendsSendEverything(c, n);
    assert c.prepared[..n] == c.received[..n];
    if |c.received| == n {
      assert c.received[..n] == c.received;
    } else {
      assert c.received[..n] + [c.received[n]] == c.received;
      FlattenSnoc(c.received[..n], c.received[n]);
    }
  }

  // ----- short sends

  /** Where in the input the bytes of the first n sends came from. */
  function Offsets(c: Conn, n: nat): seq<nat>
    requires n <= |c.sends| && n <= |c.prepared|
  {
    if n == 0 then []
    else Offsets(c, n - 1) + Interval(|Flatten(c.prepared[..n - 1])|, Clip(c.sends[n - 1]))
  }

  /** A short or failed send is followed by no send that lets anything out. */
  ghost predicate OnlyLastShort(c: Conn, n: nat)
    requires n <= |c.sends| && n <= |c.prepared|
  {
    forall i, j :: 0 <= i < j < n && Clip(c.sends[j]) > 0 ==> c.sends[i] == |c.prepared[i]|
  }

  /** Each output byte is the input byte at its offset. */
  lemma {:induction false} OutputComesFromInput(c: Conn, n: nat)
    requires GoodStream(c) && n <= |c.sends|
    ensures Located(Sent(c.prepared, c.sends, n), Offsets(c, n), Flatten(c.prepared[..n]))
    decreases n
  {
    if n > 0 {
      OutputComesFromInput(c, n - 1);
      var flat, payload := Flatten(c.prepared[..n - 1]), c.prepared[n - 1];
      assert c.prepared[..n] == c.prepared[..n - 1] + [payload];
      FlattenSnoc(c.prepared[..n - 1], payload);
      LocatedAppend(Sent(c.prepared, c.sends, n - 1), Offsets(c, n - 1), flat, payload, Clip(c.sends[n - 1]));
    }
  }

  lemma {:induction false} OffsetsLength(c: Conn, n: nat)
    requires GoodStream(c) && n <= |c.sends|
    ensures |Offsets(c, n)| <= |Flatten(c.prepared[..n])|
    ensures |Offsets(c, n)| == |Flatten(c.prepared[..n])| <==> AllFull(c, n)
    decreases n
  {
    if n > 0 {
      OffsetsLength(c, n - 1);
      assert c.prepared[..n] == c.prepared[..n - 1] + [c.prepared[n - 1]];
      FlattenSnoc(c.prepared[..n - 1], c.prepared[n - 1]);
      assert c.sends[n - 1] <= |c.prepared[n - 1]| && |c.received[n - 1]| > 0;
    }
  }

  lemma {:induction false} NoGapExactly(c: Conn, n: nat)
    requires GoodStream(c) && n <= |c.sends|
    ensures NoGap(Offsets(c, n)) <==> OnlyLastShort(c, n)
    decreases n
  {
    if n > 0 {
      NoGapExactly(c, n - 1);
      OffsetsLength(c, n - 1);
      var before := Offsets(c, n - 1);
      var start := |Flatten(c.prepared[..n - 1])|;
      assert Offsets(c, n) == before + Interval(start, Clip(c.sends[n - 1]));
      assert NoGap(Offsets(c, n)) <==> NoGap(before) && (Clip(c.sends[n - 1]) > 0 ==> |before| == start) by {
        NoGapAppend(before, start, Clip(c.sends[n - 1]));
      }
    }
  }

  /**
   handle_send ignores the result of the send.  The bytes that leave a connection have no gap if and
   only if no send after a short or failed one lets anything out.
   */
  lemma ShortSendsLeaveGaps(s: Io, g: nat)
    requires Reachable(s) && g < |s.conns|
    ensures var c := s.conns[g];
            && |c.sends| <= |c.prepared| <= |c.received|
            && Located(c.output, Offsets(c, |c.sends|), Flatten(c.prepared[..|c.sends|]))
            && (NoGap(Offsets(c, |c.sends|)) <==> OnlyLastShort(c, |c.sends|))
  {
    ReachableMeansInv(s);
    var c := s.conns[g];
    assert GoodStream(c);
    OutputComesFromInput(c, |c.sends|);
    NoGapExactly(c, |c.sends|);
  }
}

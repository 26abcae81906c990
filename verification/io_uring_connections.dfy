/** The life of an accepted connection: live, closed, or abandoned with its descriptor left open. */
module IoUringConnections {
  import opened IoUringServer
  import opened IoUringSafety
  import Theorems = IoUringTheorems

  /** A request of connection g is live: it is being received from or sent to. */
  predicate Live(s: Io, g: nat, a: nat) {
    g < |s.conns| && !s.conns[g].closed && a in s.heap && !s.heap[a].op.ACCEPT? && s.heap[a].clientFd == s.conns[g].fd
  }

  /** The completion that announces connection g is still to be handled. */
  ghost predicate Arriving(s: Io, g: nat) {
    g < |s.conns| && !s.conns[g].closed &&
    exists i :: 0 <= i < |Unhandled(s)| && AcceptedNow(s, Unhandled(s)[i]) && Unhandled(s)[i].res == s.conns[g].fd
  }

  ghost predicate Abandoned(s: Io, g: nat) {
    && g < |s.conns| && !s.conns[g].closed
    && (forall a :: a in s.heap && !s.heap[a].op.ACCEPT? ==> s.heap[a].clientFd != s.conns[g].fd)
    && (forall i :: 0 <= i < |Unhandled(s)| && AcceptedNow(s, Unhandled(s)[i]) ==> Unhandled(s)[i].res != s.conns[g].fd)
  }

  /** Exactly one of: closed, announced but not yet handled, served by exactly one request, abandoned. */
  lemma OneState(s: Io, g: nat)
    requires Theorems.Reachable(s) && g < |s.conns|
    ensures forall a, b :: Live(s, g, a) && Live(s, g, b) ==> a == b
    ensures Arriving(s, g) ==> forall a :: !Live(s, g, a)
    ensures Abandoned(s, g) <==> !s.conns[g].closed && !Arriving(s, g) && forall a :: !Live(s, g, a)
  {
    Theorems.ReachableMeansInv(s);
    if Arriving(s, g) {
      var i :| 0 <= i < |Unhandled(s)| && AcceptedNow(s, Unhandled(s)[i]) && Unhandled(s)[i].res == s.conns[g].fd;
      assert GoodCompletion(s, Unhandled(s)[i]);
    }
    if !s.conns[g].closed && !Arriving(s, g) && forall a :: !Live(s, g, a) {
      forall a | a in s.heap && !s.heap[a].op.ACCEPT? ensures s.heap[a].clientFd != s.conns[g].fd {
        assert !Live(s, g, a);
      }
    }
  }

  // ----- abandoned is for good

  lemma DispatchKeepsAbandoned(s: Io, g: nat, c: Cqe, b: nat)
    requires Descriptors(s, {c.req}) && Conversations(s, {c.req}) && Abandoned(s, g) && GoodCompletion(s, c)
               && b !in s.heap
    requires AcceptedNow(s, c) ==> c.res != s.conns[g].fd
    ensures var s' := Dispatch(s, c, b); Abandoned(s', g) && s'.conns[g] == s.conns[g]
  {
    var s' := Dispatch(s, c, b);
    assert Unhandled(s') == Unhandled(s);
    forall i | 0 <= i < |Unhandled(s')| && AcceptedNow(s', Unhandled(s')[i])
      ensures Unhandled(s')[i].res != s.conns[g].fd
    {
      assert GoodCompletion(s, Unhandled(s)[i]);
      assert AcceptedNow(s, Unhandled(s)[i]);
    }
  }

  lemma HandleKeepsAbandoned(s: Io, g: nat, b: nat)
    requires Inv(s) && Abandoned(s, g) && Enabled(s, Handle(b))
    ensures var s' := HandleCqe(s, b); Abandoned(s', g) && s'.conns[g] == s.conns[g]
  {
    var c := s.cq[s.count];
    var s1 := s.(count := s.count + 1, handled := s.handled + [c]);
    PopKeeps(s);
    assert Unhandled(s)[0] == c;
    assert Unhandled(s1) == Unhandled(s)[1..];
    PoppedAbandoned(s, s1, g);
    DispatchKeepsAbandoned(s1, g, c, b);
  }

  lemma PoppedAbandoned(s: Io, s1: Io, g: nat)
    requires Abandoned(s, g) && Unhandled(s) != [] && Unhandled(s1) == Unhandled(s)[1..]
    requires s1.heap == s.heap && s1.conns == s.conns
    ensures Abandoned(s1, g) && (AcceptedNow(s1, Unhandled(s)[0]) ==> Unhandled(s)[0].res != s.conns[g].fd)
  {
    assert AcceptedNow(s1, Unhandled(s)[0]) <==> AcceptedNow(s, Unhandled(s)[0]);
    forall i | 0 <= i < |Unhandled(s1)| && AcceptedNow(s1, Unhandled(s1)[i])
      ensures Unhandled(s1)[i].res != s.conns[g].fd
    {
      assert AcceptedNow(s, Unhandled(s)[i + 1]);
    }
  }

  lemma StepKeepsAbandoned(s: Io, g: nat, st: Step)
    requires Inv(s) && Abandoned(s, g) && Enabled(s, st)
    ensures Abandoned(Apply(s, st), g) && Apply(s, st).conns[g] == s.conns[g]
  {
    match st {
      case Handle(b) => HandleKeepsAbandoned(s, g, b);
      case CompleteAccept(a, res) => PostKeepsAbandoned(s, KernelAccepts(s, a, res), g, Cqe(a, res));
      case CompleteRecv(a, res, data) => ReceiveKeepsAbandoned(s, g, a, res, data);
      case CompleteSend(a, res) => SendKeepsAbandoned(s, g, a, res);
      case _ => LoopKeepsAbandoned(s, g, st);
    }
  }

  lemma ReceiveKeepsAbandoned(s: Io, g: nat, a: nat, res: int, data: seq<Byte>)
    requires Entries(s) && Descriptors(s, {}) && Conversations(s, {}) && Abandoned(s, g)
    requires Enabled(s, CompleteRecv(a, res, data)) && s.count <= |s.cq|
    ensures var s' := KernelReceives(s, a, res, data); Abandoned(s', g) && s'.conns[g] == s.conns[g]
  {
    assert Matches(s, s.flight[a]);
    PostKeepsAbandoned(s, KernelReceives(s, a, res, data), g, Cqe(a, res));
  }

  lemma SendKeepsAbandoned(s: Io, g: nat, a: nat, res: int)
    requires Entries(s) && Descriptors(s, {}) && Conversations(s, {}) && Abandoned(s, g)
    requires Enabled(s, CompleteSend(a, res)) && s.count <= |s.cq|
    ensures var s' := KernelSends(s, a, res); Abandoned(s', g) && s'.conns[g] == s.conns[g]
  {
    assert Matches(s, s.flight[a]);
    PostKeepsAbandoned(s, KernelSends(s, a, res), g, Cqe(a, res));
  }

  /** Steps of the loop itself make and move ACCEPT requests only. */
  lemma LoopKeepsAbandoned(s: Io, g: nat, st: Step)
    requires Inv(s) && Abandoned(s, g) && Enabled(s, st)
    requires !st.Handle? && !st.CompleteAccept? && !st.CompleteRecv? && !st.CompleteSend?
    ensures Abandoned(Apply(s, st), g) && Apply(s, st).conns[g] == s.conns[g]
  {
    var s' := Apply(s, st);
    if st.Prime? {
      SameKeepsAbandoned(s, s', g, st.a);
    } else if st.Flush? {
      SameKeepsAbandoned(s, s', g, st.a);
    } else {
      assert Unhandled(s') == Unhandled(s);
      assert forall i :: 0 <= i < |Unhandled(s')| ==>
          AcceptedNow(s', Unhandled(s')[i]) == AcceptedNow(s, Unhandled(s)[i]);
    }
  }

  lemma SameKeepsAbandoned(s: Io, s': Io, g: nat, a: nat)
    requires Conversations(s, {}) && Abandoned(s, g) && a !in s.heap
    requires s'.conns == s.conns && s'.cq == s.cq && s'.count == s.count
    requires forall x :: x in s'.heap ==>
               if x == a then s'.heap[x].op.ACCEPT? else x in s.heap && s'.heap[x] == s.heap[x]
    ensures Abandoned(s', g)
  {
    assert Unhandled(s') == Unhandled(s);
    forall i | 0 <= i < |Unhandled(s')| && AcceptedNow(s', Unhandled(s')[i])
      ensures Unhandled(s')[i].res != s.conns[g].fd
    {
      assert GoodCompletion(s, Unhandled(s)[i]);
      assert AcceptedNow(s, Unhandled(s)[i]);
    }
  }

  lemma PostKeepsAbandoned(s: Io, s': Io, g: nat, c: Cqe)
    requires Conversations(s, {}) && Abandoned(s, g) && JustPosts(s, s', c) && s.count <= |s.cq|
    requires g < |s'.conns| && s'.conns[g] == s.conns[g]
    requires AcceptedNow(s, c) ==> c.res != s.conns[g].fd
    ensures Abandoned(s', g)
  {
    assert Unhandled(s') == Unhandled(s) + [c];
    forall i | 0 <= i < |Unhandled(s')| && AcceptedNow(s', Unhandled(s')[i])
      ensures Unhandled(s')[i].res != s.conns[g].fd
    {
      if i < |Unhandled(s)| {
        assert AcceptedNow(s, Unhandled(s)[i]);
      }
    }
  }

  /** Nothing more is ever received on, sent to, or closed for an abandoned connection: its descriptor stays open. */
  lemma {:induction false} AbandonedForGood(s: Io, g: nat, steps: seq<Step>)
    requires Inv(s) && Abandoned(s, g) && CanRun(s, steps)
    ensures Abandoned(Run(s, steps), g) && Run(s, steps).conns[g] == s.conns[g]
    ensures s.conns[g].fd in Run(s, steps).open && Run(s, steps).open[s.conns[g].fd] == g
    decreases |steps|
  {
    if steps != [] {
      StepKeepsInv(s, steps[0]);
      StepKeepsAbandoned(s, g, steps[0]);
      AbandonedForGood(Apply(s, steps[0]), g, steps[1..]);
    }
  }

  /**
   Handling a completion abandons its connection exactly when a receive came back with EAGAIN, or when
   the next operation finds the submission queue full.
   */
  lemma AbandonedExactly(s: Io, b: nat, g: nat)
    requires Inv(s) && Enabled(s, Handle(b)) && g < |s.conns| && !s.conns[g].closed
    requires var c := s.cq[s.count];
             Live(s, g, c.req) || (AcceptedNow(s, c) && c.res == s.conns[g].fd)
    ensures var c := s.cq[s.count];
            var op := s.heap[c.req].op;
            Abandoned(HandleCqe(s, b), g) <==>
              (op.RECV? && c.res == -EAGAIN) || (!(op.RECV? && c.res <= 0) && |s.sq| == SQ_ENTRIES)
  {
    var c := s.cq[s.count];
    var s1 := s.(count := s.count + 1, handled := s.handled + [c]);
    PopKeeps(s);
    InHandOwnsDescriptor(s1, c.req);
    EntriesName(s1);
    DispatchAbandons(s1, c, b, g);
  }

  lemma DispatchAbandons(s: Io, c: Cqe, b: nat, g: nat)
    requires Descriptors(s, {c.req}) && OwnDescriptor(s, {c.req}) && GoodCompletion(s, c) && b !in s.heap
               && |s.sq| <= SQ_ENTRIES
    requires c.req !in CqReqs(Unhandled(s))
    requires forall x :: x in s.heap && s.heap[x].op.ACCEPT? && s.heap[c.req].op.ACCEPT? ==> x == c.req
    requires forall i :: 0 <= i < |Unhandled(s)| ==>
               Unhandled(s)[i].req in s.heap && Unhandled(s)[i].req in CqReqs(Unhandled(s))
    requires g < |s.conns| && !s.conns[g].closed && (Live(s, g, c.req) || (AcceptedNow(s, c) && c.res == s.conns[g].fd))
    ensures var op := s.heap[c.req].op;
            Abandoned(Dispatch(s, c, b), g) <==>
              (op.RECV? && c.res == -EAGAIN) || (!(op.RECV? && c.res <= 0) && |s.sq| == SQ_ENTRIES)
  {
    NoOtherLeft(s, Dispatch(s, c, b), c, b, g);
  }

  /** After the handler, the connection can only be served by the request the handler had, or the one it made. */
  lemma NoOtherLeft(s1: Io, s': Io, c: Cqe, b: nat, g: nat)
    requires OwnDescriptor(s1, {c.req}) && GoodCompletion(s1, c) && HandledOnly(s1, s', c, b) && b !in s1.heap
    requires c.req !in CqReqs(Unhandled(s1))
    requires forall x :: x in s1.heap && s1.heap[x].op.ACCEPT? && s1.heap[c.req].op.ACCEPT? ==> x == c.req
    requires forall i :: 0 <= i < |Unhandled(s1)| ==>
               Unhandled(s1)[i].req in s1.heap && Unhandled(s1)[i].req in CqReqs(Unhandled(s1))
    requires g < |s1.conns| && !s1.conns[g].closed
               && (Live(s1, g, c.req) || (AcceptedNow(s1, c) && c.res == s1.conns[g].fd))
    ensures forall x :: x in s'.heap && !s'.heap[x].op.ACCEPT? && s'.heap[x].clientFd == s1.conns[g].fd ==>
              x == c.req || x == b
    ensures forall i :: 0 <= i < |Unhandled(s')| && AcceptedNow(s', Unhandled(s')[i]) ==>
              Unhandled(s')[i].res != s1.conns[g].fd
  {
    assert Unhandled(s') == Unhandled(s1);
    forall i | 0 <= i < |Unhandled(s')| && AcceptedNow(s', Unhandled(s')[i])
      ensures Unhandled(s')[i].res != s1.conns[g].fd
    {
      assert AcceptedNow(s1, Unhandled(s1)[i]);
    }
  }

  // ----- no other step abandons

  /** The completion about to be handled is the one that serves, or announces, connection g. */
  ghost predicate Own(s: Io, g: nat, c: Cqe) {
    g < |s.conns| && !s.conns[g].closed && (Live(s, g, c.req) || (AcceptedNow(s, c) && c.res == s.conns[g].fd))
  }

  /** The branches that drop a connection without closing it. */
  ghost predicate Abandons(s: Io, st: Step, g: nat) {
    && st.Handle? && s.count < |s.cq|
    && var c := s.cq[s.count];
    && c.req in s.heap && Own(s, g, c)
    && var recv := s.heap[c.req].op.RECV?;
    && ((recv && c.res == -EAGAIN) || (!(recv && c.res <= 0) && |s.sq| == SQ_ENTRIES))
  }

  /** Whatever serves g is still there, and a closed connection stays closed. */
  ghost predicate StillServed(s: Io, s': Io, g: nat)
    requires g < |s.conns|
  {
    && g < |s'.conns| && s'.conns[g].fd == s.conns[g].fd && (s.conns[g].closed ==> s'.conns[g].closed)
    && (forall x :: x in s.heap && !s.heap[x].op.ACCEPT? && s.heap[x].clientFd == s.conns[g].fd ==>
          x in s'.heap && !s'.heap[x].op.ACCEPT? && s'.heap[x].clientFd == s.conns[g].fd)
    && (forall c :: c in Unhandled(s) && AcceptedNow(s, c) && c.res == s.conns[g].fd ==>
          c in Unhandled(s') && AcceptedNow(s', c))
  }

  lemma ServedIsNotAbandoned(s: Io, s': Io, g: nat)
    requires g < |s.conns| && !Abandoned(s, g) && StillServed(s, s', g)
    ensures !Abandoned(s', g)
  {
    if !s.conns[g].closed && forall a :: a in s.heap && !s.heap[a].op.ACCEPT? ==> s.heap[a].clientFd != s.conns[g].fd {
      var i :| 0 <= i < |Unhandled(s)| && AcceptedNow(s, Unhandled(s)[i]) && Unhandled(s)[i].res == s.conns[g].fd;
      assert Unhandled(s)[i] in Unhandled(s);
    }
  }

  lemma DispatchKeepsOthers(s: Io, c: Cqe, b: nat)
    requires c.req in s.heap && b !in s.heap
    ensures forall x :: x in s.heap && x != c.req ==>
              x in Dispatch(s, c, b).heap && Dispatch(s, c, b).heap[x] == s.heap[x]
  {
  }

  lemma DispatchKeepsClosed(s: Io, c: Cqe, b: nat)
    requires c.req in s.heap && b !in s.heap
    ensures var s' := Dispatch(s, c, b);
            |s'.conns| == |s.conns|
            && forall g :: 0 <= g < |s.conns| ==>
                 s'.conns[g].fd == s.conns[g].fd && (s.conns[g].closed ==> s'.conns[g].closed)
  {
  }

  /** A handler leaves the connections it does not serve with whatever serves them. */
  lemma OtherHandlerStillServes(s: Io, b: nat, g: nat)
    requires Inv(s) && Enabled(s, Handle(b)) && g < |s.conns| && !s.conns[g].closed && !Own(s, g, s.cq[s.count])
    ensures StillServed(s, HandleCqe(s, b), g)
  {
    var c := s.cq[s.count];
    var s1 := s.(count := s.count + 1, handled := s.handled + [c]);
    assert Unhandled(s)[0] == c && c.req in CqReqs(Unhandled(s));
    assert Unhandled(s1) == Unhandled(s)[1..];
    DispatchKeepsOthers(s1, c, b);
    DispatchKeepsClosed(s1, c, b);
    var s' := Dispatch(s1, c, b);
    assert HandledOnly(s1, s', c, b);
    assert Unhandled(s') == Unhandled(s1);
    forall d | d in Unhandled(s) && AcceptedNow(s, d) && d.res == s.conns[g].fd
      ensures d in Unhandled(s') && AcceptedNow(s', d)
    {
      var i :| 0 <= i < |Unhandled(s)| && Unhandled(s)[i] == d;
      assert i > 0;
      assert Unhandled(s1)[i - 1] == d;
    }
  }

  lemma PostStillServes(s: Io, s': Io, g: nat, c: Cqe)
    requires JustPosts(s, s', c) && s.count <= |s.cq| && g < |s.conns|
    requires g < |s'.conns| && s'.conns[g].fd == s.conns[g].fd && s'.conns[g].closed == s.conns[g].closed
    ensures StillServed(s, s', g)
  {
    assert Unhandled(s') == Unhandled(s) + [c];
  }

  /** Nothing that was there is touched. */
  ghost predicate Untouching(s: Io, s': Io) {
    && s'.conns == s.conns && Unhandled(s') == Unhandled(s)
    && forall x :: x in s.heap ==> x in s'.heap && s'.heap[x] == s.heap[x]
  }

  lemma LoopIsUntouching(s: Io, st: Step)
    requires s.count <= |s.cq| && Enabled(s, st)
    requires !st.Handle? && !st.CompleteAccept? && !st.CompleteRecv? && !st.CompleteSend?
    ensures Untouching(s, Apply(s, st))
  {
  }

  lemma UntouchedStillServed(s: Io, s': Io, g: nat)
    requires g < |s.conns| && Untouching(s, s')
    ensures StillServed(s, s', g)
  {
  }

  /** A connection that has just arrived is announced by the completion just posted. */
  lemma ArrivalIsAnnounced(s: Io, a: nat, res: int)
    requires Inv(s) && Enabled(s, CompleteAccept(a, res)) && res >= 0
    ensures !Abandoned(KernelAccepts(s, a, res), |s.conns|)
  {
    var s' := KernelAccepts(s, a, res);
    assert Unhandled(s') == Unhandled(s) + [Cqe(a, res)];
    assert Matches(s, s.flight[a]);
    assert AcceptedNow(s', Unhandled(s')[|Unhandled(s)|]);
  }

  /** Of all steps of the server and the kernel, exactly these abandon a connection that was not abandoned yet. */
  lemma StepAbandonsExactly(s: Io, st: Step, g: nat)
    requires Inv(s) && Enabled(s, st) && !Abandoned(s, g)
    ensures Abandoned(Apply(s, st), g) <==> Abandons(s, st, g)
  {
    if st.Handle? {
      HandlerAbandonsExactly(s, st.b, g);
    } else {
      OtherStepAbandonsNobody(s, st, g);
    }
  }

  lemma HandlerAbandonsExactly(s: Io, b: nat, g: nat)
    requires Inv(s) && Enabled(s, Handle(b)) && !Abandoned(s, g)
    ensures Abandoned(HandleCqe(s, b), g) <==> Abandons(s, Handle(b), g)
  {
    NextIsLive(s);
    if Own(s, g, s.cq[s.count]) {
      AbandonedExactly(s, b, g);
    } else {
      OtherHandlerAbandonsNobody(s, b, g);
    }
  }

  lemma OtherHandlerAbandonsNobody(s: Io, b: nat, g: nat)
    requires Inv(s) && Enabled(s, Handle(b)) && !Abandoned(s, g) && !Own(s, g, s.cq[s.count])
    ensures !Abandoned(HandleCqe(s, b), g)
  {
    if g < |s.conns| && !s.conns[g].closed {
      OtherHandlerStillServes(s, b, g);
      ServedIsNotAbandoned(s, HandleCqe(s, b), g);
    } else {
      NextIsLive(s);
      HandlerKeepsClosed(s, b, g);
    }
  }

  lemma HandlerKeepsClosed(s: Io, b: nat, g: nat)
    requires Enabled(s, Handle(b)) && s.cq[s.count].req in s.heap && (g < |s.conns| ==> s.conns[g].closed)
    ensures !Abandoned(HandleCqe(s, b), g)
  {
    var c := s.cq[s.count];
    DispatchKeepsClosed(s.(count := s.count + 1, handled := s.handled + [c]), c, b);
  }

  lemma NextIsLive(s: Io)
    requires Inv(s) && s.count < |s.cq|
    ensures s.cq[s.count].req in s.heap
  {
    assert Unhandled(s)[0] == s.cq[s.count];
    assert s.cq[s.count].req in CqReqs(Unhandled(s));
  }

  lemma OtherStepAbandonsNobody(s: Io, st: Step, g: nat)
    requires Inv(s) && Enabled(s, st) && !Abandoned(s, g) && !st.Handle?
    ensures !Abandoned(Apply(s, st), g)
  {
    if g < |s.conns| {
      CountInRange(s);
      OtherStepStillServes(s, st, g);
      ServedIsNotAbandoned(s, Apply(s, st), g);
    } else if st.CompleteAccept? && st.res >= 0 && g == |s.conns| {
      ArrivalIsAnnounced(s, st.req, st.res);
    } else {
      OtherStepOpensNothing(s, st, g);
    }
  }

  lemma CountInRange(s: Io)
    requires Inv(s)
    ensures s.count <= |s.cq|
  {
  }

  lemma OtherStepOpensNothing(s: Io, st: Step, g: nat)
    requires Enabled(s, st) && g >= |s.conns| && !st.Handle?
    requires st.CompleteAccept? && st.res >= 0 ==> g > |s.conns|
    ensures g >= |Apply(s, st).conns|
  {
  }

  lemma OtherStepStillServes(s: Io, st: Step, g: nat)
    requires s.count <= |s.cq| && Enabled(s, st) && !st.Handle? && g < |s.conns|
    ensures StillServed(s, Apply(s, st), g)
  {
    if st.CompleteAccept? {
      PostStillServes(s, KernelAccepts(s, st.req, st.res), g, Cqe(st.req, st.res));
    } else if st.CompleteRecv? {
      PostStillServes(s, KernelReceives(s, st.req, st.res, st.data), g, Cqe(st.req, st.res));
    } else if st.CompleteSend? {
      PostStillServes(s, KernelSends(s, st.req, st.res), g, Cqe(st.req, st.res));
    } else {
      LoopIsUntouching(s, st);
      UntouchedStillServed(s, Apply(s, st), g);
    }
  }

  ghost predicate SomeStepAbandons(s: Io, steps: seq<Step>, g: nat)
    requires CanRun(s, steps)
    decreases |steps|
  {
    steps != [] && (Abandons(s, steps[0], g) || SomeStepAbandons(Apply(s, steps[0]), steps[1..], g))
  }

  lemma {:induction false} RunAbandonsExactly(s: Io, steps: seq<Step>, g: nat)
    requires Inv(s) && CanRun(s, steps) && !Abandoned(s, g)
    ensures Abandoned(Run(s, steps), g) <==> SomeStepAbandons(s, steps, g)
    decreases |steps|
  {
    if steps != [] {
      StepKeepsInv(s, steps[0]);
      StepAbandonsExactly(s, steps[0], g);
      if Abandons(s, steps[0], g) {
        AbandonedForGood(Apply(s, steps[0]), g, steps[1..]);
      } else {
        RunAbandonsExactly(Apply(s, steps[0]), steps[1..], g);
      }
    }
  }

  /**
   Over a whole run: a connection is abandoned at the end if and only if at some step its receive
   came back with EAGAIN, or its next operation found the submission queue full.
   */
  lemma AbandonedByExactly(steps: seq<Step>, g: nat)
    requires CanRun(Init(), steps)
    ensures Abandoned(Run(Init(), steps), g) <==> SomeStepAbandons(Init(), steps, g)
  {
    InitInv();
    RunAbandonsExactly(Init(), steps, g);
  }
}

/** What every run of the io_uring server keeps. */
module IoUringSafety {
  import opened IoUringServer

  // ----- ownership of the requests

  /** Completions posted and not yet handled. */
  function Unhandled(s: Io): seq<Cqe> {
    if s.count <= |s.cq| then s.cq[s.count..] else []
  }

  function SqReqs(sq: seq<Sqe>): set<nat> {
    set e | e in sq :: e.req
  }

  function CqReqs(cq: seq<Cqe>): set<nat> {
    set c | c in cq :: c.req
  }

  /** Every live request is in exactly one place, once; `cur` are those in the hands of the current handler. */
  ghost predicate Owned(s: Io, cur: set<nat>) {
    && s.count <= |s.cq| && |s.sq| <= SQ_ENTRIES
    && s.heap.Keys == SqReqs(s.sq) + s.flight.Keys + CqReqs(Unhandled(s)) + cur
    && SqReqs(s.sq) !! cur && s.flight.Keys !! cur && CqReqs(Unhandled(s)) !! cur
    && SqReqs(s.sq) !! s.flight.Keys && SqReqs(s.sq) !! CqReqs(Unhandled(s)) && s.flight.Keys !! CqReqs(Unhandled(s))
    && (forall i, j :: 0 <= i < j < |s.sq| ==> s.sq[i].req != s.sq[j].req)
    && (forall i, j :: 0 <= i < j < |Unhandled(s)| ==> Unhandled(s)[i].req != Unhandled(s)[j].req)
    && !s.fault
  }

  /** What was prepared is what the request says. */
  ghost predicate Matches(s: Io, e: Sqe) {
    && e.req in s.heap && s.heap[e.req].op == e.op
    && (e.op.RECV? ==> e.fd == s.heap[e.req].clientFd && e.len == BUF_LEN)
    && (e.op.SEND? ==> e.fd == s.heap[e.req].clientFd && e.len == s.heap[e.req].len)
  }

  ghost predicate Entries(s: Io) {
    && (forall i :: 0 <= i < |s.sq| ==> Matches(s, s.sq[i]))
    && (forall a :: a in s.flight ==> s.flight[a].req == a && Matches(s, s.flight[a]))
  }

  /** Exactly one ACCEPT request is live when accept_pending_ says so, and none otherwise. */
  ghost predicate AcceptFlag(s: Io) {
    && (forall a, b :: a in s.heap && b in s.heap && s.heap[a].op.ACCEPT? && s.heap[b].op.ACCEPT? ==> a == b)
    && (s.acceptPending <==> exists a :: a in s.heap && s.heap[a].op.ACCEPT?)
  }

  // ----- connections

  ghost predicate IsOpen(s: Io, fd: int) {
    fd in s.open && s.open[fd] < |s.conns| && s.conns[s.open[fd]].fd == fd && !s.conns[s.open[fd]].closed
  }

  function ConnOf(s: Io, fd: int): Conn
    requires IsOpen(s, fd)
  {
    s.conns[s.open[fd]]
  }

  ghost predicate Descriptors(s: Io, cur: set<nat>) {
    && (forall fd :: fd in s.open ==> IsOpen(s, fd))
    && (forall g :: 0 <= g < |s.conns| && !s.conns[g].closed ==> s.conns[g].fd in s.open && s.open[s.conns[g].fd] == g)
    && (forall a :: a in s.heap ==> |s.heap[a].buf| == BUF_LEN)
    && (forall a :: a in s.heap && !s.heap[a].op.ACCEPT? && a !in cur ==> IsOpen(s, s.heap[a].clientFd))
    && (forall a, b :: a in s.heap && b in s.heap && a != b && !s.heap[a].op.ACCEPT? && !s.heap[b].op.ACCEPT? ==>
          s.heap[a].clientFd != s.heap[b].clientFd)
  }

  /** Everything received was prepared, and every send completed. */
  ghost predicate Quiet(c: Conn) {
    c.prepared == c.received && |c.sends| == |c.prepared|
  }

  ghost predicate Untouched(c: Conn) {
    c.received == [] && c.prepared == [] && c.sends == [] && c.output == []
  }

  /** What a submitted request and its connection know of each other. */
  ghost predicate InProgress(r: Request, c: Conn) {
    match r.op
    case ACCEPT => true
    case RECV => Quiet(c)
    case SEND =>
      && c.prepared == c.received && |c.prepared| == |c.sends| + 1
      && 0 < r.len <= |r.buf| && c.prepared[|c.sends|] == r.buf[..r.len]
  }

  /** And what a completed one and its connection know of each other. */
  ghost predicate Completed(r: Request, res: int, c: Conn) {
    match r.op
    case ACCEPT => Untouched(c)
    case RECV =>
      if res <= 0 then Quiet(c)
      else && res <= |r.buf| && |c.sends| == |c.prepared|
           && c.received == c.prepared + [r.buf[..res]]
    case SEND => Quiet(c)
  }

  ghost predicate Conversations(s: Io, cur: set<nat>) {
    && (forall a :: a in s.heap && !s.heap[a].op.ACCEPT? && a !in CqReqs(Unhandled(s)) && a !in cur ==>
          IsOpen(s, s.heap[a].clientFd) && InProgress(s.heap[a], ConnOf(s, s.heap[a].clientFd)))
    && (forall i :: 0 <= i < |Unhandled(s)| ==> GoodCompletion(s, Unhandled(s)[i]))
  }

  ghost predicate GoodCompletion(s: Io, c: Cqe) {
    && c.req in s.heap
    && (s.heap[c.req].op.ACCEPT? && c.res >= 0 ==>
          && IsOpen(s, c.res) && Untouched(ConnOf(s, c.res))
          && forall a :: a in s.heap && !s.heap[a].op.ACCEPT? ==> s.heap[a].clientFd != c.res)
    && (!s.heap[c.req].op.ACCEPT? ==>
          IsOpen(s, s.heap[c.req].clientFd) && Completed(s.heap[c.req], c.res, ConnOf(s, s.heap[c.req].clientFd)))
  }

  // ----- streams

  /** The bytes the first n completed sends let out. */
  function Sent(prepared: seq<seq<Byte>>, sends: seq<int>, n: nat): seq<Byte>
    requires n <= |prepared| && n <= |sends|
  {
    if n == 0 then []
    else Sent(prepared, sends, n - 1) + SentOf(prepared[n - 1], sends[n - 1])
  }

  function SentOf(payload: seq<Byte>, res: int): seq<Byte> {
    if Clip(res) <= |payload| then payload[..Clip(res)] else payload
  }

  ghost predicate GoodStream(c: Conn) {
    && |c.prepared| <= |c.received| <= |c.prepared| + 1 && c.prepared == c.received[..|c.prepared|]
    && |c.sends| <= |c.prepared| && |c.received| <= |c.sends| + 1
    && (forall i :: 0 <= i < |c.received| ==> 0 < |c.received[i]| <= BUF_LEN)
    && (forall i :: 0 <= i < |c.sends| ==> c.sends[i] <= |c.prepared[i]|)
    && c.output == Sent(c.prepared, c.sends, |c.sends|)
  }

  ghost predicate Streams(s: Io) {
    forall g :: 0 <= g < |s.conns| ==> GoodStream(s.conns[g])
  }

  /** Every completion is handled once, in the order posted; the scan's count is what it has handled. */
  ghost predicate Scan(s: Io) {
    && s.posted == s.handled + Unhandled(s)
    && (!s.phase.Scanning? && !s.phase.Advancing? ==> s.count == 0)
    && (s.phase.Starting? ==> !s.acceptPending && s.sq == [])
    && (s.phase.Waiting? && s.sq != [] ==> |s.sq| == 1 && s.flight == map[] && s.cq == [])
    && (s.phase.Starting? ==> s.flight == map[] && s.cq == [])
  }

  ghost predicate Parts(s: Io, cur: set<nat>) {
    Owned(s, cur) && Entries(s) && Descriptors(s, cur) && Conversations(s, cur) && Streams(s)
  }

  ghost predicate Inv(s: Io) {
    Parts(s, {}) && AcceptFlag(s) && Scan(s)
  }

  lemma InitInv()
    ensures Inv(Init())
  {
    assert Unhandled(Init()) == [] && SqReqs([]) == {} && CqReqs([]) == {};
  }

  // ----- the sets of requests

  lemma SqAppend(sq: seq<Sqe>, e: Sqe)
    ensures SqReqs(sq + [e]) == SqReqs(sq) + {e.req}
  {
    assert forall x :: x in sq + [e] <==> x in sq || x == e;
  }

  lemma CqAppend(cq: seq<Cqe>, c: Cqe)
    ensures CqReqs(cq + [c]) == CqReqs(cq) + {c.req}
  {
    assert forall x :: x in cq + [c] <==> x in cq || x == c;
  }

  lemma CqFirst(cq: seq<Cqe>)
    requires cq != [] && forall i, j :: 0 <= i < j < |cq| ==> cq[i].req != cq[j].req
    ensures CqReqs(cq[1..]) == CqReqs(cq) - {cq[0].req}
  {
    assert forall x :: x in cq <==> x == cq[0] || x in cq[1..];
    assert cq[0].req !in CqReqs(cq[1..]);
  }

  lemma SqFirst(sq: seq<Sqe>)
    requires sq != [] && forall i, j :: 0 <= i < j < |sq| ==> sq[i].req != sq[j].req
    ensures SqReqs(sq[1..]) == SqReqs(sq) - {sq[0].req}
  {
    assert forall x :: x in sq <==> x == sq[0] || x in sq[1..];
    assert sq[0].req !in SqReqs(sq[1..]);
  }

  lemma {:induction false} TakenBySpec(flight: map<nat, Sqe>, sq: seq<Sqe>)
    requires forall i, j :: 0 <= i < j < |sq| ==> sq[i].req != sq[j].req
    requires SqReqs(sq) !! flight.Keys
    ensures TakenBy(flight, sq).Keys == flight.Keys + SqReqs(sq)
    ensures forall a :: a in flight ==> TakenBy(flight, sq)[a] == flight[a]
    ensures forall i :: 0 <= i < |sq| ==> sq[i].req in TakenBy(flight, sq) && TakenBy(flight, sq)[sq[i].req] == sq[i]
    decreases |sq|
  {
    if sq != [] {
      SqFirst(sq);
      var f := flight[sq[0].req := sq[0]];
      TakenBySpec(f, sq[1..]);
      assert sq[0] in sq;
      forall i | 0 <= i < |sq| ensures sq[i].req in TakenBy(flight, sq) && TakenBy(flight, sq)[sq[i].req] == sq[i] {
        if i > 0 {
          assert sq[1..][i - 1] == sq[i];
        }
      }
    }
  }

  // ----- what the server's functions do to the parts

  lemma EntriesName(s: Io)
    ensures forall i :: 0 <= i < |s.sq| ==> s.sq[i].req in SqReqs(s.sq)
    ensures forall i :: 0 <= i < |Unhandled(s)| ==> Unhandled(s)[i].req in CqReqs(Unhandled(s))
  {
  }

  /** Only requests in the handler's hands differ: some were rewritten, made or deleted. */
  ghost predicate HandsOnly(s: Io, cur: set<nat>, s': Io, cur': set<nat>) {
    && s' == s.(heap := s'.heap)
    && s'.heap.Keys == (s.heap.Keys - cur) + cur' && (s.heap.Keys - cur) !! cur'
    && (forall x :: x in s.heap && x !in cur ==> x in s'.heap && s'.heap[x] == s.heap[x])
    && (forall x :: x in cur' ==> |s'.heap[x].buf| == BUF_LEN)
  }

  /** A request in hand shares its descriptor with no other, live or about to be. */
  ghost predicate OwnDescriptor(s: Io, cur: set<nat>) {
    && (forall x, y ::
          x in cur && x in s.heap && !s.heap[x].op.ACCEPT? && y in s.heap && y != x && !s.heap[y].op.ACCEPT? ==>
            s.heap[y].clientFd != s.heap[x].clientFd)
    && (forall x, i ::
          && x in cur && x in s.heap && !s.heap[x].op.ACCEPT?
          && 0 <= i < |Unhandled(s)| && AcceptedNow(s, Unhandled(s)[i]) ==>
            Unhandled(s)[i].res != s.heap[x].clientFd)
  }

  /** A completion, still to be handled, that brings a new connection. */
  ghost predicate AcceptedNow(s: Io, c: Cqe) {
    c.res >= 0 && c.req in s.heap && s.heap[c.req].op.ACCEPT?
  }

  lemma HandsKeepOwned(s: Io, cur: set<nat>, s': Io, cur': set<nat>)
    requires Owned(s, cur) && Entries(s) && HandsOnly(s, cur, s', cur')
    ensures Owned(s', cur') && Entries(s')
  {
    EntriesName(s);
    assert Unhandled(s') == Unhandled(s);
    forall i | 0 <= i < |s'.sq| ensures Matches(s', s'.sq[i]) {
      assert Matches(s, s.sq[i]);
    }
  }

  lemma HandsKeepDescriptors(s: Io, cur: set<nat>, s': Io, cur': set<nat>)
    requires Descriptors(s, cur) && HandsOnly(s, cur, s', cur') && OwnDescriptor(s', cur')
    ensures Descriptors(s', cur')
  {
    forall x, y | x in s'.heap && y in s'.heap && x != y && !s'.heap[x].op.ACCEPT? && !s'.heap[y].op.ACCEPT?
      ensures s'.heap[x].clientFd != s'.heap[y].clientFd
    {
      if x !in cur' && y !in cur' {
        assert x in s.heap && y in s.heap;
      }
    }
  }

  lemma HandsKeepConversations(s: Io, cur: set<nat>, s': Io, cur': set<nat>)
    requires Owned(s, cur) && Conversations(s, cur) && HandsOnly(s, cur, s', cur') && OwnDescriptor(s', cur')
    ensures Conversations(s', cur')
  {
    EntriesName(s);
    assert Unhandled(s') == Unhandled(s);
    forall i | 0 <= i < |Unhandled(s')| ensures GoodCompletion(s', Unhandled(s')[i]) {
      var c := Unhandled(s)[i];
      assert GoodCompletion(s, c);
      assert c.req in s'.heap && s'.heap[c.req] == s.heap[c.req];
    }
  }

  lemma HandsKeep(s: Io, cur: set<nat>, s': Io, cur': set<nat>)
    requires Parts(s, cur) && HandsOnly(s, cur, s', cur') && OwnDescriptor(s', cur')
    ensures Parts(s', cur')
  {
    HandsKeepOwned(s, cur, s', cur');
    HandsKeepDescriptors(s, cur, s', cur');
    HandsKeepConversations(s, cur, s', cur');
  }

  lemma NotQueued(s: Io, a: nat)
    requires s.count <= |s.cq|
    requires a !in SqReqs(s.sq) && a !in s.flight && a !in CqReqs(Unhandled(s))
    ensures !Queued(s, a)
  {
    forall i | s.count <= i < |s.cq| ensures s.cq[i].req != a {
      assert Unhandled(s)[i - s.count] == s.cq[i];
      EntriesName(s);
    }
    EntriesName(s);
  }

  lemma PrepareOwns(s: Io, e: Sqe)
    requires Owned(s, {e.req}) && Entries(s) && |s.sq| < SQ_ENTRIES && Matches(s, e)
    ensures Owned(Prepare(s, e), {}) && Entries(Prepare(s, e))
  {
    var s' := Prepare(s, e);
    EntriesName(s);
    SqAppend(s.sq, e);
    NotQueued(s, e.req);
    assert Unhandled(s') == Unhandled(s);
    forall i | 0 <= i < |s'.sq| ensures Matches(s', s'.sq[i]) {
      if i < |s.sq| {
        assert Matches(s, s.sq[i]);
      }
    }
  }

  lemma PrepareKeeps(s: Io, e: Sqe)
    requires Parts(s, {e.req}) && |s.sq| < SQ_ENTRIES && Matches(s, e)
    requires !s.heap[e.req].op.ACCEPT? ==> IsOpen(s, e.fd) && InProgress(s.heap[e.req], ConnOf(s, e.fd))
    ensures Parts(Prepare(s, e), {})
  {
    PrepareOwns(s, e);
    PrepareConverses(s, e);
  }

  lemma PrepareConverses(s: Io, e: Sqe)
    requires Descriptors(s, {e.req}) && Conversations(s, {e.req}) && Matches(s, e)
    requires !s.heap[e.req].op.ACCEPT? ==> IsOpen(s, e.fd) && InProgress(s.heap[e.req], ConnOf(s, e.fd))
    ensures var s' := Prepare(s, e); Descriptors(s', {}) && Conversations(s', {})
  {
    var s' := Prepare(s, e);
    assert Unhandled(s') == Unhandled(s);
    forall i | 0 <= i < |Unhandled(s')| ensures GoodCompletion(s', Unhandled(s')[i]) {
      assert GoodCompletion(s, Unhandled(s)[i]);
    }
  }

  // ----- moving a request between places

  /** Moving requests between places changes no conversation. */
  lemma MoveKeepsConversations(s: Io, cur: set<nat>, s': Io, cur': set<nat>)
    requires Descriptors(s, cur) && Conversations(s, cur)
    requires s'.heap == s.heap && s'.open == s.open && s'.conns == s.conns
    requires forall x :: x in s.heap && x !in CqReqs(Unhandled(s')) + cur' ==> x !in CqReqs(Unhandled(s)) + cur
    requires forall i :: 0 <= i < |Unhandled(s')| ==> GoodCompletion(s, Unhandled(s')[i])
    requires forall x :: x in cur && x !in cur' && x in s.heap && !s.heap[x].op.ACCEPT? ==>
               IsOpen(s, s.heap[x].clientFd)
    ensures Descriptors(s', cur') && Conversations(s', cur')
  {
    forall i | 0 <= i < |Unhandled(s')| ensures GoodCompletion(s', Unhandled(s')[i]) {
      assert GoodCompletion(s, Unhandled(s')[i]);
    }
  }

  /** The handler takes the next completion. */
  lemma PopKeeps(s: Io)
    requires Parts(s, {}) && s.count < |s.cq|
    ensures var c := s.cq[s.count];
            var s' := s.(count := s.count + 1, handled := s.handled + [c]);
            Parts(s', {c.req}) && GoodCompletion(s', c) && Unhandled(s) == [c] + Unhandled(s')
  {
    var c := s.cq[s.count];
    var s' := s.(count := s.count + 1, handled := s.handled + [c]);
    var u := Unhandled(s);
    assert u[0] == c && Unhandled(s') == u[1..];
    CqFirst(u);
    PopOwns(s, s', c);
    assert GoodCompletion(s, u[0]);
    forall i | 0 <= i < |Unhandled(s')| ensures GoodCompletion(s, Unhandled(s')[i]) {
      assert GoodCompletion(s, u[i + 1]);
    }
    MoveKeepsConversations(s, {}, s', {c.req});
  }

  lemma PopOwns(s: Io, s': Io, c: Cqe)
    requires Owned(s, {}) && Entries(s) && s.count < |s.cq| && c == s.cq[s.count]
    requires s' == s.(count := s.count + 1, handled := s.handled + [c])
    requires Unhandled(s') == Unhandled(s)[1..] && CqReqs(Unhandled(s')) == CqReqs(Unhandled(s)) - {c.req}
    ensures Owned(s', {c.req}) && Entries(s')
  {
    assert Unhandled(s)[0] == c;
    EntriesName(s);
    forall i | 0 <= i < |s'.sq| ensures Matches(s', s'.sq[i]) {
      assert Matches(s, s.sq[i]);
    }
  }

  /** The kernel takes up a request it holds. */
  lemma PullKeeps(s: Io, a: nat)
    requires Parts(s, {}) && a in s.flight
    ensures Parts(s.(flight := s.flight - {a}), {a}) && Matches(s, s.flight[a]) && s.flight[a].req == a
    ensures !s.heap[a].op.ACCEPT? ==>
              IsOpen(s, s.heap[a].clientFd) && InProgress(s.heap[a], ConnOf(s, s.heap[a].clientFd))
  {
    var s' := s.(flight := s.flight - {a});
    assert Unhandled(s') == Unhandled(s);
    PullOwns(s, s', a);
    MoveKeepsConversations(s, {}, s', {a});
  }

  lemma PullOwns(s: Io, s': Io, a: nat)
    requires Owned(s, {}) && Entries(s) && a in s.flight && s' == s.(flight := s.flight - {a})
    ensures Owned(s', {a}) && Entries(s')
  {
    assert Unhandled(s') == Unhandled(s);
    forall i | 0 <= i < |s'.sq| ensures Matches(s', s'.sq[i]) {
      assert Matches(s, s.sq[i]);
    }
  }

  /** The kernel posts a completion. */
  lemma PushKeeps(s: Io, a: nat, res: int)
    requires Parts(s, {a}) && GoodCompletion(s, Cqe(a, res))
    ensures var s' := s.(cq := s.cq + [Cqe(a, res)], posted := s.posted + [Cqe(a, res)]);
            Parts(s', {}) && Unhandled(s') == Unhandled(s) + [Cqe(a, res)]
  {
    var s' := s.(cq := s.cq + [Cqe(a, res)], posted := s.posted + [Cqe(a, res)]);
    assert Unhandled(s') == Unhandled(s) + [Cqe(a, res)];
    CqAppend(Unhandled(s), Cqe(a, res));
    PushOwns(s, s', a, res);
    forall i | 0 <= i < |Unhandled(s')| ensures GoodCompletion(s, Unhandled(s')[i]) {
      if i < |Unhandled(s)| {
        assert GoodCompletion(s, Unhandled(s)[i]);
      }
    }
    MoveKeepsConversations(s, {a}, s', {});
  }

  lemma PushOwns(s: Io, s': Io, a: nat, res: int)
    requires Owned(s, {a}) && Entries(s)
    requires s' == s.(cq := s.cq + [Cqe(a, res)], posted := s.posted + [Cqe(a, res)])
    requires Unhandled(s') == Unhandled(s) + [Cqe(a, res)] && CqReqs(Unhandled(s')) == CqReqs(Unhandled(s)) + {a}
    ensures Owned(s', {}) && Entries(s')
  {
    EntriesName(s);
    forall i | 0 <= i < |s'.sq| ensures Matches(s', s'.sq[i]) {
      assert Matches(s, s.sq[i]);
    }
  }

  /** Submission hands every prepared request to the kernel. */
  lemma SubmitKeeps(s: Io)
    requires Parts(s, {})
    ensures Parts(Submit(s), {}) && Unhandled(Submit(s)) == Unhandled(s)
  {
    var s' := Submit(s);
    assert Unhandled(s') == Unhandled(s);
    SubmitOwns(s);
    SubmitEntries(s);
    forall i | 0 <= i < |Unhandled(s')| ensures GoodCompletion(s, Unhandled(s')[i]) {
      assert GoodCompletion(s, Unhandled(s)[i]);
    }
    MoveKeepsConversations(s, {}, s', {});
  }

  lemma SubmitOwns(s: Io)
    requires Owned(s, {})
    ensures Owned(Submit(s), {})
  {
    var s' := Submit(s);
    TakenBySpec(s.flight, s.sq);
    assert Unhandled(s') == Unhandled(s);
    assert SqReqs(s'.sq) == {};
  }

  lemma SubmitEntries(s: Io)
    requires Owned(s, {}) && Entries(s)
    ensures Entries(Submit(s))
  {
    var s' := Submit(s);
    TakenBySpec(s.flight, s.sq);
    forall a | a in s'.flight ensures s'.flight[a].req == a && Matches(s', s'.flight[a]) {
      if a in s.flight {
        assert Matches(s, s.flight[a]);
      } else {
        assert a in SqReqs(s.sq);
        var i :| 0 <= i < |s.sq| && s.sq[i].req == a;
        assert Matches(s, s.sq[i]);
      }
    }
  }

  // ----- changing the one connection whose request is in hand

  ghost predicate ConnOnly(s: Io, s': Io, fd: int) {
    && s' == s.(open := s'.open, conns := s'.conns)
    && IsOpen(s, fd) && |s'.conns| == |s.conns|
    && (forall f :: f != fd ==> (f in s'.open <==> f in s.open))
    && (forall f :: f in s'.open ==> f in s.open && s'.open[f] == s.open[f])
    && (forall g :: 0 <= g < |s.conns| && g != s.open[fd] ==> s'.conns[g] == s.conns[g])
    && s'.conns[s.open[fd]].fd == fd
    && (s'.conns[s.open[fd]].closed <==> fd !in s'.open)
  }

  lemma ConnKeeps(s: Io, s': Io, a: nat)
    requires Parts(s, {a}) && a in s.heap && !s.heap[a].op.ACCEPT? && ConnOnly(s, s', s.heap[a].clientFd)
    requires GoodStream(s'.conns[s.open[s.heap[a].clientFd]])
    requires OwnDescriptor(s, {a})
    ensures Parts(s', {a})
  {
    EntriesName(s);
    assert Unhandled(s') == Unhandled(s);
    ConnKeepsOwned(s, s', a);
    ConnKeepsDescriptors(s, s', a);
    ConnKeepsConversations(s, s', a);
  }

  lemma ConnKeepsOwned(s: Io, s': Io, a: nat)
    requires Owned(s, {a}) && Entries(s) && s' == s.(open := s'.open, conns := s'.conns)
    ensures Owned(s', {a}) && Entries(s')
  {
    assert Unhandled(s') == Unhandled(s);
    forall i | 0 <= i < |s'.sq| ensures Matches(s', s'.sq[i]) {
      assert Matches(s, s.sq[i]);
    }
  }

  lemma OtherConnSame(s: Io, s': Io, fd: int, f: int)
    requires ConnOnly(s, s', fd) && IsOpen(s, f) && f != fd
    ensures IsOpen(s', f) && ConnOf(s', f) == ConnOf(s, f)
  {
  }

  lemma ConnKeepsDescriptors(s: Io, s': Io, a: nat)
    requires Descriptors(s, {a}) && a in s.heap && !s.heap[a].op.ACCEPT? && ConnOnly(s, s', s.heap[a].clientFd)
    ensures Descriptors(s', {a})
  {
    var fd := s.heap[a].clientFd;
    forall f | f in s'.open ensures IsOpen(s', f) {
      if f != fd {
        OtherConnSame(s, s', fd, f);
      }
    }
    forall x | x in s'.heap && !s'.heap[x].op.ACCEPT? && x != a ensures IsOpen(s', s'.heap[x].clientFd) {
      OtherConnSame(s, s', fd, s.heap[x].clientFd);
    }
  }

  lemma ConnKeepsConversations(s: Io, s': Io, a: nat)
    requires Descriptors(s, {a}) && Conversations(s, {a}) && a in s.heap && !s.heap[a].op.ACCEPT?
               && ConnOnly(s, s', s.heap[a].clientFd)
    requires Owned(s, {a}) && OwnDescriptor(s, {a})
    ensures Conversations(s', {a})
  {
    var fd := s.heap[a].clientFd;
    EntriesName(s);
    assert Unhandled(s') == Unhandled(s);
    forall x | x in s'.heap && !s'.heap[x].op.ACCEPT? && x !in CqReqs(Unhandled(s')) && x != a
      ensures IsOpen(s', s'.heap[x].clientFd) && InProgress(s'.heap[x], ConnOf(s', s'.heap[x].clientFd))
    {
      OtherConnSame(s, s', fd, s.heap[x].clientFd);
    }
    forall i | 0 <= i < |Unhandled(s')| ensures GoodCompletion(s', Unhandled(s')[i]) {
      var c := Unhandled(s)[i];
      assert GoodCompletion(s, c) && c.req != a;
      if !s.heap[c.req].op.ACCEPT? {
        OtherConnSame(s, s', fd, s.heap[c.req].clientFd);
      } else if c.res >= 0 {
        OtherConnSame(s, s', fd, c.res);
      }
    }
  }

  /** A request in hand always has its descriptor to itself. */
  lemma InHandOwnsDescriptor(s: Io, a: nat)
    requires Descriptors(s, {a}) && Conversations(s, {a})
    ensures OwnDescriptor(s, {a})
  {
    forall i | 0 <= i < |Unhandled(s)| && AcceptedNow(s, Unhandled(s)[i]) && a in s.heap && !s.heap[a].op.ACCEPT?
      ensures Unhandled(s)[i].res != s.heap[a].clientFd
    {
      assert GoodCompletion(s, Unhandled(s)[i]);
    }
  }

  // ----- streams

  lemma {:induction false} SentExtends(p: seq<seq<Byte>>, x: seq<Byte>, r: seq<int>, n: nat)
    requires n <= |p| && n <= |r|
    ensures Sent(p + [x], r, n) == Sent(p, r, n)
    decreases n
  {
    if n > 0 {
      SentExtends(p, x, r, n - 1);
      assert (p + [x])[n - 1] == p[n - 1];
    }
  }

  lemma {:induction false} SentExtendsResults(p: seq<seq<Byte>>, r: seq<int>, x: int, n: nat)
    requires n <= |p| && n <= |r|
    ensures Sent(p, r + [x], n) == Sent(p, r, n)
    decreases n
  {
    if n > 0 {
      SentExtendsResults(p, r, x, n - 1);
      assert (r + [x])[n - 1] == r[n - 1];
    }
  }

  lemma PreparingKeepsStream(c: Conn, x: seq<Byte>)
    requires GoodStream(c) && c.received == c.prepared + [x] && |c.sends| == |c.prepared|
    ensures GoodStream(c.(prepared := c.prepared + [x]))
  {
    SentExtends(c.prepared, x, c.sends, |c.sends|);
  }

  lemma ReceivingKeepsStream(c: Conn, x: seq<Byte>)
    requires GoodStream(c) && Quiet(c) && 0 < |x| <= BUF_LEN
    ensures GoodStream(c.(received := c.received + [x]))
  {
  }

  lemma SendingKeepsStream(c: Conn, res: int, out: seq<Byte>)
    requires GoodStream(c) && c.prepared == c.received && |c.prepared| == |c.sends| + 1
    requires Clip(res) <= |c.prepared[|c.sends|]| && out == c.prepared[|c.sends|][..Clip(res)]
    ensures GoodStream(c.(sends := c.sends + [res], output := c.output + out))
  {
    SentExtendsResults(c.prepared, c.sends, res, |c.sends|);
    assert (c.sends + [res])[|c.sends|] == res;
  }

  // ----- the handlers

  lemma SubmitRecvKeeps(s: Io, a: nat)
    requires Parts(s, {a}) && a in s.heap && s.heap[a].op.RECV?
    requires IsOpen(s, s.heap[a].clientFd) && Quiet(ConnOf(s, s.heap[a].clientFd))
    ensures Parts(SubmitRecv(s, a), {})
  {
    if |s.sq| >= SQ_ENTRIES {
      HandsKeep(s, {a}, Delete(s, a), {});
    } else {
      PrepareKeeps(s, Sqe(a, RECV, s.heap[a].clientFd, BUF_LEN));
    }
  }

  lemma SubmitSendKeeps(s: Io, a: nat)
    requires Parts(s, {a}) && a in s.heap && s.heap[a].op.SEND? && 0 < s.heap[a].len <= BUF_LEN
    requires IsOpen(s, s.heap[a].clientFd)
    requires var c := ConnOf(s, s.heap[a].clientFd);
             |c.sends| == |c.prepared| && c.received == c.prepared + [s.heap[a].buf[..s.heap[a].len]]
    ensures Parts(SubmitSend(s, a), {})
  {
    if |s.sq| >= SQ_ENTRIES {
      HandsKeep(s, {a}, Delete(s, a), {});
    } else {
      var e := Sqe(a, SEND, s.heap[a].clientFd, s.heap[a].len);
      NotePreparedKeeps(s, a);
      NoteThenPrepare(s, a);
      PrepareKeeps(NotePrepared(s, a), e);
    }
  }

  lemma NoteThenPrepare(s: Io, a: nat)
    requires a in s.heap && |s.sq| < SQ_ENTRIES && s.heap[a].len <= |s.heap[a].buf| && IsOpen(s, s.heap[a].clientFd)
    ensures SubmitSend(s, a) == Prepare(NotePrepared(s, a), Sqe(a, SEND, s.heap[a].clientFd, s.heap[a].len))
  {
  }

  /** The record of the payload, before the submission itself. */
  lemma NotePreparedKeeps(s: Io, a: nat)
    requires Parts(s, {a}) && a in s.heap && s.heap[a].op.SEND? && 0 < s.heap[a].len <= BUF_LEN
    requires IsOpen(s, s.heap[a].clientFd)
    requires var c := ConnOf(s, s.heap[a].clientFd);
             |c.sends| == |c.prepared| && c.received == c.prepared + [s.heap[a].buf[..s.heap[a].len]]
    ensures var s1 := NotePrepared(s, a);
            && Parts(s1, {a}) && s1.heap == s.heap && s1.sq == s.sq
            && IsOpen(s1, s.heap[a].clientFd) && InProgress(s.heap[a], ConnOf(s1, s.heap[a].clientFd))
  {
    var r := s.heap[a];
    InHandOwnsDescriptor(s, a);
    PreparingKeepsStream(ConnOf(s, r.clientFd), r.buf[..r.len]);
    ConnKeeps(s, NotePrepared(s, a), a);
  }

  lemma CloseAndDeleteKeeps(s: Io, a: nat)
    requires Parts(s, {a}) && a in s.heap && !s.heap[a].op.ACCEPT? && IsOpen(s, s.heap[a].clientFd)
    ensures Parts(Delete(CloseFd(s, s.heap[a].clientFd), a), {})
  {
    var s1 := CloseFd(s, s.heap[a].clientFd);
    InHandOwnsDescriptor(s, a);
    assert GoodStream(ConnOf(s, s.heap[a].clientFd));
    ConnKeeps(s, s1, a);
    HandsKeep(s1, {a}, Delete(s1, a), {});
  }

  /** Rewriting the request in hand, keeping its descriptor. */
  lemma RewriteKeeps(s: Io, a: nat, r: Request)
    requires Parts(s, {a}) && a in s.heap && !s.heap[a].op.ACCEPT? && !r.op.ACCEPT?
    requires r.clientFd == s.heap[a].clientFd && |r.buf| == BUF_LEN
    ensures Parts(s.(heap := s.heap[a := r]), {a})
  {
    var s' := s.(heap := s.heap[a := r]);
    InHandOwnsDescriptor(s, a);
    assert Unhandled(s') == Unhandled(s);
    HandsKeep(s, {a}, s', {a});
  }

  lemma HandleRecvKeeps(s: Io, a: nat, nread: int)
    requires Parts(s, {a}) && GoodCompletion(s, Cqe(a, nread)) && s.heap[a].op.RECV?
    ensures Parts(HandleRecv(s, a, nread), {})
  {
    if nread > 0 {
      var s1 := s.(heap := s.heap[a := s.heap[a].(op := SEND, len := nread)]);
      RewriteKeeps(s, a, s1.heap[a]);
      SubmitSendKeeps(s1, a);
    } else if nread == -EAGAIN {
      HandsKeep(s, {a}, Delete(s, a), {});
    } else {
      CloseAndDeleteKeeps(s, a);
    }
  }

  lemma HandleSendKeeps(s: Io, a: nat, res: int)
    requires Parts(s, {a}) && GoodCompletion(s, Cqe(a, res)) && s.heap[a].op.SEND?
    ensures Parts(HandleSend(s, a), {})
  {
    var s1 := s.(heap := s.heap[a := s.heap[a].(op := RECV, len := 0)]);
    RewriteKeeps(s, a, s1.heap[a]);
    SubmitRecvKeeps(s1, a);
  }

  lemma HandleAcceptKeeps(s: Io, a: nat, res: int, b: nat)
    requires Parts(s, {a}) && GoodCompletion(s, Cqe(a, res)) && s.heap[a].op.ACCEPT? && b !in s.heap
    requires forall x :: x in s.heap && s.heap[x].op.ACCEPT? ==> x == a
    ensures Parts(Delete(HandleAccept(s, res, b), a), {})
  {
    var s0 := s.(acceptPending := false);
    assert Parts(s0, {a}) by { MoveKeepsParts(s, s0, a); }
    if res < 0 {
      HandsKeep(s0, {a}, Delete(s0, a), {});
    } else {
      var r := Request(RECV, res, Zeros(), 0);
      var s1 := s0.(heap := (s0.heap - {a})[b := r]);
      assert Unhandled(s1) == Unhandled(s);
      EntriesName(s);
      HandsKeep(s0, {a}, s1, {b});
      SubmitRecvKeeps(s1, b);
      DeleteCommutes(s0, a, b, r);
    }
  }

  lemma MoveKeepsParts(s: Io, s0: Io, a: nat)
    requires Parts(s, {a}) && s0 == s.(acceptPending := false)
    ensures Parts(s0, {a})
  {
    assert Unhandled(s0) == Unhandled(s);
    forall i | 0 <= i < |Unhandled(s0)| ensures GoodCompletion(s, Unhandled(s0)[i]) {
      assert GoodCompletion(s, Unhandled(s)[i]);
    }
    MoveKeepsConversations(s, {a}, s0, {a});
    forall i | 0 <= i < |s0.sq| ensures Matches(s0, s0.sq[i]) {
      assert Matches(s, s.sq[i]);
    }
  }

  /** Deleting the ACCEPT request before or after the RECV request is submitted is the same. */
  lemma DeleteCommutes(s: Io, a: nat, b: nat, r: Request)
    requires a in s.heap && b !in s.heap
    ensures Delete(SubmitRecv(s.(heap := s.heap[b := r]), b), a) == SubmitRecv(s.(heap := (s.heap - {a})[b := r]), b)
  {
    assert (s.heap[b := r]) - {a} == (s.heap - {a})[b := r];
    assert ((s.heap[b := r]) - {b}) - {a} == ((s.heap - {a})[b := r]) - {b};
  }

  lemma AcceptFlagSame(s: Io, s': Io)
    requires AcceptFlag(s) && s'.acceptPending == s.acceptPending
    requires forall x :: x in s'.heap && s'.heap[x].op.ACCEPT? ==> x in s.heap && s.heap[x].op.ACCEPT?
    requires forall x :: x in s.heap && s.heap[x].op.ACCEPT? ==> x in s'.heap && s'.heap[x].op.ACCEPT?
    ensures AcceptFlag(s')
  {
  }

  lemma SubmitAcceptKeeps(s: Io, a: nat)
    requires Parts(s, {}) && AcceptFlag(s) && !s.acceptPending && a !in s.heap
    ensures var s' := SubmitAccept(s, a);
            Parts(s', {}) && AcceptFlag(s') && (s'.acceptPending <==> |s.sq| < SQ_ENTRIES)
                && Unhandled(s') == Unhandled(s)
  {
    SubmitAcceptKeepsParts(s, a);
    var s' := SubmitAccept(s, a);
    assert Unhandled(s') == Unhandled(s);
    if |s.sq| < SQ_ENTRIES {
      assert a in s'.heap && s'.heap[a].op.ACCEPT?;
    } else {
      AcceptFlagSame(s, s');
    }
  }

  lemma SubmitAcceptKeepsParts(s: Io, a: nat)
    requires Parts(s, {}) && a !in s.heap
    ensures Parts(SubmitAccept(s, a), {})
  {
    var s1 := s.(heap := s.heap[a := Request(ACCEPT, -1, Zeros(), 0)]);
    HandsKeep(s, {}, s1, {a});
    if |s.sq| >= SQ_ENTRIES {
      HandsKeep(s1, {a}, Delete(s1, a), {});
    } else {
      var e := Sqe(a, ACCEPT, -1, 0);
      PrepareKeeps(s1, e);
      FlagKeepsParts(Prepare(s1, e), SubmitAccept(s, a));
    }
  }

  /** The flag and the phase are no part of the parts. */
  lemma FlagKeepsParts(s: Io, s': Io)
    requires Parts(s, {}) && s' == s.(acceptPending := s'.acceptPending, phase := s'.phase, tail := s'.tail)
    ensures Parts(s', {}) && Unhandled(s') == Unhandled(s)
  {
    assert Unhandled(s') == Unhandled(s);
    forall i | 0 <= i < |Unhandled(s')| ensures GoodCompletion(s, Unhandled(s')[i]) {
      assert GoodCompletion(s, Unhandled(s)[i]);
    }
    MoveKeepsConversations(s, {}, s', {});
    forall i | 0 <= i < |s'.sq| ensures Matches(s', s'.sq[i]) {
      assert Matches(s, s.sq[i]);
    }
  }

  // ----- the kernel

  function Opened(s: Io, fd: int): Io {
    s.(open := s.open[fd := |s.conns|], conns := s.conns + [Conn(fd, [], [], [], [], false)])
  }

  lemma OpenSame(s: Io, fd: int, f: int)
    requires fd !in s.open && IsOpen(s, f)
    ensures IsOpen(Opened(s, fd), f) && ConnOf(Opened(s, fd), f) == ConnOf(s, f) && f != fd
  {
  }

  lemma OpenKeepsOwned(s: Io, a: nat, fd: int)
    requires Owned(s, {a}) && Entries(s) && Streams(s)
    ensures var s' := Opened(s, fd); Owned(s', {a}) && Entries(s') && Streams(s')
  {
    var s' := Opened(s, fd);
    assert Unhandled(s') == Unhandled(s);
    forall i | 0 <= i < |s'.sq| ensures Matches(s', s'.sq[i]) {
      assert Matches(s, s.sq[i]);
    }
  }

  lemma OpenKeepsDescriptors(s: Io, a: nat, fd: int)
    requires Descriptors(s, {a}) && fd !in s.open
    ensures Descriptors(Opened(s, fd), {a})
  {
    var s' := Opened(s, fd);
    forall f | f in s'.open ensures IsOpen(s', f) {
      if f != fd {
        OpenSame(s, fd, f);
      }
    }
    forall x | x in s'.heap && !s'.heap[x].op.ACCEPT? && x != a ensures IsOpen(s', s'.heap[x].clientFd) {
      OpenSame(s, fd, s.heap[x].clientFd);
    }
  }

  lemma OpenKeepsConversations(s: Io, a: nat, fd: int)
    requires Conversations(s, {a}) && fd !in s.open
    ensures Conversations(Opened(s, fd), {a})
  {
    var s' := Opened(s, fd);
    assert Unhandled(s') == Unhandled(s);
    forall x | x in s'.heap && !s'.heap[x].op.ACCEPT? && x !in CqReqs(Unhandled(s')) && x != a
      ensures IsOpen(s', s'.heap[x].clientFd) && InProgress(s'.heap[x], ConnOf(s', s'.heap[x].clientFd))
    {
      OpenSame(s, fd, s.heap[x].clientFd);
    }
    forall i | 0 <= i < |Unhandled(s')| ensures GoodCompletion(s', Unhandled(s')[i]) {
      var c := Unhandled(s)[i];
      assert GoodCompletion(s, c);
      if !s.heap[c.req].op.ACCEPT? {
        OpenSame(s, fd, s.heap[c.req].clientFd);
      } else if c.res >= 0 {
        OpenSame(s, fd, c.res);
      }
    }
  }

  /** A new connection: its descriptor is nobody else's. */
  lemma OpenKeeps(s: Io, a: nat, fd: int)
    requires Parts(s, {a}) && a in s.heap && s.heap[a].op.ACCEPT? && fd !in s.open
    ensures Parts(Opened(s, fd), {a}) && GoodCompletion(Opened(s, fd), Cqe(a, fd))
  {
    OpenKeepsOwned(s, a, fd);
    OpenKeepsDescriptors(s, a, fd);
    OpenKeepsConversations(s, a, fd);
  }

  lemma KernelAcceptsKeeps(s: Io, a: nat, res: int)
    requires Parts(s, {}) && Enabled(s, CompleteAccept(a, res))
    ensures var s' := KernelAccepts(s, a, res); Parts(s', {}) && Unhandled(s') == Unhandled(s) + [Cqe(a, res)]
  {
    PullKeeps(s, a);
    var s0 := s.(flight := s.flight - {a});
    assert Unhandled(s0) == Unhandled(s);
    if res < 0 {
      PushKeeps(s0, a, res);
    } else {
      OpenKeeps(s0, a, res);
      PushKeeps(Opened(s0, res), a, res);
    }
  }

  /** A chunk arrives for the request in hand: it joins the record and lands in the buffer. */
  lemma ChunkArrives(s: Io, a: nat, data: seq<Byte>) returns (s': Io)
    requires Parts(s, {a}) && a in s.heap && s.heap[a].op.RECV? && 0 < |data| <= BUF_LEN
    requires IsOpen(s, s.heap[a].clientFd) && Quiet(ConnOf(s, s.heap[a].clientFd))
    ensures var r := s.heap[a];
            var g := s.open[r.clientFd];
            s' == s.(conns := s.conns[g := s.conns[g].(received := s.conns[g].received + [data])],
                     heap := s.heap[a := r.(buf := data + r.buf[|data|..])])
    ensures Parts(s', {a}) && GoodCompletion(s', Cqe(a, |data|))
  {
    var r := s.heap[a];
    var g := s.open[r.clientFd];
    var s1 := s.(conns := s.conns[g := s.conns[g].(received := s.conns[g].received + [data])]);
    InHandOwnsDescriptor(s, a);
    ReceivingKeepsStream(s.conns[g], data);
    ConnKeeps(s, s1, a);
    var r' := r.(buf := data + r.buf[|data|..]);
    RewriteKeeps(s1, a, r');
    s' := s1.(heap := s1.heap[a := r']);
    assert r'.buf[..|data|] == data;
  }

  lemma KernelReceivesKeeps(s: Io, a: nat, res: int, data: seq<Byte>)
    requires Parts(s, {}) && Enabled(s, CompleteRecv(a, res, data))
    ensures var s' := KernelReceives(s, a, res, data); Parts(s', {}) && Unhandled(s') == Unhandled(s) + [Cqe(a, res)]
  {
    PullKeeps(s, a);
    var s0 := s.(flight := s.flight - {a});
    assert Unhandled(s0) == Unhandled(s);
    if res <= 0 {
      PushKeeps(s0, a, res);
    } else {
      var s1 := ChunkArrives(s0, a, data);
      assert Unhandled(s1) == Unhandled(s);
      PushKeeps(s1, a, res);
    }
  }

  /** The bytes of a completed send leave. */
  lemma BytesLeave(s: Io, a: nat, res: int) returns (s': Io)
    requires Parts(s, {a}) && a in s.heap && s.heap[a].op.SEND? && res <= s.heap[a].len
    requires IsOpen(s, s.heap[a].clientFd) && InProgress(s.heap[a], ConnOf(s, s.heap[a].clientFd))
    ensures var r := s.heap[a];
            var g := s.open[r.clientFd];
            s' == s.(conns := s.conns[g := s.conns[g].(sends := s.conns[g].sends + [res],
                output := s.conns[g].output + r.buf[..Clip(res)])])
    ensures Parts(s', {a}) && GoodCompletion(s', Cqe(a, res))
  {
    var r := s.heap[a];
    var g := s.open[r.clientFd];
    var out := r.buf[..Clip(res)];
    assert out == r.buf[..r.len][..Clip(res)];
    s' := s.(conns := s.conns[g := s.conns[g].(sends := s.conns[g].sends + [res], output := s.conns[g].output + out)]);
    InHandOwnsDescriptor(s, a);
    SendingKeepsStream(s.conns[g], res, out);
    ConnKeeps(s, s', a);
  }

  lemma KernelSendsKeeps(s: Io, a: nat, res: int)
    requires Parts(s, {}) && Enabled(s, CompleteSend(a, res))
    ensures var s' := KernelSends(s, a, res); Parts(s', {}) && Unhandled(s') == Unhandled(s) + [Cqe(a, res)]
  {
    PullKeeps(s, a);
    var s0 := s.(flight := s.flight - {a});
    assert Unhandled(s0) == Unhandled(s);
    var s1 := BytesLeave(s0, a, res);
    assert Unhandled(s1) == Unhandled(s);
    PushKeeps(s1, a, res);
  }

  // ----- every step

  lemma DispatchKeeps(s: Io, c: Cqe, b: nat)
    requires Parts(s, {c.req}) && GoodCompletion(s, c) && b !in s.heap
    requires forall x :: x in s.heap && s.heap[x].op.ACCEPT? && s.heap[c.req].op.ACCEPT? ==> x == c.req
    ensures Parts(Dispatch(s, c, b), {})
  {
    match s.heap[c.req].op {
      case ACCEPT => HandleAcceptKeeps(s, c.req, c.res, b);
      case RECV => HandleRecvKeeps(s, c.req, c.res);
      case SEND => HandleSendKeeps(s, c.req, c.res);
    }
  }

  lemma HandleKeepsParts(s: Io, b: nat)
    requires Parts(s, {}) && AcceptFlag(s) && s.count < |s.cq| && b !in s.heap
    ensures Parts(HandleCqe(s, b), {})
  {
    var c := s.cq[s.count];
    PopKeeps(s);
    DispatchKeeps(s.(count := s.count + 1, handled := s.handled + [c]), c, b);
  }

  lemma DispatchKeepsFlag(s: Io, c: Cqe, b: nat)
    requires AcceptFlag(s) && c.req in s.heap && b !in s.heap
    ensures AcceptFlag(Dispatch(s, c, b))
  {
    var s' := Dispatch(s, c, b);
    if s.heap[c.req].op.ACCEPT? {
      assert forall x :: x in s'.heap && s'.heap[x].op.ACCEPT? ==> x == c.req;
    } else {
      assert OnlyRequest(s, s', c.req);
      AcceptFlagSame(s, s');
    }
  }

  lemma HandleKeepsFlag(s: Io, b: nat)
    requires AcceptFlag(s) && s.count < |s.cq| && b !in s.heap && s.cq[s.count].req in s.heap
    ensures AcceptFlag(HandleCqe(s, b))
  {
    var c := s.cq[s.count];
    var s1 := s.(count := s.count + 1, handled := s.handled + [c]);
    AcceptFlagSame(s, s1);
    DispatchKeepsFlag(s1, c, b);
  }

  lemma HandleKeepsScan(s: Io, b: nat)
    requires Scan(s) && s.phase.Scanning? && s.count < |s.cq| && b !in s.heap && s.cq[s.count].req in s.heap
    ensures Scan(HandleCqe(s, b))
  {
    var c := s.cq[s.count];
    var s1 := s.(count := s.count + 1, handled := s.handled + [c]);
    var s' := HandleCqe(s, b);
    assert SameQueues(s1, s');
    ScanOn(s, c);
  }

  /** Counting one completion as handled. */
  lemma ScanOn(s: Io, c: Cqe)
    requires Scan(s) && s.count < |s.cq| && c == s.cq[s.count]
    ensures s.posted == (s.handled + [c]) + s.cq[s.count + 1..]
  {
    assert Unhandled(s) == [c] + s.cq[s.count + 1..];
    assert (s.handled + [c]) + s.cq[s.count + 1..] == s.handled + ([c] + s.cq[s.count + 1..]);
  }

  lemma HandleKeepsInv(s: Io, b: nat)
    requires Inv(s) && Enabled(s, Handle(b))
    ensures Inv(HandleCqe(s, b))
  {
    PopKeeps(s);
    HandleKeepsParts(s, b);
    HandleKeepsFlag(s, b);
    HandleKeepsScan(s, b);
  }

  lemma KernelKeepsInv(s: Io, s': Io, c: Cqe)
    requires Inv(s) && s.flight != map[] && JustPosts(s, s', c) && Parts(s', {}) && Unhandled(s') == Unhandled(s) + [c]
    ensures Inv(s')
  {
    AcceptFlagSame(s, s');
    PostKeepsScan(s, s', c);
  }

  lemma PostKeepsScan(s: Io, s': Io, c: Cqe)
    requires Scan(s) && s.flight != map[] && JustPosts(s, s', c) && Unhandled(s') == Unhandled(s) + [c]
    ensures Scan(s')
  {
    assert (s.handled + Unhandled(s)) + [c] == s.handled + (Unhandled(s) + [c]);
  }

  lemma SubmitKeepsFlag(s: Io)
    requires Parts(s, {}) && AcceptFlag(s)
    ensures Parts(Submit(s), {}) && AcceptFlag(Submit(s)) && Unhandled(Submit(s)) == Unhandled(s)
  {
    SubmitKeeps(s);
    AcceptFlagSame(s, Submit(s));
  }

  lemma FlushKeepsInv(s: Io, a: nat)
    requires a !in s.heap
    requires Inv(s) && s.phase.Flushing?
    ensures Inv(FlushPhase(s, a))
  {
    if s.acceptPending {
      SubmitKeepsFlag(s);
      FlushEnds(s, s, a);
    } else {
      SubmitAcceptKeeps(s, a);
      SubmitKeepsFlag(SubmitAccept(s, a));
      FlushEnds(s, SubmitAccept(s, a), a);
    }
  }

  lemma FlushEnds(s: Io, s1: Io, a: nat)
    requires Scan(s) && s.phase.Flushing? && a !in s.heap
    requires s1 == if !s.acceptPending then SubmitAccept(s, a) else s
    requires Parts(Submit(s1), {}) && AcceptFlag(Submit(s1)) && Unhandled(Submit(s1)) == Unhandled(s1) == Unhandled(s)
    ensures Inv(FlushPhase(s, a))
  {
    FlagKeepsParts(Submit(s1), FlushPhase(s, a));
    AcceptFlagSame(Submit(s1), FlushPhase(s, a));
  }

  lemma AdvanceKeepsInv(s: Io)
    requires Inv(s) && Enabled(s, Advance)
    ensures Inv(Apply(s, Advance))
  {
    var s' := Apply(s, Advance);
    assert Unhandled(s') == Unhandled(s);
    AdvanceKeepsOwned(s);
    forall i | 0 <= i < |Unhandled(s')| ensures GoodCompletion(s, Unhandled(s')[i]) {
      assert GoodCompletion(s, Unhandled(s)[i]);
    }
    MoveKeepsConversations(s, {}, s', {});
    AcceptFlagSame(s, s');
  }

  lemma AdvanceKeepsOwned(s: Io)
    requires Owned(s, {}) && Entries(s) && Enabled(s, Advance)
    ensures Owned(Apply(s, Advance), {}) && Entries(Apply(s, Advance))
  {
    var s' := Apply(s, Advance);
    assert Unhandled(s') == Unhandled(s);
    forall i | 0 <= i < |s'.sq| ensures Matches(s', s'.sq[i]) {
      assert Matches(s, s.sq[i]);
    }
  }

  lemma KernelStepKeepsInv(s: Io, st: Step)
    requires Inv(s) && Enabled(s, st) && (st.CompleteAccept? || st.CompleteRecv? || st.CompleteSend?)
    ensures Inv(Apply(s, st))
  {
    match st {
      case CompleteAccept(a, res) =>
        KernelAcceptsKeeps(s, a, res);
        KernelKeepsInv(s, Apply(s, st), Cqe(a, res));
      case CompleteRecv(a, res, data) =>
        KernelReceivesKeeps(s, a, res, data);
        KernelKeepsInv(s, Apply(s, st), Cqe(a, res));
      case CompleteSend(a, res) =>
        KernelSendsKeeps(s, a, res);
        KernelKeepsInv(s, Apply(s, st), Cqe(a, res));
    }
  }

  lemma StepKeepsInv(s: Io, st: Step)
    requires Inv(s) && Enabled(s, st)
    ensures Inv(Apply(s, st))
  {
    match st {
      case Prime(a) =>
        SubmitAcceptKeeps(s, a);
        FlagKeepsParts(SubmitAccept(s, a), Apply(s, st));
        AcceptFlagSame(SubmitAccept(s, a), Apply(s, st));
      case Handle(b) => HandleKeepsInv(s, b);
      case Flush(a) => FlushKeepsInv(s, a);
      case Advance => AdvanceKeepsInv(s);
      case CompleteAccept(_, _) => KernelStepKeepsInv(s, st);
      case CompleteRecv(_, _, _) => KernelStepKeepsInv(s, st);
      case CompleteSend(_, _) => KernelStepKeepsInv(s, st);
      case _ =>
        FlagKeepsParts(s, Apply(s, st));
        AcceptFlagSame(s, Apply(s, st));
    }
  }

  lemma {:induction false} RunKeepsInv(s: Io, steps: seq<Step>)
    requires Inv(s) && CanRun(s, steps)
    ensures Inv(Run(s, steps))
    decreases |steps|
  {
    if steps != [] {
      StepKeepsInv(s, steps[0]);
      RunKeepsInv(Apply(s, steps[0]), steps[1..]);
    }
  }
}

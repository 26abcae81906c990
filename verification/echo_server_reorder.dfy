/**
 Runs in which bytes go astray.  With two workers or more: the second of two tasks is written first;
 or the close task overtakes the write, and the bytes reach the next client on that descriptor.  With
 one worker: an error event closes the descriptor under a task that is still to be written.
 */
module EchoServerReorder {
  import P = ThreadPool
  import opened EchoServer
  import Always = EchoServerAlways

  /** Reached by a run; `inTurn` asks that its error events close only connections that are owed nothing. */
  ghost predicate Reached(l: int, n: nat, inTurn: bool, s: Server) {
    exists steps ::
      && CanRun(Init(l, n), steps) && Run(Init(l, n), steps) == s
      && (inTurn ==> ErrorsInTurnRun(Init(l, n), steps))
  }

  lemma {:induction false} InTurnSnoc(s: Server, a: seq<Step>, st: Step)
    requires CanRun(s, a) && Enabled(Run(s, a), st) && ErrorsInTurnRun(s, a) && ErrorsInTurn(Run(s, a), st)
    ensures CanRun(s, a + [st]) && ErrorsInTurnRun(s, a + [st])
    decreases |a|
  {
    Always.RunSnoc(s, a, st);
    if a == [] {
      assert (a + [st])[1..] == [];
    } else {
      InTurnSnoc(Apply(s, a[0]), a[1..], st);
      assert (a + [st])[0] == a[0] && (a + [st])[1..] == a[1..] + [st];
    }
  }

  lemma Take(l: int, n: nat, inTurn: bool, s: Server, st: Step) returns (s': Server)
    requires Reached(l, n, inTurn, s) && Enabled(s, st) && (inTurn ==> ErrorsInTurn(s, st))
    ensures Reached(l, n, inTurn, s') && s' == Apply(s, st)
  {
    var steps :|
      && CanRun(Init(l, n), steps) && Run(Init(l, n), steps) == s
      && (inTurn ==> ErrorsInTurnRun(Init(l, n), steps));
    Always.RunSnoc(Init(l, n), steps, st);
    if inTurn {
      InTurnSnoc(Init(l, n), steps, st);
    }
    s' := Apply(s, st);
  }

  function QueueOf(q: seq<Task>, n: nat): P.Pool<Task> {
    P.Init<Task>(n).(tasks := q, enqueued := q)
  }

  /** The server between two waits, with one client, on descriptor l + 1, and n workers yet to start. */
  function OneClient(l: int, pool: P.Pool<Task>, input: seq<Byte>): Server {
    Server(l, true, pool, Waiting, [], map[l + 1 := 0], {l + 1}, [input], [[]], map[], [], {})
  }

  /** The next client is given descriptor l + 1. */
  lemma ClientArrives(l: int, n: nat, inTurn: bool, s: Server) returns (s': Server)
    requires Reached(l, n, inTurn, s) && s.net.Waiting? && s.listening && s.listenFd == l && l + 1 !in s.open
    ensures Reached(l, n, inTurn, s')
    ensures s' == s.(net := Accepting, events := [], open := s.open[l + 1 := |s.input|],
                     watched := s.watched + {l + 1}, input := s.input + [[]], output := s.output + [[]])
  {
    s' := Take(l, n, inTurn, s, WaitReturns([Event(l, false, true)]));
    s' := Take(l, n, inTurn, s', AcceptStart);
    s' := Take(l, n, inTurn, s', AcceptOne(l + 1, true));
  }

  lemma Accepts(l: int, n: nat, inTurn: bool) returns (s: Server)
    ensures Reached(l, n, inTurn, s) && s == OneClient(l, QueueOf([], n), [])
  {
    s := Init(l, n);
    assert CanRun(s, []) && Run(s, []) == s;
    s := ClientArrives(l, n, inTurn, s);
    s := Take(l, n, inTurn, s, AcceptDone);
    s := Take(l, n, inTurn, s, EventsDone);
  }

  /** The network thread reads `data` and enqueues the echo; nobody sleeps. */
  lemma ReadsAndHandsOver(l: int, n: nat, inTurn: bool, s: Server, q: seq<Task>, input: seq<Byte>, data: seq<Byte>)
      returns (s': Server)
    requires Reached(l, n, inTurn, s) && s == OneClient(l, QueueOf(q, n), input) && 0 < |data| <= BUF_SIZE
    ensures Reached(l, n, inTurn, s') && s' == OneClient(l, QueueOf(q + [Echo(l + 1, 0, data)], n), input + data)
  {
    s' := Take(l, n, inTurn, s, WaitReturns([Event(l + 1, false, true)]));
    s' := Take(l, n, inTurn, s', ReadData(data));
    s' := HandsOver(l, n, inTurn, s', Echo(l + 1, 0, data));
  }

  /** The network thread is about to enqueue a task; nobody sleeps and nobody holds the mutex. */
  lemma HandsOver(l: int, n: nat, inTurn: bool, s: Server, task: Task) returns (s': Server)
    requires Reached(l, n, inTurn, s) && s.net == Submitting(task) && s.events == [] && P.NobodyAsleep(s.pool)
    requires s.pool.owner.Free? && s.pool.enqueue.NoEnqueue? && s.pool.owed == 0
    ensures Reached(l, n, inTurn, s')
    ensures s' == s.(net := Waiting,
              pool := s.pool.(tasks := s.pool.tasks + [task], enqueued := s.pool.enqueued + [task]))
  {
    s' := Take(l, n, inTurn, s, Enqueue(P.Lock(task)));
    s' := Take(l, n, inTurn, s', Enqueue(P.Push));
    s' := Take(l, n, inTurn, s', Enqueue(P.Unlock));
    s' := Take(l, n, inTurn, s', Enqueue(P.NotifyNobody));
    s' := Take(l, n, inTurn, s', EventsDone);
  }

  /** A step of worker w inside worker_loop. */
  lemma Works(l: int, n: nat, inTurn: bool, s: Server, w: nat) returns (s': Server)
    requires Reached(l, n, inTurn, s) && P.Enabled(s.pool, P.Work(w)) && !s.pool.workers[w].Running?
    ensures Reached(l, n, inTurn, s') && s' == s.(pool := P.WorkerStep(s.pool, w))
  {
    s' := Take(l, n, inTurn, s, Pool(P.Work(w)));
  }

  /** Worker w goes from the top of its loop past the predicate, holding the mutex. */
  lemma PassesTest(l: int, n: nat, inTurn: bool, s: Server, w: nat) returns (s': Server)
    requires Reached(l, n, inTurn, s) && w < |s.pool.workers| && s.pool.workers[w].Top?
    requires s.pool.running && s.pool.owner.Free? && s.pool.tasks != []
    ensures Reached(l, n, inTurn, s')
    ensures s' == s.(pool := s.pool.(owner := P.Worker(w), workers := s.pool.workers[w := P.Passed]))
  {
    s' := Works(l, n, inTurn, s, w);
    s' := Works(l, n, inTurn, s', w);
    s' := Works(l, n, inTurn, s', w);
  }

  /** And from there to the task it popped. */
  lemma PopsTask(l: int, n: nat, inTurn: bool, s: Server, w: nat) returns (s': Server)
    requires Reached(l, n, inTurn, s) && w < |s.pool.workers| && s.pool.workers[w].Passed? && s.pool.tasks != []
    ensures Reached(l, n, inTurn, s')
    ensures var p := s.pool;
            s' == s.(pool := p.(owner := P.Free, tasks := p.tasks[1..], takers := p.takers + [w],
                                workers := p.workers[w := P.Running(|p.takers|, p.tasks[0])]))
  {
    s' := Works(l, n, inTurn, s, w);
    s' := Works(l, n, inTurn, s', w);
    s' := Works(l, n, inTurn, s', w);
  }

  lemma OneTaskQueued(l: int, n: nat, inTurn: bool) returns (s: Server)
    ensures Reached(l, n, inTurn, s) && s == OneClient(l, QueueOf([Echo(l + 1, 0, [1])], n), [1])
  {
    s := Accepts(l, n, inTurn);
    s := ReadsAndHandsOver(l, n, inTurn, s, [], [], [1]);
    var none: seq<Byte>, one: seq<Byte> := [], [1];
    assert none + one == one;
    assert [] + [Echo(l + 1, 0, [1])] == [Echo(l + 1, 0, [1])];
  }

  lemma TwoTasksQueued(l: int, n: nat, inTurn: bool) returns (s: Server)
    ensures Reached(l, n, inTurn, s)
    ensures s == OneClient(l, QueueOf([Echo(l + 1, 0, [1]), Echo(l + 1, 0, [2])], n), [1, 2])
  {
    s := OneTaskQueued(l, n, inTurn);
    s := ReadsAndHandsOver(l, n, inTurn, s, [Echo(l + 1, 0, [1])], [1], [2]);
    assert [Echo(l + 1, 0, [1])] + [Echo(l + 1, 0, [2])] == [Echo(l + 1, 0, [1]), Echo(l + 1, 0, [2])];
    assert [1] + [2] == [1, 2];
  }

  /** Two of the workers hold the two tasks. */
  lemma BothWorkersHold(l: int, n: nat, inTurn: bool) returns (s: Server)
    requires n >= 2
    ensures Reached(l, n, inTurn, s)
    ensures s.input == [[1, 2]] && s.output == [[]] && s.failed == {} && s.open == map[l + 1 := 0] && s.written == map[]
    ensures |s.pool.workers| == n && s.pool.workers[1] == P.Running(1, Echo(l + 1, 0, [2]))
  {
    s := TwoTasksQueued(l, n, inTurn);
    s := PassesTest(l, n, inTurn, s, 0);
    s := PopsTask(l, n, inTurn, s, 0);
    s := PassesTest(l, n, inTurn, s, 1);
    s := PopsTask(l, n, inTurn, s, 1);
  }

  lemma TwoWorkersCanReorder(l: int, n: nat, inTurn: bool) returns (s: Server)
    requires n >= 2
    ensures Reached(l, n, inTurn, s) && s.input == [[1, 2]] && s.output == [[2]] && s.failed == {}
  {
    s := BothWorkersHold(l, n, inTurn);
    var none: seq<Byte>, two: seq<Byte> := [], [2];
    assert none + two[0..0 + 1] == two;
    s := Take(l, n, inTurn, s, Write(1, 1));
  }

  // ----- the close overtakes the write

  /** A worker is about to write the byte 1, and the client it is for has been closed. */
  ghost predicate Orphaned(l: int, n: nat, s: Server) {
    && s.listenFd == l && s.listening && s.net.Waiting? && s.events == []
    && s.open == map[] && s.written == map[] && s.failed == {}
    && s.input == [[1]] && s.output == [[]] && s.closes == [0]
    && |s.pool.workers| == n > 0 && s.pool.workers[0] == P.Running(0, Echo(l + 1, 0, [1]))
  }

  lemma EndHandedOver(l: int, n: nat, inTurn: bool) returns (s: Server)
    ensures Reached(l, n, inTurn, s)
    ensures var q := [Echo(l + 1, 0, [1]), Close(l + 1, 0)]; s == OneClient(l, QueueOf(q, n), [1]).(watched := {})
  {
    s := OneTaskQueued(l, n, inTurn);
    s := Take(l, n, inTurn, s, WaitReturns([Event(l + 1, false, true)]));
    s := Take(l, n, inTurn, s, ReadEnd);
    s := HandsOver(l, n, inTurn, s, Close(l + 1, 0));
    assert [Echo(l + 1, 0, [1])] + [Close(l + 1, 0)] == [Echo(l + 1, 0, [1]), Close(l + 1, 0)];
    assert {l + 1} - {l + 1} == {};
  }

  lemma CloseOvertakesWrite(l: int, n: nat) returns (s: Server)
    requires n >= 2
    ensures Reached(l, n, true, s) && Orphaned(l, n, s)
  {
    s := EndHandedOver(l, n, true);
    s := PassesTest(l, n, true, s, 0);
    s := PopsTask(l, n, true, s, 0);
    s := PassesTest(l, n, true, s, 1);
    s := PopsTask(l, n, true, s, 1);
    s := Take(l, n, true, s, Pool(P.Work(1)));
    assert map[l + 1 := 0] - {l + 1} == map[];
  }

  /** The next client is given the same descriptor, and the byte. */
  lemma WrongClient(l: int, n: nat, inTurn: bool, s: Server) returns (s': Server)
    requires Reached(l, n, inTurn, s) && Orphaned(l, n, s)
    ensures Reached(l, n, inTurn, s')
    ensures s'.input == [[1], []] && s'.output == [[], [1]] && s'.failed == {}
  {
    s' := ClientArrives(l, n, inTurn, s);
    assert s'.output == [[], []] && s'.input == [[1], []];
    var none: seq<Byte>, one: seq<Byte> := [], [1];
    assert none + one[0..0 + 1] == one;
    s' := Take(l, n, inTurn, s', Write(0, 1));
  }

  // ----- an error event strikes

  /** Bytes read and not yet written are lost to a client whose descriptor reports an error. */
  lemma ErrorLosesBytes(l: int, n: nat) returns (s: Server)
    ensures Reached(l, n, false, s)
    ensures s.input == [[1]] && s.output == [[]] && s.closes == [0] && s.failed == {}
  {
    s := OneTaskQueued(l, n, false);
    s := Take(l, n, false, s, WaitReturns([Event(l + 1, true, false)]));
    s := Take(l, n, false, s, ErrorEvent);
  }

  lemma ErrorStrikesEarly(l: int, n: nat) returns (s: Server)
    requires n >= 1
    ensures Reached(l, n, false, s) && Orphaned(l, n, s)
  {
    s := OneTaskQueued(l, n, false);
    s := PassesTest(l, n, false, s, 0);
    s := PopsTask(l, n, false, s, 0);
    s := Take(l, n, false, s, WaitReturns([Event(l + 1, true, false)]));
    s := Take(l, n, false, s, ErrorEvent);
    s := Take(l, n, false, s, EventsDone);
    assert map[l + 1 := 0] - {l + 1} == map[];
  }

  // ----- a task is given up

  /** One worker is enough: the write of 1 fails, the task is given up, and 2 is written. */
  lemma GivingUpLosesByte(l: int, n: nat) returns (s: Server)
    requires n >= 1
    ensures Reached(l, n, true, s) && s.input == [[1, 2]] && s.output == [[2]] && s.failed == {0}
  {
    s := FirstGivenUp(l, n);
    s := PassesTest(l, n, true, s, 0);
    s := PopsTask(l, n, true, s, 0);
    var none: seq<Byte>, two: seq<Byte> := [], [2];
    assert none + two[0..0 + 1] == two;
    s := Take(l, n, true, s, Write(0, 1));
  }

  lemma FirstGivenUp(l: int, n: nat) returns (s: Server)
    requires n >= 1
    ensures Reached(l, n, true, s)
    ensures s.input == [[1, 2]] && s.output == [[]] && s.failed == {0} && s.open == map[l + 1 := 0]
              && s.written == map[]
    ensures |s.pool.workers| == n && s.pool.workers[0].Top? && s.pool.running && s.pool.owner.Free?
    ensures s.pool.tasks == [Echo(l + 1, 0, [2])]
  {
    s := TwoTasksQueued(l, n, true);
    s := PassesTest(l, n, true, s, 0);
    s := PopsTask(l, n, true, s, 0);
    s := Take(l, n, true, s, WriteFails(0));
  }
}

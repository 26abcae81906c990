/** For how many workers the epoll and kqueue servers keep what they promise, and what error events change. */
module EchoServerExact {
  import opened EchoServer
  import Always = EchoServerAlways
  import Safety = EchoServerSafety
  import Theorems = EchoServerTheorems
  import Runs = EchoServerReorder

  /** Every connection without a hard write error has been sent a prefix of what it sent. */
  ghost predicate InOrder(s: Server) {
    |s.output| == |s.input| && forall c :: 0 <= c < |s.input| && c !in s.failed ==> s.output[c] <= s.input[c]
  }

  /** A worker with bytes to write has the descriptor of the connection they were read from. */
  ghost predicate OnTarget(s: Server) {
    forall w :: 0 <= w < |s.pool.workers| && Writing(s, w) ==>
      var t := s.pool.workers[w].task; t.fd in s.open && s.open[t.fd] == t.conn
  }

  /** A connection is closed only after its last byte was written, if no write to it failed. */
  ghost predicate ClosedAfterLastByte(s: Server) {
    forall c :: c in s.closes && c !in s.failed ==> c < |s.output| == |s.input| && s.output[c] == s.input[c]
  }

  /** Reached by a run whose error events, if there are any, close only connections that are owed nothing. */
  ghost predicate ReachableInTurn(l: int, n: nat, s: Server) {
    Runs.Reached(l, n, true, s)
  }

  lemma OneWorkerKeepsAll(l: int, n: nat, s: Server)
    requires n <= 1 && ReachableInTurn(l, n, s)
    ensures InOrder(s) && OnTarget(s) && ClosedAfterLastByte(s)
  {
    var steps :| CanRun(Init(l, n), steps) && Run(Init(l, n), steps) == s && ErrorsInTurnRun(Init(l, n), steps);
    Safety.InitInv(l, n);
    Theorems.OneWorkerIsCalm(Init(l, n), steps);
    Theorems.EchoInOrder(l, n, steps);
  }

  /** Order is kept in every such run if and only if there is at most one worker. */
  lemma OrderExactly(l: int, n: nat)
    ensures (forall s :: ReachableInTurn(l, n, s) ==> InOrder(s)) <==> n <= 1
  {
    if n <= 1 {
      forall s | ReachableInTurn(l, n, s) ensures InOrder(s) {
        OneWorkerKeepsAll(l, n, s);
      }
    } else {
      var s := Runs.TwoWorkersCanReorder(l, n, true);
      assert s.output[0][0] != s.input[0][0];
      assert ReachableInTurn(l, n, s) && !InOrder(s);
    }
  }

  /** Every write reaches its own connection in every such run if and only if there is at most one worker. */
  lemma TargetExactly(l: int, n: nat)
    ensures (forall s :: ReachableInTurn(l, n, s) ==> OnTarget(s)) <==> n <= 1
  {
    if n <= 1 {
      forall s | ReachableInTurn(l, n, s) ensures OnTarget(s) {
        OneWorkerKeepsAll(l, n, s);
      }
    } else {
      var s := Runs.CloseOvertakesWrite(l, n);
      assert Writing(s, 0);
      assert ReachableInTurn(l, n, s) && !OnTarget(s);
    }
  }

  /** Every close comes after the last byte in every such run if and only if there is at most one worker. */
  lemma CloseExactly(l: int, n: nat)
    ensures (forall s :: ReachableInTurn(l, n, s) ==> ClosedAfterLastByte(s)) <==> n <= 1
  {
    if n <= 1 {
      forall s | ReachableInTurn(l, n, s) ensures ClosedAfterLastByte(s) {
        OneWorkerKeepsAll(l, n, s);
      }
    } else {
      var s := Runs.CloseOvertakesWrite(l, n);
      assert 0 in s.closes;
      assert ReachableInTurn(l, n, s) && !ClosedAfterLastByte(s);
    }
  }

  /** With two workers or more, the byte one client sent can be sent to another. */
  lemma AnotherClientsByte(l: int, n: nat) returns (s: Server)
    requires n >= 2
    ensures ReachableInTurn(l, n, s) && s.input == [[1], []] && s.output == [[], [1]] && s.failed == {}
  {
    s := Runs.CloseOvertakesWrite(l, n);
    s := Runs.WrongClient(l, n, true, s);
  }

  // ----- error events at any time

  /** Without workers nothing is ever written. */
  lemma {:induction false} NoWorkerWritesNothing(s: Server, steps: seq<Step>)
    requires |s.pool.workers| == 0 && |s.output| == |s.input| && CanRun(s, steps)
    requires forall c :: 0 <= c < |s.output| ==> s.output[c] == []
    ensures var s' := Run(s, steps);
            && |s'.pool.workers| == 0 && |s'.output| == |s'.input|
            && forall c :: 0 <= c < |s'.output| ==> s'.output[c] == []
    decreases |steps|
  {
    if steps != [] {
      Theorems.StepKeepsWorkers(s, steps[0]);
      NoWorkerWritesNothing(Apply(s, steps[0]), steps[1..]);
    }
  }

  lemma NoWorkerKeepsOrder(l: int, s: Server)
    requires Always.Reachable(l, 0, s)
    ensures InOrder(s) && OnTarget(s)
  {
    var steps :| CanRun(Init(l, 0), steps) && Run(Init(l, 0), steps) == s;
    NoWorkerWritesNothing(Init(l, 0), steps);
  }

  lemma RunsAreReachable(l: int, n: nat, s: Server)
    requires Runs.Reached(l, n, false, s)
    ensures Always.Reachable(l, n, s)
  {
  }

  /**
   The network thread closes a descriptor in error itself, whatever is still to be written to it.  So
   over all runs order and target are kept only by a server that never writes, and the close after the
   last byte by none.
   */
  lemma ErrorEventsBreakExactly(l: int, n: nat)
    ensures (forall s :: Always.Reachable(l, n, s) ==> InOrder(s)) <==> n == 0
    ensures (forall s :: Always.Reachable(l, n, s) ==> OnTarget(s)) <==> n == 0
    ensures exists s :: Always.Reachable(l, n, s) && !ClosedAfterLastByte(s)
  {
    var lost := Runs.ErrorLosesBytes(l, n);
    RunsAreReachable(l, n, lost);
    assert 0 in lost.closes;
    if n == 0 {
      forall s | Always.Reachable(l, n, s) ensures InOrder(s) && OnTarget(s) {
        NoWorkerKeepsOrder(l, s);
      }
    } else {
      var s := Runs.ErrorStrikesEarly(l, n);
      RunsAreReachable(l, n, s);
      assert Writing(s, 0) && !OnTarget(s);
      s := Runs.WrongClient(l, n, false, s);
      RunsAreReachable(l, n, s);
      assert s.output[1][0] == 1 && !InOrder(s);
    }
  }
}

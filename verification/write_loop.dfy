/**
 The loop inside an echo task: `write` until the buffer is gone, retry on EAGAIN, give up on any
 other error.  A socket is a function from the number of a call to what that call will do.
 */
module WriteLoop {
  import opened EchoServer
  import Always = EchoServerAlways

  /** How much the send buffer has room for, EAGAIN, or an error. */
  datatype Answer = Room(n: nat) | Again | Failed

  datatype Outcome = Delivered | GaveUp | StillTrying

  function Min(a: nat, b: nat): nat {
    if a < b then a else b
  }

  /** The room the first `calls` calls found, together. */
  function Accepted(socket: nat -> Answer, calls: nat): nat {
    if calls == 0 then 0
    else Accepted(socket, calls - 1) + if socket(calls - 1).Room? then socket(calls - 1).n else 0
  }

  lemma {:induction false} AcceptedGrows(socket: nat -> Answer, j: nat, k: nat)
    requires j <= k
    ensures Accepted(socket, j) <= Accepted(socket, k)
    decreases k - j
  {
    if j < k {
      AcceptedGrows(socket, j, k - 1);
    }
  }

  predicate NoError(socket: nat -> Answer, calls: nat) {
    forall k: nat :: k < calls ==> !socket(k).Failed?
  }

  /** None of the first `calls` calls failed, and the last of them was made with bytes left. */
  predicate Going(socket: nat -> Answer, length: nat, calls: nat) {
    NoError(socket, calls) && (calls > 0 ==> Accepted(socket, calls - 1) < length)
  }

  /** After k calls without a hard error the room found suffices. */
  predicate Suffices(socket: nat -> Answer, length: nat, k: nat) {
    Accepted(socket, k) >= length && NoError(socket, k)
  }

  /** Where the loop stops is enough to know whether any number of calls could have sufficed. */
  lemma StopsExactly(socket: nat -> Answer, length: nat, calls: nat, patience: nat)
    requires Going(socket, length, calls) && calls <= patience
    requires Accepted(socket, calls) >= length || calls == patience || socket(calls).Failed?
    ensures Accepted(socket, calls) >= length <==> exists k: nat :: k <= patience && Suffices(socket, length, k)
  {
    if Accepted(socket, calls) >= length {
      assert Suffices(socket, length, calls);
    } else {
      forall k: nat | k <= patience ensures !Suffices(socket, length, k) {
        if k <= calls {
          AcceptedGrows(socket, k, calls);
        }
      }
    }
  }

  /**
   Whatever the socket answers, what left is the front of the buffer, no byte skipped or repeated;
   and the whole buffer left exactly if the room found before the first hard error suffices.
   */
  method WriteAll(buf: seq<Byte>, socket: nat -> Answer, patience: nat)
    returns (sent: seq<Byte>, totalWritten: nat, calls: nat, outcome: Outcome)
    ensures totalWritten <= |buf| && sent == buf[..totalWritten]
    ensures totalWritten == Min(|buf|, Accepted(socket, calls)) && Going(socket, |buf|, calls)
    ensures outcome.Delivered? <==> totalWritten == |buf|
    ensures outcome.Delivered? <==> exists k: nat :: k <= patience && Suffices(socket, |buf|, k)
    ensures outcome.GaveUp? ==> calls < patience && socket(calls).Failed?
    ensures outcome.StillTrying? ==> calls == patience
  {
    sent, totalWritten, calls, outcome := [], 0, 0, StillTrying;
    while totalWritten < |buf| && calls < patience
      invariant totalWritten <= |buf| && sent == buf[..totalWritten] && calls <= patience
      invariant totalWritten == Min(|buf|, Accepted(socket, calls)) && Going(socket, |buf|, calls)
      decreases patience - calls
    {
      match socket(calls) {
        case Failed =>
          outcome := GaveUp;
          break;
        case Again =>
        case Room(n) =>
          var nw := Min(n, |buf| - totalWritten);
          sent := sent + buf[totalWritten..totalWritten + nw];
          totalWritten := totalWritten + nw;
      }
      calls := calls + 1;
    }
    StopsExactly(socket, |buf|, calls, patience);
    if totalWritten == |buf| {
      outcome := Delivered;
    }
  }

  // ----- the loop ends

  function Before(agains: set<nat>, k: nat): set<nat> {
    set a | a in agains && a < k
  }

  lemma {:induction false} EveryCallCounts(socket: nat -> Answer, agains: set<nat>, k: nat)
    requires forall i: nat :: !socket(i).Failed? && (socket(i).Again? ==> i in agains)
               && (socket(i).Room? ==> socket(i).n > 0)
    ensures Accepted(socket, k) + |Before(agains, k)| >= k
    decreases k
  {
    if k > 0 {
      EveryCallCounts(socket, agains, k - 1);
      if k - 1 in agains {
        assert Before(agains, k) == Before(agains, k - 1) + {k - 1};
      } else {
        assert Before(agains, k) == Before(agains, k - 1);
      }
    }
  }

  lemma SubsetIsSmaller(small: set<nat>, big: set<nat>)
    requires small <= big
    ensures |small| <= |big|
  {
    assert big == small + (big - small);
  }

  /**
   If the calls that return EAGAIN are finitely many, those that succeed make progress, and there is
   no hard error, the buffer is delivered after at most one call a byte and one call an EAGAIN.
   */
  lemma DrainingSocketDelivers(socket: nat -> Answer, length: nat, agains: set<nat>)
    requires forall i: nat :: !socket(i).Failed? && (socket(i).Again? ==> i in agains)
               && (socket(i).Room? ==> socket(i).n > 0)
    ensures Suffices(socket, length, length + |agains|)
  {
    var k := length + |agains|;
    EveryCallCounts(socket, agains, k);
    SubsetIsSmaller(Before(agains, k), agains);
  }

  // ----- the loop is the machine's write steps

  function StepsOfLoop(w: nat, length: nat, socket: nat -> Answer, calls: nat): seq<Step> {
    if calls == 0 then []
    else StepsOfLoop(w, length, socket, calls - 1) + [StepOfCall(w, length, socket, calls - 1)]
  }

  /** Worker w runs an echo task for an open connection and has written nothing yet. */
  predicate AboutToWrite(s: Server, w: nat) {
    && w < |s.pool.workers| && s.pool.workers[w].Running? && s.pool.workers[w].task.Echo?
    && s.pool.workers[w].task.fd in s.open && s.open[s.pool.workers[w].task.fd] < |s.output|
    && Written(s, s.pool.workers[w].ticket) == 0
  }

  /** `total` bytes of the task that worker w runs have left. */
  predicate WroteSoFar(s: Server, s': Server, w: nat, total: nat)
    requires AboutToWrite(s, w)
  {
    var t := s.pool.workers[w].task;
    var c := s.open[t.fd];
    && total <= |t.data| && s' == s.(output := s'.output, written := s'.written)
    && s'.output == s.output[c := s.output[c] + t.data[..total]]
    && Written(s', s.pool.workers[w].ticket) == total
  }

  /** The step that call number k stands for. */
  function StepOfCall(w: nat, length: nat, socket: nat -> Answer, k: nat): Step {
    if socket(k).Room? then Write(w, Min(socket(k).n, length - Min(length, Accepted(socket, k)))) else WriteAgain(w)
  }

  lemma {:induction false} LoopIsMachineRun(s: Server, w: nat, socket: nat -> Answer, calls: nat)
    requires AboutToWrite(s, w) && Going(socket, |s.pool.workers[w].task.data|, calls)
    ensures var length := |s.pool.workers[w].task.data|;
            var steps := StepsOfLoop(w, length, socket, calls);
            CanRun(s, steps) && WroteSoFar(s, Run(s, steps), w, Min(length, Accepted(socket, calls)))
    decreases calls
  {
    var data := s.pool.workers[w].task.data;
    if calls == 0 {
      assert data[..0] == [];
      NothingWritten(s, w);
    } else {
      LoopIsMachineRun(s, w, socket, calls - 1);
      var steps := StepsOfLoop(w, |data|, socket, calls - 1);
      CallIsStep(s, Run(s, steps), w, socket, calls - 1);
      Always.RunSnoc(s, steps, StepOfCall(w, |data|, socket, calls - 1));
    }
  }

  lemma NothingWritten(s: Server, w: nat)
    requires AboutToWrite(s, w)
    ensures WroteSoFar(s, s, w, 0)
  {
    var out := s.output[s.open[s.pool.workers[w].task.fd]];
    assert out + s.pool.workers[w].task.data[..0] == out;
  }

  lemma CallIsStep(s: Server, s1: Server, w: nat, socket: nat -> Answer, k: nat)
    requires AboutToWrite(s, w) && !socket(k).Failed? && Accepted(socket, k) < |s.pool.workers[w].task.data|
    requires WroteSoFar(s, s1, w, Accepted(socket, k))
    ensures var length := |s.pool.workers[w].task.data|;
            var st := StepOfCall(w, length, socket, k);
            Enabled(s1, st) && WroteSoFar(s, Apply(s1, st), w, Min(length, Accepted(socket, k + 1)))
  {
    if socket(k).Room? {
      WriteAppends(s, s1, w, Accepted(socket, k),
          Min(socket(k).n, |s.pool.workers[w].task.data| - Accepted(socket, k)));
    }
  }

  lemma WriteAppends(s: Server, s1: Server, w: nat, total: nat, n: nat)
    requires AboutToWrite(s, w) && WroteSoFar(s, s1, w, total) && total + n <= |s.pool.workers[w].task.data|
    requires total < |s.pool.workers[w].task.data|
    ensures Enabled(s1, Write(w, n)) && WroteSoFar(s, Apply(s1, Write(w, n)), w, total + n)
  {
    var data := s.pool.workers[w].task.data;
    var out := s.output[s.open[s.pool.workers[w].task.fd]];
    assert data[..total + n] == data[..total] + data[total..total + n];
    assert out + data[..total + n] == (out + data[..total]) + data[total..total + n];
  }
}

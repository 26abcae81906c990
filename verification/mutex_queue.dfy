/**
 `MutexQueue` and `bench_mutex`.  The mutex makes each critical section one indivisible turn; a
 spinning caller takes turns until one succeeds.
 */
module MutexQueue {
  import opened Words
  import BenchRing
  import Fifo

  class Queue<T(0)> {
    const capacity: Word
    var q: seq<T>

    constructor (cap: Word)
      ensures capacity == cap && q == []
    {
      capacity, q := cap, [];
    }

    /** One turn of the loop in `push`: the item enters exactly when there is room. */
    method PushTurn(item: T) returns (ok: bool)
      modifies this
      ensures ok <==> |old(q)| < capacity
      ensures Fifo.Moves(capacity, old(q), if ok then Fifo.Enqueue(item) else Fifo.Silent, q)
    {
      if |q| < capacity {
        q := q + [item];
        return true;
      }
      return false;
    }

    /** One turn of the loop in `pop`: the oldest item leaves exactly when there is one. */
    method PopTurn() returns (ok: bool, item: T)
      modifies this
      ensures ok <==> old(q) != []
      ensures Fifo.Moves(capacity, old(q), if ok then Fifo.Dequeue(item) else Fifo.Silent, q)
    {
      item := *;
      if q != [] {
        item := q[0];
        q := q[1..];
        return true, item;
      }
      return false, item;
    }
  }

  // ----- bench_mutex as a state machine over turns

  datatype Bench = Bench(
    numMessages: Word,
    capacity: Word,
    q: seq<Word>,
    i: Word,               // producer
    popped: seq<Word>,     // consumer: what pop returned
    consumed: Word,        // consumer: the atomic counter
    counting: bool)        // consumer: between pop and fetch_add

  datatype Turn = ProducerTurn | ConsumerTurn | CountTurn

  function Init(n: Word, cap: Word): Bench {
    Bench(n, cap, [], 0, [], 0, false)
  }

  predicate Enabled(s: Bench, t: Turn) {
    match t
    case ProducerTurn => s.i < s.numMessages
    case ConsumerTurn => !s.counting && s.consumed < s.numMessages
    case CountTurn => s.counting
  }

  function Apply(s: Bench, t: Turn): Bench
    requires Enabled(s, t)
  {
    match t
    case ProducerTurn => if |s.q| < s.capacity then s.(q := s.q + [s.i], i := WordAdd(s.i, 1)) else s
    case ConsumerTurn => if s.q != [] then s.(q := s.q[1..], popped := s.popped + [s.q[0]], counting := true) else s
    case CountTurn => s.(consumed := WordAdd(s.consumed, 1), counting := false)
  }

  predicate CanRun(s: Bench, turns: seq<Turn>)
    decreases |turns|
  {
    turns == [] || (Enabled(s, turns[0]) && CanRun(Apply(s, turns[0]), turns[1..]))
  }

  function Run(s: Bench, turns: seq<Turn>): Bench
    requires CanRun(s, turns)
    decreases |turns|
  {
    if turns == [] then s else Run(Apply(s, turns[0]), turns[1..])
  }

  predicate Finished(s: Bench) {
    s.i >= s.numMessages && s.consumed >= s.numMessages && !s.counting
  }

  /** Conservation: what was produced is what was popped followed by what is queued. */
  ghost predicate Inv(s: Bench) {
    && s.i <= s.numMessages && |s.q| <= s.capacity
    && BenchRing.Messages(s.i) == s.popped + s.q
    && |s.popped| == s.consumed + (if s.counting then 1 else 0)
  }

  lemma TurnKeepsInv(s: Bench, t: Turn)
    requires Inv(s) && Enabled(s, t)
    ensures Inv(Apply(s, t))
  {
    var s' := Apply(s, t);
    assert |BenchRing.Messages(s.i)| == |s.popped| + |s.q|;
    match t {
      case ProducerTurn =>
        if |s.q| < s.capacity {
          assert BenchRing.Messages(s'.i) == BenchRing.Messages(s.i) + [s.i];
          assert s.popped + (s.q + [s.i]) == (s.popped + s.q) + [s.i];
        }
      case ConsumerTurn =>
        if s.q != [] {
          assert s'.popped + s'.q == s.popped + s.q;
        }
      case CountTurn =>
    }
  }

  lemma {:induction false} RunKeepsInv(s: Bench, turns: seq<Turn>)
    requires Inv(s) && CanRun(s, turns)
    ensures Inv(Run(s, turns)) && Run(s, turns).numMessages == s.numMessages && Run(s, turns).capacity == s.capacity
    decreases |turns|
  {
    if turns != [] {
      TurnKeepsInv(s, turns[0]);
      RunKeepsInv(Apply(s, turns[0]), turns[1..]);
    }
  }

  /** The same promise as the ring's: in order, each once, and nothing left in the queue at the end. */
  lemma ConsumerGetsEveryMessage(n: Word, cap: Word, turns: seq<Turn>)
    requires CanRun(Init(n, cap), turns)
    ensures var s := Run(Init(n, cap), turns);
            && s.popped <= BenchRing.Messages(n)
            && |s.popped| + |s.q| == s.i
            && (Finished(s) ==> s.popped == BenchRing.Messages(n) && s.q == [])
  {
    var init := Init(n, cap);
    assert BenchRing.Messages(0) == [];
    RunKeepsInv(init, turns);
    var s := Run(init, turns);
    assert s.popped <= BenchRing.Messages(s.i) <= BenchRing.Messages(n);
    assert |BenchRing.Messages(s.i)| == |s.popped| + |s.q|;
  }

  // ----- never stuck

  function Measure(s: Bench): int {
    (s.numMessages - s.i) + 2 * (s.numMessages - |s.popped|) + (if s.counting then 1 else 0)
  }

  /** A turn either succeeds and brings the end closer, or is a refused critical section that changes nothing. */
  lemma TurnProgresses(s: Bench, t: Turn)
    requires Inv(s) && Enabled(s, t)
    ensures Apply(s, t) == s || 0 <= Measure(Apply(s, t)) < Measure(s)
  {
    TurnKeepsInv(s, t);
    var s' := Apply(s, t);
    assert |BenchRing.Messages(s'.i)| == |s'.popped| + |s'.q|;
  }

  /** Some thread's next turn succeeds, unless the benchmark is over or the queue was built with no room at all. */
  lemma StuckExactly(s: Bench)
    requires Inv(s)
    ensures (forall t :: Enabled(s, t) ==> Apply(s, t) == s) <==> Finished(s) || (s.capacity == 0 && !s.counting)
  {
    assert |BenchRing.Messages(s.i)| == |s.popped| + |s.q|;
    if s.counting {
      assert Enabled(s, CountTurn) && Apply(s, CountTurn) != s;
    } else if s.q != [] {
      assert Enabled(s, ConsumerTurn) && Apply(s, ConsumerTurn) != s;
    } else if s.i < s.numMessages && s.capacity > 0 {
      assert Enabled(s, ProducerTurn) && Apply(s, ProducerTurn) != s;
    }
  }

  // ----- refinement of the bounded queue

  function Shows(s: Bench, t: Turn): Fifo.Event<Word>
    requires Enabled(s, t)
  {
    match t
    case ProducerTurn => if |s.q| < s.capacity then Fifo.Enqueue(s.i) else Fifo.Silent
    case ConsumerTurn => if s.q != [] then Fifo.Dequeue(s.q[0]) else Fifo.Silent
    case CountTurn => Fifo.Silent
  }

  function Trace(s: Bench, turns: seq<Turn>): seq<Fifo.Event<Word>>
    requires CanRun(s, turns)
    decreases |turns|
  {
    if turns == [] then [] else [Shows(s, turns[0])] + Trace(Apply(s, turns[0]), turns[1..])
  }

  lemma {:induction false} RunRefinesFifo(s: Bench, turns: seq<Turn>)
    requires CanRun(s, turns)
    ensures Fifo.Behaves(s.capacity, s.q, Trace(s, turns), Run(s, turns).q)
    decreases |turns|
  {
    if turns != [] {
      var s' := Apply(s, turns[0]);
      RunRefinesFifo(s', turns[1..]);
      assert Trace(s, turns)[0] == Shows(s, turns[0]) && Trace(s, turns)[1..] == Trace(s', turns[1..]);
      assert Fifo.Moves(s.capacity, s.q, Trace(s, turns)[0], s'.q);
    }
  }

  /** The turn of the thread that is picked: the producer, while it has messages left, or the consumer. */
  function TurnFor(s: Bench, producer: bool): Turn {
    if producer && s.i < s.numMessages then ProducerTurn else if s.counting then CountTurn else ConsumerTurn
  }

  /** The first n turns under a schedule, up to the end of the benchmark. */
  function RunSchedule(s: Bench, schedule: nat -> bool, n: nat): Bench {
    if n == 0 then s
    else
      var before := RunSchedule(s, schedule, n - 1);
      if Finished(before) || !Enabled(before, TurnFor(before, schedule(n - 1))) then before
      else Apply(before, TurnFor(before, schedule(n - 1)))
  }

  lemma SomeTurnIsEnabled(s: Bench, producer: bool)
    requires Inv(s) && !Finished(s)
    ensures Enabled(s, TurnFor(s, producer))
  {
    assert |BenchRing.Messages(s.i)| == |s.popped| + |s.q|;
  }

  /**
   `bench_mutex`: the schedule picks a thread for each turn, for as many turns as we care to watch, and
   every turn is the one that thread takes.
   */
  method RunBenchMutex(numMessages: Word, schedule: nat -> bool, turns: nat)
    returns (popped: seq<Word>, left: seq<Word>, finished: bool)
    ensures var s := RunSchedule(Init(numMessages, BenchRing.RING_SIZE), schedule, turns);
            popped == s.popped && left == s.q && (finished <==> Finished(s))
    ensures popped <= BenchRing.Messages(numMessages)
    ensures finished ==> popped == BenchRing.Messages(numMessages) && left == []
  {
    var queue := new Queue<Word>(BenchRing.RING_SIZE);
    var i: Word, consumed: Word, counting := 0, 0, false;
    popped := [];
    ghost var s := Init(numMessages, BenchRing.RING_SIZE);
    assert BenchRing.Messages(0) == [];
    for turn := 0 to turns
      invariant Inv(s) && fresh(queue) && queue.capacity == BenchRing.RING_SIZE
      invariant s == Bench(numMessages, queue.capacity, queue.q, i, popped, consumed, counting)
      invariant s == RunSchedule(Init(numMessages, BenchRing.RING_SIZE), schedule, turn)
    {
      if i < numMessages || consumed < numMessages || counting {
        SomeTurnIsEnabled(s, schedule(turn));
        TurnKeepsInv(s, TurnFor(s, schedule(turn)));
        s := Apply(s, TurnFor(s, schedule(turn)));
        if schedule(turn) && i < numMessages {
          var ok := queue.PushTurn(i);
          if ok {
            i := WordAdd(i, 1);
          }
        } else if counting {
          consumed, counting := WordAdd(consumed, 1), false;
        } else {
          var ok, val := queue.PopTurn();
          if ok {
            popped, counting := popped + [val], true;
          }
        }
      }
    }
    left := queue.q;
    finished := i >= numMessages && consumed >= numMessages && !counting;
    assert popped <= BenchRing.Messages(i) <= BenchRing.Messages(numMessages);
    assert |BenchRing.Messages(i)| == |popped| + |left|;
  }
}

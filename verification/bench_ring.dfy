/**
 `bench_ring`: a producer pushes 0, 1, .., num_messages - 1 and then raises `done`; a consumer pops
 until it sees `done`, drains what is left and stops.  Both spin on refusals.
 */
module BenchRing {
  import opened Words
  import R = SpscRing
  import Safety = SpscRingSafety

  const RING_SIZE: Word := 4096

  datatype ConsumerMode =
    | Polling      // while (true) ring.pop(val)
    | AskingDone   // pop refused: load done
    | Draining     // done was true: while (ring.pop(val))
    | Ended

  datatype Bench = Bench(
    numMessages: Word,
    ring: R.Ring<Word>,
    i: Word,                // the producer's loop counter
    done: seq<R.View>,      // the store of true to `done`, with the knowledge it carries, once made
    mode: ConsumerMode)

  datatype Step =
    | RingStep(st: R.Step<Word>)
    | StoreDone
    | LoadDone(seen: bool)   // the load may still return the initial false after the store

  function Init(n: Word, buffer: seq<Word>): Bench {
    Bench(n, R.Init(RING_SIZE, buffer), 0, [], Polling)
  }

  predicate Enabled(s: Bench, st: Step) {
    match st
    case RingStep(r) =>
      && R.Enabled(s.ring, r)
      && (r.PushLoad? ==> s.i < s.numMessages && r.item == s.i)
      && (r.PopLoad? ==> s.mode.Polling? || s.mode.Draining?)
      && !r.PopLearn?
    case StoreDone => s.ring.push.PushIdle? && s.i >= s.numMessages && s.done == []
    case LoadDone(seen) => s.mode.AskingDone? && (seen ==> s.done != [] && R.Enabled(s.ring, R.PopLearn(s.done[0])))
  }

  function Apply(s: Bench, st: Step): Bench
    requires Enabled(s, st)
  {
    match st
    case RingStep(r) =>
      var ring := R.Apply(s.ring, r);
      s.(ring := ring,
         i := if r.PushPublish? then WordAdd(s.i, 1) else s.i,
         mode := if r.PopCheck? && ring.pop.PopIdle? then
                   (if s.mode.Draining? then Ended else AskingDone)
                 else s.mode)
    case StoreDone => s.(done := [s.ring.producer])
    case LoadDone(seen) =>
      if seen then s.(ring := R.Apply(s.ring, R.PopLearn(s.done[0])), mode := Draining)
      else s.(mode := Polling)
  }

  predicate CanRun(s: Bench, steps: seq<Step>)
    decreases |steps|
  {
    steps == [] || (Enabled(s, steps[0]) && CanRun(Apply(s, steps[0]), steps[1..]))
  }

  function Run(s: Bench, steps: seq<Step>): Bench
    requires CanRun(s, steps)
    decreases |steps|
  {
    if steps == [] then s else Run(Apply(s, steps[0]), steps[1..])
  }

  /** The messages 0, 1, .., n - 1. */
  function Messages(n: Word): (r: seq<Word>)
    ensures |r| == n && forall k :: 0 <= k < n ==> r[k] == k
  {
    seq(n, k requires 0 <= k < n => k)
  }

  ghost predicate Inv(s: Bench) {
    Safety.Inv(s.ring) && Protocol(s)
  }

  ghost predicate Protocol(s: Bench) {
    && s.ring.size == RING_SIZE
    && s.i == |s.ring.pushed| <= s.numMessages
    && s.ring.pushed == Messages(s.i)
    && (!s.ring.push.PushIdle? ==> s.ring.push.item == s.i < s.numMessages && s.done == [])
    && |s.done| <= 1
    && (s.done != [] ==> s.i == s.numMessages && DoneView(s, s.done[0]))
    && (s.mode.AskingDone? || s.mode.Ended? ==> s.ring.pop.PopIdle?)
    && (s.mode.Draining? || s.mode.Ended? ==> s.done != [] && s.ring.consumer.writeStores == s.numMessages)
    && (s.mode.Ended? ==> |s.ring.popped| == s.numMessages)
  }

  /** `done` carries the knowledge of every push. */
  ghost predicate DoneView(s: Bench, v: R.View) {
    && v.writeStores == s.numMessages <= v.fills <= |s.ring.fillSlots|
    && v.readStores <= |s.ring.popped| && v.takes <= |s.ring.takeSlots|
  }

  lemma RingSizeAccepted()
    ensures StaticAssert(RING_SIZE)
  {
    assert IsPowerOfTwo(4) && IsPowerOfTwo(16);
    PowersMultiply(4, 16);
    PowersMultiply(64, 64);
    StaticAssertAccepts(RING_SIZE);
  }

  lemma InitInv(n: Word, buffer: seq<Word>)
    requires |buffer| == RING_SIZE
    ensures Inv(Init(n, buffer))
  {
    RingSizeAccepted();
    Safety.InitInv(RING_SIZE, buffer);
  }

  /** What `done` carries can always be acquired. */
  lemma DoneCanBeLearned(s: Bench)
    requires Inv(s) && s.done != [] && s.mode.AskingDone?
    ensures R.Enabled(s.ring, R.PopLearn(s.done[0]))
  {
  }

  ghost predicate Bounds(ring: R.Ring<Word>) {
    Safety.Counters(ring) && Safety.Knowledge(ring)
  }

  lemma RingStepKeepsProtocol(s: Bench, r: R.Step<Word>)
    requires Protocol(s) && Enabled(s, RingStep(r))
    requires Bounds(s.ring) && Bounds(R.Apply(s.ring, r))
    requires r.PopCheck? ==> (R.Apply(s.ring, r).pop.PopIdle? <==> r.seen == |s.ring.popped|)
    ensures Protocol(Apply(s, RingStep(r)))
  {
    var s' := Apply(s, RingStep(r));
    if r.PushPublish? {
      assert Messages(s'.i) == Messages(s.i) + [s.i];
    }
  }

  lemma StepKeepsInv(s: Bench, st: Step)
    requires Inv(s) && Enabled(s, st)
    ensures Inv(Apply(s, st))
  {
    match st {
      case RingStep(r) =>
        Safety.StepKeepsInv(s.ring, r);
        if r.PopCheck? {
          Safety.EmptyTestExact(s.ring, r.seen);
        }
        RingStepKeepsProtocol(s, r);
      case StoreDone =>
      case LoadDone(seen) =>
        if seen {
          Safety.StepKeepsInv(s.ring, R.PopLearn(s.done[0]));
        }
    }
  }

  lemma {:induction false} RunKeepsInv(s: Bench, steps: seq<Step>)
    requires Inv(s) && CanRun(s, steps)
    ensures Inv(Run(s, steps)) && Run(s, steps).numMessages == s.numMessages
    decreases |steps|
  {
    if steps != [] {
      StepKeepsInv(s, steps[0]);
      RunKeepsInv(Apply(s, steps[0]), steps[1..]);
    }
  }

  /**
   The benchmark's promise: at every moment the consumer holds 0, 1, 2, .. in order, and when it
   stops it has received every message exactly once, whatever the schedule and the stale loads.
   */
  lemma ConsumerGetsEveryMessage(n: Word, buffer: seq<Word>, steps: seq<Step>)
    requires |buffer| == RING_SIZE && CanRun(Init(n, buffer), steps)
    ensures var s := Run(Init(n, buffer), steps);
            && s.ring.popped <= Messages(n)
            && (s.mode.Ended? ==> s.ring.popped == Messages(n) && s.done != [] && Safety.Queue(s.ring) == [])
  {
    InitInv(n, buffer);
    RunKeepsInv(Init(n, buffer), steps);
  }

  /** Once `done` was seen, the drain loop cannot miss a message: its pop refuses only on an empty ring. */
  lemma DrainMissesNothing(s: Bench, m: nat)
    requires Inv(s) && s.mode.Draining? && Enabled(s, RingStep(R.PopCheck(m)))
    ensures Apply(s, RingStep(R.PopCheck(m))).mode.Ended? <==> Safety.Queue(s.ring) == []
  {
    Safety.EmptyTestExact(s.ring, m);
  }

  // ----- progress: from every reachable state the benchmark can still end

  /** A next move under fresh views: the consumer empties the ring, then the producer goes on. */
  function NextMove(s: Bench): Step
    requires Safety.Counters(s.ring)
  {
    if !s.ring.pop.PopIdle? then
      RingStep(match s.ring.pop
               case PopLoaded(_) => R.PopCheck(|s.ring.writeIdx| - 1)
               case PopChecked(_) => R.PopTake(0)
               case _ => R.PopPublish)
    else if Safety.Queue(s.ring) != [] then
      (if s.mode.AskingDone? then LoadDone(s.done != []) else RingStep(R.PopLoad))
    else if s.done == [] then
      (match s.ring.push
       case PushIdle => if s.i < s.numMessages then RingStep(R.PushLoad(s.i)) else StoreDone
       case PushLoaded(_, _) => RingStep(R.PushCheck(|s.ring.readIdx| - 1))
       case PushChecked(_, _) => RingStep(R.PushFill)
       case PushFilled(_, _) => RingStep(R.PushPublish))
    else if s.mode.AskingDone? then LoadDone(true)
    else RingStep(R.PopLoad)
  }

  function ProducerRank(s: Bench): nat {
    (match s.ring.push
     case PushIdle => 4
     case PushLoaded(_, _) => 3
     case PushChecked(_, _) => 2
     case PushFilled(_, _) => 1)
    + (if s.done == [] then 10 else 0)
  }

  function ConsumerRank(s: Bench): nat {
    (match s.mode
     case Polling => 20
     case AskingDone => if Safety.Queue(s.ring) != [] then 25 else 15
     case Draining => 10
     case Ended => 0)
    + (if s.mode.AskingDone? || s.mode.Ended? then 0 else
       match s.ring.pop
       case PopIdle => 4
       case PopLoaded(_) => 3
       case PopChecked(_) => 2
       case PopTook(_, _) => 1)
  }

  function Measure(s: Bench): int {
    100 * (s.numMessages - |s.ring.pushed|) + 100 * (s.numMessages - |s.ring.popped|) + ProducerRank(s)
        + ConsumerRank(s)
  }

  predicate IsProducerMove(st: Step) {
    st.StoreDone? || (st.RingStep? && (st.st.PushLoad? || st.st.PushCheck? || st.st.PushFill? || st.st.PushPublish?))
  }

  lemma ProducerMoveDecreases(s: Bench, st: Step)
    requires Protocol(s) && Bounds(s.ring) && st == NextMove(s) && IsProducerMove(st) && Enabled(s, st)
    requires st.RingStep? && st.st.PushCheck? ==> !R.Apply(s.ring, st.st).push.PushIdle?
    ensures Measure(Apply(s, st)) < Measure(s)
  {
  }

  lemma ConsumerMoveDecreases(s: Bench, st: Step)
    requires Protocol(s) && Bounds(s.ring) && !s.mode.Ended? && st == NextMove(s) && !IsProducerMove(st)
               && Enabled(s, st)
    requires Protocol(Apply(s, st)) && Bounds(Apply(s, st).ring)
    requires st.RingStep? && st.st.PopCheck? ==> (R.Apply(s.ring, st.st).pop.PopIdle? <==> Safety.Queue(s.ring) == [])
    ensures Measure(Apply(s, st)) < Measure(s)
  {
  }

  lemma MoveDecreases(s: Bench, st: Step)
    requires Protocol(s) && Bounds(s.ring) && !s.mode.Ended? && st == NextMove(s) && Enabled(s, st)
    requires Protocol(Apply(s, st)) && Bounds(Apply(s, st).ring)
    requires st.RingStep? && st.st.PushCheck? ==> !R.Apply(s.ring, st.st).push.PushIdle?
    requires st.RingStep? && st.st.PopCheck? ==> (R.Apply(s.ring, st.st).pop.PopIdle? <==> Safety.Queue(s.ring) == [])
    ensures 0 <= Measure(Apply(s, st)) < Measure(s)
  {
    if IsProducerMove(st) {
      ProducerMoveDecreases(s, st);
    } else {
      ConsumerMoveDecreases(s, st);
    }
    MeasureIsNatural(Apply(s, st));
  }

  lemma MeasureIsNatural(s: Bench)
    requires Protocol(s) && Bounds(s.ring)
    ensures 0 <= Measure(s)
  {
  }

  lemma NextMoveProgresses(s: Bench)
    requires Inv(s) && !s.mode.Ended?
    ensures Enabled(s, NextMove(s)) && 0 <= Measure(Apply(s, NextMove(s))) < Measure(s)
  {
    var st := NextMove(s);
    StepKeepsInv(s, st);
    if st.RingStep? && st.st.PushCheck? {
      Safety.FullTestExact(s.ring, st.st.seen);
    } else if st.RingStep? && st.st.PopCheck? {
      Safety.EmptyTestExact(s.ring, st.st.seen);
    }
    MoveDecreases(s, st);
  }

  /** No deadlock and no dead end: every reachable state has a continuation in which the consumer stops. */
  lemma {:induction false} CanAlwaysEnd(s: Bench) returns (steps: seq<Step>)
    requires Inv(s)
    ensures CanRun(s, steps) && Run(s, steps).mode.Ended? && Run(s, steps).ring.popped == Messages(s.numMessages)
    decreases if Measure(s) < 0 then 0 else Measure(s)
  {
    if s.mode.Ended? {
      steps := [];
    } else {
      var st := NextMove(s);
      NextMoveProgresses(s);
      StepKeepsInv(s, st);
      var rest := CanAlwaysEnd(Apply(s, st));
      steps := [st] + rest;
      assert steps[1..] == rest;
    }
  }
}

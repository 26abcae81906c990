/**
 `bench_ring` as a program: the two thread bodies, each cut at its atomic actions, run under an
 arbitrary scheduler over one shared ring object.
 */
module BenchRingProgram {
  import opened Words
  import opened BenchRing
  import R = SpscRing
  import Ring = SpscRingBufferClass

  lemma {:induction false} RunSnoc(s: Bench, a: seq<Step>, st: Step)
    requires CanRun(s, a) && Enabled(Run(s, a), st)
    ensures CanRun(s, a + [st]) && Run(s, a + [st]) == Apply(Run(s, a), st)
    decreases |a|
  {
    if a == [] {
      assert CanRun(Apply(s, st), []) && (a + [st])[1..] == [];
    } else {
      RunSnoc(Apply(s, a[0]), a[1..], st);
      assert (a + [st])[0] == a[0] && (a + [st])[1..] == a[1..] + [st];
    }
  }

  lemma CheckEndsPop(s: Bench, m: nat, ring: R.Ring<Word>)
    requires Enabled(s, RingStep(R.PopCheck(m))) && ring == R.Apply(s.ring, R.PopCheck(m))
    ensures Apply(s, RingStep(R.PopCheck(m))) ==
            s.(ring := ring, mode := if ring.pop.PopIdle? then (if s.mode.Draining? then Ended else AskingDone)
                else s.mode)
  {
  }

  lemma SeeingDone(s: Bench, ring: R.Ring<Word>)
    requires Enabled(s, LoadDone(true)) && ring == R.Apply(s.ring, R.PopLearn(s.done[0]))
    ensures Apply(s, LoadDone(true)) == s.(ring := ring, mode := Draining)
  {
  }

  /**
   What the scheduler and the machine decide at one moment: which thread acts, how far an acquire load
   is behind, what is left in a slot that is moved out of, and whether a store to the flag is seen yet.
   */
  datatype Turn = Turn(producer: bool, lag: nat, left: Word, seesDone: bool)

  function Newest(stores: seq<R.Store>): nat {
    if stores == [] then 0 else |stores| - 1
  }

  /** The one thing the thread whose turn it is does next. */
  function StepFor(s: Bench, t: Turn): Step {
    if t.producer && s.done == [] then ProducerStep(s, t)
    else if s.mode.AskingDone? then LoadDone(t.seesDone && s.done != [])
    else ConsumerStep(s, t)
  }

  function ProducerStep(s: Bench, t: Turn): Step {
    match s.ring.push
    case PushIdle => if s.i < s.numMessages then RingStep(R.PushLoad(s.i)) else StoreDone
    case PushLoaded(_, _) =>
      RingStep(R.PushCheck(Ring.Seen(Newest(s.ring.readIdx), t.lag, s.ring.producer.readStores)))
    case PushChecked(_, _) => RingStep(R.PushFill)
    case PushFilled(_, _) => RingStep(R.PushPublish)
  }

  function ConsumerStep(s: Bench, t: Turn): Step {
    match s.ring.pop
    case PopIdle => RingStep(R.PopLoad)
    case PopLoaded(_) =>
      RingStep(R.PopCheck(Ring.Seen(Newest(s.ring.writeIdx), t.lag, s.ring.consumer.writeStores)))
    case PopChecked(_) => RingStep(R.PopTake(t.left))
    case PopTook(_, _) => RingStep(R.PopPublish)
  }

  /** Every step is the one the schedule asks for. */
  ghost predicate Follows(start: Bench, steps: seq<Step>, schedule: nat -> Turn)
    decreases |steps|
  {
    steps == [] ||
    (var past := steps[..|steps| - 1];
     && CanRun(start, past) && Follows(start, past, schedule)
     && steps[|steps| - 1] == StepFor(Run(start, past), schedule(|past|)))
  }

  class Benchmark {
    const numMessages: Word
    const ring: Ring.SpscRingBuffer<Word>
    var i: Word              // producer
    var done: seq<R.View>    // the store to the flag, once made
    var mode: ConsumerMode   // consumer
    ghost var history: seq<Step>

    ghost function Model(): Bench
      reads this, ring, ring.buffer
    {
      Bench(numMessages, ring.Model(), i, done, mode)
    }

    /** The benchmark is where its history leads the state machine. */
    ghost predicate Valid()
      reads this, ring, ring.buffer
    {
      && ring.Valid() && |ring.start| == RING_SIZE
      && CanRun(Start(), history) && Model() == Run(Start(), history)
    }

    lemma ValidMeansInv()
      requires Valid()
      ensures Inv(Model())
    {
      InitInv(numMessages, ring.start);
      RunKeepsInv(Init(numMessages, ring.start), history);
    }

    ghost function Start(): Bench
      requires |ring.start| == RING_SIZE
      reads this, ring
    {
      Init(numMessages, ring.start)
    }

    /** The step just taken is added to the history. */
    lemma Landed(start: Bench, before: Bench, past: seq<Step>, st: Step)
      requires ring.Valid() && |ring.start| == RING_SIZE && start == Start()
      requires CanRun(start, past) && before == Run(start, past)
      requires Enabled(before, st) && Model() == Apply(before, st) && history == past + [st]
      ensures Valid()
    {
      RunSnoc(start, past, st);
    }

    constructor (n: Word)
      ensures Valid() && fresh(ring) && fresh(ring.buffer)
      ensures numMessages == n && history == []
    {
      RingSizeAccepted();
      var r := new Ring.SpscRingBuffer<Word>(RING_SIZE);
      numMessages, ring, i, done, mode, history := n, r, 0, [], Polling, [];
    }

    /** One atomic action of `for (i = 0; i < num_messages;) { if (ring.push(i)) ++i; } done.store(true)`. */
    method ProducerAction(t: Turn)
      requires Valid() && done == []
      modifies this`i, this`done, this`history, ring, ring.buffer
      ensures Valid() && history == old(history) + [ProducerStep(old(Model()), t)]
    {
      if !ring.push.PushIdle? {
        ProducerInsidePush(t);
      } else if i < numMessages {
        ProducerStartsPush();
      } else {
        ghost var start, before, past := Start(), Model(), history;
        done := [ring.producer];
        history := past + [StoreDone];
        Landed(start, before, past, StoreDone);
      }
    }

    method ProducerStartsPush()
      requires Valid() && ring.push.PushIdle? && i < numMessages
      modifies this`history, ring
      ensures Valid() && history == old(history) + [RingStep(R.PushLoad(i))]
    {
      ghost var start, before, past := Start(), Model(), history;
      ring.SomeStoreVisible();
      ring.LoadOwnWrite(i);
      history := past + [RingStep(R.PushLoad(i))];
      Landed(start, before, past, RingStep(R.PushLoad(i)));
    }

    method ProducerInsidePush(t: Turn)
      requires Valid() && !ring.push.PushIdle?
      modifies this`i, this`history, ring, ring.buffer
      ensures Valid() && history == old(history) + [ProducerStep(old(Model()), t)]
    {
      if ring.push.PushLoaded? {
        ProducerChecks(t);
      } else if ring.push.PushChecked? {
        ProducerFills();
      } else {
        ProducerPublishes();
      }
    }

    method ProducerChecks(t: Turn)
      requires Valid() && ring.push.PushLoaded?
      modifies this`history, ring
      ensures Valid() && history == old(history) + [ProducerStep(old(Model()), t)]
    {
      ring.SomeStoreVisible();
      ProducerSees(Ring.Seen(|ring.readIdx| - 1, t.lag, ring.producer.readStores));
    }

    method ProducerSees(m: nat)
      requires Valid() && Enabled(Model(), RingStep(R.PushCheck(m)))
      modifies this`history, ring
      ensures Valid() && history == old(history) + [RingStep(R.PushCheck(m))]
    {
      ghost var start, before, past := Start(), Model(), history;
      ring.CheckFull(m);
      history := past + [RingStep(R.PushCheck(m))];
      Landed(start, before, past, RingStep(R.PushCheck(m)));
    }

    method ProducerFills()
      requires Valid() && ring.push.PushChecked?
      modifies this`history, ring, ring.buffer
      ensures Valid() && history == old(history) + [RingStep(R.PushFill)]
    {
      ghost var start, before, past := Start(), Model(), history;
      ring.FillSlot();
      history := past + [RingStep(R.PushFill)];
      Landed(start, before, past, RingStep(R.PushFill));
    }

    /** The push succeeds, so the loop counter goes up. */
    method ProducerPublishes()
      requires Valid() && ring.push.PushFilled?
      modifies this`i, this`history, ring
      ensures Valid() && history == old(history) + [RingStep(R.PushPublish)]
    {
      ghost var start, before, past := Start(), Model(), history;
      ring.PublishWrite();
      i := WordAdd(i, 1);
      history := past + [RingStep(R.PushPublish)];
      Landed(start, before, past, RingStep(R.PushPublish));
    }

    /** One atomic action of the consumer inside `ring.pop(val)`, in either of its loops. */
    method ConsumerPops(t: Turn)
      requires Valid() && (mode.Polling? || mode.Draining?)
      modifies this, ring, ring.buffer
      ensures Valid() && history == old(history) + [ConsumerStep(old(Model()), t)]
    {
      if ring.pop.PopIdle? {
        ConsumerStartsPop();
      } else if ring.pop.PopLoaded? {
        ConsumerChecks(t);
      } else {
        ConsumerTakes(t);
      }
    }

    method ConsumerStartsPop()
      requires Valid() && (mode.Polling? || mode.Draining?) && ring.pop.PopIdle?
      modifies this`history, ring
      ensures Valid() && history == old(history) + [RingStep(R.PopLoad)]
    {
      ghost var start, before, past := Start(), Model(), history;
      ring.SomeStoreVisible();
      ring.LoadOwnRead();
      history := past + [RingStep(R.PopLoad)];
      Landed(start, before, past, RingStep(R.PopLoad));
    }

    /** A pop that finds the ring empty ends the drain, or makes the poll look at the flag. */
    method ConsumerChecks(t: Turn)
      requires Valid() && (mode.Polling? || mode.Draining?) && ring.pop.PopLoaded?
      modifies this, ring
      ensures Valid() && history == old(history) + [ConsumerStep(old(Model()), t)]
    {
      ring.SomeStoreVisible();
      var m := Ring.Seen(|ring.writeIdx| - 1, t.lag, ring.consumer.writeStores);
      ConsumerSees(m);
    }

    method ConsumerSees(m: nat)
      requires Valid() && Enabled(Model(), RingStep(R.PopCheck(m)))
      modifies this, ring
      ensures Valid() && history == old(history) + [RingStep(R.PopCheck(m))]
    {
      ghost var start, before, past := Start(), Model(), history;
      CheckEmptyAndTurn(m);
      history := past + [RingStep(R.PopCheck(m))];
      CheckEndsPop(before, m, ring.Model());
      Landed(start, before, past, RingStep(R.PopCheck(m)));
    }

    /** `if (ring.pop(val)) ...`, up to the comparison. */
    method CheckEmptyAndTurn(m: nat)
      requires ring.Valid() && R.Enabled(ring.Model(), R.PopCheck(m))
      modifies this`mode, ring
      ensures ring.Valid() && ring.Model() == R.Apply(old(ring.Model()), R.PopCheck(m))
      ensures mode == if !ring.pop.PopIdle? then old(mode) else if old(mode).Draining? then Ended else AskingDone
    {
      ring.CheckEmpty(m);
      if ring.pop.PopIdle? {
        mode := if mode.Draining? then Ended else AskingDone;
      }
    }

    method ConsumerTakes(t: Turn)
      requires Valid() && (ring.pop.PopChecked? || ring.pop.PopTook?)
      modifies this`history, ring, ring.buffer
      ensures Valid() && history == old(history) + [ConsumerStep(old(Model()), t)]
    {
      if ring.pop.PopChecked? {
        ConsumerReadsSlot(t.left);
      } else {
        ConsumerPublishes();
      }
    }

    method ConsumerReadsSlot(left: Word)
      requires Valid() && ring.pop.PopChecked?
      modifies this`history, ring, ring.buffer
      ensures Valid() && history == old(history) + [RingStep(R.PopTake(left))]
    {
      ghost var start, before, past := Start(), Model(), history;
      ring.TakeSlot(left);
      history := past + [RingStep(R.PopTake(left))];
      Landed(start, before, past, RingStep(R.PopTake(left)));
    }

    method ConsumerPublishes()
      requires Valid() && ring.pop.PopTook?
      modifies this`history, ring
      ensures Valid() && history == old(history) + [RingStep(R.PopPublish)]
    {
      ghost var start, before, past := Start(), Model(), history;
      ring.PublishRead();
      history := past + [RingStep(R.PopPublish)];
      Landed(start, before, past, RingStep(R.PopPublish));
    }

    lemma FlagCanBeSeen()
      requires Valid() && mode.AskingDone? && done != []
      ensures Enabled(Model(), LoadDone(true))
    {
      ValidMeansInv();
      DoneCanBeLearned(Model());
    }

    /** Seeing the flag brings with it everything the producer had published. */
    method ConsumerSeesDone()
      requires Valid() && mode.AskingDone? && done != []
      modifies this, ring
      ensures Valid() && history == old(history) + [LoadDone(true)]
    {
      ghost var start, before, past := Start(), Model(), history;
      FlagCanBeSeen();
      ring.Learn(done[0]);
      mode := Draining;
      history := past + [LoadDone(true)];
      SeeingDone(before, ring.Model());
      Landed(start, before, past, LoadDone(true));
    }

    /** `done.load(acquire)`, which may lag behind the store. */
    method ConsumerAsksDone(t: Turn)
      requires Valid() && mode.AskingDone?
      modifies this, ring, ring.buffer
      ensures Valid() && history == old(history) + [LoadDone(t.seesDone && old(done) != [])]
    {
      if t.seesDone && done != [] {
        ConsumerSeesDone();
      } else {
        ghost var start, before, past := Start(), Model(), history;
        mode := Polling;
        history := past + [LoadDone(false)];
        Landed(start, before, past, LoadDone(false));
      }
    }

    /** One action, of the thread whose turn it is. */
    method Act(t: Turn, ghost schedule: nat -> Turn)
      requires Valid() && !mode.Ended? && Follows(Start(), history, schedule) && t == schedule(|history|)
      modifies this, ring, ring.buffer
      ensures Valid() && |history| == |old(history)| + 1 && Follows(Start(), history, schedule)
    {
      ghost var past := history;
      if t.producer && done == [] {
        ProducerAction(t);
      } else if mode.AskingDone? {
        ConsumerAsksDone(t);
      } else {
        ConsumerPops(t);
      }
      assert history[..|past|] == past;
    }
  }

  /**
   `bench_ring`: at each moment the schedule picks a thread and that thread performs one atomic action,
   for as many actions as we care to watch.  What the consumer has popped is always 0, 1, 2, .. in
   order, and all of it once the consumer has stopped.
   */
  method RunBenchRing(numMessages: Word, schedule: nat -> Turn, actions: nat) returns (bench: Benchmark)
    ensures fresh(bench) && bench.Valid() && bench.numMessages == numMessages
    ensures Follows(bench.Start(), bench.history, schedule)
    ensures bench.mode.Ended? || |bench.history| == actions
    ensures bench.ring.popped <= Messages(numMessages)
    ensures bench.mode.Ended? ==> bench.ring.popped == Messages(numMessages)
  {
    bench := new Benchmark(numMessages);
    var performed := 0;
    while performed < actions && !bench.mode.Ended?
      invariant fresh(bench) && fresh(bench.ring) && fresh(bench.ring.buffer)
      invariant bench.Valid() && |bench.history| == performed <= actions
      invariant Follows(bench.Start(), bench.history, schedule)
      modifies bench, bench.ring, bench.ring.buffer
    {
      bench.Act(schedule(performed), schedule);
      performed := performed + 1;
    }
    ConsumerGetsEveryMessage(numMessages, bench.ring.start, bench.history);
  }
}

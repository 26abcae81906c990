/**
 The class template `SPSCRingBuffer`, in the source's own form.  `Push` and `Pop` are the source's
 statements in the source's order; before each access to shared memory the other thread may run any
 number of its own atomic actions.  One method per atomic action ties the object to the state
 machine of module SpscRing.
 */
module SpscRingBufferClass {
  import opened Words
  import opened SpscRing
  import Safety = SpscRingSafety

  lemma {:induction false} RunAppend<T>(s: Ring<T>, a: seq<Step<T>>, b: seq<Step<T>>)
    requires CanRun(s, a) && CanRun(Run(s, a), b)
    ensures CanRun(s, a + b) && Run(s, a + b) == Run(Run(s, a), b)
    decreases |a|
  {
    if a == [] {
      assert a + b == b;
    } else {
      RunAppend(Apply(s, a[0]), a[1..], b);
      assert (a + b)[0] == a[0] && (a + b)[1..] == a[1..] + b;
    }
  }

  lemma RunSnoc<T>(s: Ring<T>, a: seq<Step<T>>, st: Step<T>)
    requires CanRun(s, a) && Enabled(Run(s, a), st)
    ensures CanRun(s, a + [st]) && Run(s, a + [st]) == Apply(Run(s, a), st)
  {
    var t := Run(s, a);
    assert CanRun(Apply(t, st), []) && CanRun(t, [st]);
    assert [st][1..] == [];
    RunAppend(s, a, [st]);
  }

  /** The store that a load sees which is `lag` stores behind the newest, but never behind what its thread knows. */
  function Seen(newest: nat, lag: nat, known: nat): nat {
    if known + lag <= newest then newest - lag else known
  }

  class SpscRingBuffer<T(0)> {
    const size: Word
    const buffer: array<T>
    var writeIdx: seq<Store>       // atomic, every value stored so far
    var readIdx: seq<Store>        // atomic, every value stored so far
    var push: PushPc<T>            // local variables of the push in progress
    var pop: PopPc<T>              // local variables of the pop in progress
    var producer: View
    var consumer: View
    ghost var fillSlots: seq<nat>
    ghost var takeSlots: seq<nat>
    ghost var pushed: seq<T>
    ghost var popped: seq<T>
    ghost const start: seq<T>          // what the buffer held at first
    ghost var history: seq<Step<T>>    // every atomic action so far

    ghost function Model(): Ring<T>
      reads this, buffer
    {
      Ring(size, writeIdx, readIdx, buffer[..], push, pop, producer, consumer, fillSlots, takeSlots, pushed, popped)
    }

    /** The object is where its history leads the state machine. */
    ghost predicate Valid()
      reads this, buffer
    {
      && StaticAssert(size) && |start| == size
      && CanRun(Init(size, start), history)
      && Model() == Run(Init(size, start), history)
    }

    lemma ValidMeansInv()
      requires Valid()
      ensures Safety.Inv(Model())
    {
      Safety.InitInv(size, start);
      Safety.RunKeepsInv(Init(size, start), history);
    }

    constructor (capacity: Word)
      requires StaticAssert(capacity)
      ensures Valid() && fresh(buffer) && history == []
      ensures size == capacity && Model() == Init(capacity, buffer[..])
    {
      var zero := Store(0, View(0, 0, 0, 0));
      size := capacity;
      var slots := new T[capacity];
      buffer, start := slots, slots[..];
      writeIdx, readIdx := [zero], [zero];
      push, pop := PushIdle, PopIdle;
      producer, consumer := zero.view, zero.view;
      fillSlots, takeSlots, pushed, popped := [], [], [], [];
      history := [];
    }

    /** There is always a store a load may return. */
    lemma SomeStoreVisible()
      requires Valid()
      ensures producer.readStores < |readIdx| && consumer.writeStores < |writeIdx|
    {
      ValidMeansInv();
    }

    // ----- the producer's atomic actions

    method LoadOwnWrite(item: T)
      requires Valid() && push.PushIdle?
      modifies this`push, this`history
      ensures Valid() && history == old(history) + [PushLoad(item)]
      ensures Enabled(old(Model()), PushLoad(item)) && Model() == Apply(old(Model()), PushLoad(item))
    {
      ValidMeansInv();
      RunSnoc(Init(size, start), history, PushLoad(item));
      push := PushLoaded(item, writeIdx[|writeIdx| - 1].value);
      history := history + [PushLoad(item)];
    }

    method CheckFull(m: nat)
      requires Valid() && Enabled(Model(), PushCheck(m))
      modifies this`push, this`producer, this`history
      ensures Valid() && history == old(history) + [PushCheck(m)]
      ensures Model() == Apply(old(Model()), PushCheck(m))
    {
      RunSnoc(Init(size, start), history, PushCheck(m));
      producer := Join(producer.(readStores := m), readIdx[m].view);
      var next := WordAdd(push.w, 1);
      if WordSub(next, readIdx[m].value) > size {
        push := PushIdle;
      } else {
        push := PushChecked(push.item, push.w);
      }
      history := history + [PushCheck(m)];
    }

    method FillSlot()
      requires Valid() && push.PushChecked?
      modifies this`push, this`producer, this`fillSlots, this`history, buffer
      ensures Valid() && history == old(history) + [PushFill]
      ensures Model() == Apply(old(Model()), PushFill)
    {
      ghost var s := Model();
      ValidMeansInv();
      Safety.FillSlotFree(s);
      RunSnoc(Init(size, start), history, PushFill);
      var slot := SlotOf(push.w, size);
      buffer[slot] := push.item;
      producer := producer.(fills := producer.fills + 1);
      fillSlots := fillSlots + [slot];
      push := PushFilled(push.item, push.w);
      history := history + [PushFill];
      assert buffer[..] == s.buffer[slot := s.push.item];
    }

    method PublishWrite()
      requires Valid() && push.PushFilled?
      modifies this`push, this`producer, this`writeIdx, this`pushed, this`history
      ensures Valid() && history == old(history) + [PushPublish]
      ensures Model() == Apply(old(Model()), PushPublish)
    {
      RunSnoc(Init(size, start), history, PushPublish);
      producer := producer.(writeStores := |writeIdx|);
      writeIdx := writeIdx + [Store(WordAdd(push.w, 1), producer)];
      pushed := pushed + [push.item];
      push := PushIdle;
      history := history + [PushPublish];
    }

    // ----- the consumer's atomic actions

    method LoadOwnRead()
      requires Valid() && pop.PopIdle?
      modifies this`pop, this`history
      ensures Valid() && history == old(history) + [PopLoad]
      ensures Enabled(old(Model()), PopLoad) && Model() == Apply(old(Model()), PopLoad)
    {
      ValidMeansInv();
      RunSnoc(Init(size, start), history, PopLoad);
      pop := PopLoaded(readIdx[|readIdx| - 1].value);
      history := history + [PopLoad];
    }

    method CheckEmpty(m: nat)
      requires Valid() && Enabled(Model(), PopCheck(m))
      modifies this`pop, this`consumer, this`history
      ensures Valid() && history == old(history) + [PopCheck(m)]
      ensures Model() == Apply(old(Model()), PopCheck(m))
    {
      RunSnoc(Init(size, start), history, PopCheck(m));
      consumer := Join(consumer.(writeStores := m), writeIdx[m].view);
      if pop.r == writeIdx[m].value {
        pop := PopIdle;
      } else {
        pop := PopChecked(pop.r);
      }
      history := history + [PopCheck(m)];
    }

    method TakeSlot(left: T)
      requires Valid() && pop.PopChecked?
      modifies this`pop, this`consumer, this`takeSlots, this`history, buffer
      ensures Valid() && history == old(history) + [PopTake(left)]
      ensures Model() == Apply(old(Model()), PopTake(left))
    {
      ghost var s := Model();
      ValidMeansInv();
      Safety.TakeSlotFull(s);
      RunSnoc(Init(size, start), history, PopTake(left));
      var slot := SlotOf(pop.r, size);
      pop := PopTook(pop.r, buffer[slot]);
      buffer[slot] := left;
      consumer := consumer.(takes := consumer.takes + 1);
      takeSlots := takeSlots + [slot];
      history := history + [PopTake(left)];
      assert buffer[..] == s.buffer[slot := left];
    }

    method PublishRead()
      requires Valid() && pop.PopTook?
      modifies this`pop, this`consumer, this`readIdx, this`popped, this`history
      ensures Valid() && history == old(history) + [PopPublish]
      ensures Model() == Apply(old(Model()), PopPublish)
    {
      RunSnoc(Init(size, start), history, PopPublish);
      consumer := consumer.(readStores := |readIdx|);
      readIdx := readIdx + [Store(WordAdd(pop.r, 1), consumer)];
      popped := popped + [pop.out];
      pop := PopIdle;
      history := history + [PopPublish];
    }

    method Learn(v: View)
      requires Valid() && Enabled(Model(), PopLearn(v))
      modifies this`consumer, this`history
      ensures Valid() && history == old(history) + [PopLearn(v)]
      ensures Model() == Apply(old(Model()), PopLearn(v))
    {
      RunSnoc(Init(size, start), history, PopLearn(v));
      consumer := Join(consumer, v);
      history := history + [PopLearn(v)];
    }

    // ----- the other thread runs

    /** Any number of the consumer's actions, with any view it may see. */
    method ConsumerRuns()
      requires Valid()
      modifies this`pop, this`consumer, this`readIdx, this`popped, this`takeSlots, this`history, buffer
      ensures Valid() && |old(popped)| <= |popped|
    {
      var budget: nat := *;
      while budget > 0
        invariant Valid() && |old(popped)| <= |popped|
        modifies this`pop, this`consumer, this`readIdx, this`popped, this`takeSlots, this`history, buffer
      {
        budget := budget - 1;
        match pop {
          case PopIdle =>
            LoadOwnRead();
          case PopLoaded(_) =>
            SomeStoreVisible();
            var m: nat :| consumer.writeStores <= m < |writeIdx|;
            CheckEmpty(m);
          case PopChecked(_) =>
            var left: T := *;
            TakeSlot(left);
          case PopTook(_, _) =>
            PublishRead();
        }
      }
    }

    /** Any number of the producer's actions, with any items and any view it may see. */
    method ProducerRuns()
      requires Valid()
      modifies this`push, this`producer, this`writeIdx, this`pushed, this`fillSlots, this`history, buffer
      ensures Valid() && |old(pushed)| <= |pushed|
    {
      var budget: nat := *;
      while budget > 0
        invariant Valid() && |old(pushed)| <= |pushed|
        modifies this`push, this`producer, this`writeIdx, this`pushed, this`fillSlots, this`history, buffer
      {
        budget := budget - 1;
        match push {
          case PushIdle =>
            var item: T := *;
            LoadOwnWrite(item);
          case PushLoaded(_, _) =>
            SomeStoreVisible();
            var m: nat :| producer.readStores <= m < |readIdx|;
            CheckFull(m);
          case PushChecked(_, _) =>
            FillSlot();
          case PushFilled(_, _) =>
            PublishWrite();
        }
      }
    }

    // ----- push and pop

    /** `push` is refused exactly if the store it sees is that of the pop `size` items back. */
    lemma RefusedPush(m: nat)
      requires Valid() && Enabled(Model(), PushCheck(m))
      ensures var s' := Apply(Model(), PushCheck(m));
              && |readIdx| == |popped| + 1
              && |pushed| - m <= size && (s'.push.PushIdle? <==> |pushed| - m == size)
              && (s'.push.PushIdle? ==> |s'.pushed| - s'.producer.readStores == size)
    {
      ValidMeansInv();
      Safety.FullTestExact(Model(), m);
      assert Safety.GoodReadStore(Model(), m, readIdx[m]);
    }

    /** `pop` is refused exactly if it sees no store after the last item popped. */
    lemma RefusedPop(m: nat)
      requires Valid() && Enabled(Model(), PopCheck(m))
      ensures var s' := Apply(Model(), PopCheck(m));
              && |writeIdx| == |pushed| + 1
              && (s'.pop.PopIdle? <==> m == |popped|) && m >= |popped|
              && (s'.pop.PopIdle? ==> s'.consumer.writeStores == |s'.popped|)
    {
      ValidMeansInv();
      Safety.EmptyTestExact(Model(), m);
      assert Safety.GoodWriteStore(Model(), m, writeIdx[m]);
    }

    lemma TookOldest()
      requires Valid() && pop.PopTook?
      ensures |popped| < |pushed| && pop.out == pushed[|popped|]
    {
      ValidMeansInv();
    }

    /**
     `bool push(const T& item)`, with the consumer running between any two accesses and `lag` the number
     of stores by which its acquire load is behind, as far as coherence lets it be.  It returns true
     exactly when the item entered, and that is exactly when the occupancy it saw was less than `size`.
     */
    method Push(item: T, lag: nat) returns (ok: bool, consumed: nat)
      requires Valid() && push.PushIdle?
      modifies this, buffer
      ensures Valid() && push.PushIdle?
      ensures pushed == old(pushed) + (if ok then [item] else [])
      ensures |old(popped)| <= consumed <= |popped|
      ensures ok <==> |old(pushed)| - Seen(consumed, lag, old(producer).readStores) < size
      ensures !ok ==> |pushed| - producer.readStores == size
    {
      ConsumerRuns();
      LoadOwnWrite(item);
      ConsumerRuns();
      ok, consumed := TestFull(lag);
      if ok {
        WriteAndPublish();
      }
    }

    /** The load of `read_idx` and the comparison. */
    method TestFull(lag: nat) returns (ok: bool, consumed: nat)
      requires Valid() && push.PushLoaded?
      modifies this`push, this`producer, this`history
      ensures Valid() && consumed == |popped|
      ensures push == if ok then PushChecked(old(push).item, old(push).w) else PushIdle
      ensures ok <==> |pushed| - Seen(consumed, lag, old(producer).readStores) < size
      ensures !ok ==> |pushed| - producer.readStores == size
    {
      SomeStoreVisible();
      consumed := |readIdx| - 1;
      var m := Seen(consumed, lag, producer.readStores);
      RefusedPush(m);
      CheckFull(m);
      ok := !push.PushIdle?;
    }

    /** The second half of `push`: write the slot, then store the index. */
    method WriteAndPublish()
      requires Valid() && push.PushChecked?
      modifies this, buffer
      ensures Valid() && push.PushIdle?
      ensures pushed == old(pushed) + [old(push.item)]
      ensures |old(popped)| <= |popped|
    {
      ConsumerRuns();
      FillSlot();
      ConsumerRuns();
      PublishWrite();
    }

    /**
     `bool pop(T& item)`, with the producer running between any two accesses and `lag` the number of
     stores by which its acquire load is behind, as far as coherence lets it be.  It returns true exactly
     when the oldest item left, and that is exactly when it saw a push after the last pop.
     */
    method Pop(lag: nat) returns (ok: bool, item: T, published: nat)
      requires Valid() && pop.PopIdle?
      modifies this, buffer
      ensures Valid() && pop.PopIdle?
      ensures popped == old(popped) + (if ok then [item] else [])
      ensures |old(pushed)| <= published <= |pushed|
      ensures ok <==> Seen(published, lag, old(consumer).writeStores) > |old(popped)|
      ensures ok ==> |old(popped)| < |pushed| && item == pushed[|old(popped)|]
      ensures !ok ==> consumer.writeStores == |popped|
    {
      item := *;
      ProducerRuns();
      LoadOwnRead();
      ProducerRuns();
      ok, published := TestEmpty(lag);
      if ok {
        item := TakeAndPublish();
      }
    }

    /** The load of `write_idx` and the comparison. */
    method TestEmpty(lag: nat) returns (ok: bool, published: nat)
      requires Valid() && pop.PopLoaded?
      modifies this`pop, this`consumer, this`history
      ensures Valid() && published == |pushed|
      ensures if ok then pop.PopChecked? else pop.PopIdle?
      ensures ok <==> Seen(published, lag, old(consumer).writeStores) > |popped|
      ensures !ok ==> consumer.writeStores == |popped|
    {
      SomeStoreVisible();
      published := |writeIdx| - 1;
      var m := Seen(published, lag, consumer.writeStores);
      RefusedPop(m);
      CheckEmpty(m);
      ok := !pop.PopIdle?;
    }

    /** The second half of `pop`: read the slot, then store the index. */
    method TakeAndPublish() returns (item: T)
      requires Valid() && pop.PopChecked?
      modifies this, buffer
      ensures Valid() && pop.PopIdle?
      ensures popped == old(popped) + [item]
      ensures |old(pushed)| <= |pushed|
      ensures |old(popped)| < |pushed| && item == pushed[|old(popped)|]
    {
      ProducerRuns();
      var left: T := *;
      TakeSlot(left);
      ProducerRuns();
      TookOldest();
      item := pop.out;
      PublishRead();
    }
  }
}

/** What every interleaving of one producer and one consumer keeps true of the ring. */
module SpscRingSafety {
  import opened Words
  import opened SpscRing
  import Fifo

  // Logical counters: unbounded, while the words wrap.

  function Pushes<T>(s: Ring<T>): int { |s.writeIdx| - 1 }
  function Pops<T>(s: Ring<T>): int { |s.readIdx| - 1 }
  function Fills<T>(s: Ring<T>): nat { |s.fillSlots| }
  function Takes<T>(s: Ring<T>): nat { |s.takeSlots| }

  /** The items in the order their slots were written. */
  function Items<T>(s: Ring<T>): seq<T> {
    s.pushed + (if s.push.PushFilled? then [s.push.item] else [])
  }

  function Slot(i: nat, n: nat): nat {
    if n == 0 then 0 else i % n
  }

  ghost predicate Counters<T>(s: Ring<T>) {
    && |s.writeIdx| > 0 && |s.readIdx| > 0
    && |s.pushed| == Pushes(s) && |s.popped| == Pops(s) <= Pushes(s)
    && s.popped == s.pushed[..Pops(s)]
    && Fills(s) == Pushes(s) + (if s.push.PushFilled? then 1 else 0)
    && Takes(s) == Pops(s) + (if s.pop.PopTook? then 1 else 0)
    && Pushes(s) <= Pops(s) + s.size
  }

  /** Store number k of an index holds k, wrapped, and its thread knew at least what k implies. */
  ghost predicate Stores<T>(s: Ring<T>) {
    && (forall k :: 0 <= k < |s.writeIdx| ==> GoodWriteStore(s, k, s.writeIdx[k]))
    && (forall k :: 0 <= k < |s.readIdx| ==> GoodReadStore(s, k, s.readIdx[k]))
  }

  ghost predicate GoodWriteStore<T>(s: Ring<T>, k: nat, m: Store) {
    && m.value == Wrap(k) && m.view.writeStores == k
    && k <= m.view.fills <= Fills(s)
    && m.view.readStores <= Pops(s) && m.view.takes <= Takes(s)
  }

  ghost predicate GoodReadStore<T>(s: Ring<T>, k: nat, m: Store) {
    && m.value == Wrap(k) && m.view.readStores == k
    && k <= m.view.takes <= Takes(s)
    && m.view.writeStores <= Pushes(s) && m.view.fills <= Fills(s)
  }

  ghost predicate Knowledge<T>(s: Ring<T>) {
    && s.producer.writeStores == Pushes(s) && s.producer.fills == Fills(s)
    && s.producer.readStores <= Pops(s) && s.producer.readStores <= s.producer.takes <= Takes(s)
    && s.consumer.readStores == Pops(s) && s.consumer.takes == Takes(s)
    && s.consumer.writeStores <= Pushes(s) && s.consumer.writeStores <= s.consumer.fills <= Fills(s)
    && Fills(s) <= s.producer.readStores + s.size
    && Takes(s) <= s.consumer.writeStores
  }

  ghost predicate Locals<T>(s: Ring<T>)
    requires Counters(s)
  {
    && (!s.push.PushIdle? ==> s.push.w == Wrap(Pushes(s)))
    && (s.push.PushChecked? ==> Pushes(s) < s.producer.readStores + s.size)
    && (!s.pop.PopIdle? ==> s.pop.r == Wrap(Pops(s)))
    && (s.pop.PopChecked? ==> Pops(s) < s.consumer.writeStores)
    && (s.pop.PopTook? ==> Pops(s) < Pushes(s) && s.pop.out == s.pushed[Pops(s)])
  }

  /** Every slot of the window holds the item pushed at its index. */
  ghost predicate Window<T>(s: Ring<T>)
    requires Counters(s)
  {
    && |s.buffer| == s.size
    && (forall i :: Takes(s) <= i < Fills(s) ==>
          Slot(i, s.size) < |s.buffer| && s.buffer[Slot(i, s.size)] == Items(s)[i])
  }

  ghost predicate Accesses<T>(s: Ring<T>) {
    && (forall k :: 0 <= k < Fills(s) ==> s.fillSlots[k] == Slot(k, s.size))
    && (forall k :: 0 <= k < Takes(s) ==> s.takeSlots[k] == Slot(k, s.size))
  }

  ghost predicate Inv<T>(s: Ring<T>) {
    && StaticAssert(s.size)
    && Counters(s) && Stores(s) && Knowledge(s) && Locals(s) && Window(s) && Accesses(s)
  }

  lemma InitInv<T>(size: Word, buffer: seq<T>)
    requires StaticAssert(size) && |buffer| == size
    ensures Inv(Init(size, buffer))
  {
  }

  // ----- the two tests are exact on what was seen, for unbounded counts

  lemma StaticSizeFits(size: Word)
    requires StaticAssert(size)
    ensures size + 1 < TWO_TO_THE_64
  {
    StaticAssertAccepts(size);
    assert size <= 1 || size % 2 == 0;
  }

  /** The wrapped full test holds exactly when the occupancy seen is `Size`. */
  lemma FullTestExact<T>(s: Ring<T>, m: nat)
    requires Inv(s) && Enabled(s, PushCheck(m))
    ensures 0 <= Pushes(s) - m <= s.size
    ensures LooksFull(s.push.w, s.readIdx[m].value, s.size) <==> Pushes(s) - m == s.size
  {
    assert GoodReadStore(s, m, s.readIdx[m]);
    StaticSizeFits(s.size);
    WrappedSuccessor(Pushes(s));
    WrappedDifference(Pushes(s) + 1, m);
  }

  /** The wrapped empty test holds exactly when the store seen is the one of the last pop. */
  lemma EmptyTestExact<T>(s: Ring<T>, m: nat)
    requires Inv(s) && Enabled(s, PopCheck(m))
    ensures Pops(s) <= m <= Pushes(s)
    ensures s.pop.r == s.writeIdx[m].value <==> m == Pops(s)
  {
    assert GoodWriteStore(s, m, s.writeIdx[m]);
    StaticSizeFits(s.size);
    WrappedEqual(m, Pops(s));
  }

  // ----- every step keeps the invariant

  lemma KeepsPushCheck<T>(s: Ring<T>, m: nat)
    requires Inv(s) && Enabled(s, PushCheck(m))
    ensures Inv(StepPushCheck(s, m))
  {
    FullTestExact(s, m);
    var s' := StepPushCheck(s, m);
    assert GoodReadStore(s, m, s.readIdx[m]);
    assert Items(s') == Items(s);
    assert Stores(s') by { SameHistory(s, s'); }
  }

  /** Histories stay good when counters only grow. */
  lemma SameHistory<T>(s: Ring<T>, s': Ring<T>)
    requires Stores(s) && s'.writeIdx == s.writeIdx && s'.readIdx == s.readIdx
    requires Fills(s) <= Fills(s') && Takes(s) <= Takes(s')
    ensures Stores(s')
  {
    forall k | 0 <= k < |s'.writeIdx| ensures GoodWriteStore(s', k, s'.writeIdx[k]) {
      assert GoodWriteStore(s, k, s.writeIdx[k]);
    }
    forall k | 0 <= k < |s'.readIdx| ensures GoodReadStore(s', k, s'.readIdx[k]) {
      assert GoodReadStore(s, k, s.readIdx[k]);
    }
  }

  /** The slot about to be written is inside the buffer and outside the window. */
  lemma FillSlotFree<T>(s: Ring<T>)
    requires Inv(s) && s.push.PushChecked?
    ensures SlotOf(s.push.w, s.size) == Slot(Pushes(s), s.size) < |s.buffer|
    ensures forall i :: Takes(s) <= i < Fills(s) ==> Slot(i, s.size) != Slot(Pushes(s), s.size)
  {
    SlotOfWrapped(Pushes(s), s.size);
    forall i | Takes(s) <= i < Fills(s) ensures Slot(i, s.size) != Slot(Pushes(s), s.size) {
      SlotsDiffer(i, Pushes(s), s.size);
    }
  }

  lemma KeepsPushFill<T>(s: Ring<T>)
    requires Inv(s) && Enabled(s, PushFill)
    ensures Inv(StepPushFill(s))
  {
    FillSlotFree(s);
    var s' := StepPushFill(s);
    assert Stores(s') by { SameHistory(s, s'); }
    assert Window(s') by {
      forall i | Takes(s') <= i < Fills(s')
        ensures Slot(i, s'.size) < |s'.buffer| && s'.buffer[Slot(i, s'.size)] == Items(s')[i]
      {
        if i < Fills(s) {
          assert Items(s')[i] == Items(s)[i];
        }
      }
    }
  }

  lemma KeepsPushPublish<T>(s: Ring<T>)
    requires Inv(s) && Enabled(s, PushPublish)
    ensures Inv(StepPushPublish(s))
  {
    WrappedSuccessor(Pushes(s));
    var s' := StepPushPublish(s);
    assert Items(s') == Items(s);
    assert s'.popped == s'.pushed[..Pops(s')];
    forall k | 0 <= k < |s'.writeIdx| ensures GoodWriteStore(s', k, s'.writeIdx[k]) {
      if k < |s.writeIdx| {
        assert GoodWriteStore(s, k, s.writeIdx[k]);
      }
    }
    forall k | 0 <= k < |s'.readIdx| ensures GoodReadStore(s', k, s'.readIdx[k]) {
      assert GoodReadStore(s, k, s.readIdx[k]);
    }
  }

  lemma KeepsPopCheck<T>(s: Ring<T>, m: nat)
    requires Inv(s) && Enabled(s, PopCheck(m))
    ensures Inv(StepPopCheck(s, m))
  {
    EmptyTestExact(s, m);
    var s' := StepPopCheck(s, m);
    assert GoodWriteStore(s, m, s.writeIdx[m]);
    assert Items(s') == Items(s);
    assert Stores(s') by { SameHistory(s, s'); }
  }

  /** The slot about to be read is inside the buffer and holds the oldest item. */
  lemma TakeSlotFull<T>(s: Ring<T>)
    requires Inv(s) && s.pop.PopChecked?
    ensures SlotOf(s.pop.r, s.size) == Slot(Pops(s), s.size) < |s.buffer|
    ensures Pops(s) < Pushes(s) && s.buffer[SlotOf(s.pop.r, s.size)] == s.pushed[Pops(s)]
    ensures forall i :: Pops(s) < i < Fills(s) ==> Slot(i, s.size) != Slot(Pops(s), s.size)
  {
    assert s.size > 0;
    SlotOfWrapped(Pops(s), s.size);
    assert Items(s)[Pops(s)] == s.pushed[Pops(s)];
    forall i | Pops(s) < i < Fills(s) ensures Slot(i, s.size) != Slot(Pops(s), s.size) {
      SlotsDiffer(Pops(s), i, s.size);
    }
  }

  lemma KeepsPopTake<T>(s: Ring<T>, left: T)
    requires Inv(s) && Enabled(s, PopTake(left))
    ensures Inv(StepPopTake(s, left))
  {
    TakeSlotFull(s);
    var s' := StepPopTake(s, left);
    assert Stores(s') by { SameHistory(s, s'); }
    assert Items(s') == Items(s);
  }

  lemma KeepsPopPublish<T>(s: Ring<T>)
    requires Inv(s) && Enabled(s, PopPublish)
    ensures Inv(StepPopPublish(s))
  {
    WrappedSuccessor(Pops(s));
    var s' := StepPopPublish(s);
    assert Items(s') == Items(s);
    assert s'.popped == s'.pushed[..Pops(s')];
    forall k | 0 <= k < |s'.writeIdx| ensures GoodWriteStore(s', k, s'.writeIdx[k]) {
      assert GoodWriteStore(s, k, s.writeIdx[k]);
    }
    forall k | 0 <= k < |s'.readIdx| ensures GoodReadStore(s', k, s'.readIdx[k]) {
      if k < |s.readIdx| {
        assert GoodReadStore(s, k, s.readIdx[k]);
      }
    }
  }

  lemma StepKeepsInv<T>(s: Ring<T>, st: Step<T>)
    requires Inv(s) && Enabled(s, st)
    ensures Inv(Apply(s, st))
  {
    match st {
      case PushLoad(item) =>
        assert GoodWriteStore(s, Pushes(s), s.writeIdx[Pushes(s)]);
        assert Items(Apply(s, st)) == Items(s);
        SameHistory(s, Apply(s, st));
      case PushCheck(m) => KeepsPushCheck(s, m);
      case PushFill => KeepsPushFill(s);
      case PushPublish => KeepsPushPublish(s);
      case PopLoad =>
        assert GoodReadStore(s, Pops(s), s.readIdx[Pops(s)]);
        assert Items(Apply(s, st)) == Items(s);
        SameHistory(s, Apply(s, st));
      case PopCheck(m) => KeepsPopCheck(s, m);
      case PopTake(left) => KeepsPopTake(s, left);
      case PopPublish => KeepsPopPublish(s);
      case PopLearn(v) =>
        assert Items(Apply(s, st)) == Items(s);
        SameHistory(s, Apply(s, st));
    }
  }

  lemma {:induction false} RunKeepsInv<T>(s: Ring<T>, steps: seq<Step<T>>)
    requires Inv(s) && CanRun(s, steps)
    ensures Inv(Run(s, steps))
    decreases |steps|
  {
    if steps != [] {
      StepKeepsInv(s, steps[0]);
      RunKeepsInv(Apply(s, steps[0]), steps[1..]);
    }
  }

  // ----- refinement of the bounded queue

  /** The abstract content: pushed and not yet popped. */
  function Queue<T>(s: Ring<T>): seq<T> {
    if |s.popped| <= |s.pushed| then s.pushed[|s.popped|..] else []
  }

  lemma StepRefinesFifo<T>(s: Ring<T>, st: Step<T>)
    requires Inv(s) && Enabled(s, st)
    ensures Fifo.Moves(s.size, Queue(s), Shows(s, st), Queue(Apply(s, st)))
  {
    var s' := Apply(s, st);
    match st {
      case PushPublish =>
        assert Queue(s') == Queue(s) + [s.push.item];
      case PopPublish =>
        assert Queue(s) == [s.pop.out] + Queue(s');
      case _ =>
    }
  }

  /** Every run, however long and however the views lag, shows a behaviour of the bounded queue. */
  lemma {:induction false} RunRefinesFifo<T(!new)>(s: Ring<T>, steps: seq<Step<T>>)
    requires Inv(s) && CanRun(s, steps)
    ensures Fifo.Behaves(s.size, Queue(s), Trace(s, steps), Queue(Run(s, steps)))
    decreases |steps|
  {
    if steps != [] {
      var s' := Apply(s, steps[0]);
      StepKeepsInv(s, steps[0]);
      StepRefinesFifo(s, steps[0]);
      RunRefinesFifo(s', steps[1..]);
      assert Trace(s, steps)[0] == Shows(s, steps[0]) && Trace(s, steps)[1..] == Trace(s', steps[1..]);
      assert Fifo.Moves(s.size, Queue(s), Trace(s, steps)[0], Queue(s'));
    }
  }

  lemma RingRefinesFifo<T(!new)>(size: Word, buffer: seq<T>, steps: seq<Step<T>>)
    requires StaticAssert(size) && |buffer| == size && CanRun(Init(size, buffer), steps)
    ensures var s := Init(size, buffer);
            var s' := Run(s, steps);
            && Fifo.Behaves(size, [], Trace(s, steps), Queue(s'))
            && s'.popped <= s'.pushed
  {
    InitInv(size, buffer);
    RunRefinesFifo(Init(size, buffer), steps);
    RunKeepsInv(Init(size, buffer), steps);
  }

  // ----- a refusal is conservative, and exact on a fresh view

  /** `push` goes ahead only when there is room, and refuses only when the occupancy it saw was `Size`. */
  lemma PushRefusalConservative<T>(s: Ring<T>, m: nat)
    requires Inv(s) && Enabled(s, PushCheck(m))
    ensures var refused := Apply(s, PushCheck(m)).push.PushIdle?;
            && (refused <==> Pushes(s) - m == s.size)
            && (!refused ==> |Queue(s)| < s.size)
            && (m == Pops(s) ==> (refused <==> |Queue(s)| == s.size))
  {
    FullTestExact(s, m);
  }

  /** `pop` goes ahead only when there is an item, and refuses only when it saw no push after the last pop. */
  lemma PopRefusalConservative<T>(s: Ring<T>, m: nat)
    requires Inv(s) && Enabled(s, PopCheck(m))
    ensures var refused := Apply(s, PopCheck(m)).pop.PopIdle?;
            && (refused <==> m == Pops(s))
            && (!refused ==> Queue(s) != [])
            && (m == Pushes(s) ==> (refused <==> Queue(s) == []))
  {
    EmptyTestExact(s, m);
  }

  // ----- the size the compile-time check should not accept

  /** With no slots nothing is ever pushed. */
  ghost predicate NeverPushed<T>(s: Ring<T>) {
    s.size == 0 && s.pushed == [] && (s.push.PushIdle? || s.push.PushLoaded?)
  }

  lemma {:induction false} NoSlotsNoPush<T>(s: Ring<T>, steps: seq<Step<T>>)
    requires Inv(s) && NeverPushed(s) && CanRun(s, steps)
    ensures NeverPushed(Run(s, steps))
    decreases |steps|
  {
    if steps != [] {
      StepKeepsInv(s, steps[0]);
      if steps[0].PushCheck? {
        FullTestExact(s, steps[0].seen);
      }
      NoSlotsNoPush(Apply(s, steps[0]), steps[1..]);
    }
  }

  /** With slots the first push succeeds. */
  lemma FirstPush<T>(size: Word, buffer: seq<T>, item: T) returns (steps: seq<Step<T>>)
    requires StaticAssert(size) && |buffer| == size > 0
    ensures CanRun(Init(size, buffer), steps) && Run(Init(size, buffer), steps).pushed == [item]
  {
    InitInv(size, buffer);
    var s1 := Apply(Init(size, buffer), PushLoad(item));
    StepKeepsInv(Init(size, buffer), PushLoad(item));
    FullTestExact(s1, 0);
    var s2 := Apply(s1, PushCheck(0));
    var s3 := Apply(s2, PushFill);
    var s4 := Apply(s3, PushPublish);
    steps := [PushPublish];
    assert CanRun(s4, []) && steps[1..] == [];
    assert CanRun(s3, steps) && Run(s3, steps) == s4;
    steps := [PushFill] + steps;
    assert CanRun(s2, steps) && Run(s2, steps) == s4;
    steps := [PushCheck(0)] + steps;
    assert CanRun(s1, steps) && Run(s1, steps) == s4;
    steps := [PushLoad(item)] + steps;
  }

  /**
   Among the sizes the compile-time check accepts, zero and only zero makes a ring that refuses
   every push for ever.
   */
  lemma RefusesForeverExactly<T(!new)>(size: Word, buffer: seq<T>, item: T)
    requires StaticAssert(size) && |buffer| == size
    ensures (forall steps :: CanRun(Init(size, buffer), steps) ==> Run(Init(size, buffer), steps).pushed == [])
            <==> size == 0
  {
    if size == 0 {
      InitInv(size, buffer);
      forall steps | CanRun(Init(size, buffer), steps) ensures Run(Init(size, buffer), steps).pushed == [] {
        NoSlotsNoPush(Init(size, buffer), steps);
      }
    } else {
      var steps := FirstPush(size, buffer, item);
    }
  }

  // ----- no data race, in terms of what each thread knows

  /** When the producer writes a slot, every read the consumer made of that slot is in the producer's past. */
  lemma FillHasNoRace<T>(s: Ring<T>, k: nat)
    requires Inv(s) && s.push.PushChecked?
    requires k < |s.takeSlots| && s.takeSlots[k] == SlotOf(s.push.w, s.size)
    ensures k < s.producer.takes
  {
    FillSlotFree(s);
    if k >= s.producer.readStores {
      SlotsDiffer(k, Pushes(s), s.size);
    }
  }

  /** When the consumer reads a slot, every write the producer made to that slot is in the consumer's past. */
  lemma TakeHasNoRace<T>(s: Ring<T>, k: nat)
    requires Inv(s) && s.pop.PopChecked?
    requires k < |s.fillSlots| && s.fillSlots[k] == SlotOf(s.pop.r, s.size)
    ensures k < s.consumer.fills
  {
    TakeSlotFull(s);
  }

  /** Past both checks the two threads address different slots. */
  lemma SlotsDisjoint<T>(s: Ring<T>)
    requires Inv(s) && s.push.PushChecked? && s.pop.PopChecked?
    ensures SlotOf(s.push.w, s.size) != SlotOf(s.pop.r, s.size)
  {
    FillSlotFree(s);
    TakeSlotFull(s);
  }

  /** The three facts above, on every state any run reaches. */
  lemma NoDataRace<T>(size: Word, buffer: seq<T>, steps: seq<Step<T>>)
    requires StaticAssert(size) && |buffer| == size && CanRun(Init(size, buffer), steps)
    ensures var s := Run(Init(size, buffer), steps);
            && (s.push.PushChecked? ==>
                  && SlotOf(s.push.w, s.size) < |s.buffer|
                  && forall k :: 0 <= k < |s.takeSlots| && s.takeSlots[k] == SlotOf(s.push.w, s.size) ==>
                       k < s.producer.takes)
            && (s.pop.PopChecked? ==>
                  && SlotOf(s.pop.r, s.size) < |s.buffer|
                  && forall k :: 0 <= k < |s.fillSlots| && s.fillSlots[k] == SlotOf(s.pop.r, s.size) ==>
                       k < s.consumer.fills)
            && (s.push.PushChecked? && s.pop.PopChecked? ==> SlotOf(s.push.w, s.size) != SlotOf(s.pop.r, s.size))
  {
    InitInv(size, buffer);
    RunKeepsInv(Init(size, buffer), steps);
    var s := Run(Init(size, buffer), steps);
    if s.push.PushChecked? {
      FillSlotFree(s);
      forall k | 0 <= k < |s.takeSlots| && s.takeSlots[k] == SlotOf(s.push.w, s.size) ensures k < s.producer.takes {
        FillHasNoRace(s, k);
      }
    }
    if s.pop.PopChecked? {
      TakeSlotFull(s);
      forall k | 0 <= k < |s.fillSlots| && s.fillSlots[k] == SlotOf(s.pop.r, s.size) ensures k < s.consumer.fills {
        TakeHasNoRace(s, k);
      }
    }
    if s.push.PushChecked? && s.pop.PopChecked? {
      SlotsDisjoint(s);
    }
  }
}

/**
 `SPSCRingBuffer` as a state machine over its atomic actions, under release/acquire.

 An atomic index is the history of the values stored to it.  Each store carries what its thread
 knew when it stored (a release); a load by the other thread may return any store not older than
 the last one that thread knows of (coherence) and adds the knowledge that store carries (an
 acquire).  A thread's load of its own index is exact, because only that thread stores to it.
 The slots of the buffer are plain memory: the order in which they are accessed is recorded, so
 that a data race is a statement about that record and about what each thread knows.
 */
module SpscRing {
  import opened Words
  import Fifo

  /** How many stores to each index, slot writes and slot reads a thread knows to be in its past. */
  datatype View = View(writeStores: nat, readStores: nat, fills: nat, takes: nat)

  function Max(a: nat, b: nat): nat {
    if a < b then b else a
  }

  function Join(a: View, b: View): View {
    View(Max(a.writeStores, b.writeStores), Max(a.readStores, b.readStores),
         Max(a.fills, b.fills), Max(a.takes, b.takes))
  }

  /** One store to an atomic index. */
  datatype Store = Store(value: Word, view: View)

  /** Where the producer is inside `push`, with its local variable `current_write`. */
  datatype PushPc<T> = PushIdle | PushLoaded(item: T, w: Word) | PushChecked(item: T, w: Word)
      | PushFilled(item: T, w: Word)

  /** Where the consumer is inside `pop`, with its local variable `current_read`. */
  datatype PopPc<T> = PopIdle | PopLoaded(r: Word) | PopChecked(r: Word) | PopTook(r: Word, out: T)

  datatype Ring<T> = Ring(
    size: Word,
    writeIdx: seq<Store>,    // every store to write_idx, the initial zero first
    readIdx: seq<Store>,     // every store to read_idx, the initial zero first
    buffer: seq<T>,
    push: PushPc<T>,
    pop: PopPc<T>,
    producer: View,          // what the producer knows
    consumer: View,          // what the consumer knows
    fillSlots: seq<nat>,     // the slot of every write by the producer, in order
    takeSlots: seq<nat>,     // the slot of every read by the consumer, in order
    pushed: seq<T>,          // items of the pushes that returned true
    popped: seq<T>)          // items of the pops that returned true

  datatype Step<T> =
    | PushLoad(item: T)      // call push(item), load write_idx
    | PushCheck(seen: nat)   // load read_idx: the store number `seen`; compare
    | PushFill               // write the slot
    | PushPublish            // store write_idx, return true
    | PopLoad                // call pop, load read_idx
    | PopCheck(seen: nat)    // load write_idx: the store number `seen`; compare
    | PopTake(left: T)       // read the slot, leaving `left` behind (the moved-from value)
    | PopPublish             // store read_idx, return true
    | PopLearn(view: View)   // between calls the consumer acquires, through some other atomic, a view that is true

  function Init<T>(size: Word, buffer: seq<T>): Ring<T> {
    var zero := Store(0, View(0, 0, 0, 0));
    Ring(size, [zero], [zero], buffer, PushIdle, PopIdle, zero.view, zero.view, [], [], [], [])
  }

  predicate Enabled<T>(s: Ring<T>, st: Step<T>) {
    match st
    case PushLoad(_) => s.push.PushIdle? && |s.writeIdx| > 0
    case PushCheck(m) => s.push.PushLoaded? && s.producer.readStores <= m < |s.readIdx|
    case PushFill => s.push.PushChecked?
    case PushPublish => s.push.PushFilled?
    case PopLoad => s.pop.PopIdle? && |s.readIdx| > 0
    case PopCheck(m) => s.pop.PopLoaded? && s.consumer.writeStores <= m < |s.writeIdx|
    case PopTake(_) => s.pop.PopChecked?
    case PopPublish => s.pop.PopTook?
    case PopLearn(v) => s.pop.PopIdle? && TrueView(s, v)
  }

  /** A view that does not run ahead of what happened, as every published view is. */
  predicate TrueView<T>(s: Ring<T>, v: View) {
    && v.writeStores < |s.writeIdx| && v.writeStores <= v.fills <= |s.fillSlots|
    && v.readStores < |s.readIdx| && v.takes <= |s.takeSlots|
  }

  function Apply<T>(s: Ring<T>, st: Step<T>): Ring<T>
    requires Enabled(s, st)
  {
    match st
    case PushLoad(item) => s.(push := PushLoaded(item, s.writeIdx[|s.writeIdx| - 1].value))
    case PushCheck(m) => StepPushCheck(s, m)
    case PushFill => StepPushFill(s)
    case PushPublish => StepPushPublish(s)
    case PopLoad => s.(pop := PopLoaded(s.readIdx[|s.readIdx| - 1].value))
    case PopCheck(m) => StepPopCheck(s, m)
    case PopTake(left) => StepPopTake(s, left)
    case PopPublish => StepPopPublish(s)
    case PopLearn(v) => s.(consumer := Join(s.consumer, v))
  }

  /** The full test, `next_write - read_idx.load(acquire) > Size`, on words. */
  predicate LooksFull(w: Word, r: Word, size: Word) {
    WordSub(WordAdd(w, 1), r) > size
  }

  function StepPushCheck<T>(s: Ring<T>, m: nat): Ring<T>
    requires Enabled(s, PushCheck(m))
  {
    s.(producer := Join(s.producer.(readStores := m), s.readIdx[m].view),
       push := if LooksFull(s.push.w, s.readIdx[m].value, s.size) then PushIdle
               else PushChecked(s.push.item, s.push.w))
  }

  function StepPushFill<T>(s: Ring<T>): Ring<T>
    requires Enabled(s, PushFill)
  {
    var slot := SlotOf(s.push.w, s.size);
    s.(buffer := if slot < |s.buffer| then s.buffer[slot := s.push.item] else s.buffer,
       fillSlots := s.fillSlots + [slot],
       producer := s.producer.(fills := |s.fillSlots| + 1),
       push := PushFilled(s.push.item, s.push.w))
  }

  function StepPushPublish<T>(s: Ring<T>): Ring<T>
    requires Enabled(s, PushPublish)
  {
    var view := s.producer.(writeStores := |s.writeIdx|);
    s.(writeIdx := s.writeIdx + [Store(WordAdd(s.push.w, 1), view)],
       producer := view,
       pushed := s.pushed + [s.push.item],
       push := PushIdle)
  }

  function StepPopCheck<T>(s: Ring<T>, m: nat): Ring<T>
    requires Enabled(s, PopCheck(m))
  {
    s.(consumer := Join(s.consumer.(writeStores := m), s.writeIdx[m].view),
       pop := if s.pop.r == s.writeIdx[m].value then PopIdle else PopChecked(s.pop.r))
  }

  function StepPopTake<T>(s: Ring<T>, left: T): Ring<T>
    requires Enabled(s, PopTake(left))
  {
    var slot := SlotOf(s.pop.r, s.size);
    s.(buffer := if slot < |s.buffer| then s.buffer[slot := left] else s.buffer,
       takeSlots := s.takeSlots + [slot],
       consumer := s.consumer.(takes := |s.takeSlots| + 1),
       pop := PopTook(s.pop.r, if slot < |s.buffer| then s.buffer[slot] else left))
  }

  function StepPopPublish<T>(s: Ring<T>): Ring<T>
    requires Enabled(s, PopPublish)
  {
    var view := s.consumer.(readStores := |s.readIdx|);
    s.(readIdx := s.readIdx + [Store(WordAdd(s.pop.r, 1), view)],
       consumer := view,
       popped := s.popped + [s.pop.out],
       pop := PopIdle)
  }

  // ----- runs: any interleaving, any stale view

  predicate CanRun<T>(s: Ring<T>, steps: seq<Step<T>>)
    decreases |steps|
  {
    steps == [] || (Enabled(s, steps[0]) && CanRun(Apply(s, steps[0]), steps[1..]))
  }

  function Run<T>(s: Ring<T>, steps: seq<Step<T>>): Ring<T>
    requires CanRun(s, steps)
    decreases |steps|
  {
    if steps == [] then s else Run(Apply(s, steps[0]), steps[1..])
  }

  /** What a step shows to the callers: an item enters at the store to write_idx and leaves at the store to read_idx. */
  function Shows<T>(s: Ring<T>, st: Step<T>): Fifo.Event<T>
    requires Enabled(s, st)
  {
    match st
    case PushPublish => Fifo.Enqueue(s.push.item)
    case PopPublish => Fifo.Dequeue(s.pop.out)
    case _ => Fifo.Silent
  }

  function Trace<T>(s: Ring<T>, steps: seq<Step<T>>): seq<Fifo.Event<T>>
    requires CanRun(s, steps)
    decreases |steps|
  {
    if steps == [] then []
    else [Shows(s, steps[0])] + Trace(Apply(s, steps[0]), steps[1..])
  }
}

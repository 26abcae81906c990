/**
 The simple thing both queues of the benchmark must agree with: a first-in first-out queue
 that holds at most `capacity` items.
 */
module Fifo {

  datatype Event<T> = Enqueue(item: T) | Dequeue(item: T) | Silent

  /** One move of the bounded queue. */
  ghost predicate Moves<T>(capacity: nat, q: seq<T>, e: Event<T>, q': seq<T>) {
    match e
    case Enqueue(x) => |q| < capacity && q' == q + [x]
    case Dequeue(x) => q == [x] + q'
    case Silent => q' == q
  }

  /** The queue can go from `q` to `q'` while showing exactly the events `es`. */
  ghost predicate Behaves<T(!new)>(capacity: nat, q: seq<T>, es: seq<Event<T>>, q': seq<T>)
    decreases |es|
  {
    if es == [] then q' == q
    else exists m :: Moves(capacity, q, es[0], m) && Behaves(capacity, m, es[1..], q')
  }

  /** The items that entered, in order. */
  function Entered<T>(es: seq<Event<T>>): seq<T> {
    if es == [] then []
    else (if es[0].Enqueue? then [es[0].item] else []) + Entered(es[1..])
  }

  /** The items that left, in order. */
  function Left<T>(es: seq<Event<T>>): seq<T> {
    if es == [] then []
    else (if es[0].Dequeue? then [es[0].item] else []) + Left(es[1..])
  }

  /** What a bounded queue is for: nothing is lost, duplicated or reordered, and the bound holds. */
  lemma {:induction false} NothingLostOrReordered<T(!new)>(capacity: nat, q: seq<T>, es: seq<Event<T>>, q': seq<T>)
    requires Behaves(capacity, q, es, q') && |q| <= capacity
    ensures q + Entered(es) == Left(es) + q' && |q'| <= capacity
    decreases |es|
  {
    if es != [] {
      var m :| Moves(capacity, q, es[0], m) && Behaves(capacity, m, es[1..], q');
      NothingLostOrReordered(capacity, m, es[1..], q');
      OneMoveConserves(capacity, q, es[0], m, Entered(es[1..]), Left(es[1..]), q');
    }
  }

  lemma OneMoveConserves<T>(capacity: nat, q: seq<T>, e: Event<T>, m: seq<T>, entered: seq<T>, left: seq<T>, q': seq<T>)
    requires Moves(capacity, q, e, m) && m + entered == left + q'
    ensures q + ((if e.Enqueue? then [e.item] else []) + entered) == ((if e.Dequeue? then [e.item] else []) + left) + q'
  {
    match e {
      case Enqueue(x) =>
        assert q + ([x] + entered) == m + entered;
      case Dequeue(x) =>
        assert ([x] + m) + entered == [x] + (m + entered);
        assert ([x] + left) + q' == [x] + (left + q');
      case Silent =>
        assert [] + entered == entered && [] + left == left;
    }
  }
}

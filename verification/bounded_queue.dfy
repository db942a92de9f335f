/**
 A bounded FIFO buffer joining two pipeline stages: Go's buffered channel
 `make(chan T, 10)` and Python's `Queue(maxsize=10)`.

 `Put` on a full buffer does not happen: it blocks, which is `None` here, so a
 scheduler has to run some other stage first. `Take` on an empty buffer blocks
 while the buffer is open and reports `Drained` once it has been closed.
 Python's queues are never closed; they use a `None` item as the end marker.
 */
module BoundedQueue {
  import opened Streams

  datatype Queue<T> = Queue(items: seq<T>, capacity: nat, closed: bool) {
    predicate Valid() {
      |items| <= capacity
    }

    predicate Full() {
      |items| >= capacity
    }
  }

  function Empty<T>(capacity: nat): (q: Queue<T>)
    ensures q.Valid() && q.items == [] && !q.closed && q.capacity == capacity
  {
    Queue([], capacity, false)
  }

  /** Appends `x`, or blocks (`None`) while the buffer is full. */
  function Put<T>(q: Queue<T>, x: T): (r: Option<Queue<T>>)
    ensures r.None? <==> q.Full()
    ensures r.Some? ==> r.value.items == q.items + [x]
    ensures r.Some? ==> r.value.capacity == q.capacity && r.value.closed == q.closed
    ensures q.Valid() && r.Some? ==> r.value.Valid()
  {
    if q.Full() then None else Some(q.(items := q.items + [x]))
  }

  datatype Taken<T> = Took(item: T, rest: Queue<T>) | Drained | Blocked

  /** Removes the oldest item; `Drained` once closed and empty; `Blocked` while
      open and empty. */
  function Take<T>(q: Queue<T>): (r: Taken<T>)
    ensures r.Took? <==> q.items != []
    ensures r.Drained? <==> q.items == [] && q.closed
    ensures r.Took? ==> [r.item] + r.rest.items == q.items
    ensures r.Took? ==> r.rest.capacity == q.capacity && r.rest.closed == q.closed
    ensures q.Valid() && r.Took? ==> r.rest.Valid()
  {
    if q.items != [] then Took(q.items[0], q.(items := q.items[1..]))
    else if q.closed then Drained
    else Blocked
  }

  /** Marks the buffer closed; buffered items stay retrievable. */
  function Close<T>(q: Queue<T>): (r: Queue<T>)
    ensures r.closed
    ensures r.items == q.items && r.capacity == q.capacity
    ensures q.Valid() ==> r.Valid()
  {
    q.(closed := true)
  }

  /** Puts every element of `xs` in order, unless one of the puts would block. */
  function PutAll<T>(q: Queue<T>, xs: seq<T>): Option<Queue<T>>
    decreases |xs|
  {
    if xs == [] then Some(q)
    else match Put(q, xs[0])
      case None => None
      case Some(q') => PutAll(q', xs[1..])
  }

  /** Takes until a take would not yield an item; returns the items taken and
      whether the buffer then reported `Drained`. */
  function TakeAll<T>(q: Queue<T>): (seq<T>, bool)
    decreases |q.items|
  {
    match Take(q)
    case Took(x, rest) => var (xs, d) := TakeAll(rest); ([x] + xs, d)
    case Drained => ([], true)
    case Blocked => ([], false)
  }

  /** Taking everything yields the buffered items in FIFO order; the buffer
      reports `Drained` at the end exactly when it is closed. */
  lemma {:induction false} TakeAllIsFifo<T>(q: Queue<T>)
    ensures TakeAll(q) == (q.items, q.closed)
    decreases |q.items|
  {
    if q.items != [] {
      var rest := q.(items := q.items[1..]);
      TakeAllIsFifo(rest);
      assert [q.items[0]] + q.items[1..] == q.items;
    }
  }

  /** Items put one at a time into a buffer with room for them come back out in
      the order they went in, after the ones already there. */
  lemma {:induction false} PutAllThenTakeAll<T>(q: Queue<T>, xs: seq<T>)
    requires |q.items| + |xs| <= q.capacity
    ensures PutAll(q, xs).Some?
    ensures TakeAll(PutAll(q, xs).value).0 == q.items + xs
    decreases |xs|
  {
    if xs == [] {
      TakeAllIsFifo(q);
      assert q.items + xs == q.items;
    } else {
      var q' := Put(q, xs[0]).value;
      PutAllThenTakeAll(q', xs[1..]);
      assert q'.items + xs[1..] == q.items + xs;
    }
  }

  /** A full buffer rejects the put and keeps its contents. */
  lemma {:induction false} PutAllBlocksWhenFull<T>(q: Queue<T>, xs: seq<T>)
    requires q.Valid() && |q.items| + |xs| > q.capacity
    ensures PutAll(q, xs).None?
    decreases |xs|
  {
    if xs != [] && !q.Full() {
      PutAllBlocksWhenFull(Put(q, xs[0]).value, xs[1..]);
    }
  }

  /** Closing keeps every buffered item retrievable, and closing again changes
      nothing. */
  lemma CloseKeepsBuffered<T>(q: Queue<T>)
    ensures TakeAll(Close(q)) == (q.items, true)
    ensures Close(Close(q)) == Close(q)
  {
    TakeAllIsFifo(Close(q));
  }
}

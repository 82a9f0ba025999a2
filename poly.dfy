/** The multi-consumer cell of src/poly.rs: a result that, once stored, is
    replayed to every consumer clone, and a list of every waker that polled
    before it was stored. */
module Poly {
  import opened Lib

  // ---------------------------------------------------------------------
  // The cell as a value, and one function per critical section
  // ---------------------------------------------------------------------

  /** The fields of `Inner` between two critical sections. */
  datatype CellState<T, E> = CellState(value: Option<Result<T, E>>, wakers: seq<WakerId>)

  /** What `resolve`/`reject` leave behind: the new cell and the wakers woken, in order. */
  datatype Settlement<T, E> = Settlement(cell: CellState<T, E>, woken: seq<WakerId>)

  /** What `poll` leaves behind: the new cell and its report. */
  datatype Polled<T, E> = Polled(cell: CellState<T, E>, report: Poll<Result<T, E>>)

  /** The cell `new` allocates. */
  function Initial<T, E>(): CellState<T, E>
  {
    CellState(None, [])
  }

  /** Once a result is stored no waker is left waiting. */
  predicate ValidCell<T, E>(c: CellState<T, E>)
  {
    c.value.Some? ==> c.wakers == []
  }

  /** The critical section of `resolve` (r = Ok(v)) and of `reject` (r = Err(e)):
      store the result, then drain the waker list, waking each entry. */
  function SettleStep<T, E>(c: CellState<T, E>, r: Result<T, E>): Settlement<T, E>
  {
    Settlement(CellState(Some(r), []), c.wakers)
  }

  /** The critical section of `Consumer::poll`: replay a stored result, or
      push the caller's waker and report `Pending`. */
  function PollStep<T, E>(c: CellState<T, E>, w: WakerId): Polled<T, E>
  {
    match c.value
    case Some(r) => Polled(c, Ready(r))
    case None => Polled(c.(wakers := c.wakers + [w]), Pending)
  }

  /** Polls by the wakers `ws`, one after another: before the result is stored
      every poll registers its waker behind the earlier ones and is `Pending`;
      afterwards every poll replays the result and the cell does not change. */
  function PollAll<T, E>(c: CellState<T, E>, ws: seq<WakerId>): (r: (CellState<T, E>, seq<Poll<Result<T, E>>>))
    ensures |r.1| == |ws|
    ensures c.value.None? ==> r.0 == CellState(None, c.wakers + ws) && AllPending(r.1)
    ensures c.value.Some? ==> r.0 == c && AllReady(r.1, c.value.value)
    decreases |ws|
  {
    if ws == [] then (c, [])
    else
      var p := PollStep(c, ws[0]);
      var rest := PollAll(p.cell, ws[1..]);
      assert c.wakers + ws == c.wakers + [ws[0]] + ws[1..];
      (rest.0, [p.report] + rest.1)
  }

  // ---------------------------------------------------------------------
  // Histories
  // ---------------------------------------------------------------------

  /** One critical section of some handle on the cell. */
  datatype Event<T, E> = PollBy(w: WakerId) | Resolve(v: T) | Reject(e: E)

  function Apply<T, E>(c: CellState<T, E>, ev: Event<T, E>): CellState<T, E>
  {
    match ev
    case PollBy(w) => PollStep(c, w).cell
    case Resolve(v) => SettleStep(c, Ok(v)).cell
    case Reject(e) => SettleStep(c, Err(e)).cell
  }

  /** The cell after the critical sections `evs`, in the order the lock admitted them. */
  function Run<T, E>(c: CellState<T, E>, evs: seq<Event<T, E>>): CellState<T, E>
    decreases |evs|
  {
    if evs == [] then c else Run(Apply(c, evs[0]), evs[1..])
  }

  /** Every interleaving of polls, resolves and rejects keeps a settled cell free of waiters. */
  lemma {:induction false} RunKeepsValid<T, E>(c: CellState<T, E>, evs: seq<Event<T, E>>)
    requires ValidCell(c)
    ensures ValidCell(Run(c, evs))
    decreases |evs|
  {
    if evs != [] {
      RunKeepsValid(Apply(c, evs[0]), evs[1..]);
    }
  }

  /** Every history of one cell: since the producer settles at most once, it is
      polls by `before`, then one settle with `r`, then polls by `after`.
      Every early poll is `Pending`; the settle makes one wake per `Pending`
      poll, in registration order (a waker that polled twice is woken twice);
      every later poll, from any clone, replays `r`; and the cell ends
      settled with no waiter. */
  lemma {:induction false} SettleWakesEveryWaiter<T, E>(before: seq<WakerId>, r: Result<T, E>, after: seq<WakerId>)
    ensures var early := PollAll(Initial<T, E>(), before);
            var s := SettleStep(early.0, r);
            var late := PollAll(s.cell, after);
            && AllPending(early.1)
            && s.woken == before
            && AllReady(late.1, r)
            && late.0 == CellState(Some(r), [])
  {
    // follows from the contract of PollAll
  }

  /** A producer that never settles (it is dropped: there is no `Drop` impl)
      leaves every consumer `Pending` for ever, and nobody is ever woken. */
  lemma {:induction false} UnsettledPollsStayPending<T, E>(ws: seq<WakerId>, more: seq<WakerId>)
    ensures var first := PollAll(Initial<T, E>(), ws);
            var second := PollAll(first.0, more);
            && AllPending(first.1) && AllPending(second.1)
            && second.0 == CellState(None, ws + more)
  {
    // follows from the contract of PollAll
  }

  // ---------------------------------------------------------------------
  // The handles, over one shared mutable cell
  // ---------------------------------------------------------------------

  /** `Inner`: the lock-guarded cell that the producer and every consumer clone share. */
  class Inner<T, E> {
    var value: Option<Result<T, E>>
    var wakers: seq<WakerId>

    ghost function State(): CellState<T, E>
      reads this
    {
      CellState(value, wakers)
    }

    /** The cell keeps `ValidCell` between critical sections. */
    ghost predicate Valid()
      reads this
    {
      ValidCell(State())
    }

    constructor ()
      ensures State() == Initial() && Valid()
    {
      value := None;
      wakers := [];
    }

    /** Store `r`, then drain the waker list front to back, waking each entry. */
    method Settle(r: Result<T, E>) returns (woken: seq<WakerId>)
      requires Valid()
      modifies this
      ensures Valid()
      ensures value == Some(r) && wakers == []
      ensures woken == old(wakers)
      ensures Settlement(State(), woken) == SettleStep(old(State()), r)
    {
      value := Some(r);
      woken := [];
      while wakers != []
        invariant woken + wakers == old(wakers)
        invariant value == Some(r)
        decreases |wakers|
      {
        woken := woken + [wakers[0]];
        wakers := wakers[1..];
      }
    }
  }

  /** `Producer`: the single-use handle that settles the cell. */
  class Producer<T, E> {
    const promise: Inner<T, E>
    /** The handle has been consumed by `resolve` or `reject` (Rust moves `self`). */
    ghost var used: bool

    /** A live producer faces an empty cell; a consumed one, the result it stored. */
    ghost predicate Valid()
      reads this, promise
    {
      promise.Valid() && (used <==> promise.value.Some?)
    }

    constructor (promise: Inner<T, E>)
      ensures this.promise == promise && !used
    {
      this.promise := promise;
      used := false;
    }

    /** `resolve`: store `Ok(v)` and wake every registered waker, in registration order. */
    method Resolve(v: T) returns (woken: seq<WakerId>)
      requires Valid() && !used
      modifies this, promise
      ensures used && Valid()
      ensures promise.value == Some(Ok(v)) && promise.wakers == []
      ensures woken == old(promise.wakers)
      ensures Settlement(promise.State(), woken) == SettleStep(old(promise.State()), Ok(v))
    {
      used := true;
      woken := promise.Settle(Ok(v));
    }

    /** `reject`: store `Err(e)` and wake every registered waker, in registration order. */
    method Reject(e: E) returns (woken: seq<WakerId>)
      requires Valid() && !used
      modifies this, promise
      ensures used && Valid()
      ensures promise.value == Some(Err(e)) && promise.wakers == []
      ensures woken == old(promise.wakers)
      ensures Settlement(promise.State(), woken) == SettleStep(old(promise.State()), Err(e))
    {
      used := true;
      woken := promise.Settle(Err(e));
    }
  }

  /** `Consumer`: a clonable handle; every clone polls the same cell. */
  class Consumer<T, E> {
    const promise: Inner<T, E>

    constructor (promise: Inner<T, E>)
      ensures this.promise == promise
    {
      this.promise := promise;
    }

    /** `#[derive(Clone)]`: a new handle on the same cell. */
    method Clone() returns (c: Consumer<T, E>)
      ensures fresh(c) && c.promise == promise
    {
      c := new Consumer(promise);
    }

    /** `poll`: replay the stored result without removing it, or append the
        caller's waker behind the earlier ones and report `Pending`. */
    method Poll(w: WakerId) returns (p: Poll<Result<T, E>>)
      requires promise.Valid()
      modifies promise`wakers
      ensures promise.Valid()
      ensures promise.value == old(promise.value)
      ensures old(promise.value).Some? ==> p == Ready(old(promise.value).value) && promise.wakers == old(promise.wakers)
      ensures old(promise.value).None? ==> p == Pending && promise.wakers == old(promise.wakers) + [w]
      ensures Polled(promise.State(), p) == PollStep(old(promise.State()), w)
    {
      match promise.value {
        case Some(r) =>
          p := Ready(r);
        case None =>
          promise.wakers := promise.wakers + [w];
          p := Pending;
      }
    }
  }

  /** `Producer::new`: one empty cell shared by a live producer and a consumer. */
  method New<T, E>() returns (producer: Producer<T, E>, consumer: Consumer<T, E>)
    ensures fresh(producer) && fresh(consumer) && fresh(producer.promise)
    ensures consumer.promise == producer.promise
    ensures producer.promise.State() == Initial() && !producer.used && producer.Valid()
  {
    var inner := new Inner();
    producer := new Producer(inner);
    consumer := new Consumer(inner);
  }

  /** Two clones of one consumer poll before a single `resolve`: both are
      `Pending`, the resolve wakes both in the order they polled, and both
      then read the same result. */
  method TwoConsumersResolve<T, E>(v: T, wa: WakerId, wb: WakerId)
    returns (a1: Poll<Result<T, E>>, b1: Poll<Result<T, E>>, woken: seq<WakerId>,
             a2: Poll<Result<T, E>>, b2: Poll<Result<T, E>>)
    ensures a1 == Pending && b1 == Pending
    ensures woken == [wa, wb]
    ensures a2 == Ready(Ok(v)) && b2 == Ready(Ok(v))
  {
    var producer, a := New<T, E>();
    var b := a.Clone();
    a1 := a.Poll(wa);
    b1 := b.Poll(wb);
    woken := producer.Resolve(v);
    a2 := a.Poll(wa);
    b2 := b.Poll(wb);
  }
}

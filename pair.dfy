/** The single-consumer cell of src/pair.rs: the consumer takes the result
    out of the cell, and the cell remembers only the most recent waker. */
module Pair {
  import opened Lib

  // ---------------------------------------------------------------------
  // The cell as a value, and one function per critical section
  // ---------------------------------------------------------------------

  /** The fields of `Inner` between two critical sections. */
  datatype CellState<T, E> = CellState(value: Option<Result<T, E>>, waker: Option<WakerId>)

  /** What `resolve`/`reject` leave behind: the new cell and the waker woken, if any. */
  datatype Settlement<T, E> = Settlement(cell: CellState<T, E>, woken: Option<WakerId>)

  /** What `poll` leaves behind: the new cell and its report. */
  datatype Polled<T, E> = Polled(cell: CellState<T, E>, report: Poll<Result<T, E>>)

  /** The cell `pair` allocates. */
  function Initial<T, E>(): CellState<T, E>
  {
    CellState(None, None)
  }

  /** A stored result has no waker beside it. */
  predicate ValidCell<T, E>(c: CellState<T, E>)
  {
    c.value.Some? ==> c.waker.None?
  }

  /** The critical section of `resolve` (r = Ok(v)) and of `reject` (r = Err(e)):
      store the result, then take the stored waker and wake it. */
  function SettleStep<T, E>(c: CellState<T, E>, r: Result<T, E>): Settlement<T, E>
  {
    Settlement(CellState(Some(r), None), c.waker)
  }

  /** The critical section of `Consumer::poll`: take the stored result, or
      replace the stored waker with the caller's and report `Pending`. */
  function PollStep<T, E>(c: CellState<T, E>, w: WakerId): Polled<T, E>
  {
    match c.value
    case Some(r) => Polled(c.(value := None), Ready(r))
    case None => Polled(c.(waker := Some(w)), Pending)
  }

  /** Polls by the wakers `ws`, one after another: a stored result goes to the
      first poll only, every other poll is `Pending`, and the cell keeps only
      the waker of the last `Pending` poll. */
  function PollAll<T, E>(c: CellState<T, E>, ws: seq<WakerId>): (r: (CellState<T, E>, seq<Poll<Result<T, E>>>))
    ensures |r.1| == |ws|
    ensures ws == [] ==> r.0 == c
    ensures ws != [] && c.value.Some? ==>
              && r.1[0] == Ready(c.value.value) && AllPending(r.1[1..])
              && r.0 == CellState(None, if |ws| == 1 then c.waker else Some(Last(ws)))
    ensures ws != [] && c.value.None? ==> AllPending(r.1) && r.0 == CellState(None, Some(Last(ws)))
    decreases |ws|
  {
    if ws == [] then (c, [])
    else
      var p := PollStep(c, ws[0]);
      var rest := PollAll(p.cell, ws[1..]);
      assert ([p.report] + rest.1)[1..] == rest.1;
      (rest.0, [p.report] + rest.1)
  }

  // ---------------------------------------------------------------------
  // Histories
  // ---------------------------------------------------------------------

  /** One critical section of some handle on the cell. */
  datatype Event<T, E> = PollBy(w: WakerId) | Resolve(v: T) | Reject(e: E)

  function Apply<T, E>(c: CellState<T, E>, ev: Event<T, E>): CellState<T, E>
  {
    match ev
    case PollBy(w) => PollStep(c, w).cell
    case Resolve(v) => SettleStep(c, Ok(v)).cell
    case Reject(e) => SettleStep(c, Err(e)).cell
  }

  /** The cell after the critical sections `evs`, in the order the lock admitted them. */
  function Run<T, E>(c: CellState<T, E>, evs: seq<Event<T, E>>): CellState<T, E>
    decreases |evs|
  {
    if evs == [] then c else Run(Apply(c, evs[0]), evs[1..])
  }

  /** Every interleaving of polls, resolves and rejects keeps a stored result free of a waker. */
  lemma {:induction false} RunKeepsValid<T, E>(c: CellState<T, E>, evs: seq<Event<T, E>>)
    requires ValidCell(c)
    ensures ValidCell(Run(c, evs))
    decreases |evs|
  {
    if evs != [] {
      RunKeepsValid(Apply(c, evs[0]), evs[1..]);
    }
  }

  /** Every history of one cell: polls by `before`, one settle with `r`, polls
      by `after`. The early polls are `Pending`; the settle wakes only the
      most recent of them; the first later poll takes `r`, and every poll
      after it is `Pending` again, because the result is gone. */
  lemma {:induction false} TakeOnce<T, E>(before: seq<WakerId>, r: Result<T, E>, after: seq<WakerId>)
    ensures var early := PollAll(Initial<T, E>(), before);
            var s := SettleStep(early.0, r);
            var late := PollAll(s.cell, after);
            && AllPending(early.1)
            && s.woken == (if before == [] then None else Some(Last(before)))
            && (after != [] ==> late.1[0] == Ready(r) && AllPending(late.1[1..]))
            && late.0.value == (if after == [] then Some(r) else None)
  {
    // follows from the contract of PollAll
  }

  // ---------------------------------------------------------------------
  // The handles, over one shared mutable cell
  // ---------------------------------------------------------------------

  /** `Inner`: the lock-guarded cell the producer and the consumer share. */
  class Inner<T, E> {
    var value: Option<Result<T, E>>
    var waker: Option<WakerId>

    ghost function State(): CellState<T, E>
      reads this
    {
      CellState(value, waker)
    }

    /** The cell keeps `ValidCell` between critical sections. */
    ghost predicate Valid()
      reads this
    {
      ValidCell(State())
    }

    constructor ()
      ensures State() == Initial() && Valid()
    {
      value := None;
      waker := None;
    }

    /** Store `r`, then take the stored waker (leaving `None`) and wake it. */
    method Settle(r: Result<T, E>) returns (woken: Option<WakerId>)
      requires Valid()
      modifies this
      ensures Valid()
      ensures value == Some(r) && waker == None
      ensures woken == old(waker)
      ensures Settlement(State(), woken) == SettleStep(old(State()), r)
    {
      value := Some(r);
      woken := waker;
      waker := None;
    }
  }

  /** `Promise`: the single-use producer handle. */
  class Producer<T, E> {
    const promise: Inner<T, E>
    /** The handle has been consumed by `resolve` or `reject` (Rust moves `self`). */
    ghost var used: bool

    /** While the producer is live the cell holds no result. */
    ghost predicate Valid()
      reads this, promise
    {
      promise.Valid() && (!used ==> promise.value.None?)
    }

    constructor (promise: Inner<T, E>)
      ensures this.promise == promise && !used
    {
      this.promise := promise;
      used := false;
    }

    /** `resolve`: store `Ok(v)` and wake the stored waker, if there is one. */
    method Resolve(v: T) returns (woken: Option<WakerId>)
      requires Valid() && !used
      modifies this, promise
      ensures used && Valid()
      ensures promise.value == Some(Ok(v)) && promise.waker == None
      ensures woken == old(promise.waker)
      ensures Settlement(promise.State(), woken) == SettleStep(old(promise.State()), Ok(v))
    {
      used := true;
      woken := promise.Settle(Ok(v));
    }

    /** `reject`: store `Err(e)` and wake the stored waker, if there is one. */
    method Reject(e: E) returns (woken: Option<WakerId>)
      requires Valid() && !used
      modifies this, promise
      ensures used && Valid()
      ensures promise.value == Some(Err(e)) && promise.waker == None
      ensures woken == old(promise.waker)
      ensures Settlement(promise.State(), woken) == SettleStep(old(promise.State()), Err(e))
    {
      used := true;
      woken := promise.Settle(Err(e));
    }
  }

  /** `Consumer`: the one handle that reads the cell. */
  class Consumer<T, E> {
    const promise: Inner<T, E>

    constructor (promise: Inner<T, E>)
      ensures this.promise == promise
    {
      this.promise := promise;
    }

    /** `poll`: take the stored result (leaving `None`), or replace the stored
        waker with the caller's and report `Pending`. */
    method Poll(w: WakerId) returns (p: Poll<Result<T, E>>)
      requires promise.Valid()
      modifies promise
      ensures promise.Valid()
      ensures promise.value == None
      ensures old(promise.value).Some? ==> p == Ready(old(promise.value).value) && promise.waker == old(promise.waker)
      ensures old(promise.value).None? ==> p == Pending && promise.waker == Some(w)
      ensures Polled(promise.State(), p) == PollStep(old(promise.State()), w)
    {
      var taken := promise.value;
      promise.value := None;
      match taken {
        case Some(r) =>
          p := Ready(r);
        case None =>
          promise.waker := Some(w);
          p := Pending;
      }
    }
  }

  /** `Promise::pair`: one empty cell shared by a live producer and its consumer. */
  method NewPair<T, E>() returns (producer: Producer<T, E>, consumer: Consumer<T, E>)
    ensures fresh(producer) && fresh(consumer) && fresh(producer.promise)
    ensures consumer.promise == producer.promise
    ensures producer.promise.State() == Initial() && !producer.used && producer.Valid()
  {
    var inner := new Inner();
    producer := new Producer(inner);
    consumer := new Consumer(inner);
  }

  /** The consumer polls first and is `Pending`; `resolve` wakes its waker;
      the re-poll takes the result; one more poll finds the cell empty again
      and is `Pending`. */
  method AwaitThenResolve<T, E>(v: T, w: WakerId)
    returns (p1: Poll<Result<T, E>>, woken: Option<WakerId>, p2: Poll<Result<T, E>>, p3: Poll<Result<T, E>>)
    ensures p1 == Pending && woken == Some(w)
    ensures p2 == Ready(Ok(v)) && p3 == Pending
  {
    var producer, consumer := NewPair<T, E>();
    p1 := consumer.Poll(w);
    woken := producer.Resolve(v);
    p2 := consumer.Poll(w);
    p3 := consumer.Poll(w);
  }
}

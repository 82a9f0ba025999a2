/** The channel-backed cell of src/channel.rs: values travel through a
    multi-producer, single-consumer FIFO channel; a lock-guarded slot holds
    either the consumer's waker or a `WakerState` (`Fresh`, `Tainted`). */
module Channel {
  import opened Lib

  // ---------------------------------------------------------------------
  // The cell as a value, and one function per atomic step
  // ---------------------------------------------------------------------

  /** `std::sync::mpsc::TryRecvError`. */
  datatype TryRecvError = Empty | Disconnected

  /** The channel (queue, live senders, live receiver) and the `Inner` waker slot. */
  datatype CellState<T> = CellState(queue: seq<T>, senders: nat, receiverAlive: bool,
                                    waker: Result<WakerId, WakerState>)

  /** What `resolve` (or one of its steps) leaves behind: the new cell and the waker woken, if any. */
  datatype Settlement<T> = Settlement(cell: CellState<T>, woken: Option<WakerId>)

  /** What `poll` leaves behind: the new cell and its report. */
  datatype Polled<T> = Polled(cell: CellState<T>, report: Poll<Result<T, Error>>)

  /** The cell `new` creates: an empty channel with one sender (the producer's)
      and one receiver (the consumer's), and a `Fresh` slot. */
  function Initial<T>(): CellState<T>
  {
    CellState([], 1, true, Err(Fresh))
  }

  /** `Receiver::try_recv`: the front value, else `Empty` while a sender lives, else `Disconnected`. */
  function TryRecvStep<T>(queue: seq<T>, senders: nat): Result<T, TryRecvError>
  {
    if queue != [] then Ok(queue[0])
    else if senders == 0 then Err(Disconnected)
    else Err(Empty)
  }

  /** `Sender::send`: append at the back while the receiver lives; otherwise hand the value back. */
  function SendStep<T>(c: CellState<T>, v: T): Result<CellState<T>, T>
  {
    if c.receiverAlive then Ok(c.(queue := c.queue + [v])) else Err(v)
  }

  /** The critical section of `resolve`: swap the slot to `Tainted` and wake
      the waker that was in it, if it held one. */
  function TaintStep<T>(c: CellState<T>): Settlement<T>
  {
    var woken := match c.waker
      case Ok(w) => Some(w)
      case Err(_) => None;
    Settlement(c.(waker := Err(Tainted)), woken)
  }

  /** Dropping a `Sender`: one fewer live sender; nothing else changes and nobody is woken. */
  function DropSenderStep<T>(c: CellState<T>): CellState<T>
    requires c.senders > 0
  {
    c.(senders := c.senders - 1)
  }

  /** `resolve(self, v)`: send (the `unwrap` succeeds because the receiver
      lives), taint the slot, then drop `self` and with it its sender. */
  function ResolveStep<T>(c: CellState<T>, v: T): Settlement<T>
    requires c.receiverAlive && c.senders > 0
  {
    var t := TaintStep(SendStep(c, v).value);
    Settlement(DropSenderStep(t.cell), t.woken)
  }

  /** What the first step of `poll` leaves behind: the new cell and what `try_recv` said. */
  datatype Received<T> = Received(cell: CellState<T>, result: Result<T, TryRecvError>)

  /** The first step of `Consumer::poll`, taken without the lock: `try_recv`,
      which removes the front value if there is one. */
  function ReceiveStep<T>(c: CellState<T>): Received<T>
  {
    match TryRecvStep(c.queue, c.senders)
    case Ok(v) => Received(c.(queue := c.queue[1..]), Ok(v))
    case Err(e) => Received(c, Err(e))
  }

  /** The second step of `Consumer::poll`, the critical section it enters
      after `try_recv` said `Empty`: swap the caller's waker into the slot
      and report `ProducerDropped` if the slot was `Tainted`, else `Pending`.
      It does not look at the channel again. */
  function RegisterStep<T>(c: CellState<T>, w: WakerId): Polled<T>
  {
    var report := match c.waker
      case Err(Tainted) => Ready(Err(ProducerDropped))
      case _ => Pending;
    Polled(c.(waker := Ok(w)), report)
  }

  /** `Consumer::poll` with no step of another handle between its two steps:
      take the front value; on an empty but connected channel register the
      caller's waker; on a disconnected channel report `ProducerDropped` and
      leave the slot. */
  function PollStep<T>(c: CellState<T>, w: WakerId): Polled<T>
  {
    var r := ReceiveStep(c);
    match r.result
    case Ok(v) => Polled(r.cell, Ready(Ok(v)))
    case Err(Empty) => RegisterStep(r.cell, w)
    case Err(Disconnected) => Polled(r.cell, Ready(Err(ProducerDropped)))
  }

  /** A whole `resolve` may run between the two steps of a poll: `try_recv`
      finds the channel empty, `resolve` queues `v`, finds no waker to wake
      and taints the slot, and the poll's critical section then finds
      `Tainted` and reports `ProducerDropped` while `v` sits in the queue.
      The poll is `Ready`, so the future is finished and `v` never reaches
      the consumer. This holds from any cell the poll finds empty and
      connected, with a single producer as much as with clones. */
  lemma ResolveBetweenReceiveAndRegister<T>(c: CellState<T>, v: T, w: WakerId)
    requires c.receiverAlive && ReceiveStep(c).result == Err(Empty)
    ensures var r := ReceiveStep(c);
            var s := ResolveStep(r.cell, v);
            var reg := RegisterStep(s.cell, w);
            && s.woken == (if c.waker.Ok? then Some(c.waker.value) else None)
            && reg.report == Ready(Err(ProducerDropped))
            && reg.cell.queue == [v]
  {
  }

  /** The register step with the evident intent of the code: when the swap
      finds `Tainted`, look at the channel again before reporting the
      producer gone, and deliver a value that a racing `resolve` queued. */
  function RegisterStepFixed<T>(c: CellState<T>, w: WakerId): (r: Polled<T>)
    ensures r.report == Ready(Err(ProducerDropped)) ==> c.queue == []
    ensures c.queue != [] && c.waker == Err(Tainted) ==>
              r.report == Ready(Ok(c.queue[0])) && r.cell.queue == c.queue[1..]
    ensures c.queue == [] ==> r == RegisterStep(c, w)
  {
    match c.waker
    case Err(Tainted) =>
      (match TryRecvStep(c.queue, c.senders)
       case Ok(v) => Polled(c.(queue := c.queue[1..], waker := Ok(w)), Ready(Ok(v)))
       case Err(_) => Polled(c.(waker := Ok(w)), Ready(Err(ProducerDropped))))
    case _ => RegisterStep(c, w)
  }

  /** With the corrected register step, the interleaving of
      `ResolveBetweenReceiveAndRegister` delivers `v` and leaves the queue
      empty; and wherever no step ran between the two, the corrected poll
      is the poll as written, so every history lemma below holds for it. */
  lemma {:induction false} FixedRegisterDeliversRacingValue<T>(c: CellState<T>, v: T, w: WakerId)
    requires c.receiverAlive && ReceiveStep(c).result == Err(Empty)
    ensures var r := ReceiveStep(c);
            var reg := RegisterStepFixed(ResolveStep(r.cell, v).cell, w);
            && reg.report == Ready(Ok(v))
            && reg.cell.queue == []
            && RegisterStepFixed(r.cell, w) == RegisterStep(r.cell, w)
  {
    // follows from the contract of RegisterStepFixed
  }

  /** Polls by the wakers `ws`, one after another, with nothing else in between. */
  function PollAll<T>(c: CellState<T>, ws: seq<WakerId>): (r: (CellState<T>, seq<Poll<Result<T, Error>>>))
    ensures |r.1| == |ws|
    ensures r.0.senders == c.senders && r.0.receiverAlive == c.receiverAlive
    decreases |ws|
  {
    if ws == [] then (c, [])
    else
      var p := PollStep(c, ws[0]);
      var rest := PollAll(p.cell, ws[1..]);
      (rest.0, [p.report] + rest.1)
  }

  /** While values are queued, polls receive them front to back and leave the slot alone. */
  lemma {:induction false} PollsTakeQueued<T>(c: CellState<T>, ws: seq<WakerId>)
    requires |ws| <= |c.queue|
    ensures var r := PollAll(c, ws);
            && r.0 == c.(queue := c.queue[|ws|..])
            && forall i :: 0 <= i < |ws| ==> r.1[i] == Ready(Ok(c.queue[i]))
    decreases |ws|
  {
    if ws != [] {
      var p := PollStep(c, ws[0]);
      PollsTakeQueued(p.cell, ws[1..]);
      assert c.queue[1..][|ws| - 1..] == c.queue[|ws|..];
    }
  }

  /** Once no sender is left, polls drain the queue front to back and then
      report `ProducerDropped` for ever, never touching the slot. */
  lemma {:induction false} PollsWhenDisconnected<T>(c: CellState<T>, ws: seq<WakerId>)
    requires c.senders == 0
    ensures var r := PollAll(c, ws);
            && r.0.waker == c.waker
            && forall i :: 0 <= i < |ws| ==>
                 r.1[i] == (if i < |c.queue| then Ready(Ok(c.queue[i])) else Ready(Err(ProducerDropped)))
    decreases |ws|
  {
    if ws != [] {
      var p := PollStep(c, ws[0]);
      PollsWhenDisconnected(p.cell, ws[1..]);
    }
  }

  /** On an empty channel that a sender still holds open, the first poll
      reports `ProducerDropped` if and only if the slot was `Tainted`; every
      later poll is `Pending`; the slot ends holding the last poller's waker. */
  lemma {:induction false} PollsWhenEmpty<T>(c: CellState<T>, ws: seq<WakerId>)
    requires c.queue == [] && c.senders > 0 && ws != []
    ensures var r := PollAll(c, ws);
            && r.0 == c.(waker := Ok(Last(ws)))
            && r.1[0] == (if c.waker == Err(Tainted) then Ready(Err(ProducerDropped)) else Pending)
            && AllPending(r.1[1..])
    decreases |ws|
  {
    var p := PollStep(c, ws[0]);
    var rest := PollAll(p.cell, ws[1..]);
    if |ws| > 1 {
      PollsWhenEmpty(p.cell, ws[1..]);
      assert p.cell.waker != Err(Tainted);
      assert Last(ws[1..]) == Last(ws);
    }
    assert PollAll(c, ws).1[1..] == rest.1;
  }

  /** Polls by `a` and then by `b` are the polls by `a + b`: the second
      series starts from the cell the first leaves, and the reports join. */
  lemma {:induction false} PollAllAppend<T>(c: CellState<T>, a: seq<WakerId>, b: seq<WakerId>)
    ensures var first := PollAll(c, a);
            var second := PollAll(first.0, b);
            PollAll(c, a + b) == (second.0, first.1 + second.1)
    decreases |a|
  {
    if a == [] {
      assert a + b == b;
      assert [] + PollAll(c, b).1 == PollAll(c, b).1;
    } else {
      var p := PollStep(c, a[0]);
      assert (a + b)[0] == a[0] && (a + b)[1..] == a[1..] + b;
      PollAllAppend(p.cell, a[1..], b);
      var rest := PollAll(p.cell, a[1..]);
      var second := PollAll(rest.0, b);
      calc {
        PollAll(c, a + b);
        (PollAll(p.cell, a[1..] + b).0, [p.report] + PollAll(p.cell, a[1..] + b).1);
        (second.0, [p.report] + (rest.1 + second.1));
        { assert [p.report] + (rest.1 + second.1) == ([p.report] + rest.1) + second.1; }
        (second.0, PollAll(c, a).1 + second.1);
      }
    }
  }

  /** More polls than queued values on a channel a sender holds open: the
      first polls receive the queued values front to back, the next one
      reports `ProducerDropped` if and only if the slot was `Tainted`, every
      later one is `Pending`, and the slot ends holding the last poller's waker. */
  lemma {:induction false} PollsQueuedThenEmpty<T>(c: CellState<T>, ws: seq<WakerId>)
    requires c.senders > 0 && |ws| > |c.queue|
    ensures var n := |c.queue|;
            var r := PollAll(c, ws);
            && (forall i :: 0 <= i < n ==> r.1[i] == Ready(Ok(c.queue[i])))
            && r.1[n] == (if c.waker == Err(Tainted) then Ready(Err(ProducerDropped)) else Pending)
            && AllPending(r.1[n + 1..])
            && r.0 == c.(queue := [], waker := Ok(Last(ws)))
  {
    var n := |c.queue|;
    assert ws == ws[..n] + ws[n..];
    PollAllAppend(c, ws[..n], ws[n..]);
    PollsTakeQueued(c, ws[..n]);
    var mid := PollAll(c, ws[..n]);
    PollsWhenEmpty(mid.0, ws[n..]);
    var rest := PollAll(mid.0, ws[n..]);
    assert Last(ws[n..]) == Last(ws);
    assert PollAll(c, ws).1[n + 1..] == rest.1[1..];
  }

  // ---------------------------------------------------------------------
  // Histories
  // ---------------------------------------------------------------------

  /** `resolve` before the first poll: the first poll gets the value without
      suspending and every later one reports `ProducerDropped`, because the
      only sender went away with the producer. */
  lemma {:induction false} ResolveThenPoll<T>(v: T, ws: seq<WakerId>)
    requires ws != []
    ensures var s := ResolveStep(Initial<T>(), v);
            var polls := PollAll(s.cell, ws);
            && s.woken == None
            && polls.1[0] == Ready(Ok(v))
            && AllReady(polls.1[1..], Err(ProducerDropped))
  {
    var s := ResolveStep(Initial<T>(), v);
    assert s.cell.queue == [v] && s.cell.senders == 0;
    AfterLastResolve(s.cell, v, ws);
  }

  /** With the only sender gone and one value queued, the first poll gets the
      value and every later one reports `ProducerDropped`. */
  lemma AfterLastResolve<T>(c: CellState<T>, v: T, ws: seq<WakerId>)
    requires c.queue == [v] && c.senders == 0 && ws != []
    ensures var polls := PollAll(c, ws);
            && polls.1[0] == Ready(Ok(v))
            && AllReady(polls.1[1..], Err(ProducerDropped))
  {
    var polls := PollAll(c, ws);
    PollsWhenDisconnected(c, ws);
    forall i | 0 <= i < |polls.1[1..]|
      ensures polls.1[1..][i] == Ready(Err(ProducerDropped))
    {
      assert polls.1[1..][i] == polls.1[i + 1];
    }
  }

  /** Polls before `resolve` are `Pending` and leave the most recent waker in
      the slot; `resolve` wakes exactly that waker; afterwards the first poll
      gets the value and every later one reports `ProducerDropped`. */
  lemma {:induction false} PollThenResolve<T>(before: seq<WakerId>, v: T, after: seq<WakerId>)
    requires before != [] && after != []
    ensures var early := PollAll(Initial<T>(), before);
            var s := ResolveStep(early.0, v);
            var late := PollAll(s.cell, after);
            && AllPending(early.1)
            && s.woken == Some(Last(before))
            && late.1[0] == Ready(Ok(v))
            && AllReady(late.1[1..], Err(ProducerDropped))
  {
    var early := PollAll(Initial<T>(), before);
    PollsWhenEmpty(Initial<T>(), before);
    assert early.1 == [early.1[0]] + early.1[1..];
    var s := ResolveStep(early.0, v);
    assert s.cell.queue == [v] && s.cell.senders == 0;
    AfterLastResolve(s.cell, v, after);
  }

  /** `resolve` sends before it takes the lock, so a poll may run between
      the two steps: it gets the value at once and leaves the slot alone;
      the taint then wakes the waker of the last `Pending` poll (a wake
      that finds nothing left to do), and once the sender is gone every
      later poll reports `ProducerDropped`. */
  lemma {:induction false} PollBetweenSendAndTaint<T>(before: seq<WakerId>, v: T, w: WakerId, after: seq<WakerId>)
    requires before != []
    ensures var early := PollAll(Initial<T>(), before);
            var sent := SendStep(early.0, v);
            && sent.Ok?
            && var mid := PollStep(sent.value, w);
               var t := TaintStep(mid.cell);
               && mid.report == Ready(Ok(v))
               && t.woken == Some(Last(before))
               && t.cell.senders > 0
               && AllReady(PollAll(DropSenderStep(t.cell), after).1, Err(ProducerDropped))
  {
    var early := PollAll(Initial<T>(), before);
    PollsWhenEmpty(Initial<T>(), before);
    var sent := SendStep(early.0, v).value;
    assert sent.queue == [v];
    var mid := PollStep(sent, w);
    var t := TaintStep(mid.cell);
    PollsWhenDisconnected(DropSenderStep(t.cell), after);
  }

  /** A producer dropped without resolving wakes nobody: the waker of the
      last `Pending` poll stays in the slot and the slot never becomes
      `Tainted`. Only a poll made afterwards, for some other reason, sees the
      channel disconnected and reports `ProducerDropped`. */
  lemma {:induction false} DropWakesNobody<T>(before: seq<WakerId>, after: seq<WakerId>)
    requires before != []
    ensures var early := PollAll(Initial<T>(), before);
            var dropped := DropSenderStep(early.0);
            var late := PollAll(dropped, after);
            && AllPending(early.1)
            && dropped.waker == Ok(Last(before))
            && AllReady(late.1, Err(ProducerDropped))
            && late.0.waker == Ok(Last(before))
  {
    var early := PollAll(Initial<T>(), before);
    PollsWhenEmpty(Initial<T>(), before);
    assert early.1 == [early.1[0]] + early.1[1..];
    var dropped := DropSenderStep(early.0);
    PollsWhenDisconnected(dropped, after);
  }

  /** With a second producer clone still alive (`n >= 2` senders), `resolve`
      by one of them leaves the channel connected: the first poll gets the
      value, the next sees the `Tainted` slot and reports `ProducerDropped`
      while overwriting the slot with its waker, and every poll after that
      is `Pending`, with the last poller's waker left in the slot. */
  lemma {:induction false} TaintIsReportedOnce<T>(v: T, n: nat, ws: seq<WakerId>)
    requires n >= 2 && |ws| >= 2
    ensures var s := ResolveStep(Initial<T>().(senders := n), v);
            var polls := PollAll(s.cell, ws);
            && s.woken == None
            && polls.1[0] == Ready(Ok(v))
            && polls.1[1] == Ready(Err(ProducerDropped))
            && AllPending(polls.1[2..])
            && polls.0 == CellState([], n - 1, true, Ok(Last(ws)))
  {
    var s := ResolveStep(Initial<T>().(senders := n), v);
    assert s.cell == CellState([v], n - 1, true, Err(Tainted));
    PollsQueuedThenEmpty(s.cell, ws);
  }

  // ---------------------------------------------------------------------
  // The handles, over the shared channel and the shared slot
  // ---------------------------------------------------------------------

  /** `std::sync::mpsc` channel: the FIFO queue every `Sender` clone and the one `Receiver` share. */
  class Mpsc<T> {
    var queue: seq<T>
    var senders: nat
    var receiverAlive: bool
    /** The producer handles whose `Sender` is still alive. */
    ghost var handles: set<object>

    ghost predicate Valid()
      reads this
    {
      senders == |handles|
    }

    constructor ()
      ensures queue == [] && senders == 0 && receiverAlive && handles == {} && Valid()
    {
      queue := [];
      senders := 0;
      receiverAlive := true;
      handles := {};
    }

    /** `Sender::send`: `Err(v)` once the receiver is gone, else append `v` at the back. */
    method Send(v: T) returns (r: Result<(), T>)
      modifies this`queue
      ensures r == (if receiverAlive then Ok(()) else Err(v))
      ensures queue == (if receiverAlive then old(queue) + [v] else old(queue))
    {
      if receiverAlive {
        queue := queue + [v];
        r := Ok(());
      } else {
        r := Err(v);
      }
    }

    /** `Receiver::try_recv`: remove and return the front value, or say why there is none. */
    method TryRecv() returns (r: Result<T, TryRecvError>)
      modifies this`queue
      ensures r == TryRecvStep(old(queue), senders)
      ensures queue == (if r.Ok? then old(queue)[1..] else old(queue))
    {
      if queue != [] {
        r := Ok(queue[0]);
        queue := queue[1..];
      } else if senders == 0 {
        r := Err(Disconnected);
      } else {
        r := Err(Empty);
      }
    }

    /** A new `Sender`, owned by the producer handle `h`. */
    method AddSender(ghost h: object)
      requires Valid() && h !in handles
      modifies this`senders, this`handles
      ensures Valid() && senders == old(senders) + 1 && handles == old(handles) + {h}
    {
      senders := senders + 1;
      handles := handles + {h};
    }

    /** The `Sender` owned by `h` is dropped. */
    method RemoveSender(ghost h: object)
      requires Valid() && h in handles
      modifies this`senders, this`handles
      ensures Valid() && senders == old(senders) - 1 && handles == old(handles) - {h}
    {
      assert |handles - {h}| == |handles| - 1;
      senders := senders - 1;
      handles := handles - {h};
    }
  }

  /** `Inner`: the lock-guarded waker slot shared by every producer clone and the consumer. */
  class Inner {
    var waker: Result<WakerId, WakerState>

    constructor ()
      ensures waker == Err(Fresh)
    {
      waker := Err(Fresh);
    }

    /** `std::mem::replace` on the slot: store `x`, return what was there. */
    method Replace(x: Result<WakerId, WakerState>) returns (prev: Result<WakerId, WakerState>)
      modifies this
      ensures waker == x && prev == old(waker)
    {
      prev := waker;
      waker := x;
    }
  }

  /** The channel and the slot seen together as one cell. */
  ghost function StateOf<T>(chan: Mpsc<T>, promise: Inner): CellState<T>
    reads chan, promise
  {
    CellState(chan.queue, chan.senders, chan.receiverAlive, promise.waker)
  }

  /** `Producer`: a clonable handle; each clone owns one `Sender` and may resolve once. */
  class Producer<T> {
    const chan: Mpsc<T>
    const promise: Inner
    /** The handle has been consumed by `resolve` or dropped. */
    ghost var used: bool

    /** A live handle owns exactly one of the channel's live senders. */
    ghost predicate Valid()
      reads this, chan
    {
      chan.Valid() && (!used <==> this in chan.handles)
    }

    constructor (chan: Mpsc<T>, promise: Inner)
      ensures this.chan == chan && this.promise == promise && !used
    {
      this.chan := chan;
      this.promise := promise;
      used := false;
    }

    /** `#[derive(Clone)]`: a new handle with a new `Sender` on the same channel and slot. */
    method Clone() returns (q: Producer<T>)
      requires Valid() && !used
      modifies chan`senders, chan`handles
      ensures fresh(q) && q.chan == chan && q.promise == promise && !q.used
      ensures chan.senders == old(chan.senders) + 1 && chan.handles == old(chan.handles) + {q}
      ensures Valid() && q.Valid()
    {
      q := new Producer(chan, promise);
      chan.AddSender(q);
    }

    /** `resolve`: send `v`, swap the slot to `Tainted` and wake the waker it
        held, if any; then `self`, and its sender, is dropped. The receiver
        must be alive: otherwise `send(..).unwrap()` panics. */
    method Resolve(v: T) returns (woken: Option<WakerId>)
      requires Valid() && !used
      requires chan.receiverAlive
      modifies this, chan`queue, chan`senders, chan`handles, promise
      ensures used && Valid()
      ensures chan.queue == old(chan.queue) + [v]
      ensures promise.waker == Err(Tainted)
      ensures woken == (if old(promise.waker).Ok? then Some(old(promise.waker).value) else None)
      ensures chan.senders == old(chan.senders) - 1 && chan.handles == old(chan.handles) - {this}
      ensures Settlement(StateOf(chan, promise), woken) == ResolveStep(old(StateOf(chan, promise)), v)
    {
      var sent := chan.Send(v);
      assert sent == Ok(());
      var prev := promise.Replace(Err(Tainted));
      match prev {
        case Ok(w) => woken := Some(w);
        case Err(_) => woken := None;
      }
      chan.RemoveSender(this);
      used := true;
    }

    /** Dropping the handle unresolved: only its sender goes away. There is
        no `Drop` impl, so the slot is not tainted and nobody is woken. */
    method Drop()
      requires Valid() && !used
      modifies this, chan`senders, chan`handles
      ensures used && Valid()
      ensures chan.senders == old(chan.senders) - 1 && chan.handles == old(chan.handles) - {this}
      ensures StateOf(chan, promise) == DropSenderStep(old(StateOf(chan, promise)))
    {
      chan.RemoveSender(this);
      used := true;
    }
  }

  /** `Consumer`: the one handle that owns the `Receiver`. */
  class Consumer<T> {
    const chan: Mpsc<T>
    const promise: Inner
    /** The handle has been dropped. */
    ghost var used: bool

    constructor (chan: Mpsc<T>, promise: Inner)
      ensures this.chan == chan && this.promise == promise && !used
    {
      this.chan := chan;
      this.promise := promise;
      used := false;
    }

    /** `poll`: `try_recv`; on `Empty` swap the caller's waker into the slot. */
    method Poll(w: WakerId) returns (p: Poll<Result<T, Error>>)
      requires !used
      modifies chan`queue, promise
      ensures old(chan.queue) != [] ==>
                && p == Ready(Ok(old(chan.queue)[0]))
                && chan.queue == old(chan.queue)[1..] && promise.waker == old(promise.waker)
      ensures old(chan.queue) == [] && chan.senders > 0 ==>
                && p == (if old(promise.waker) == Err(Tainted) then Ready(Err(ProducerDropped)) else Pending)
                && promise.waker == Ok(w)
      ensures old(chan.queue) == [] && chan.senders == 0 ==>
                p == Ready(Err(ProducerDropped)) && promise.waker == old(promise.waker)
      ensures Polled(StateOf(chan, promise), p) == PollStep(old(StateOf(chan, promise)), w)
    {
      var r := chan.TryRecv();
      match r {
        case Ok(v) =>
          p := Ready(Ok(v));
        case Err(Empty) =>
          var prev := promise.Replace(Ok(w));
          match prev {
            case Err(Tainted) => p := Ready(Err(ProducerDropped));
            case _ => p := Pending;
          }
        case Err(Disconnected) =>
          p := Ready(Err(ProducerDropped));
      }
    }

    /** Dropping the consumer drops the `Receiver`: later sends fail. */
    method Drop()
      requires !used
      modifies this, chan`receiverAlive
      ensures used && !chan.receiverAlive
    {
      chan.receiverAlive := false;
      used := true;
    }
  }

  /** `Producer::new`: an empty channel and a `Fresh` slot shared by one live producer and the consumer. */
  method New<T>() returns (producer: Producer<T>, consumer: Consumer<T>)
    ensures fresh(producer) && fresh(consumer) && fresh(producer.chan) && fresh(producer.promise)
    ensures consumer.chan == producer.chan && consumer.promise == producer.promise
    ensures StateOf(producer.chan, producer.promise) == Initial()
    ensures producer.Valid() && !producer.used && !consumer.used
  {
    var chan := new Mpsc();
    var inner := new Inner();
    producer := new Producer(chan, inner);
    chan.AddSender(producer);
    consumer := new Consumer(chan, inner);
  }

  /** The consumer polls first and is `Pending`; `resolve` wakes its waker;
      the re-poll gets the value; one more poll reports `ProducerDropped`. */
  method AwaitThenResolve<T>(v: T, w: WakerId)
    returns (p1: Poll<Result<T, Error>>, woken: Option<WakerId>, p2: Poll<Result<T, Error>>, p3: Poll<Result<T, Error>>)
    ensures p1 == Pending && woken == Some(w)
    ensures p2 == Ready(Ok(v)) && p3 == Ready(Err(ProducerDropped))
  {
    var producer, consumer := New<T>();
    p1 := consumer.Poll(w);
    woken := producer.Resolve(v);
    p2 := consumer.Poll(w);
    p3 := consumer.Poll(w);
  }

  /** The consumer polls first and is `Pending`; the producer is dropped and
      wakes nobody; a poll made anyway reports `ProducerDropped`. */
  method AwaitThenDrop<T>(w: WakerId) returns (p1: Poll<Result<T, Error>>, p2: Poll<Result<T, Error>>)
    ensures p1 == Pending && p2 == Ready(Err(ProducerDropped))
  {
    var producer, consumer := New<T>();
    p1 := consumer.Poll(w);
    producer.Drop();
    p2 := consumer.Poll(w);
  }
}

# PromiseOut: one-shot async hand-off cells, modelled in Dafny

The library hands one result from a producer to waiting consumers. A consumer
is a future. When it is polled it either returns the result or stores the
task's waker and returns `Pending`. The producer stores the result and wakes
what was stored. In `Poly` and `Pair` every operation is one critical section
under the cell's mutex. In `Channel`, `poll` and `resolve` each also act on
the channel outside the lock (`try_recv`, `send`), so each of them is
several atomic steps. A concurrent history is a sequence of atomic steps, and the
model gives each atomic step one Dafny step:

- `Poly` (src/poly.rs): the multi-consumer cell. The result is cached and
  replayed to every consumer clone. Every waker that polled too early goes
  into a list, and `resolve`/`reject` drain that list.
- `Pair` (src/pair.rs): the single-consumer cell. The consumer *takes* the
  result. The cell keeps only the most recent waker.
- `Channel` (src/channel.rs): values go through a multi-producer,
  single-consumer FIFO channel. Producers can be cloned. A lock-guarded slot
  holds either the consumer's waker or a `WakerState` (`Fresh`, `Tainted`).
- `Lib` (src/lib.rs and the std types used): `Error::ProducerDropped`,
  `WakerState`, `Poll`, `Option` and `Result`. A waker is an opaque `WakerId`.

Each cell file has the same two layers:

1. **A value-level specification.** A `CellState` datatype holds the cell's
   fields. There is one function per atomic step (`SettleStep`,
   `PollStep`, and for the channel `ReceiveStep`, `RegisterStep`,
   `SendStep`, `TaintStep`, `DropSenderStep`, `ResolveStep`). `PollAll` runs a series of polls. The
   lemmas cover the cell's whole histories: who is woken, what each poll
   reports, and which invariant every interleaving keeps.
2. **The handles as classes over one shared mutable cell.** There is an
   `Inner` class, a `Producer` and a `Consumer`. Each method updates the
   shared object in place, states the new fields, and ties the new state to
   the step function. The lemmas of layer 1 therefore apply to the objects.
   Moving `self` into `resolve` makes the producer single-use. The model
   records this with a ghost `used` flag and `requires !used`. "Wake" is an
   output: each method returns the ids it woke, in the order it woke them.

Where the code differs from the protocol its types suggest (a dropped producer taints the cell, and `Tainted` is final), the model
follows the code:

- No cell has a `Drop` implementation. A producer dropped without resolving
  never taints the cell and never wakes anyone. In `Poly` and `Pair` the
  consumers stay `Pending` for ever (`Poly.UnsettledPollsStayPending`). In
  `Channel` the consumer's waker stays in the slot without being woken
  (`Channel.DropWakesNobody`). Only a poll that happens for some other
  reason sees the disconnected channel.
- The channel's waker state does not stay `Tainted`. A poll on an empty but
  connected channel overwrites `Tainted` with its own waker. It reports
  `ProducerDropped` once, and the next poll is `Pending`
  (`Channel.TaintIsReportedOnce`). Without a race this needs another
  producer clone still alive. It also happens with a single producer when a
  whole `resolve` runs between the poll's `try_recv` and its critical
  section, and then the resolved value is lost (see Findings).
- `Pair` answers a second poll, after the result was taken, with `Pending`.
  It stores the new waker, and nothing will ever wake it
  (`Pair.TakeOnce`).
- `resolve` on the channel ends by dropping `self`, and with it that
  producer's `Sender`. With a single producer the channel is then
  disconnected. A poll after the value was received reports
  `ProducerDropped` through `Disconnected`, not through `Tainted`.

## Model

| member | source | states |
|---|---|---|
| `Poly.PollAll` | src/poly.rs:125-137 | Before a result is stored, each poll appends its waker behind the earlier ones and is `Pending`. Once a result is stored, every poll replays it, whichever clone polls, and the cell does not change. |
| `Poly.RunKeepsValid` | src/poly.rs:70-137 | In every interleaving of polls, resolves and rejects, a cell that holds a result has an empty waker list. |
| `Poly.SettleWakesEveryWaiter` | src/poly.rs:169-190 | In any history (polls, one settle, polls), the early polls are `Pending`. The settle makes one wake per `Pending` poll, in registration order, so a waker that polled twice is woken twice. Every later poll returns the same result. The cell ends settled with no waiter. |
| `Poly.UnsettledPollsStayPending` | src/poly.rs:130-135 | If the producer never settles, every poll is `Pending` and every waker stays registered, unwoken. |
| `Poly.Inner.Settle` | src/poly.rs:71-75 | Stores the result, then drains the waker list front to back. It returns exactly the old list, in order, and leaves the list empty. It keeps the cell invariant `Inner.Valid()` (a stored result has no waker beside it). |
| `Poly.Producer.Resolve` | src/poly.rs:70-76 | Single use. The cell holds `Ok(v)`, every previously registered waker is woken once in order, and the list is empty. |
| `Poly.Producer.Reject` | src/poly.rs:96-102 | Single use. The cell holds `Err(e)`, every previously registered waker is woken once in order, and the list is empty. |
| `Poly.Consumer.Poll` | src/poly.rs:125-137 | A stored result is returned and not removed, and the list is unchanged. Otherwise exactly the caller's waker is appended, earlier entries are kept, and the poll is `Pending`. It keeps the cell invariant `Inner.Valid()` (a stored result has no waker beside it). |
| `Poly.Consumer.Clone` | src/poly.rs:32-35 | The new consumer shares the same cell. |
| `Poly.New` | src/poly.rs:109-118 | One new cell with no value and no wakers, shared by a live producer and a consumer. |
| `Poly.TwoConsumersResolve` | src/poly.rs:169-190 | Two clones poll before one resolve and are both `Pending`. The resolve wakes both, in the order they polled. Both then read `Ok(v)`. |
| `Pair.PollAll` | src/pair.rs:97-109 | A stored result goes to the first poll only. Every other poll is `Pending`. The cell keeps only the waker of the last `Pending` poll. |
| `Pair.RunKeepsValid` | src/pair.rs:49-109 | In every interleaving of polls, resolves and rejects, a cell that holds a result holds no waker. |
| `Pair.TakeOnce` | src/pair.rs:102-107 | In any history (polls, one settle, polls), the early polls are `Pending`. The settle wakes only the most recent poller. The first later poll takes the result, and every poll after it is `Pending` because the result is gone. |
| `Pair.Inner.Settle` | src/pair.rs:50-54 | Stores the result, takes the stored waker (leaving `None`) and returns it to be woken. It keeps the cell invariant `Inner.Valid()` (a stored result has no waker beside it). |
| `Pair.Producer.Resolve` | src/pair.rs:49-55 | Single use. The cell holds `Ok(v)`, the stored waker (if any) is woken, and no waker remains. |
| `Pair.Producer.Reject` | src/pair.rs:75-81 | Single use. The cell holds `Err(e)`, the stored waker (if any) is woken, and no waker remains. |
| `Pair.Consumer.Poll` | src/pair.rs:97-109 | A stored result is returned and the cell is left with no value. Otherwise the caller's waker replaces the stored one and the poll is `Pending`. It keeps the cell invariant `Inner.Valid()` (a stored result has no waker beside it). |
| `Pair.NewPair` | src/pair.rs:85-91 | One new cell with no value and no waker, shared by a live producer and its consumer. |
| `Pair.AwaitThenResolve` | src/pair.rs:119-133 | The consumer polls and is `Pending`. `resolve` wakes exactly its waker. The re-poll returns `Ok(v)`, and one more poll is `Pending`. |
| `Channel.PollAll` | src/channel.rs:33-48 | A series of polls makes one report per poll. It never changes the sender count or the receiver's liveness. |
| `Channel.PollsTakeQueued` | src/channel.rs:37-38 | While values are queued, polls receive them in FIFO order and leave the waker slot untouched. |
| `Channel.PollsWhenDisconnected` | src/channel.rs:37-46 | With no sender left, polls drain the queue front to back. After that they report `ProducerDropped` for ever, and the slot is never touched. |
| `Channel.PollsWhenEmpty` | src/channel.rs:39-45 | On an empty, connected channel, the first poll reports `ProducerDropped` if and only if the slot was `Tainted`. Every later poll is `Pending`. The slot ends holding the last poller's waker. |
| `Channel.ResolveBetweenReceiveAndRegister` | src/channel.rs:37-44 | From any cell whose poll finds the channel empty and connected, a whole `resolve` run between `try_recv` and the poll's critical section queues `v` and taints the slot. The poll then reports `ProducerDropped` while `v` is still queued. |
| `Channel.RegisterStepFixed` | src/channel.rs:40-44 | The corrected critical section of `poll`. It reports `ProducerDropped` only on an empty queue. On `Tainted` with a value queued, it returns the front value and removes it. On an empty queue it is exactly the step as written. |
| `Channel.FixedRegisterDeliversRacingValue` | src/channel.rs:37-58 | With the corrected step, the same interleaving delivers `Ok(v)` and empties the queue. Without a racing step, the corrected poll equals the poll as written. |
| `Channel.PollAllAppend` | src/channel.rs:33-48 | Polls by `a` and then `b` are the polls by `a + b`: the second series starts from the cell the first leaves, and the reports are joined. |
| `Channel.PollsQueuedThenEmpty` | src/channel.rs:37-45 | With more polls than queued values and a sender alive, the first polls receive the values in FIFO order. The next poll reports `ProducerDropped` if and only if the slot was `Tainted`, and every later poll is `Pending`. The slot ends holding the last waker. |
| `Channel.ResolveThenPoll` | src/channel.rs:53-58 | A resolve before any poll wakes nobody. The first poll gets `Ok(v)` without suspending, and every later poll reports `ProducerDropped`. |
| `Channel.AfterLastResolve` | src/channel.rs:37-46 | With one value queued and no sender left, the first poll gets the value and every later poll reports `ProducerDropped`. |
| `Channel.PollThenResolve` | src/channel.rs:53-58 | Polls before resolve are `Pending`. Resolve wakes exactly the most recent waker. Then the first poll gets `Ok(v)` and every later poll reports `ProducerDropped`. |
| `Channel.PollBetweenSendAndTaint` | src/channel.rs:54-57 | A poll between `send` and the lock gets the value at once. The taint still wakes the last registered waker. After the sender drops, polls report `ProducerDropped`. |
| `Channel.DropWakesNobody` | src/channel.rs:46 | After `Pending` polls, dropping the producer leaves the last waker in the slot: it is not woken and the slot is not tainted. Later polls report `ProducerDropped`, and the slot still holds that waker. |
| `Channel.TaintIsReportedOnce` | src/channel.rs:41-42 | With `n >= 2` producer clones, one resolve leads to these polls, for any number of at least two polls: `Ok(v)`, then `ProducerDropped` (which overwrites `Tainted` with the waker), then `Pending` for every later poll. The slot ends holding the last waker. |
| `Channel.Mpsc.Send` | src/channel.rs:54 | Appends at the back while the receiver lives. Otherwise it hands the value back as an error, which is what `unwrap` would panic on. |
| `Channel.Mpsc.TryRecv` | src/channel.rs:37 | Removes and returns the front value. With an empty queue it reports `Empty` while a sender lives and `Disconnected` when none does. |
| `Channel.Inner.Replace` | src/channel.rs:41 | `std::mem::replace` on the slot: stores the new state and returns the old one. |
| `Channel.Producer.Clone` | src/channel.rs:13-17 | A new handle on the same channel and slot, owning one more sender. |
| `Channel.Producer.Resolve` | src/channel.rs:53-59 | Requires a live receiver. Enqueues `v` at the back and sets the slot to `Tainted`. Wakes exactly the old waker if the slot held one, and nothing if it was `Fresh` or `Tainted`. Then drops this producer's sender. |
| `Channel.Producer.Drop` | src/channel.rs:14-17 | Only this producer's sender goes away: the queue and the slot are unchanged and nobody is woken. |
| `Channel.Consumer.Poll` | src/channel.rs:33-48 | Queued value: returns the front value, removes it, and leaves the slot. Empty and connected: stores the caller's waker, and reports `ProducerDropped` if the slot was `Tainted`, else `Pending`. Disconnected: reports `ProducerDropped` and leaves the slot. |
| `Channel.Consumer.Drop` | src/channel.rs:19-23 | Dropping the consumer drops the receiver, so later sends fail. |
| `Channel.New` | src/channel.rs:61-79 | An empty channel with one sender and the receiver, and a `Fresh` slot, shared by a live producer and the consumer. |
| `Channel.AwaitThenResolve` | src/channel.rs:33-59 | The consumer polls and is `Pending`. Resolve wakes exactly its waker. The re-poll gets `Ok(v)`, and one more poll reports `ProducerDropped`. |
| `Channel.AwaitThenDrop` | src/channel.rs:33-48 | The consumer polls and is `Pending`. Dropping the producer wakes nobody. A poll made anyway reports `ProducerDropped`. |

## Findings

| source | as written | input that shows it | evidently intended | confidence | as-written member | corrected member |
|---|---|---|---|---|---|---|
| src/channel.rs:37-44 | `poll` calls `try_recv` without the lock. On `Empty` it takes the lock and reports `ProducerDropped` when the slot is `Tainted`, without looking at the channel again. | One producer and the consumer from `new`. The poll's `try_recv` sees `Empty`. Then `resolve(v)` runs whole: it sends `v`, finds `Fresh` (so wakes nobody), sets `Tainted` and drops its sender. The poll then locks, finds `Tainted` and returns `Ready(Err(ProducerDropped))` with `v` still queued, so the finished future never delivers `v`. | A poll reports `ProducerDropped` only when no value is left for it. On `Tainted` it receives again, and returns the queued value. | not executed; the interleaving needs only the two threads of an ordinary resolve and await | `Channel.ResolveBetweenReceiveAndRegister` | `Channel.RegisterStepFixed` |

The history lemmas run `PollStep`, where no step comes between a poll's two steps. There the queue is empty at the critical section, and `Channel.FixedRegisterDeliversRacingValue` shows that the corrected step is identical to the step as written. So every history lemma holds for the corrected poll as well.

## Left out

- Threads, `Arc`, `Mutex` and lock poisoning (`lock().unwrap()`), and the executor (`block_on`). Each critical section is one atomic step, so a concurrent history is a sequence of these steps.
- Real `Waker` behaviour. A waker is an opaque id, and waking it means returning that id. The source wakes while still holding the lock; the model does not distinguish this.
- `Arc` sharing of the cached result in `Poly`. Replaying "the same result" is modelled as equal values, not as one shared allocation.
- `Channel.Consumer.Poll`: as a class method it runs `try_recv` and the locked swap as one step, so the race of `Channel.ResolveBetweenReceiveAndRegister` cannot happen between its calls. The value-level model keeps the two steps apart (`ReceiveStep`, `RegisterStep`). The method follows the code as written, not `Channel.RegisterStepFixed`.
- `Channel.Producer.Resolve`: as a class method it runs `send` and the locked swap as one step. The value-level model keeps them as separate steps (`SendStep`, `TaintStep`, `DropSenderStep`), and `Channel.PollBetweenSendAndTaint` covers a poll between them.
- `Channel.Producer.Resolve`: the panic of `send(..).unwrap()` once the consumer has been dropped is a precondition (`requires chan.receiverAlive`). It is not modelled as an unwinding thread.
- `std::sync::mpsc` internals beyond FIFO `send`/`try_recv` and disconnection. Dropping the receiver does not model freeing the values still queued.
- src/promise_out.rs: a blocking wrapper over an mpsc channel with no logic of its own. It also clones a `Receiver`, which std does not allow.
- tests/promise_out_test.rs: it uses a type that does not exist (`PromiseOutChannel`) and is only a thread/sleep smoke test.
- The `Promise` trait of src/lib.rs (its signature does not match the impl in src/poly.rs) and the README include.
- All `println!`/`Debug` output in the tests and doc examples.

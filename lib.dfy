/** Types shared by the three cells (src/lib.rs and the std types they use). */
module Lib {

  /** A waker is opaque to the cells: only its identity matters. Waking one is
      observable only as the id the critical section hands back to its caller. */
  type WakerId = nat

  datatype Option<T> = None | Some(value: T)

  datatype Result<T, E> = Ok(value: T) | Err(error: E)

  /** `std::task::Poll`: what one call of a consumer's `poll` reports. */
  datatype Poll<T> = Pending | Ready(output: T)

  /** `Error`: the only error a channel consumer reports. */
  datatype Error = ProducerDropped

  /** `WakerState`: the waker slot of the channel cell when it holds no waker. */
  datatype WakerState = Fresh | Tainted

  /** Every report in `ps` is `Pending`. */
  ghost predicate AllPending<T>(ps: seq<Poll<T>>)
  {
    forall i :: 0 <= i < |ps| ==> ps[i] == Pending
  }

  /** Every report in `ps` is `Ready(x)`. */
  ghost predicate AllReady<T>(ps: seq<Poll<T>>, x: T)
  {
    forall i :: 0 <= i < |ps| ==> ps[i] == Ready(x)
  }

  /** The last element of a non-empty sequence of wakers. */
  function Last(ws: seq<WakerId>): WakerId
    requires ws != []
  {
    ws[|ws| - 1]
  }
}

/**
 Names shared by the timer queue, the interest table and the awaiters: the
 pointers the event loop stores and the descriptors it watches.
 */
module Handles {

  datatype Option<+T> = None | Some(value: T)

  /** The three embedded operations of one awaiter. All three carry the same coroutine handles. */
  datatype Part = OnSocket | OnTimer | OnCancel

  /** A read_op* or write_op*: null, or a member of the awaiter stored at address `frame`.
      The address of a destroyed awaiter may be used again by a later one. */
  datatype Ptr = Null | Field(frame: nat, part: Part)

  /** Descriptors. The kernel never gives two open files the same number, so the one
      timerfd, the sockets and the eventfds of the cancel tokens are kept apart by construction. */
  datatype Fd = TimerFd | SocketFd(n: nat) | EventFd(n: nat)
}

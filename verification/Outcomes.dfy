/** Results shared by every module: optional values, and operations that may abort the kernel. */
module Outcomes {

  datatype Option<+T> = None | Some(value: T)

  /** The distinct ways in which the modelled code panics. */
  datatype Fault =
    | WakeFailed          // `.expect("Failed to wake up thread")` and the arbiter's variant of it
    | BadWaitType         // a woken thread has no wait type
    | ObjectWokeSleeper   // an object woke a sleeping thread
    | UnknownWakeObject   // the waking object is not in the thread's wait list
    | NoSuchThread        // a thread lookup (or lookup of two distinct threads) failed
    | NoCurrentThread     // a system call without a current thread
    | NotRunning          // suspending a thread that is not Running
    | NotReady            // dispatching a thread that is not Ready
    | NullObject          // WaitSynchronizationN on a handle that resolves to nothing
    | NotSynchronizable   // WaitSynchronizationN on an object that cannot be waited on
    | RepliedToNobody     // a server replied while no request was queued
    | Disconnected        // the other end of a port or session is missing

  /** The faults of the wake-up protocol itself, as opposed to misuse by a system call. */
  predicate WakeFault(f: Fault) {
    f in {WakeFailed, BadWaitType, ObjectWokeSleeper, UnknownWakeObject, NotRunning, NotReady}
  }

  datatype Outcome<+T> = Ok(value: T) | Panic(fault: Fault) {
    predicate IsFailure() {
      Panic?
    }

    function PropagateFailure<U>(): Outcome<U>
      requires Panic?
    {
      Panic(fault)
    }

    function Extract(): T
      requires Ok?
    {
      value
    }
  }
}

/** core/awaiter.go. */
module Awaiters {
  import opened Types

  /** core/awaiter.go: the one-shot latch; notifying it twice panics. */
  class AwaitNotifier {
    var done: bool
    var err: Error

    constructor ()
      ensures !done
    {
      done, err := false, Nil;
    }

    method Notify(err: Error)
      requires !done
      modifies this
      ensures done && this.err == err
    {
      this.err := err;
      done := true;
    }
  }
}

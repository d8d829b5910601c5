/** What a step cannot foresee: its context being cancelled and the operating system failing. */
module Environment {

  /** What surrounds a task. Once cancelled, a context stays so; it may be cancelled
      whenever it is asked. */
  class Context {
    var cancelled: bool
    /** Whether the operating system has failed an operation of this task. */
    ghost var broken: bool

    constructor ()
      ensures !cancelled && !broken
    {
      cancelled, broken := false, false;
    }

    method Poll() returns (c: bool)
      modifies this`cancelled
      ensures c == cancelled && (old(cancelled) ==> cancelled)
    {
      if * { cancelled := true; }
      c := cancelled;
    }

    /** Whether an operation on a file fails this time. */
    method Fails() returns (failed: bool)
      modifies this`broken
      ensures (failed || old(broken)) ==> broken
    {
      failed := false;
      if * { failed, broken := true, true; }
    }
  }
}

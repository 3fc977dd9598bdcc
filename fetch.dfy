/**
 * The asynchronous page-fetch capability, split into its two observable
 * halves: the window a caller asks for, and the way the returned promise
 * settles.
 */
module Fetch {

  /** A half-open window [from, to) of an ordinally addressed result set. */
  datatype Window = Window(from: int, to: int)

  /** How a promise settled: resolved with a value, or rejected. */
  datatype Response<+T> = Resolved(value: T) | Rejected

  /** The window that continues a list of `len` items by `size` more. */
  function NextWindow(len: nat, size: nat): (w: Window)
    ensures w.from == len && w.to - w.from == size
  {
    Window(len, len + size)
  }
}

/** Pending browser callbacks (animation frames, timeouts), counted. */
module Scheduling {

  /**
   * `cancelAnimationFrame(id)` / `clearTimeout(id)` on the id stored in a
   * ref, taken to drop one pending request, if there is one.
   */
  function Cancel(pending: nat): nat
  {
    if pending > 0 then pending - 1 else 0
  }
}

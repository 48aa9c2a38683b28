/** The time domain of the classic DEVS components: a time advance is either
    a finite real delay or infinity ("passive until an input arrives").
 */
module Devs {

  datatype Time = Fin(value: real) | Inf {

    /** The kernel only hands an elapsed time `e` to an external transition
        when `e <= ta(s)`; with an infinite time advance any `e` is allowed. */
    predicate AtLeast(e: real) {
      Inf? || e <= value
    }

    /** Python's `remaining_time > x`, where `INFINITY` exceeds every float. */
    predicate Exceeds(x: real) {
      Inf? || value > x
    }
  }
}

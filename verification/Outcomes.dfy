/** How a call that leaves the program ends. */
module Outcomes {
  /** What a caller sees of one command or request. `Unconfirmed`: it took effect, but the confirmation failed, so the
      caller gets an error. */
  datatype Outcome = Done | Failed | Unconfirmed
}

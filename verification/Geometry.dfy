/** The carousel's slots, which both the protocol and the catalogue need to know. */
module Geometry {
  const HOME: int := 0
  const SLOT_MIN: int := 1
  const SLOT_MAX: int := 100
}

/** The viewport rule every container applies on each width notification. */
module Responsive {

  /** Widest viewport, in CSS pixels, still treated as a phone. */
  const MobileMaxWidth: int := 768

  /** `window.innerWidth <= 768`. */
  predicate IsMobile(width: int) {
    width <= MobileMaxWidth
  }
}

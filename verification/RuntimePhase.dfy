/** The phases of the network controller. */
module RuntimePhase {
  datatype Phase = Stopped | Starting | Running | Error

  /** `is_active` */
  predicate IsActive(phase: Phase) {
    phase == Starting || phase == Running
  }
}

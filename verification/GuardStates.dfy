/** The states of a cancel guard, shared by the scope and by the primitives that arm one. */
module GuardStates {
  datatype GuardState = Idle | Armed | Fired | Disarmed
}

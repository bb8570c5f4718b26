/** The connection state published by the three Android classes (the
    `PsiphonState` enum, declared identically in each of them). */
module PsiphonStates {

  datatype PsiphonState = Connecting | Connected | Stopping | Stopped | WaitingForNetwork

  /** The states that settle a proxy decision on Android: CONNECTED routes
      through the tunnel, STOPPED goes direct; every other state is skipped. */
  predicate IsDecisive(s: PsiphonState) {
    s == Connected || s == Stopped
  }
}

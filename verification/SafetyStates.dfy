/** The six safety states (core/governor/src/safety_state.rs). */
module SafetyStates {

  datatype SafetyState = Normal | Cautious | Conservation | Quarantine | Rollback | Stopped {

    predicate AuthorizesProposals() { Normal? }

    predicate RequiresManualResolution() { Quarantine? || Stopped? }

    /** How far a state is from Normal; the watchdog may only move this up. */
    function Severity(): nat {
      match this
      case Normal => 0
      case Cautious => 1
      case Conservation => 2
      case Rollback => 3
      case Quarantine => 4
      case Stopped => 5
    }
  }
}

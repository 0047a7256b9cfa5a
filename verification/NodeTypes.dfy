/** The requested and current states of a node record (api/v1/node_types.go). */
module NodeTypes {

  datatype Option<+T> = None | Some(value: T)

  /** The state a user asks for, `spec.state`; the schema admits these four values only. */
  datatype NodeState = WantActive | WantCordoned | WantDrained | WantReboot
  {
    predicate Drains() {
      WantDrained? || WantReboot?
    }
  }

  /** The state the controller persists, `status.currentState`. `Unset` is the empty
      string of a record that has no status yet. */
  datatype CurrentState = Unset | OK | Cordoned | Queued | Next | Draining | Drained | Undraining | Rebooting
  {
    /** The switch of the source: everything outside the three named states is work,
        the empty state included. */
    predicate Work() {
      !(OK? || Cordoned? || Queued?)
    }

    /** The states of a work turn. */
    predicate InTurn() {
      Next? || Draining? || Drained? || Undraining? || Rebooting?
    }

    /** The states of a work turn after the drain checks have been passed. */
    predicate Committed() {
      Draining? || Drained? || Undraining? || Rebooting?
    }

    /** The states in which a request for Active starts an undrain. */
    predicate NeedsUndrain() {
      Draining? || Drained? || Rebooting?
    }
  }

  /** Instants and durations are in nanoseconds. */
  const SECOND: int := 1_000_000_000
  const MINUTE: int := 60 * SECOND
  const HOUR: int := 60 * MINUTE
}

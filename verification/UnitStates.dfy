/** The unit state machine (runs/state.py). */
module UnitStates {

  datatype State =
    | Pending | Ready | Assigned | Running | Verifying | Reviewing | QueuedForMerge
    | Merged | Failed | Cancelled | Blocked | NeedsUser | Interrupted

  function Transitions(s: State): set<State> {
    match s
    case Pending => {Ready, Blocked, Cancelled}
    case Ready => {Assigned, Blocked, Cancelled, NeedsUser}
    case Assigned => {Running, Interrupted, Failed, Cancelled, NeedsUser}
    case Running => {Verifying, Failed, Cancelled, NeedsUser, Interrupted}
    case Verifying => {Reviewing, Failed, Cancelled, NeedsUser, Interrupted}
    case Reviewing => {QueuedForMerge, Ready, Failed, Cancelled, NeedsUser, Interrupted}
    case QueuedForMerge => {Merged, Failed, Blocked, Cancelled, NeedsUser}
    case Failed => {Ready, Cancelled, NeedsUser}
    case Blocked => {Ready, Cancelled, NeedsUser}
    case NeedsUser => {Ready, Reviewing, Cancelled}
    case Interrupted => {Ready, Cancelled, NeedsUser}
    case Merged => {}
    case Cancelled => {}
  }

  predicate Legal(current: State, target: State) {
    target in Transitions(current)
  }

  /** The same table read backwards: where a state can be entered from. */
  function EnteredFrom(s: State): set<State> {
    match s
    case Pending => {}
    case Ready => {Pending, Reviewing, Failed, Blocked, NeedsUser, Interrupted}
    case Assigned => {Ready}
    case Running => {Assigned}
    case Verifying => {Running}
    case Reviewing => {Verifying, NeedsUser}
    case QueuedForMerge => {Reviewing}
    case Merged => {QueuedForMerge}
    case Failed => {Assigned, Running, Verifying, Reviewing, QueuedForMerge}
    case Cancelled =>
      {Pending, Ready, Assigned, Running, Verifying, Reviewing, QueuedForMerge, Failed, Blocked, NeedsUser, Interrupted}
    case Blocked => {Pending, Ready, QueuedForMerge}
    case NeedsUser =>
      {Ready, Assigned, Running, Verifying, Reviewing, QueuedForMerge, Failed, Blocked, Interrupted}
    case Interrupted => {Assigned, Running, Verifying, Reviewing}
  }

  /** A move is legal exactly when the target can be entered from there; nothing leads back to pending. */
  lemma LegalBackwards(current: State, target: State)
    ensures Legal(current, target) <==> current in EnteredFrom(target)
  {
    match target
    case _ =>
  }

  predicate Terminal(s: State) { s == Merged || s == Cancelled }

  /** A runner process may still be working. */
  predicate InFlight(s: State) { s == Assigned || s == Running }

  /** The unit occupies a checkout. */
  predicate Active(s: State) {
    s == Assigned || s == Running || s == Verifying || s == Reviewing || s == QueuedForMerge
  }
}

/** The two lifecycle tables and the predicates built on them (internal/store/lifecycle.go). */
module Lifecycle {

  /** The words the service stores in its state columns. One vocabulary serves runs, targets and
      original states, because the service keeps all of them as plain text; `NoState` is the empty
      text and `Other` any word that is none of these. */
  datatype StateName =
    | NoState
    | New | Captured | Stopping | Stopped | Waiting | Starting | Completed | Failed | Cancelled
    | Healthy | Skipped
    | Running | Degraded | Unknown
    | Other(text: string)

  predicate ValidMaintenanceTransition(from: StateName, to: StateName) {
    match from
    case New => to.Captured? || to.Cancelled? || to.Failed?
    case Captured => to.Stopping? || to.Cancelled? || to.Failed?
    case Stopping => to.Stopped? || to.Failed?
    case Stopped => to.Waiting? || to.Failed?
    case Waiting => to.Starting? || to.Failed?
    case Starting => to.Completed? || to.Failed?
    case Failed => to.New? || to.Captured? || to.Stopping? || to.Stopped? || to.Waiting? || to.Starting?
    case _ => false
  }

  predicate ValidTargetTransition(from: StateName, to: StateName) {
    match from
    case Captured => to.Stopping? || to.Skipped?
    case Stopping => to.Stopped? || to.Failed? || to.Skipped?
    case Stopped => to.Starting? || to.Skipped?
    case Starting => to.Healthy? || to.Failed? || to.Skipped?
    case Failed => to.Stopping? || to.Starting? || to.Skipped?
    case _ => false
  }

  predicate ValidMaintenanceState(s: StateName) {
    s.Completed? || s.Cancelled? || s.New? || s.Captured? || s.Stopping? || s.Stopped? || s.Waiting? || s.Starting?
        || s.Failed?
  }

  predicate ValidTargetState(s: StateName) {
    s.Healthy? || s.Skipped? || s.Captured? || s.Stopping? || s.Stopped? || s.Starting? || s.Failed?
  }

  predicate ValidOriginalState(s: StateName) {
    s.Running? || s.Stopped? || s.Degraded? || s.Unknown?
  }

  predicate IsMaintenanceTerminal(s: StateName) {
    s.Completed? || s.Failed? || s.Cancelled?
  }

  /** The states that release a run's lock keys; unlike `IsMaintenanceTerminal`, failure is not one. */
  predicate IsClosed(s: StateName) {
    s.Completed? || s.Cancelled?
  }

  predicate TargetCompletionAllowed(original: StateName, current: StateName) {
    if current.Skipped? then true
    else match original
      case Running => current.Healthy?
      case Stopped => current.Stopped?
      case _ => false
  }

  predicate TargetPhaseAllowed(phase: StateName, target: StateName) {
    match target
    case Stopping => phase.Stopping?
    case Stopped => phase.Stopping?
    case Starting => phase.Starting?
    case Healthy => phase.Starting?
    case Failed => phase.Stopping? || phase.Starting?
    case _ => false
  }

  /** The state a target is captured in. */
  function InitialState(original: StateName): StateName {
    if original.Stopped? then Stopped else Captured
  }
}

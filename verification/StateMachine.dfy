/** The passport states and the table of permitted transitions. */
module StateMachine {
  datatype State =
    | Draft | DataCollection | ValidationFailed | Ready | Published
    | RegistryPending | Registered | Updated | Superseded | Recycled

  function Transitions(from: State): set<State> {
    match from
    case Draft => {DataCollection, Recycled}
    case DataCollection => {ValidationFailed, Ready, Recycled}
    case ValidationFailed => {DataCollection, Ready, Recycled}
    case Ready => {Published, DataCollection, ValidationFailed, Recycled}
    case Published => {RegistryPending, Updated, Recycled}
    case RegistryPending => {Registered, Updated, Recycled}
    case Registered => {Updated, Recycled}
    case Updated => {Ready, ValidationFailed, Published, RegistryPending, Registered, Recycled}
    case Superseded => {}
    case Recycled => {}
  }

  predicate CanTransition(from: State, to: State) {
    to in Transitions(from)
  }

  /** The states in which the item's latest version is its public passport. */
  predicate IsPublished(s: State) { s == Published || s == Registered || s == RegistryPending }

  predicate IsClosed(s: State) { s == Recycled || s == Superseded }

  /** What `invalidatePassports` makes of a state. */
  function Invalidated(s: State): State {
    if IsPublished(s) then Updated else if s == Ready then DataCollection else s
  }

  /** `validate`'s target. */
  function Validated(s: State, publishable: bool): State {
    if IsPublished(s) then if publishable then s else Updated
    else if publishable then Ready else ValidationFailed
  }

  /** Invalidating is a permitted transition or none, applies once, and never leaves a passport published or ready. */
  lemma InvalidationIsPermitted(s: State)
    ensures Invalidated(s) == s || CanTransition(s, Invalidated(s))
    ensures Invalidated(Invalidated(s)) == Invalidated(s)
    ensures !IsPublished(Invalidated(s)) && Invalidated(s) != Ready
  {
  }

  /** Validating an open passport never meets a forbidden transition; a draft first becomes a data collection. */
  lemma ValidationIsPermitted(s: State, publishable: bool)
    requires !IsClosed(s)
    ensures var current := if s == Draft then DataCollection else s;
            current == Validated(s, publishable) || CanTransition(current, Validated(s, publishable))
    ensures s == Draft ==> CanTransition(s, DataCollection)
  {
  }

  /**
   Every open passport can be recycled, nothing leaves a closed state, and only a ready or updated
   one can be published by hand.
   */
  lemma ClosedIsFinal(s: State, t: State)
    ensures CanTransition(s, Recycled) <==> !IsClosed(s)
    ensures CanTransition(s, t) ==> !IsClosed(s)
    ensures CanTransition(s, Published) <==> s == Ready || s == Updated
  {
  }
}

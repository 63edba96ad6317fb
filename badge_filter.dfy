/** The two decisions the badge's event handlers make: whether a `state`
    event shows a popup, and which type an `error` event shows. */
module BadgeFilter {
  import opened BadgeTypes

  /** The rule per type, read from the handler: disconnected and wait
      always show; connecting and sending show only right after wait;
      synchronized shows only while a popup is visible (the timer is armed);
      refresh and error never come through a state event. */
  predicate ShowRule(t: Type, lastState: Option<string>, armed: bool) {
    match t
    case Disconnected => true
    case Wait => true
    case Connecting => lastState == Some(Name(Wait))
    case Sending => lastState == Some(Name(Wait))
    case Synchronized => armed
    case Refresh => false
    case Error => false
  }

  /** The `state` handler's condition, as the source writes it: string
      comparisons against the `types` table. It holds exactly when the state
      names a type whose rule holds; a state outside the table never shows. */
  predicate ShouldShow(state: string, lastState: Option<string>, armed: bool)
    ensures ShouldShow(state, lastState, armed) <==>
              TypeOf(state).Some? && ShowRule(TypeOf(state).value, lastState, armed)
  {
    state == Name(Disconnected)
    || state == Name(Wait)
    || (lastState == Some(Name(Wait)) && (state == Name(Connecting) || state == Name(Sending)))
    || (state == Name(Synchronized) && armed)
  }

  /** The payload of an `error` event: `error.type` may be absent. */
  datatype SyncError = SyncError(kind: Option<string>)

  /** The `error` handler's choice. `error` is None when the payload is
      falsy. The protocol check compares against "wrong-protocol " with a
      trailing space, as the source does. */
  function ErrorType(error: Option<SyncError>): (r: Type)
    ensures r == Refresh <==>
              error.Some? && error.value.kind in {Some("wrong-protocol "), Some("wrong-subprotocol")}
    ensures r == Refresh || r == Error
  {
    if error.Some? && (error.value.kind == Some("wrong-protocol ") || error.value.kind == Some("wrong-subprotocol"))
    then Refresh
    else Error
  }

  /** A protocol error reported without the trailing space is shown as a
      generic error, not as refresh. */
  lemma PlainWrongProtocolIsError()
    ensures ErrorType(Some(SyncError(Some("wrong-protocol")))) == Error
  {
  }

  /** The filter depends on the previous state only through the
      wait-recovery rule: two previous states that are both not "wait"
      give the same decision. */
  lemma OnlyWaitMatters(state: string, last1: Option<string>, last2: Option<string>, armed: bool)
    requires last1 != Some(Name(Wait)) && last2 != Some(Name(Wait))
    ensures ShouldShow(state, last1, armed) == ShouldShow(state, last2, armed)
  {
  }
}

/** The session as a value: what a caller can observe of one `badge`
    call (the last state seen, the type of the visible popup if any, and
    which event listeners are still registered), and how each event
    changes it. The session class in BadgeSession is proved to follow
    these functions; the lemmas here state what the source promises
    about them, one event or a whole run of events at a time. */
module BadgeSpec {
  import opened BadgeTypes
  import opened BadgeFilter

  /** The two listeners `badge` registers on the sync object. */
  datatype Channel = StateChannel | ErrorChannel

  /** `visible` is Some(t) exactly while a popup showing type t is in the
      document and its auto-hide timer is armed. */
  datatype View = View(lastState: Option<string>, visible: Option<Type>, listening: set<Channel>)

  /** Right after `badge(client, options)`: nothing seen, nothing shown,
      both listeners registered. */
  const Initial: View := View(None, None, {StateChannel, ErrorChannel})

  datatype Event =
    | StateChanged(state: string)
    | ErrorRaised(error: Option<SyncError>)
    | TimerFired
    | UnbindCalled

  /** A `state` event: shown when the filter says so, and `lastState`
      always becomes the new state. Without a registered listener the
      event reaches nothing. */
  function AfterState(v: View, state: string): (r: View)
    ensures r.listening == v.listening
    ensures StateChannel !in v.listening ==> r == v
    ensures StateChannel in v.listening ==> r.lastState == Some(state)
    ensures r.visible != v.visible ==> r.visible == TypeOf(state) && r.visible.Some?
  {
    if StateChannel !in v.listening then v
    else if ShouldShow(state, v.lastState, v.visible.Some?) then
      v.(visible := Some(TypeOf(state).value), lastState := Some(state))
    else
      v.(lastState := Some(state))
  }

  /** An `error` event: always shows the chosen type, which also becomes
      `lastState`. */
  function AfterError(v: View, error: Option<SyncError>): (r: View)
    ensures r.listening == v.listening
    ensures ErrorChannel !in v.listening ==> r == v
    ensures ErrorChannel in v.listening ==>
              r.visible.Some? && (r.visible.value == Refresh || r.visible.value == Error)
              && r.lastState == Some(Name(r.visible.value))
  {
    if ErrorChannel !in v.listening then v
    else v.(visible := Some(ErrorType(error)), lastState := Some(Name(ErrorType(error))))
  }

  /** The auto-hide timer firing: the popup goes away. */
  function AfterTimer(v: View): (r: View)
    ensures r.visible.None? && r.lastState == v.lastState && r.listening == v.listening
  {
    v.(visible := None)
  }

  /** The function `badge` returns: both listeners are removed and the
      popup is hidden. */
  function Unbound(v: View): (r: View)
    ensures r.listening == {} && r.visible.None? && r.lastState == v.lastState
  {
    v.(listening := {}, visible := None)
  }

  /** Whether the unbind function throws: `hide` removes the node without
      checking, so it throws exactly when no popup is in the document. */
  function UnbindThrows(v: View): (r: bool)
    ensures r <==> Unbound(v).visible == v.visible
  {
    v.visible.None?
  }

  /** One event. A timer only fires while it is armed, so a TimerFired with
      nothing visible stands for no event at all. */
  function Step(v: View, e: Event): View {
    match e
    case StateChanged(s) => AfterState(v, s)
    case ErrorRaised(err) => AfterError(v, err)
    case TimerFired => if v.visible.Some? then AfterTimer(v) else v
    case UnbindCalled => Unbound(v)
  }

  function Run(v: View, events: seq<Event>): View
    decreases |events|
  {
    if events == [] then v else Run(Step(v, events[0]), events[1..])
  }

  /** A `state` event shows a popup for the new state exactly when the
      filter's rule for its type holds; otherwise the session is unchanged
      apart from `lastState`. Either way `lastState` is the new state. */
  lemma StateEventShowsIff(v: View, state: string)
    requires StateChannel in v.listening
    ensures AfterState(v, state).lastState == Some(state)
    ensures AfterState(v, state).listening == v.listening
    ensures TypeOf(state).Some? && ShowRule(TypeOf(state).value, v.lastState, v.visible.Some?) ==>
              AfterState(v, state).visible == TypeOf(state)
    ensures !(TypeOf(state).Some? && ShowRule(TypeOf(state).value, v.lastState, v.visible.Some?)) ==>
              AfterState(v, state) == v.(lastState := Some(state))
  {
  }

  /** A state that is not in the `types` table never changes what is
      shown (for example "connected" or "synchronised"). */
  lemma UnknownStateShowsNothing(v: View, state: string)
    requires TypeOf(state).None?
    ensures AfterState(v, state).visible == v.visible
  {
  }

  /** "synchronized" shows a popup exactly when one is already visible. */
  lemma SynchronizedOnlyWhileVisible(v: View)
    requires StateChannel in v.listening
    ensures AfterState(v, "synchronized").visible.Some? <==> v.visible.Some?
  {
  }

  /** The wait-recovery rule fires only for the first event after "wait":
      once another state has been seen, "connecting" or "sending" changes
      nothing that is shown. */
  lemma RecoveryOnlyRightAfterWait(v: View, between: string, state: string)
    requires between != Name(Wait)
    requires state == Name(Connecting) || state == Name(Sending)
    ensures AfterState(AfterState(v, between), state).visible == AfterState(v, between).visible
  {
  }

  /** An `error` event always leaves a popup visible, and the shown type
      is what a following `state` event sees as the previous state. */
  lemma ErrorAlwaysShows(v: View, error: Option<SyncError>)
    requires ErrorChannel in v.listening
    ensures AfterError(v, error).visible == Some(ErrorType(error))
    ensures AfterError(v, error).lastState == Some(Name(ErrorType(error)))
  {
  }

  /** After unbinding, no event of any kind makes a popup visible, and
      the session no longer tracks states. */
  lemma {:induction false} NothingAfterUnbind(v: View, events: seq<Event>)
    requires v.listening == {} && v.visible.None?
    ensures Run(v, events) == v
    decreases |events|
  {
    if events != [] {
      assert Step(v, events[0]) == v;
      NothingAfterUnbind(v, events[1..]);
    }
  }

  /** Only the timer and unbinding hide a popup: a run of `state` and
      `error` events never takes a visible popup away. */
  lemma {:induction false} OnlyTimerOrUnbindHides(v: View, events: seq<Event>)
    requires v.visible.Some?
    requires forall i :: 0 <= i < |events| ==> events[i].StateChanged? || events[i].ErrorRaised?
    ensures Run(v, events).visible.Some?
    decreases |events|
  {
    if events != [] {
      var w := Step(v, events[0]);
      assert w.visible.Some?;
      OnlyTimerOrUnbindHides(w, events[1..]);
    }
  }

  /** The listeners only ever shrink: a run of events never re-registers
      one. */
  lemma {:induction false} ListenersOnlyShrink(v: View, events: seq<Event>)
    ensures Run(v, events).listening <= v.listening
    decreases |events|
  {
    if events != [] {
      ListenersOnlyShrink(Step(v, events[0]), events[1..]);
    }
  }
}

/** The badge session: the closure `badge(client, options)` creates, as a
    class whose fields are the closure's variables. `armed` stands for the
    truthiness of `timeoutId`; `notification` is the popup node, null while
    none was ever created; `listening` is which of the two listeners are
    still registered on the sync object. The handlers, the timer and
    unbind are proved to move the session's observable view as the
    functions in BadgeSpec say. */
module BadgeSession {
  import opened BadgeTypes
  import opened BadgeFilter
  import opened BadgeRender
  import opened BadgeSpec

  /** The node `createPopup` builds: a wrapper with its style and a
      paragraph with its style and text. `inBody` is whether the node is a
      child of `document.body`; `shows` records the type whose text it
      carries (the DOM keeps only the text). */
  class PopupNode {
    const wrapperStyle: Style
    const textStyle: Style
    var text: Option<string>
    var inBody: bool
    var shows: Type

    constructor (wrapperStyle: Style, textStyle: Style, shows: Type)
      ensures this.wrapperStyle == wrapperStyle && this.textStyle == textStyle
      ensures this.shows == shows && text == None && !inBody
    {
      this.wrapperStyle := wrapperStyle;
      this.textStyle := textStyle;
      this.shows := shows;
      text := None;
      inBody := false;
    }
  }

  /** `setText`: the paragraph's text becomes the type's entry in the
      table the language selects; the node stays where it is. */
  method SetText(node: PopupNode, t: Type, language: Option<string>, tables: Tables)
    modifies node
    ensures node.text == TextFor(t, language, tables) && node.shows == t
    ensures node.inBody == old(node.inBody)
  {
    var table := SelectTable(language, tables);
    node.text := if t in table then Some(table[t]) else None;
    node.shows := t;
  }

  /** `createPopup`: a new node, not yet in the document, styled by
      `setStyle` and `setPosition` and carrying the type's text. */
  method CreatePopup(t: Type, options: Options, tables: Tables) returns (node: PopupNode)
    ensures fresh(node) && !node.inBody
    ensures node.wrapperStyle == WrapperStyle(options) && node.textStyle == TextStyle(options)
    ensures node.text == TextFor(t, options.language, tables) && node.shows == t
  {
    var wrapper, text := SetStyle(Override(options.div), Override(options.p));
    wrapper := Assign(wrapper, PositionStyle(options.position));
    node := new PopupNode(wrapper, text, t);
    SetText(node, t, options.language, tables);
  }

  class Session {
    const options: Options
    const tables: Tables
    /** The `unbind` array: one unsubscriber per registered listener. */
    const unbind: seq<Channel>
    var listening: set<Channel>
    var lastState: Option<string>
    var armed: bool
    var notification: PopupNode?
    /** Every node this session ever created. */
    ghost var created: set<PopupNode>

    /** The session invariant: the timer is armed exactly while the current
        node is in the document, no other node of this session is in the
        document (so at most one is), every node carries the session's styles,
        and the current node's text is its type's. */
    ghost predicate Valid()
      reads this, created
    {
      && unbind == [StateChannel, ErrorChannel]
      && (notification != null ==> notification in created)
      && (armed <==> notification != null && notification.inBody)
      && (forall n :: n in created && n.inBody ==> n == notification)
      && (forall n :: n in created ==> n.wrapperStyle == WrapperStyle(options) && n.textStyle == TextStyle(options))
      && (notification != null ==> notification.text == TextFor(notification.shows, options.language, tables))
    }

    /** What a caller can observe of the session. */
    ghost function Observed(): View
      reads this, notification
    {
      View(lastState, if armed && notification != null then Some(notification.shows) else None, listening)
    }

    /** `badge(client, options)`: the options get their default position,
        both listeners are registered, nothing is shown. */
    constructor (o: Options, tables: Tables)
      ensures Valid() && Observed() == Initial
      ensures options == WithDefaultPosition(o) && this.tables == tables
      ensures notification == null && created == {}
    {
      options := WithDefaultPosition(o);
      this.tables := tables;
      lastState := None;
      unbind := [StateChannel, ErrorChannel];
      listening := {StateChannel, ErrorChannel};
      armed := false;
      notification := null;
      created := {};
    }

    /** `show`: with nothing visible, a new node is created, appended and
        the timer armed; with a popup visible, `change` updates it in place
        and nothing is appended. */
    method Show(t: Type)
      requires Valid()
      modifies this, if armed then {notification} else {}
      ensures Valid()
      ensures Observed() == old(Observed()).(visible := Some(t))
      ensures old(armed) ==> notification == old(notification) && created == old(created)
      ensures !old(armed) ==> notification != null && fresh(notification) && created == old(created) + {notification}
      decreases if armed then 2 else 0
    {
      if armed {
        Change(t);
      } else {
        var node := CreatePopup(t, options, tables);
        node.inBody := true;
        notification := node;
        created := created + {node};
        armed := true;
      }
    }

    /** `change`: with a popup visible, the same node keeps its place and
        only its text is replaced, and the timer is re-armed; with nothing
        visible it is `show`, which then creates the node (so the two call
        each other at most once). */
    method Change(t: Type)
      requires Valid()
      modifies this, if armed then {notification} else {}
      ensures Valid()
      ensures Observed() == old(Observed()).(visible := Some(t))
      ensures old(armed) ==> notification == old(notification) && created == old(created)
      ensures !old(armed) ==> notification != null && fresh(notification) && created == old(created) + {notification}
      decreases 1
    {
      if armed {
        armed := false;
        SetText(notification, t, options.language, tables);
        armed := true;
      } else {
        Show(t);
      }
    }

    /** `hide`: removes the node from the document and disarms the timer.
        The removal is unconditional, so it throws (and changes nothing)
        when no node is in the document. */
    method Hide() returns (thrown: bool)
      requires Valid()
      modifies this, if armed then {notification} else {}
      ensures Valid()
      ensures thrown == !old(armed)
      ensures Observed() == old(Observed()).(visible := None)
      ensures notification == old(notification) && created == old(created)
      ensures !armed && (notification != null ==> !notification.inBody)
      ensures notification != null ==>
                notification.text == old(notification.text) && notification.shows == old(notification.shows)
    {
      if notification == null || !notification.inBody {
        return true;
      }
      notification.inBody := false;
      if armed {
        armed := false;
      }
      thrown := false;
    }

    /** The auto-hide timer firing. A timer is pending only while armed,
        and then `hide` never throws. */
    method TimerFires()
      requires Valid() && armed
      modifies this, if armed then {notification} else {}
      ensures Valid()
      ensures Observed() == AfterTimer(old(Observed()))
      ensures !armed && notification == old(notification)
      ensures notification.text == old(notification.text) && notification.shows == old(notification.shows)
    {
      var thrown := Hide();
      assert !thrown;
    }

    /** The `state` listener. */
    method OnState(state: string)
      requires Valid()
      modifies this, if armed then {notification} else {}
      ensures Valid()
      ensures Observed() == AfterState(old(Observed()), state)
      ensures old(armed) ==> notification == old(notification)
      ensures notification == old(notification) || fresh(notification)
      ensures !armed ==> notification == old(notification) && created == old(created)
    {
      if StateChannel !in listening {
        return;
      }
      if ShouldShow(state, lastState, armed) {
        Show(TypeOf(state).value);
      }
      lastState := Some(state);
    }

    /** The `error` listener. */
    method OnError(error: Option<SyncError>)
      requires Valid()
      modifies this, if armed then {notification} else {}
      ensures Valid()
      ensures Observed() == AfterError(old(Observed()), error)
      ensures old(armed) ==> notification == old(notification)
      ensures notification == old(notification) || fresh(notification)
      ensures !armed ==> notification == old(notification) && created == old(created)
    {
      if ErrorChannel !in listening {
        return;
      }
      var t := ErrorType(error);
      Show(t);
      lastState := Some(Name(t));
    }

    /** The function `badge` returns: every unsubscriber runs, then `hide`.
        Afterwards no listener is registered and no popup is visible; it
        throws when nothing was visible. */
    method Unbind() returns (thrown: bool)
      requires Valid()
      modifies this, if armed then {notification} else {}
      ensures Valid()
      ensures Observed() == Unbound(old(Observed()))
      ensures thrown == UnbindThrows(old(Observed()))
      ensures listening == {} && !armed && notification == old(notification)
    {
      var i := 0;
      while i < |unbind|
        invariant 0 <= i <= |unbind|
        invariant listening <= old(listening)
        invariant forall j :: 0 <= j < i ==> unbind[j] !in listening
        invariant lastState == old(lastState) && armed == old(armed)
        invariant notification == old(notification) && created == old(created)
        modifies this
      {
        listening := listening - {unbind[i]};
        i := i + 1;
      }
      forall c: Channel ensures c !in listening {
        assert c == unbind[0] || c == unbind[1];
      }
      assert listening == {};
      thrown := Hide();
    }
  }

  /** Options with nothing set. */
  const NoOptions: Options := Options(None, None, None, None)

  /** "connecting" then "disconnected" leaves a disconnected popup visible. */
  method DisconnectShows(tables: Tables) returns (shown: Option<Type>)
    ensures shown == Some(Disconnected)
  {
    var s := new Session(NoOptions, tables);
    s.OnState("connecting");
    s.OnState("disconnected");
    shown := if s.armed then Some(s.notification.shows) else None;
  }

  /** "wait" shows a popup. */
  method WaitShows(tables: Tables) returns (shown: Option<Type>)
    ensures shown == Some(Wait)
  {
    var s := new Session(NoOptions, tables);
    s.OnState("wait");
    shown := if s.armed then Some(s.notification.shows) else None;
  }

  /** After "wait", "connected" is not a type, so the wait popup stays;
      after a second "wait", "sending" replaces it in the same node. */
  method RecoveryAfterWait(tables: Tables) returns (first: Option<Type>, second: Option<Type>, sameNode: bool)
    ensures first == Some(Wait) && second == Some(Sending) && sameNode
  {
    var s := new Session(NoOptions, tables);
    s.OnState("wait");
    var node := s.notification;
    assert s.armed && s.lastState == Some("wait");
    s.OnState("connected");
    assert s.armed && s.notification == node && s.notification.shows == Wait;
    first := Some(s.notification.shows);
    s.OnState("wait");
    assert s.armed && s.notification == node && s.lastState == Some("wait");
    s.OnState("sending");
    second := if s.armed then Some(s.notification.shows) else None;
    sameNode := s.notification == node;
  }

  /** Once the timer has hidden a popup, the next popup is a new node and
      the hidden one keeps its text and stays out of the document. */
  method HiddenNodeUntouched(tables: Tables) returns (newNode: bool, oldText: Option<string>, oldInBody: bool)
    ensures newNode && oldText == TextFor(Wait, None, tables) && !oldInBody
  {
    var s := new Session(NoOptions, tables);
    s.OnState("wait");
    var old1 := s.notification;
    s.TimerFires();
    s.OnState("disconnected");
    newNode := s.notification != old1;
    oldText := old1.text;
    oldInBody := old1.inBody;
  }

  /** Without a preceding "wait", "connected" and "sending" show nothing. */
  method NoRecoveryWithoutWait(tables: Tables) returns (visible: bool)
    ensures !visible
  {
    var s := new Session(NoOptions, tables);
    s.OnState("connected");
    s.OnState("sending");
    visible := s.armed;
  }

  /** "synchronised" (not a type) after "wait" keeps the wait popup. */
  method SynchronisedAfterWait(tables: Tables) returns (shown: Option<Type>)
    ensures shown == Some(Wait)
  {
    var s := new Session(NoOptions, tables);
    s.OnState("wait");
    s.OnState("synchronised");
    shown := if s.armed then Some(s.notification.shows) else None;
  }

  /** "connected" on a fresh session shows nothing. */
  method ConnectedAlone(tables: Tables) returns (visible: bool)
    ensures !visible
  {
    var s := new Session(NoOptions, tables);
    s.OnState("connected");
    visible := s.armed;
  }

  /** "synchronized" with nothing visible shows nothing; after "wait" it
      replaces the visible popup's text in the same node. */
  method SynchronizedNeedsPopup(tables: Tables) returns (alone: bool, afterWait: Option<Type>, sameNode: bool)
    ensures !alone && afterWait == Some(Synchronized) && sameNode
  {
    var s := new Session(NoOptions, tables);
    s.OnState("synchronized");
    alone := s.armed;
    s.OnState("wait");
    var node := s.notification;
    assert s.armed;
    s.OnState("synchronized");
    afterWait := if s.armed then Some(s.notification.shows) else None;
    sameNode := s.notification == node;
  }

  /** A `wrong-subprotocol` error shows the refresh popup. */
  method SubprotocolShowsRefresh(tables: Tables) returns (shown: Option<Type>)
    ensures shown == Some(Refresh)
  {
    var s := new Session(NoOptions, tables);
    s.OnError(Some(SyncError(Some("wrong-subprotocol"))));
    shown := if s.armed then Some(s.notification.shows) else None;
  }

  /** A plain `wrong-protocol` error (no trailing space) shows the error
      popup, not refresh. */
  method PlainProtocolShowsError(tables: Tables) returns (shown: Option<Type>)
    ensures shown == Some(Error)
  {
    var s := new Session(NoOptions, tables);
    PlainWrongProtocolIsError();
    s.OnError(Some(SyncError(Some("wrong-protocol"))));
    shown := if s.armed then Some(s.notification.shows) else None;
  }

  /** Any other error type shows the error popup. */
  method OtherErrorShowsError(tables: Tables) returns (shown: Option<Type>)
    ensures shown == Some(Error)
  {
    var s := new Session(NoOptions, tables);
    s.OnError(Some(SyncError(Some("some error"))));
    shown := if s.armed then Some(s.notification.shows) else None;
  }

  /** Unbinding while a popup is visible removes it and later events show
      nothing; unbinding a second time throws, since the node is no longer
      in the document. */
  method UnbindRemovesPopup(tables: Tables) returns (visible: bool, firstThrew: bool, secondThrew: bool)
    ensures !visible && !firstThrew && secondThrew
  {
    var s := new Session(NoOptions, tables);
    s.OnState("disconnected");
    s.OnState("connected");
    firstThrew := s.Unbind();
    s.OnState("wait");
    s.OnError(None);
    visible := s.armed;
    secondThrew := s.Unbind();
  }

  /** With language "ru", "connecting" then "disconnected" shows the
      Russian table's text. */
  method LanguageSelectsTable(tables: Tables) returns (text: Option<string>)
    ensures text == (if Disconnected in tables.ru then Some(tables.ru[Disconnected]) else None)
  {
    var s := new Session(Options(None, Some("ru"), None, None), tables);
    s.OnState("connecting");
    s.OnState("disconnected");
    TableChoice(Some("ru"), tables);
    text := s.notification.text;
  }

  /** The options of the style scenario: a red `div` and a green `p`. */
  const ColourOptions: Options :=
    Options(None, None, Some(Part(Some(map["color" := "red"]))), Some(Part(Some(map["color" := "green"]))))

  /** What the merged wrapper style holds for those options. */
  lemma ColourWrapper(w: Style)
    requires w == WrapperStyle(WithDefaultPosition(ColourOptions))
    ensures "color" in w && w["color"] == "red"
    ensures "backgroundColor" in w && w["backgroundColor"] == "#212121"
    ensures "bottom" in w && w["bottom"] == "1em"
  {
    var div := map["color" := "red"];
    assert Override(WithDefaultPosition(ColourOptions).div).GetOr(map[]) == div;
    assert "backgroundColor" in DefaultWrapper && "backgroundColor" !in div;
  }

  /** What the merged text style holds for those options. */
  lemma ColourText(t: Style)
    requires t == TextStyle(WithDefaultPosition(ColourOptions))
    ensures "color" in t && t["color"] == "green"
    ensures "fontSize" in t && t["fontSize"] == "1.1em"
  {
    var p := map["color" := "green"];
    assert Override(WithDefaultPosition(ColourOptions).p).GetOr(map[]) == p;
    assert "fontSize" in DefaultText && "fontSize" !in p;
  }

  /** Overrides read from `options.div.style` and `options.p.style` win over
      the defaults; the position style still anchors the wrapper. */
  method StyleOverrides(tables: Tables) returns (wrapper: Style, text: Style)
    ensures "color" in wrapper && wrapper["color"] == "red"
    ensures "backgroundColor" in wrapper && wrapper["backgroundColor"] == "#212121"
    ensures "bottom" in wrapper && wrapper["bottom"] == "1em"
    ensures "color" in text && text["color"] == "green"
    ensures "fontSize" in text && text["fontSize"] == "1.1em"
  {
    var s := new Session(ColourOptions, tables);
    s.OnState("disconnected");
    wrapper := s.notification.wrapperStyle;
    text := s.notification.textStyle;
    ColourWrapper(wrapper);
    ColourText(text);
  }
}

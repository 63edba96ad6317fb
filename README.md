# Badge session model

A Dafny model of the connection-status badge in `badge/index.js`. Calling
`badge(client, options)` subscribes to the sync object's `state` and
`error` events. Each event may show a single popup node in the document.
The popup hides itself when its timer fires. The function that `badge`
returns unsubscribes both listeners and hides the popup.

The model has five modules, one file each:

- `BadgeTypes` (`badge_types.dfy`): the seven notification types and their
  names. It also holds `objFromItems` and the `types` and `positions`
  tables it builds.
- `BadgeFilter` (`badge_filter.dfy`): the `state` handler's condition and
  the `error` handler's choice between `refresh` and `error`.
- `BadgeRender` (`badge_render.dfy`): the options, the style merge done by
  `Object.assign`, `setStyle`, `setPosition`, and the language switch of
  `setText`.
- `BadgeSpec` (`badge_spec.dfy`): the session as a value (`View`). It
  defines the effect of each event and holds the lemmas about single
  events and about runs of events.
- `BadgeSession` (`badge_session.dfy`): the session as a class. Its
  fields are the closure's variables: `lastState`, `armed` (the
  truthiness of `timeoutId`), `notification`, and `listening` (which
  listeners are still registered). `show`, `change`, `hide`, the two
  handlers, the timer and the unbind function are methods. Each handler,
  the timer and unbind are proved to move the session's `Observed()` view
  exactly as the `BadgeSpec` functions say. `Show`, `Change` and `Hide`
  state their effect on that view directly. The invariant `Valid()`
  holds between calls. It says the timer is armed exactly while the
  current node is in the document, and that no other node of the session
  is in the document. So a session never shows
  more than one popup. The file ends with client methods that replay the
  event sequences of `test/badge.test.js` against the class contracts.
  They check the popup in the model's document, not the tests' lookup
  of a `.logux-status-badge` node (test/badge.test.js:7-9). `createPopup`
  never sets that class (badge/index.js:123-133), so that lookup could
  never find a node this code creates.

State strings stay strings, because the handler compares `sync.state`
with the `types` table. States outside the table, such as `connected`
and `synchronised`, never show a popup by themselves.

The model follows `badge/index.js` as written, including these points
where the code does something a reader of the tests or names might not
expect:

- The protocol check compares `error.type` with `'wrong-protocol '`,
  which has a trailing space. So a plain `wrong-protocol` error shows
  `error`, not `refresh` (`BadgeFilter.PlainWrongProtocolIsError`). The
  test at test/badge.test.js:108-115 is named "show notification when
  error wrong-protocol" and emits the type without the space.
- `hide` calls `removeChild` without checking for a node
  (badge/index.js:105). So the unbind function throws when no popup is
  visible, and it throws on a second call
  (`BadgeSession.UnbindRemovesPopup`).
- The default position is `topRight` (badge/index.js:42). `setPosition`
  gives every position the same bottom-left anchoring
  (badge/index.js:162-173).
- Style overrides are read from `options.div.style` and `options.p.style`
  (badge/index.js:127-128). The test at test/badge.test.js:142-147 passes
  them as `options.style.div` and `options.style.p`, which the code does
  not read.
- The auto-hide delay is the module constant `notificationTimeout`
  (badge/index.js:39, 86, 97). No option changes it.
- `change` replaces only the popup's text (badge/index.js:95). Its style
  stays as created.
- `objFromItems` drops an item `"__proto__"`: assigning that key on a
  plain object calls the prototype setter, which ignores a string. The
  two tables the source builds contain no such item.

## Model

| member | source | states |
|---|---|---|
| BadgeTypes.TypeOf | badge/index.js:22-30 | Inverse of the `types` table: a string reads as a type exactly when it is that type's name, and strings outside the table read as none |
| BadgeTypes.ObjFromItems | badge/index.js:187-193 | The dictionary's keys are exactly the items except `"__proto__"`, which a plain object does not take as a key, and every key maps to itself |
| BadgeTypes.TypesTable | badge/index.js:22-30 | `types` holds every type's name mapped to itself, and only type names |
| BadgeTypes.PositionsTable | badge/index.js:31-38 | `positions` (exposed as `badge.positions`) has exactly the six position names as keys, each mapped to itself |
| BadgeFilter.ShouldShow | badge/index.js:49-57 | The handler's string test holds exactly when the state names a type whose rule holds: disconnected and wait always, connecting and sending only right after wait, synchronized only while armed, never refresh, error or an unknown state |
| BadgeFilter.ErrorType | badge/index.js:65-73 | Refresh exactly when a payload is present and its type is `'wrong-protocol '` or `'wrong-subprotocol'`; otherwise error |
| BadgeFilter.PlainWrongProtocolIsError | badge/index.js:66 | A `wrong-protocol` type without the trailing space is shown as error |
| BadgeFilter.OnlyWaitMatters | badge/index.js:52-54 | The previous state affects the decision only by being wait or not |
| BadgeRender.WithDefaultPosition | badge/index.js:42 | The caller's position is kept; without one the position becomes `topRight`; the other options are untouched |
| BadgeRender.Overlay | badge/index.js:145-148 | The result of `Object.assign`: keys of both, the source's value wherever the source has the key, the target's value elsewhere |
| BadgeRender.Assign | badge/index.js:146 | Copying the source's keys one at a time onto the target gives exactly the overlay |
| BadgeRender.Override | badge/index.js:127-128 | An override exists exactly when the part and its `style` are both present, and it is that style |
| BadgeRender.StyleNode | badge/index.js:136-148 | Defaults, then the override if any, assigned onto the node's empty style, equal the defaults overlaid with the override |
| BadgeRender.SetStyle | badge/index.js:135-160 | The wrapper style is the wrapper defaults overlaid with the `div` override; the text style is the text defaults overlaid with the `p` override |
| BadgeRender.OverridesWin | badge/index.js:135-160 | After the merge, every key the caller sets has the caller's value, every default key the caller leaves alone keeps its default, and no other key appears |
| BadgeRender.PositionStyle | badge/index.js:162-173 | Whatever the position, the anchoring is exactly `bottom: 1em` and `left: 4em` |
| BadgeRender.WrapperStyle | badge/index.js:126-130 | Every created wrapper has the default keys, the `div` override's keys, and `bottom`/`left`; the position anchoring always wins, the override wins elsewhere, untouched defaults stay |
| BadgeRender.TextStyle | badge/index.js:126-129 | Every created paragraph has the default keys and the `p` override's keys; the override wins, untouched defaults stay |
| BadgeRender.Lower | badge/index.js:177 | Lower-casing keeps the length and lower-cases each character on its own |
| BadgeRender.RussianSpellings | badge/index.js:177-178 | A language lower-cases to `ru` exactly when it is `ru`, `rU`, `Ru` or `RU` |
| BadgeRender.SelectTable | badge/index.js:177-184 | The table is always the Russian or the English one, and English when the language is absent, empty or `en` |
| BadgeRender.TableChoice | badge/index.js:175-185 | The Russian table is chosen exactly for those four spellings; any other language, and no language, gets the English table |
| BadgeRender.TextFor | badge/index.js:179-183 | The text, when present, is the type's entry in the table `SelectTable` picks, the English entry when no language is given, and absent exactly when the selected table lacks the type |
| BadgeRender.TextChoice | badge/index.js:175-185 | For every type and language: the Russian table's entry for `ru`, `rU`, `Ru` or `RU`, the English table's entry for every other language and for none, and no text when that table lacks the type |
| BadgeSpec.AfterState | badge/index.js:47-61 | A state event never changes the listeners; undelivered it changes nothing; delivered, `lastState` becomes the state; any change of the visible popup is to the state's own type |
| BadgeSpec.AfterError | badge/index.js:63-74 | A delivered error event leaves refresh or error visible and that type's name as `lastState`; undelivered it changes nothing |
| BadgeSpec.AfterTimer | badge/index.js:103-109 | The timer hides the popup and changes nothing else |
| BadgeSpec.Unbound | badge/index.js:111-116 | Unbinding removes every listener and hides the popup, keeping `lastState` |
| BadgeSpec.UnbindThrows | badge/index.js:105 | Unbind throws exactly when hiding leaves the visible popup as it was, that is, when nothing was visible |
| BadgeSpec.StateEventShowsIff | badge/index.js:47-61 | A delivered state event shows the state's type exactly when its rule holds; otherwise only `lastState` changes; in both cases `lastState` becomes the new state |
| BadgeSpec.UnknownStateShowsNothing | badge/index.js:49-57 | A state outside the `types` table never changes what is visible |
| BadgeSpec.SynchronizedOnlyWhileVisible | badge/index.js:56 | `synchronized` leaves a popup visible exactly when one was visible before |
| BadgeSpec.RecoveryOnlyRightAfterWait | badge/index.js:52-60 | Once a state other than wait has been seen, connecting or sending changes nothing that is visible |
| BadgeSpec.ErrorAlwaysShows | badge/index.js:63-74 | A delivered error event always shows the chosen type, and that type's name becomes `lastState` |
| BadgeSpec.NothingAfterUnbind | badge/index.js:111-116 | With no listener and nothing visible, no run of events of any kind changes the session |
| BadgeSpec.OnlyTimerOrUnbindHides | badge/index.js:78-109 | A run of state and error events never takes a visible popup away |
| BadgeSpec.ListenersOnlyShrink | badge/index.js:111-114 | No run of events registers a listener again |
| BadgeSession.SetText | badge/index.js:175-185 | The node's text becomes the type's entry in the table the language selects; the node stays where it is |
| BadgeSession.CreatePopup | badge/index.js:123-133 | A new node, not yet in the document, with the merged wrapper and text styles and the type's text |
| BadgeSession.Session.constructor | badge/index.js:41-77 | Options get their default position, both listeners are registered, nothing is seen or shown, the invariant holds |
| BadgeSession.Session.Show | badge/index.js:78-88 | Unarmed: one new node is created, put in the document and the timer armed. Armed: the same node is kept and nothing is added. Either way the popup shows the type and the invariant holds |
| BadgeSession.Session.Change | badge/index.js:90-101 | Armed: the same node now shows the new type's text and the timer stays armed. Unarmed: it acts as `show`. The two call each other at most once (termination measure) |
| BadgeSession.Session.Hide | badge/index.js:103-109 | The node leaves the document, keeping its text, and the timer is disarmed; it throws, changing nothing, exactly when no node was in the document |
| BadgeSession.Session.TimerFires | badge/index.js:86 | The timer fires only while armed; it then hides the popup without throwing |
| BadgeSession.Session.OnState | badge/index.js:47-61 | The session's view moves as `BadgeSpec.AfterState` says; an armed session keeps its node; an event that leaves nothing visible creates no node |
| BadgeSession.Session.OnError | badge/index.js:63-74 | The session's view moves as `BadgeSpec.AfterError` says; an armed session keeps its node; an event that leaves nothing visible creates no node |
| BadgeSession.Session.Unbind | badge/index.js:111-116 | Every unsubscriber runs, then `hide`: no listener is left, nothing is visible, and it throws exactly when nothing was visible |
| BadgeSession.DisconnectShows | test/badge.test.js:27-35 | `connecting` then `disconnected` leaves the disconnected popup visible |
| BadgeSession.WaitShows | test/badge.test.js:37-43 | `wait` shows the wait popup |
| BadgeSession.RecoveryAfterWait | test/badge.test.js:45-58 | After `wait`, the popup visible on `connected` is still the wait popup; `wait` then `sending` shows sending in the same node |
| BadgeSession.HiddenNodeUntouched | badge/index.js:78-88 | After the timer hides a popup, the next popup is a new node, and the hidden node keeps its text and stays out of the document |
| BadgeSession.NoRecoveryWithoutWait | test/badge.test.js:60-72 | `connected` then `sending` without a wait shows nothing |
| BadgeSession.SynchronisedAfterWait | test/badge.test.js:74-86 | `synchronised` after `wait` leaves the wait popup visible |
| BadgeSession.ConnectedAlone | test/badge.test.js:88-97 | `connected` on a fresh session shows nothing |
| BadgeSession.SynchronizedNeedsPopup | badge/index.js:56 | `synchronized` with nothing visible shows nothing; after `wait` it shows synchronized in the same node |
| BadgeSession.SubprotocolShowsRefresh | test/badge.test.js:99-106 | A `wrong-subprotocol` error shows the refresh popup |
| BadgeSession.PlainProtocolShowsError | test/badge.test.js:108-115 | A plain `wrong-protocol` error shows the error popup, not refresh |
| BadgeSession.OtherErrorShowsError | test/badge.test.js:117-124 | Any other error type shows the error popup |
| BadgeSession.UnbindRemovesPopup | test/badge.test.js:126-137 | Unbinding with a popup visible removes it without throwing; later events show nothing; a second unbind throws |
| BadgeSession.LanguageSelectsTable | test/badge.test.js:196-205 | With language `ru`, `connecting` then `disconnected` gives the popup the Russian table's entry |
| BadgeSession.StyleOverrides | badge/index.js:126-129 | Colors given in `options.div.style` and `options.p.style` reach the wrapper and the text; untouched defaults and the position anchoring remain |

## Left out

- The DOM is not modelled. A node is an object with its two styles, its text and an in-document flag. `createElement`, `appendChild`, `removeChild`, `querySelector` and `innerText` are field updates on it.
- The model's style map takes any property name and value. A browser's style object drops invalid values; the model does not.
- `setTimeout` and `clearTimeout` are reduced to the `armed` flag and an explicit `TimerFires` event. Wall-clock time and the 300000 delay are not modelled.
- `console.log` calls are left out. They have no effect on the session.
- `sync.on` and the functions it returns come from logux-sync, which is not part of this model. Registration is the `listening` set. An event reaches a handler only while its listener is registered.
- The `./ru` and `./en` translation tables are not part of this model. They are parameters (`Tables`), and a missing entry gives no text (`None`).
- Icons are not used by `badge/index.js`, so they are not modelled.
- BadgeRender.Lower: models `toLowerCase` on ASCII letters only. Other characters are kept as they are.
- The documentation comment at badge/index.js:11-12 types `options.div.style` and `options.p.style` as strings. The code passes them to `Object.assign`, so the model takes a style object, as the tests do. A string's characters would become numbered keys; that is not modelled.
- The options copy at badge/index.js:42 is shallow, so `options.div` and `options.p` stay shared with the caller, who could change them later. The model's options are an immutable value.
- A truthy `language` without a `toLowerCase` method (a number, `true`, an object) makes `setText` throw; that is not modelled. Falsy values such as `null`, `0` or `false` select the English table like an absent language, which the model's `None` stands for.
- The exception that `hide` throws is the `thrown` result of `Hide` and `Unbind`. Its effect on the caller is not modelled.
- webpack.config.js, jestProcessor.js and index.js are build and test glue with no behaviour of their own.

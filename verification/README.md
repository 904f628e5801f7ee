# angular-notifications: the notification lifecycle in Dafny

This project models the `$notification` service and the `notifications`
directive of angular-notifications (`notification.js`).

The service keeps three pieces of state, and all three change in place:

- **history** (`notifications`): the records read back from local storage at
  page load, followed by every record created since. It is append-only until
  `clear`.
- **queue**: the records shown on screen as toasts.
- **settings**: one `{duration, enabled}` entry per kind, plus the global
  flags `details`, `localStorage`, `html5Mode` and `html5DefaultIcon`.

`makeNotification` builds a record and appends it to history. With the
desktop (HTML5) mode on, the record gets the handle that `html5Notify`
returns and is not queued. Otherwise the record is queued and an expiry
timer is set for its kind's duration. When that timer fires, it runs
`queue.splice(queue.indexOf(record), 1)`. The directive's dismiss handler
runs the same expression on the same array.

The model has three modules:

- `JsArray` (`js_array.dfy`) gives the JavaScript semantics of `indexOf` and
  `splice(start, 1)`, including a negative `start`, and the removal
  expression built from them.
- `Notifications` (`notifications.dfy`) holds the settings, the `Note` record
  class and the `Service` class. The class has the fields `history`, `queue`,
  `settings`, `timers` (records whose expiry callback is scheduled and has
  not yet run), `stored` (what local storage holds) and `permissionRequests`
  (prompts sent to the browser).
- `NotificationsDirective` (`directive.dfy`) holds the position tokenising
  and `link`, the dismiss handler, and two scenarios built from the service's
  own contracts.

Records are objects, because `indexOf` compares them by identity. The
browser's permission state is the input
`Platform = Absent | Granted | Denied | Default`. The clock is a `now`
parameter. A timer firing is an explicit call to `TimerFires`, which is
allowed only for a record whose timer is pending.

The expiry callback `removeFromQueueTimeout` is built around its own record
(notification.js:174-175): it is meant to take that record off the screen.
When the user has already dismissed the record, `indexOf` returns -1, and
`splice(-1, 1)` removes whichever record is last in the queue. The model
follows the code as written and records this under Findings.

## Model

| member | source | states |
|---|---|---|
| `JsArray.IndexOf` | notification.js:175 | the result is -1 exactly when the record is absent; otherwise it is the first index holding the record |
| `JsArray.SpliceStart` | notification.js:252 | splice's start position stays within the array; a start inside the array is used as is; -1 on a non-empty array means the last position |
| `JsArray.SpliceOne` | notification.js:252 | `splice(start, 1)` removes one element exactly when the start position is inside the array; the elements before that position stay in place and those after it move down by one |
| `JsArray.RemoveByIdentity` | notification.js:174-176 | `q.splice(q.indexOf(x), 1)` removes exactly one element from any non-empty queue, whether or not `x` is queued, and it adds nothing |
| `JsArray.RemovePresent` | notification.js:251-253 | a queued record is removed at its own index; the entries before and after it keep their order; with no duplicates the record is gone afterwards |
| `JsArray.RemoveAbsent` | notification.js:251-253 | for a record that is not queued, the removal takes away the last entry of a non-empty queue and leaves an empty queue unchanged |
| `JsArray.RemoveKeepsNoDuplicates` | notification.js:173-175 | the removal keeps the queue free of duplicates |
| `JsArray.RemoveTwiceDropsAnother` | notification.js:251-253 | running the removal twice for the same record (dismiss, then its timer) removes a second, different record |
| `JsArray.StaleTimerEmptiesQueue` | notification.js:174-176 | concrete case: with `[a, b]` queued, dismissing `a` leaves `[b]`, and `a`'s timer then leaves `[]` |
| `JsArray.RemoveIfPresent` | notification.js:175 | corrected removal: it leaves the queue unchanged when the record is absent; otherwise it is the as-written removal, which takes out that record at its own index and keeps the order of the rest |
| `JsArray.RemoveIfPresentIdempotent` | notification.js:251-253 | with the corrected removal, a dismissal followed by the record's timer has the same effect as the dismissal alone |
| `Notifications.Defaults` | notification.js:8-19 | the initial settings have the six kinds, all enabled, and no kind key equals a flag key; desktop mode and persistence start off |
| `Notifications.SetEnabled` | notification.js:71-73 | `settings[kind].enabled` becomes the given value; the kind's duration, every other kind and every global flag are unchanged |
| `Notifications.ToggleTwiceRestores` | notification.js:79-81 | toggling a kind twice restores the original settings |
| `Notifications.ExpiryFor` | notification.js:174-176 | a queued record's timer uses its kind's duration when the kind has an entry; the delay is undefined when the kind names a global flag; reading `settings[kind].duration` throws when the entry is undefined |
| `Notifications.EnabledNotConsulted` | notification.js:149-181 | changing any kind's `enabled` flag does not change the expiry `makeNotification` arranges |
| `Notifications.RequestHtml5ModePermissions` | notification.js:87-97 | true exactly when the API exists and permission is granted |
| `Notifications.DesktopHandle` | notification.js:21-51 | `html5Notify` returns `null` exactly when the API is absent, and a desktop notification exactly when permission is granted; that notification carries the given title, icon and body |
| `Notifications.Route` | notification.js:113-147 | every creator except `notify` passes `image = false` and a font-awesome icon name (`awesomeNotify` its own kind and icon); `notify` passes its image with `icon = true` under the kind `custom` |
| `Notifications.FixedKindsConfigured` | notification.js:8-19 | the kinds that `info`, `error`, `success`, `warning` and `notify` use all have an entry in the initial settings, so they never take the TypeError path |
| `Notifications.Note.constructor` | notification.js:150-159 | a new record carries the given fields and a `null` desktop handle |
| `Notifications.Service.constructor` | notification.js:5-19 | history starts as the records read back from storage; the queue and the pending timers start empty; settings start at the defaults |
| `Notifications.Service.QueueWithinHistory` | notification.js:160-173 | until the first `clear`, every queued record is also in history |
| `Notifications.Service.DisableHtml5Mode` | notification.js:58-60 | `html5Mode` becomes false and nothing else changes |
| `Notifications.Service.DisableType` | notification.js:62-64 | a known kind is disabled with nothing else changed; any other key throws and changes nothing |
| `Notifications.Service.EnableHtml5Mode` | notification.js:66-69 | `html5Mode` becomes true exactly when the API exists and permission is granted; nothing else changes, and no permission request is sent |
| `Notifications.Service.EnableType` | notification.js:71-73 | a known kind is enabled with nothing else changed; any other key throws and changes nothing |
| `Notifications.Service.ToggleType` | notification.js:79-81 | a known kind's `enabled` flag is negated with nothing else changed; any other key throws and changes nothing |
| `Notifications.Service.ToggleHtml5Mode` | notification.js:83-85 | `html5Mode` is negated and nothing else changes |
| `Notifications.Service.Html5Notify` | notification.js:21-51 | without the API, desktop mode is switched off; when permission is undetermined, exactly one permission request is sent; in every case the result is `DesktopHandle` |
| `Notifications.Service.MakeNotification` | notification.js:149-182 | appends exactly the new record to history. In desktop mode it leaves the queue and timers unchanged and stores `html5Notify`'s handle in the record. Otherwise it appends the record to the queue and schedules its timer, unless the settings lookup throws. It saves unless that lookup threw. |
| `Notifications.Service.TimerFires` | notification.js:174-176 | the expiry callback applies `RemoveByIdentity` to the queue and retires the timer; history is not touched |
| `Notifications.Service.Save` | notification.js:187-192 | storage receives the current history exactly when `settings.localStorage` is on |
| `Notifications.Service.Clear` | notification.js:198-201 | history becomes empty and is saved; the queue and the pending timers are untouched |
| `Notifications.Service.Create` | notification.js:113-147 | each wrapper has the whole effect of `makeNotification` (history, queue, timers, desktop handle, settings, prompts, save) for the `(type, image, icon)` that `Route` gives |
| `Notifications.DisabledKindStillShown` | notification.js:62-64 | after `disableType('info')`, `info(...)` still adds the record to history and the queue, with a 5000 ms timer |
| `NotificationsDirective.Split` | notification.js:234-235 | `split(' ')` yields at least one piece, and no piece contains a space |
| `NotificationsDirective.JoinSplit` | notification.js:235 | joining the pieces with single spaces gives the attribute back |
| `NotificationsDirective.SplitJoin` | notification.js:235 | splitting a join of space-free pieces gives the pieces back |
| `NotificationsDirective.Element.AddClass` | notification.js:236-238 | each `addClass` call is recorded on the element, in order |
| `NotificationsDirective.Link` | notification.js:233-240 | adds `dr-notification-container`, then every space-separated piece of the position attribute, in order |
| `NotificationsDirective.RemoveNotification` | notification.js:251-253 | the dismiss handler applies `RemoveByIdentity` to the service's own queue; history and timers are outside its frame |
| `NotificationsDirective.TwoToasts` | notification.js:113-127 | a fresh service given `info` then `warning` shows both records in order, each with a pending timer |
| `NotificationsDirective.StaleTimerRemovesOther` | notification.js:251-253 | after dismissing the first of two toasts, its timer firing empties the queue while the second toast's timer is still pending |

## Findings

| source | as written | input that shows it | evidently intended | confidence | as-written member | corrected member |
|---|---|---|---|---|---|---|
| notification.js:175 | `queue.splice(queue.indexOf(n), 1)` on a record `n` that the user already dismissed gives `splice(-1, 1)`, which removes the last toast | queue `[a, b]`; dismiss `a` (queue `[b]`); `a`'s timer fires (queue `[]`); `b` disappears early | remove `n` only if it is still queued, and otherwise do nothing | high; not executed | `JsArray.StaleTimerEmptiesQueue` | `JsArray.RemoveIfPresentIdempotent` |

The same expression is at notification.js:252, where a repeated dismissal
would have the same effect. The service and directive model the code as
written: `TimerFires` and `RemoveNotification` use `RemoveByIdentity`, and
`StaleTimerRemovesOther` shows the effect on the service as a whole.
`RemoveIfPresent` is the corrected removal, and
`RemoveIfPresentIdempotent` proves that with it a stale timer changes
nothing.

## Left out

- Local storage and JSON. The key `$notifications`, `JSON.parse`,
  `JSON.stringify` and the round trip through text are not modelled.
  `stored` holds the records that `save` would write. The constructor takes
  the records read back at page load.
- The `Notification` constructor and the asynchronous `requestPermission`
  callback are foreign browser calls. The callback may write
  `Notification.permission`, and its return value is discarded. The model
  keeps only the branch on `Platform` and counts the requests. A browser
  without the static `permission` property is treated as `Default`.
- When the user grants permission, the `requestPermission` callback calls
  `getDeskNote()` (notification.js:46-47). This shows a desktop notification
  later, and no handle to it is stored in the record. The model does not
  capture this late desktop notification.
- The `ondisplay` and `onclose` arguments of `html5Notify` are never used,
  so they are not modelled.
- `$timeout` scheduling is left out. `Expiry` records the delay that would
  be requested. The model does not say how `$timeout` treats an undefined
  delay.
- `+new Date()` is left out. The timestamp is the `now` parameter.
- The HTML template, `ng-repeat`, `ng-switch` and `$compile` are rendering
  and are left out.
- `restore` has an empty body.
- `getAll`, `getQueue` and `getSettings` return the live objects. The model
  exposes them as the public fields `history`, `queue` and `settings`.
  Writing through the object from `getSettings` (the only way to turn on
  `settings.localStorage`) is modelled as assigning the `settings` field.
  Such a write must keep the kind keys apart from the flag keys, as one
  JavaScript object does, because the service invariant `Valid` requires
  it.
  After `clear`, an array obtained earlier from `getAll` is no longer the
  service's history; this aliasing is not modelled.
- A kind key inherited from `Object.prototype`, such as `toString`, is
  treated like any other missing key. In the source, `settings[kind]` finds
  the inherited property.
- Arguments are dynamically typed in the source. The model limits `image`
  to `false` or a reference, and `icon` to a name or `true`, which are the
  values the wrappers pass.
- `NotificationsDirective.Element.AddClass` records the calls only. The
  class attribute that results from them (duplicates merged, an empty piece
  ignored) is determined by jqLite and is not modelled.

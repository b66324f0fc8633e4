# Navigation policy and notification relay of an Electron Teams shell

This project models, in Dafny, the decision logic of a desktop shell that
wraps the Microsoft Teams web client:

- **Host allow-lists** (`Hosts`): a hostname is allowed by a list when it
  equals an entry or ends with `"." + entry`. Two lists exist: one for
  window-open requests and one for in-place navigation. The navigation
  list is the window-open list without `microsoft.com`.
- **Navigation handlers** (`Navigation`). The window-open handler returns
  `allow`, or opens the URL externally and returns `deny`. The
  will-navigate handler does nothing, or cancels the navigation and opens
  the URL externally. Each handler is a pure function. Its input is the URL
  and the hostname that the URL constructor produced. Its output is the
  decision plus the effects it emits (`OpenExternal(url)`,
  `PreventDefault`).
- **Permission handler** (`Permissions`): a permission is granted exactly
  when it is one of `notifications`, `clipboard-read`, `clipboard-write`
  and `media`.
- **Notification relay**. `Preload` is the renderer-side notification
  class: option defaulting, the correlation id, the `show-notification`
  payload, the reply listener, `close`, `permission` and
  `requestPermission`. `MainNotifications` is the main-process handler:
  it shows the notification with a fixed icon and replies on
  `notification-clicked-<tag || 'default'>`. `Ipc` holds the shared channel
  names. `Relay` holds the properties that span both processes. The
  central one: the main process replies on exactly the channel the preload
  script listens on.
- `Decimal` renders the clock reading `Date.now()` in decimal, as the
  generated id `notif-<now>` needs. A parse function and a round-trip
  lemma are its partner.

Inputs and outputs that are not pure logic become parameters or effect
values:
- The parsed hostname is an input. `None` stands for a URL the constructor
  rejected.
- `Date.now()` is an input natural number.
- `Notification.isSupported()` and "a main window exists" are boolean
  inputs.
- Page callbacks are opaque ids.
- `shell.openExternal`, `event.preventDefault`, `ipcRenderer.send` /
  `once`, `event.sender.send`, and showing and focusing the window are
  returned as effect values.

Behaviour of the code that the model keeps as it is:
- **Hostname case.** The handlers do no lowercasing of their own.
  Comparison is exact on the hostname the URL parser returns.
- **Malformed URLs.** Nothing fails closed. If the URL constructor throws,
  the handler throws before any effect. For will-navigate, this means the
  navigation is not cancelled (`InvalidUrlNotFailedClosed`).
- **Generated ids.** They are not unique. Two untagged notifications in
  the same millisecond get the same id. Only distinct clock readings give
  distinct ids (`GeneratedIdsDistinct`).
- **`close()` and clicks.** `close()` does not remove the click listener.
  A later click still runs `onclick`
  (`ClickAfterCloseRunsOnclick`).
- **`null` options.** Passing `null` as the options argument throws a
  TypeError. The default `{}` applies only when the argument is omitted or `undefined`
  (`Construct` returns `Err(NullOptionsTypeError)`).

## Model

| member | source | states |
|---|---|---|
| Hosts.AnyMatches | src/main.js:102-104 | the left-to-right `some` scan is true exactly when some entry equals the host or is a dot-bounded suffix of it |
| Hosts.EndsWithIff | src/main.js:103 | `endsWith` holds exactly when the string is some prefix followed by the suffix (`exists p :: s == p + suffix`) |
| Hosts.NoMatchWithoutDot | src/main.js:131-133 | a label not ending in `.` glued onto an entry does not match it, e.g. `evilteams.microsoft.com` vs `teams.microsoft.com` |
| Hosts.SuffixClosure | src/main.js:102-104 | every `x + "." + host` of an allowed host is allowed by the same list |
| Hosts.AllowedConcat | src/main.js:131-133 | allow-list membership over a concatenation of lists is membership in either part |
| Hosts.WindowOpenListExtendsNavigationList | src/main.js:86-99 | the window-open list is the navigation list plus `microsoft.com`, which the navigation list lacks |
| Hosts.WindowOpenAllowedIff | src/main.js:86-129 | a host is allowed for window-open iff it is allowed for navigation or matches `microsoft.com` |
| Hosts.NavigationAllowedImpliesWindowOpenAllowed | src/main.js:117-129 | the navigation list allows no host the window-open list denies |
| Navigation.OnWindowOpen | src/main.js:84-112 | allowed host: `allow` with no effect; other host: `deny` with exactly `OpenExternal(url)`; unparsable URL: the handler throws |
| Navigation.OnWillNavigate | src/main.js:115-139 | allowed host: no effect; other host: exactly `PreventDefault` then `OpenExternal(url)`; unparsable URL: the handler throws |
| Navigation.WindowOpenExternalCount | src/main.js:106-111 | an allow emits no external open; a deny emits exactly one, for the same url |
| Navigation.NavigationPermitsImplyWindowOpenPermits | src/main.js:115-139 | a navigation let through in place would also be allowed as a new window |
| Navigation.HandlersDisagreeIff | src/main.js:86-133 | the handlers disagree exactly on hosts matching `microsoft.com` that no navigation entry covers |
| Navigation.InvalidUrlNotFailedClosed | src/main.js:101-104 | an unparsable URL makes both handlers throw with no external open and no cancellation |
| Navigation.TeamsHostAllowed | src/main.js:86-99 | `teams.microsoft.com` is allowed by both handlers, `login.microsoftonline.com` for navigation |
| Navigation.RootDomainNotNavigable | src/main.js:117-129 | no navigation entry covers `microsoft.com` |
| Navigation.LookAlikeMissesEntry | src/main.js:117-133 | `evilteams.microsoft.com` misses each navigation entry |
| Navigation.LookAlikeNotNavigable | src/main.js:131-133 | `evilteams.microsoft.com` is not allowed for in-place navigation |
| Navigation.RootDomainOnlyForWindowOpen | src/main.js:84-139 | `microsoft.com` and `evilteams.microsoft.com` open as windows but are cancelled and opened externally on navigation |
| Permissions.Includes | src/main.js:61 | `includes` is true exactly when some element equals the value |
| Permissions.OnPermissionRequest | src/main.js:57-69 | the callback is called once, with `true` exactly for the four listed permissions |
| Permissions.OtherPermissionsRefused | src/main.js:59-67 | e.g. `Notifications`, `geolocation` and `''` get `false` |
| Decimal.NatToDecimal | src/preload.js:18 | the clock rendering is a non-empty digit string without leading zeros |
| Decimal.DecimalRoundTrip | src/preload.js:18 | reading the rendering back gives the clock value |
| Decimal.NatToDecimalInjective | src/preload.js:18 | distinct clock values render differently |
| Ipc.ClickedChannel | src/preload.js:29 | the reply channel is the prefix followed by the id |
| Ipc.ClickedChannelInjective | src/preload.js:29 | different ids give different reply channels, so a reply reaches only its own listener |
| Preload.OrEmpty | src/preload.js:10-12 | a missing option becomes `''`; a present string is kept |
| Preload.EffectiveId | src/preload.js:18 | the id is the tag when non-empty, else `notif-` followed by the canonical decimal text of the clock value (no leading zero, parses back to it); it is never empty |
| Preload.GeneratedIdsDistinct | src/preload.js:18 | untagged notifications created at different clock values get different ids |
| Preload.Construct | src/preload.js:8-31 | `null` options throw; otherwise options are defaulted, handlers unset, the payload `{title, body, icon, tag: id}` is sent, then `notification-clicked-<id>` is listened on |
| Preload.SentTagNonEmpty | src/preload.js:18-29 | the sent tag is never empty, equals the page's tag when given, and names the listened channel |
| Preload.SendPrecedesListen | src/preload.js:21-31 | the request is sent before the click listener is registered |
| Preload.OnClickedReply | src/preload.js:29-31 | the reply listener calls `onclick` once if set and otherwise does nothing |
| Preload.Close | src/preload.js:39-41 | `close` calls `onclose` once if set and nothing else |
| Preload.CloseIgnoresOnclick | src/preload.js:39-41 | `close` neither depends on `onclick` nor sends or listens on any channel |
| Preload.RequestPermission | src/preload.js:43-50 | the promise resolves with the static `permission` value; the callback, if given, gets that same value once |
| MainNotifications.ReplyChannel | src/main.js:262 | the reply channel names the tag, or `default` when the tag is empty |
| MainNotifications.OnShowNotification | src/main.js:249-267 | unsupported: nothing; supported: exactly one notification with the request's title and body and the bundled icon |
| MainNotifications.RequestIconIgnored | src/main.js:251-255 | the request's icon has no effect on what is shown |
| MainNotifications.OnNotificationClick | src/main.js:257-263 | with a window: exactly show, focus, then one reply on the tag's channel; without one: only that reply |
| Relay.ReplyReachesListener | src/main.js:262 | for any request the preload sends, the main process replies on the channel preload listens on; the `default` branch is not taken |
| Relay.ClickRunsPageHandler | src/preload.js:29-31 | a click on the shown notification reaches this object's listener, which calls the page's `onclick` |
| Relay.ShownNotificationContent | src/main.js:249-255 | the shown notification has the page's title, its defaulted body and the bundled icon |
| Relay.ClickAfterCloseRunsOnclick | src/preload.js:29-41 | `close` invokes only `onclose`; a click arriving afterwards still runs the `onclick` that is set |
| Relay.PermissionStatusAgrees | src/preload.js:43-50 | the renderer reports `granted`, and the session grants `notifications` |

## Left out

- URL parsing (`new URL(url)`) is a library call. The model takes its
  result, the hostname or a failure, as input.
- Option values that are neither strings nor absent: numbers, objects and
  other truthy or falsy JavaScript values. Options are modelled as
  optional strings and the title as a string.
- Decimal.NatToDecimal: matches JavaScript's number-to-string only below
  10^21, where exponent notation starts. Millisecond clock readings stay
  far below that.
- The deferred `onshow` call (`setTimeout`) and the IPC transport itself
  (delivery, ordering, listener removal after `once` fires) are left out.
  They are event-loop and concurrency behaviour.
- `onerror` is stored but never used by the code. It is kept as a field
  only.
- Window creation, user agent, menus, tray, command-line and GPU switches,
  logging, crash and reload timers, the single-instance lock and app
  lifecycle events are left out. They are framework calls without
  decision logic.
- `shell.openExternal`, Electron's `Notification` and the window calls
  appear only as effect values.
- MainNotifications.BundledIcon is the icon path relative to the
  application directory. The directory (`__dirname`) is not modelled.

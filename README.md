# Mattermost mobile: app lifecycle coordinator

A Dafny model of the `Mattermost` class of the React Native mobile client
(`app/mattermost.js`). This class turns four event sources into one application
lifecycle:

- operating-system activity changes;
- inbound push notifications;
- server version announcements;
- navigation resets.

It also gates the first start of the app on completed store hydration.

Every external call a handler makes is recorded, in order, as an `Effect` value appended
to the coordinator's `trace`. This covers redux actions, `EventEmitter` signals,
`Navigation`, `PushNotifications`, `Alert` and the write to `Client4.serverVersion`. Work
handed to `InteractionManager.runAfterInteractions` is appended to `deferred` and is not
run by the handler.

Files:

- `wrappers.dfy`: the `Option`, `Result` and `Outcome` wrappers.
- `version_pattern.dfy` (module `VersionPattern`): the server-version extraction of line 58,
  written out as the backtracking search of the regular-expression engine for
  `/^[0-9]*.[0-9]*.[0-9]*(-[a-zA-Z0-9.-]*)?/g`, over a string of Unicode code points. It
  proves that a match exists exactly when the first two code points exist and neither is a
  line terminator, which is what the unescaped `.` refuses. It also proves which prefix a
  `MAJOR.MINOR.PATCH` or `MAJOR.MINOR.PATCH-PRE` announcement yields.
- `effects.dfy` (module `Effects`): the data model. It holds the device notification, the
  normalized notification, the store fields read (`hydrationComplete`, `appInitializing`,
  the credentials token), the environment and the `Effect` values.
- `handlers.dfy` (module `Handlers`): each handler's decision as a pure function from its
  inputs to its effects, with the promised properties as lemmas.
- `mattermost.dfy` (module `Lifecycle`): the class `Mattermost`. Its mutable fields are
  `isConfigured`, `subscribed`, `isActive`, `clientServerVersion`, `trace` and `deferred`.
  Every handler is a method whose `modifies` clause names exactly the fields it changes.
  The invariant `Valid()` states two things. `isConfigured` holds exactly when a device
  token has been stored. The hydration listener has started the app once when it is no
  longer subscribed, and never while it is.

Environment: `semver.valid`, `semver.lt`, `Config.MinServerVersion`, `Platform.OS` and
the two push-notify platform tags are fields of an `Environment` value. The values
`semver.valid` and `semver.lt` are left uninterpreted. The store is read through a
`StoreView` argument; a token of `""` stands for an absent or falsy token.

Line 58 runs before the emptiness test on line 59. The guard `if (serverVersion)` on
line 59 shows that an empty announcement was meant to be skipped. But line 58 has
already read `[0]` of the `null` that `match` returns for every string without a match,
so such an announcement throws. This covers `""`, every one-character string, and every
string with a line terminator among its first two characters. The model of the handler
follows the code: this case is the `NoVersionMatch` error, and the class method then
changes nothing. A consequence proved here (`ConfigChangedEffects`): the emptiness test on
line 59 is never false when it is reached. The intended behaviour, skipping an
announcement without a match, is modelled beside it as `ConfigChangedEffectsGuarded`
(see "## Findings").

## Model

| member | source | states |
|---|---|---|
| `VersionPattern.DigitRun` | app/mattermost.js:58 | a greedy `[0-9]*` first takes the longest run of digits: every character taken is a digit and the next one is not |
| `VersionPattern.SuffixRun` | app/mattermost.js:58 | the greedy `[a-zA-Z0-9.-]*` of the pre-release group takes the longest run of that class |
| `VersionPattern.DigitsThenDot` | app/mattermost.js:58 | `[0-9]*.` with backtracking succeeds exactly when some digit was available or the first character is not a line terminator; everything it consumes is free of line terminators |
| `VersionPattern.TwoDots` | app/mattermost.js:58 | `^[0-9]*.[0-9]*.` with full backtracking succeeds exactly when the first two characters exist and are not line terminators, and ends at position 2 or later |
| `VersionPattern.ExtractVersion` | app/mattermost.js:58 | `match(...)[0]` exists exactly when the string has two leading code points that are not line terminators; the result is a prefix of the input, at least two characters long, with no line terminator |
| `VersionPattern.ShortStringsHaveNoMatch` | app/mattermost.js:58 | `""` and every one-character string have no match |
| `VersionPattern.ReleaseVersionsExtracted` | app/mattermost.js:58 | `1.9.9` and `2.0.0` are extracted whole |
| `VersionPattern.PreReleaseVersionExtracted` | app/mattermost.js:58 | `2.0.1-beta` is extracted with its pre-release suffix |
| `VersionPattern.BuildSuffixDropped` | app/mattermost.js:58 | `4.7.0.1234` is cut to `4.7.0`, because no `-` follows the patch number |
| `VersionPattern.DigitRunIs` | app/mattermost.js:58 | a run of digits that ends at a non-digit or at the end is exactly what the greedy `[0-9]*` takes |
| `VersionPattern.SuffixRunIs` | app/mattermost.js:58 | a run of `[a-zA-Z0-9.-]` that ends outside the class or at the end is exactly what the pre-release star takes |
| `VersionPattern.TwoDotsAt` | app/mattermost.js:58 | when digits, a `.`, digits and a `.` open the string, the two greedy stars succeed without backtracking, right after the second `.` |
| `VersionPattern.ExtractAt` | app/mattermost.js:58 | when `MAJOR.MINOR.PATCH` opens the string, the match is that prefix, extended by the pre-release group exactly when a `-` follows it |
| `VersionPattern.CoreVersionExtracted` | app/mattermost.js:58 | `MAJOR.MINOR.PATCH` followed by nothing, or by a character that is neither a digit nor `-`, yields exactly `MAJOR.MINOR.PATCH` |
| `VersionPattern.PreReleaseExtracted` | app/mattermost.js:58 | `MAJOR.MINOR.PATCH-PRE` followed by nothing, or by a character outside `[a-zA-Z0-9.-]`, yields exactly `MAJOR.MINOR.PATCH-PRE` |
| `Handlers.Normalize` | app/mattermost.js:127-137 | the routed notification carries `data` and `message`, and it carries `localNotification` exactly when `userInfo` is present, with that value |
| `Handlers.PushNotificationEffects` | app/mattermost.js:126-155 | every notification yields exactly one action or none: mark read, in-app emit, navigate then tapped-emit, or queue; any notification it carries is the normalized one |
| `Handlers.ClearNotificationMarksChannelRead` | app/mattermost.js:139-140 | a `clear` notification yields exactly one mark-read for `data.channel_id`, whatever `foreground`, `userInteraction` and `userInfo` are |
| `Handlers.ForegroundNotificationShownInApp` | app/mattermost.js:130-142 | a foreground non-clear notification yields exactly one `NOTIFICATION_IN_APP` emit of `{data, message}` plus `localNotification` when `userInfo` is present; it yields no navigate or queue |
| `Handlers.TappedNotificationNavigates` | app/mattermost.js:143-148 | a tapped background remote notification, with the app not initializing, yields `goToNotification` then `NOTIFICATION_TAPPED` |
| `Handlers.TappedNotificationQueuedWhileInitializing` | app/mattermost.js:143-152 | the same notification while initializing with a token yields exactly one `queueNotification` |
| `Handlers.TappedNotificationDroppedWithoutSession` | app/mattermost.js:143-153 | the same notification while initializing without a token yields nothing |
| `Handlers.UntappedOrLocalNotificationIgnored` | app/mattermost.js:141-154 | a background notification that was not tapped, or a tapped one with a truthy `localNotification`, yields nothing |
| `Handlers.ConfigChangedEffects` | app/mattermost.js:56-74 | the handler throws exactly when extraction fails (`""` and one-character strings included), and then only with `NoVersionMatch`; every announcement that does not throw issues some effect |
| `Handlers.OutdatedServerOnlyAlerts` | app/mattermost.js:59-68 | a valid extracted version below the minimum yields only the upgrade alert: no `setServerVersion`, no load |
| `Handlers.SupportedServerLoadsConfig` | app/mattermost.js:59-72 | any other matched announcement, an invalid extracted version included, yields `setServerVersion('')` then `loadConfigAndLicense` of the unextracted string |
| `Handlers.EmptyAnnouncementThrows` | app/mattermost.js:58-59 | the empty announcement throws at the extraction instead of being skipped by the emptiness test |
| `Handlers.GuardedNeverFails` | app/mattermost.js:56-74 | the corrected gate never throws |
| `Handlers.GuardedSkipsExactlyUnmatched` | app/mattermost.js:58-59 | the corrected gate issues no effect exactly for announcements without a version match |
| `Handlers.GuardedAgreesWhenMatched` | app/mattermost.js:56-74 | wherever the extraction succeeds, the corrected gate issues the same effects as the code as written |
| `Handlers.GuardedSkipsEmptyAnnouncement` | app/mattermost.js:58-59 | on `""` the code as written throws while the corrected gate issues nothing |
| `Handlers.MinimumVersionExamples` | app/mattermost.js:56-74 | with minimum `2.0.0`, `1.9.9` raises the alert while `2.0.0` and `2.0.1-beta` load the configuration |
| `Handlers.StartAppEffects` | app/mattermost.js:157-173 | starting the app configures push notifications first exactly when not configured, and always ends with the root screen started with the given animation |
| `Handlers.DeviceToken` | app/mattermost.js:119-122 | the stored token is the platform tag (Apple's on iOS, Android's otherwise), a colon, and the device token unchanged |
| `Lifecycle.Mattermost.constructor` | app/mattermost.js:38-49 | starts unconfigured and subscribed to the store, seeds `isActive` from the current app state, and issues only that `setAppState` |
| `Lifecycle.Mattermost.HandleAppStateChange` | app/mattermost.js:51-54 | `isActive` becomes whether the state equals `"active"`, and that value is dispatched |
| `Lifecycle.Mattermost.HandleConfigChanged` | app/mattermost.js:56-74 | throws and changes nothing when there is no match; otherwise appends the gate's effects |
| `Lifecycle.Mattermost.HandleReset` | app/mattermost.js:76-82 | `Client4.serverVersion` becomes `''`; the effects are that write, cancel-all-local-notifications, `setServerVersion('')`, then `startApp('fade')`, in that order |
| `Lifecycle.Mattermost.HandleResetDisplayName` | app/mattermost.js:84-86 | the channel display name is set to the payload verbatim |
| `Lifecycle.Mattermost.HandleVersionUpgrade` | app/mattermost.js:88-99 | `Client4.serverVersion` becomes `''` and the badge count 0; exactly one logout is deferred when a token is present, none otherwise, and none runs in the handler |
| `Lifecycle.Mattermost.ListenForHydration` | app/mattermost.js:101-108 | before hydration nothing happens; once it is complete the listener unsubscribes and starts the app with no animation |
| `Lifecycle.Mattermost.StoreChanged` | app/mattermost.js:41 | the store reaches the listener only while subscribed, so the hydration path starts the app at most once and every later store change starts nothing |
| `Lifecycle.Mattermost.ConfigurePushNotifications` | app/mattermost.js:110-117 | push notifications are configured |
| `Lifecycle.Mattermost.OnRegisterDevice` | app/mattermost.js:119-124 | stores `prefix:token` and then sets `isConfigured`, the only place that sets it |
| `Lifecycle.Mattermost.OnPushNotification` | app/mattermost.js:126-155 | appends the router's single action, or nothing |
| `Lifecycle.Mattermost.StartApp` | app/mattermost.js:157-173 | configures push notifications only while unconfigured, then starts the root screen; the animation defaults to `'none'` |

## Findings

| source | as written | input that shows it | evidently intended | confidence | as-written member | corrected member |
|---|---|---|---|---|---|---|
| app/mattermost.js:58-59 | `serverVersion.match(...)[0]` runs before the emptiness guard `if (serverVersion)`, so a string without a match throws reading `[0]` of `null`, and the guard can never skip anything | `""` (also any one-character string, such as `"4"`) | an announcement without a version match is skipped with no effect, as the guard on line 59 shows | high; not executed | `Handlers.EmptyAnnouncementThrows` | `Handlers.ConfigChangedEffectsGuarded` |

The class method `Lifecycle.Mattermost.HandleConfigChanged` models the code as written.
The corrected gate is `Handlers.ConfigChangedEffectsGuarded`. Three lemmas prove the
intended behaviour:
- `Handlers.GuardedNeverFails`: it never throws.
- `Handlers.GuardedSkipsExactlyUnmatched`: it issues nothing exactly when there is no match.
- `Handlers.GuardedAgreesWhenMatched`: it agrees with the code as written wherever the
  extraction succeeds.

## Left out

- `VersionPattern.ExtractVersion`: positions are Unicode code points, not the UTF-16 code units that a JavaScript string and a regular expression without the `u` flag work on. A string whose first character lies outside the Basic Multilingual Plane therefore diverges. On `"😀"`, for one, the two `.` of the code match the two surrogate halves, and the code loads the configuration for `"😀"`. The model has one code point there, so it finds no match and throws `NoVersionMatch`. `Handlers.ConfigChangedEffects` and `Lifecycle.Mattermost.HandleConfigChanged` inherit this.

- `Lifecycle.Mattermost.OnPushNotification`: a notification without `data` is outside its domain (precondition), because line 139 reads `data.type` unguarded and would throw.
- `semver.valid` and `semver.lt` are uninterpreted: their results are fields of the environment, and `semver.lt` is only consulted on versions `semver.valid` accepts, as on line 60.
- Truthiness: `foreground`, `userInteraction`, `userInfo.localNotification` and the credentials token are reduced to their truthiness. The `data` payload is a map from strings to strings.
- The internals of `setAppState`, `setServerVersion`, `markChannelAsRead`, `goToNotification`, `queueNotification`, `loadConfigAndLicense`, `logout`, `setChannelDisplayName` and `setDeviceToken` are not modelled. They live in the redux action modules, which are not part of this model. What `queueNotification` does with an earlier queued notification is therefore not stated.
- `InteractionManager.runAfterInteractions` scheduling: a deferred logout is only recorded in `deferred`. When it runs is not modelled.
- The texts and button of `Alert.alert` are not recorded. Its `onPress` is modelled as a separate call of `HandleVersionUpgrade`.
- The options of `PushNotifications.configure` and the `navigatorStyle` of `Navigation.startSingleScreenApp` are not recorded. Only the animation type is.
- `Orientation.lockToPortrait`, `Client4.setUserAgent(DeviceInfo.getUserAgent())`, the `AppState`/`EventEmitter` subscriptions, and module-level `configureStore`/`registerScreens` are not modelled. They are platform wiring with no decision in them.
- `app/screens/settings/index.js` is a react-redux `connect` wrapper with no behaviour of its own. It is not part of this model.

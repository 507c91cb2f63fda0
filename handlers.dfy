/**
 * The decisions of the `Mattermost` handlers as pure functions from their inputs to the
 * effects they issue, in order, with the properties the coordinator promises.
 */
module Handlers {
  import opened Wrappers
  import opened VersionPattern
  import opened Effects

  // ---------------------------------------------------------------------------
  // Push-notification router (onPushNotification)

  /** `data.type === 'clear'`. */
  predicate IsClear(data: map<string, string>) {
    "type" in data && data["type"] == "clear"
  }

  /** `data.channel_id`, `None` when the key is missing. */
  function ChannelId(data: map<string, string>): Option<string> {
    if "channel_id" in data then Some(data["channel_id"]) else None
  }

  /** `!notification.localNotification`: an absent value is falsy. */
  predicate IsLocal(notification: Notification) {
    notification.localNotification == Some(true)
  }

  /**
   * The notification object the handler builds: `{data, message}`, with
   * `localNotification` copied only when `userInfo` is present.
   */
  function Normalize(n: DeviceNotification): (r: Notification)
    requires n.data.Some?
    ensures r.data == n.data.value && r.message == n.message
    ensures r.localNotification.Some? <==> n.userInfo.Some?
    ensures n.userInfo.Some? ==> r.localNotification.value == n.userInfo.value.localNotification
  {
    Notification(
      n.data.value,
      n.message,
      match n.userInfo
      case None => None
      case Some(info) => Some(info.localNotification))
  }

  /**
   * The effects take exactly one of the router's actions, or none: mark read, in-app
   * display, navigate followed by the tapped signal, or queue.
   */
  predicate IsSingleAction(effects: seq<Effect>) {
    || effects == []
    || (|effects| == 1 && (effects[0].MarkChannelAsRead? || effects[0].EmitNotificationInApp? || effects[0].QueueNotification?))
    || (|effects| == 2 && effects[0].GoToNotification? && effects[1] == EmitNotificationTapped)
  }

  /** `onPushNotification`: the first branch whose condition holds decides the effects. */
  function PushNotificationEffects(n: DeviceNotification, store: StoreView): (effects: seq<Effect>)
    requires n.data.Some?
    ensures IsSingleAction(effects)
    ensures forall e :: e in effects && (e.EmitNotificationInApp? || e.GoToNotification? || e.QueueNotification?) ==>
      e.notification == Normalize(n)
  {
    var notification := Normalize(n);
    if IsClear(n.data.value) then
      [MarkChannelAsRead(ChannelId(n.data.value))]
    else if n.foreground then
      [EmitNotificationInApp(notification)]
    else if n.userInteraction then
      if IsLocal(notification) then []
      else if !store.appInitializing then [GoToNotification(notification), EmitNotificationTapped]
      else if HasToken(store) then [QueueNotification(notification)]
      else []
    else
      []
  }

  /** A `clear` notification marks its channel read, whatever else it carries. */
  lemma ClearNotificationMarksChannelRead(n: DeviceNotification, store: StoreView)
    requires n.data.Some? && IsClear(n.data.value)
    ensures PushNotificationEffects(n, store) == [MarkChannelAsRead(ChannelId(n.data.value))]
  {
  }

  /**
   * A foreground notification is shown in the app, once, carrying `{data, message}` and
   * the `localNotification` of `userInfo` when there is one; nothing navigates or queues.
   */
  lemma ForegroundNotificationShownInApp(n: DeviceNotification, store: StoreView)
    requires n.data.Some? && !IsClear(n.data.value) && n.foreground
    ensures PushNotificationEffects(n, store) == [EmitNotificationInApp(Notification(
      n.data.value, n.message, if n.userInfo.Some? then Some(n.userInfo.value.localNotification) else None))]
  {
  }

  /** A tapped remote notification with the app ready navigates to it, then signals the tap. */
  lemma TappedNotificationNavigates(n: DeviceNotification, store: StoreView)
    requires n.data.Some? && !IsClear(n.data.value) && !n.foreground && n.userInteraction
    requires !IsLocal(Normalize(n)) && !store.appInitializing
    ensures PushNotificationEffects(n, store) == [GoToNotification(Normalize(n)), EmitNotificationTapped]
  {
  }

  /** Tapped while the app initializes with a session: the notification is queued once. */
  lemma TappedNotificationQueuedWhileInitializing(n: DeviceNotification, store: StoreView)
    requires n.data.Some? && !IsClear(n.data.value) && !n.foreground && n.userInteraction
    requires !IsLocal(Normalize(n)) && store.appInitializing && HasToken(store)
    ensures PushNotificationEffects(n, store) == [QueueNotification(Normalize(n))]
  {
  }

  /** Tapped while the app initializes without a session: the notification is dropped. */
  lemma TappedNotificationDroppedWithoutSession(n: DeviceNotification, store: StoreView)
    requires n.data.Some? && !IsClear(n.data.value) && !n.foreground && n.userInteraction
    requires !IsLocal(Normalize(n)) && store.appInitializing && !HasToken(store)
    ensures PushNotificationEffects(n, store) == []
  {
  }

  /** A background notification that was not tapped, or a tapped local one, does nothing. */
  lemma UntappedOrLocalNotificationIgnored(n: DeviceNotification, store: StoreView)
    requires n.data.Some? && !IsClear(n.data.value) && !n.foreground
    requires !n.userInteraction || IsLocal(Normalize(n))
    ensures PushNotificationEffects(n, store) == []
  {
  }

  // ---------------------------------------------------------------------------
  // Server-version gate (handleConfigChanged)

  /** `semver.valid(version) && semver.lt(version, Config.MinServerVersion)`. */
  predicate IsOutdated(version: string, env: Environment) {
    env.semverValid(version) && env.semverLt(version, env.minServerVersion)
  }

  /**
   * `handleConfigChanged`: the version is extracted before the emptiness test, so an
   * announcement without a match throws; otherwise an outdated version raises the
   * upgrade alert and any other clears the stored version and loads the configuration
   * for the announcement as received.
   */
  function ConfigChangedEffects(serverVersion: string, env: Environment): (r: Result<seq<Effect>, HandlerError>)
    ensures r.Failure? <==>
      |serverVersion| < 2 || IsLineTerminator(serverVersion[0]) || IsLineTerminator(serverVersion[1])
    ensures r.Failure? ==> r.error == NoVersionMatch
    ensures r.Success? ==> r.value != []
  {
    match ExtractVersion(serverVersion)
    case None => Failure(NoVersionMatch)
    case Some(version) =>
      if serverVersion != "" then
        if IsOutdated(version, env) then Success([ShowUpgradeAlert])
        else Success([SetServerVersion(""), LoadConfigAndLicense(serverVersion)])
      else
        Success([])
  }

  /** An outdated server only raises the alert: the version is not cleared, nothing loads. */
  lemma OutdatedServerOnlyAlerts(serverVersion: string, env: Environment)
    requires ExtractVersion(serverVersion).Some? && IsOutdated(ExtractVersion(serverVersion).value, env)
    ensures ConfigChangedEffects(serverVersion, env) == Success([ShowUpgradeAlert])
  {
  }

  /**
   * Any other announcement with a match, an invalid extracted version included, clears
   * the stored version and then loads configuration and license for the whole string.
   */
  lemma SupportedServerLoadsConfig(serverVersion: string, env: Environment)
    requires ExtractVersion(serverVersion).Some? && !IsOutdated(ExtractVersion(serverVersion).value, env)
    ensures ConfigChangedEffects(serverVersion, env) ==
      Success([SetServerVersion(""), LoadConfigAndLicense(serverVersion)])
  {
  }

  /** The empty announcement throws at the extraction instead of being skipped. */
  lemma EmptyAnnouncementThrows(env: Environment)
    ensures ConfigChangedEffects("", env) == Failure(NoVersionMatch)
  {
  }

  /**
   * `handleConfigChanged` as its emptiness guard on line 59 evidently intends: an
   * announcement without a version match is skipped, with no effect, instead of reading
   * `[0]` of `null`.
   */
  function ConfigChangedEffectsGuarded(serverVersion: string, env: Environment): (r: Result<seq<Effect>, HandlerError>)
  {
    match ExtractVersion(serverVersion)
    case None => Success([])
    case Some(_) => ConfigChangedEffects(serverVersion, env)
  }

  /** The guarded gate never throws. */
  lemma GuardedNeverFails(serverVersion: string, env: Environment)
    ensures ConfigChangedEffectsGuarded(serverVersion, env).Success?
  {
  }

  /** The guarded gate does nothing exactly for announcements without a version match. */
  lemma GuardedSkipsExactlyUnmatched(serverVersion: string, env: Environment)
    ensures ConfigChangedEffectsGuarded(serverVersion, env) == Success([]) <==>
      ExtractVersion(serverVersion).None?
  {
  }

  /** Wherever the extraction succeeds, the guarded gate and the gate as written agree. */
  lemma GuardedAgreesWhenMatched(serverVersion: string, env: Environment)
    requires ExtractVersion(serverVersion).Some?
    ensures ConfigChangedEffectsGuarded(serverVersion, env) == ConfigChangedEffects(serverVersion, env)
  {
  }

  /** The empty announcement, which the as-written gate throws on, is skipped by the guarded one. */
  lemma GuardedSkipsEmptyAnnouncement(env: Environment)
    ensures ConfigChangedEffects("", env) == Failure(NoVersionMatch)
    ensures ConfigChangedEffectsGuarded("", env) == Success([])
  {
  }

  /**
   * With a minimum of 2.0.0 that semver places above 1.9.9 and not above 2.0.0 or
   * 2.0.1-beta: 1.9.9 raises the alert, the other two load the configuration.
   */
  lemma MinimumVersionExamples(env: Environment)
    requires env.minServerVersion == "2.0.0"
    requires env.semverValid("1.9.9") && env.semverLt("1.9.9", "2.0.0")
    requires !env.semverLt("2.0.0", "2.0.0") && !env.semverLt("2.0.1-beta", "2.0.0")
    ensures ConfigChangedEffects("1.9.9", env) == Success([ShowUpgradeAlert])
    ensures ConfigChangedEffects("2.0.0", env) == Success([SetServerVersion(""), LoadConfigAndLicense("2.0.0")])
    ensures ConfigChangedEffects("2.0.1-beta", env) ==
      Success([SetServerVersion(""), LoadConfigAndLicense("2.0.1-beta")])
  {
    ReleaseVersionsExtracted();
    PreReleaseVersionExtracted();
  }

  // ---------------------------------------------------------------------------
  // App start and device registration (startApp, onRegisterDevice)

  /**
   * `startApp(animationType)`: push notifications are configured first exactly when the
   * coordinator is not configured yet, and the root screen is started last.
   */
  function StartAppEffects(isConfigured: bool, animation: Animation): (r: seq<Effect>)
    ensures 1 <= |r| <= 2 && r[|r| - 1] == StartSingleScreenApp(animation)
    ensures ConfigurePush in r <==> !isConfigured
    ensures forall i :: 0 <= i < |r| - 1 ==> r[i] == ConfigurePush
  {
    (if isConfigured then [] else [ConfigurePush]) + [StartSingleScreenApp(animation)]
  }

  /** The tag `onRegisterDevice` puts before the token: Apple's on iOS, Android's elsewhere. */
  function PushPrefix(env: Environment): string {
    if env.os == "ios" then env.appleRnPrefix else env.androidRnPrefix
  }

  /** `${prefix}:${data.token}`: the platform tag, a colon, and the token unchanged. */
  function DeviceToken(env: Environment, token: string): (r: string)
    ensures |r| == |PushPrefix(env)| + 1 + |token|
    ensures r[..|PushPrefix(env)|] == PushPrefix(env)
    ensures r[|PushPrefix(env)|] == ':'
    ensures r[|PushPrefix(env)| + 1..] == token
  {
    PushPrefix(env) + ":" + token
  }
}

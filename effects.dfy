/**
 * Data model of the lifecycle coordinator: the inbound notification, the parts of the
 * store and of the platform the handlers read, and the external calls they make, each
 * recorded as an `Effect` value in the order it is made.
 */
module Effects {
  import opened Wrappers

  /** `animationType` of `Navigation.startSingleScreenApp`: `'none'` or `'fade'`. */
  datatype Animation = NoAnimation | Fade

  /**
   * The platform's `userInfo` object of a notification; `localNotification` stands for
   * the truthiness of `userInfo.localNotification`.
   */
  datatype UserInfo = UserInfo(localNotification: bool)

  /**
   * A notification as delivered to `onPushNotification`. `data` is the payload's key/value
   * data (`None` when the platform sent none); `foreground` and `userInteraction` stand
   * for their truthiness.
   */
  datatype DeviceNotification = DeviceNotification(
    data: Option<map<string, string>>,
    foreground: bool,
    message: string,
    userInfo: Option<UserInfo>,
    userInteraction: bool)

  /**
   * The notification the router builds and hands on: `data`, `message`, and
   * `localNotification` only when the device notification carried `userInfo`.
   */
  datatype Notification = Notification(
    data: map<string, string>,
    message: string,
    localNotification: Option<bool>)

  /** The parts of the redux store state the handlers read. `token` is `""` when absent. */
  datatype StoreView = StoreView(hydrationComplete: bool, appInitializing: bool, token: string)

  /** `state.entities.general.credentials.token` is truthy. */
  predicate HasToken(store: StoreView) { store.token != "" }

  /**
   * What the coordinator takes from its surroundings: `semver.valid` and `semver.lt`
   * (as truthiness), `Config.MinServerVersion`, `Platform.OS` and the two push-notify
   * platform tags of `General`.
   */
  datatype Environment = Environment(
    semverValid: string -> bool,
    semverLt: (string, string) -> bool,
    minServerVersion: string,
    os: string,
    appleRnPrefix: string,
    androidRnPrefix: string)

  /** What a handler throws. */
  datatype HandlerError =
    /** `serverVersion.match(...)` returned `null`, and `[0]` was read from it. */
    | NoVersionMatch

  /** One external call made by a handler. */
  datatype Effect =
    | SetAppState(active: bool)                            // setAppState(...)
    | SetServerVersion(version: string)                    // setServerVersion(...)
    | LoadConfigAndLicense(serverVersion: string)          // loadConfigAndLicense(...)
    | ShowUpgradeAlert                                     // Alert.alert('Server upgrade required', ...)
    | SetClientServerVersion(version: string)              // Client4.serverVersion = ...
    | CancelAllLocalNotifications                          // PushNotifications.cancelAllLocalNotifications()
    | SetApplicationIconBadgeNumber(count: int)            // PushNotifications.setApplicationIconBadgeNumber(...)
    | SetChannelDisplayName(displayName: string)           // setChannelDisplayName(...)
    | SetDeviceToken(token: string)                        // setDeviceToken(...)
    | MarkChannelAsRead(channelId: Option<string>)         // markChannelAsRead(data.channel_id)
    | EmitNotificationInApp(notification: Notification)    // EventEmitter.emit(NOTIFICATION_IN_APP, ...)
    | GoToNotification(notification: Notification)         // goToNotification(...)
    | EmitNotificationTapped                               // EventEmitter.emit(NOTIFICATION_TAPPED)
    | QueueNotification(notification: Notification)        // queueNotification(...)
    | ConfigurePush                                        // PushNotifications.configure(...)
    | StartSingleScreenApp(animation: Animation)           // Navigation.startSingleScreenApp(...)

  /** Work handed to `InteractionManager.runAfterInteractions`, not run by the handler. */
  datatype Task = Logout

  /** Some effect of `trace` stored a device token. */
  predicate DeviceTokenStored(trace: seq<Effect>) {
    exists e :: e in trace && e.SetDeviceToken?
  }

  /** Appending effects stores a device token exactly when one of the two parts does. */
  lemma DeviceTokenStoredAppend(a: seq<Effect>, b: seq<Effect>)
    ensures DeviceTokenStored(a + b) <==> DeviceTokenStored(a) || DeviceTokenStored(b)
  {
  }
}

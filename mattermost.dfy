/**
 * The app lifecycle coordinator, the `Mattermost` class: the flags it keeps, the value it
 * writes into the shared client (`Client4.serverVersion`), the external calls it makes
 * (`trace`) and the work it defers until interactions finish (`deferred`).
 */
module Lifecycle {
  import opened Wrappers
  import opened Effects
  import opened Handlers

  class Mattermost {
    /** semver, the minimum server version and the platform constants. */
    const env: Environment

    var isConfigured: bool
    /** The hydration listener is still subscribed to the store. */
    var subscribed: bool
    /** The last activity state written through `setAppState`. */
    var isActive: bool
    /** `Client4.serverVersion`. */
    var clientServerVersion: string
    /** Every external call made so far, oldest first. */
    var trace: seq<Effect>
    /** Work handed to `InteractionManager.runAfterInteractions`, oldest first. */
    var deferred: seq<Task>
    /** How often the hydration listener has started the app. */
    ghost var hydrationStarts: nat

    /**
     * Push notifications count as configured exactly when a device token has been
     * stored, and the hydration listener has started the app once exactly when it is no
     * longer subscribed.
     */
    ghost predicate Valid()
      reads this
    {
      && isConfigured == DeviceTokenStored(trace)
      && hydrationStarts == (if subscribed then 0 else 1)
    }

    /**
     * Subscribes the hydration listener and seeds the activity state from the state the
     * platform reports at start-up. `client4ServerVersion` is what `Client4` held before.
     */
    constructor (env: Environment, currentAppState: string, client4ServerVersion: string)
      ensures Valid()
      ensures this.env == env && !isConfigured && subscribed && hydrationStarts == 0
      ensures isActive == (currentAppState == "active")
      ensures trace == [SetAppState(currentAppState == "active")] && deferred == []
      ensures clientServerVersion == client4ServerVersion
    {
      this.env := env;
      isConfigured := false;
      subscribed := true;
      clientServerVersion := client4ServerVersion;
      trace := [];
      deferred := [];
      hydrationStarts := 0;
      new;
      HandleAppStateChange(currentAppState);
    }

    /** `handleAppStateChange`: the app is active exactly when the platform says `"active"`. */
    method HandleAppStateChange(appState: string)
      requires Valid()
      modifies this`isActive, this`trace
      ensures Valid()
      ensures isActive == (appState == "active")
      ensures trace == old(trace) + [SetAppState(appState == "active")]
    {
      isActive := appState == "active";
      Record([SetAppState(isActive)]);
    }

    /**
     * `handleConfigChanged`: throws, changing nothing, when the announcement has no
     * version match; otherwise issues the alert or the configuration reload.
     */
    method HandleConfigChanged(serverVersion: string) returns (outcome: Outcome<HandlerError>)
      requires Valid()
      modifies this`trace
      ensures Valid()
      ensures outcome.Fail? <==> ConfigChangedEffects(serverVersion, env).Failure?
      ensures outcome.Fail? ==> outcome.error == NoVersionMatch && trace == old(trace)
      ensures outcome.Pass? ==> trace == old(trace) + ConfigChangedEffects(serverVersion, env).value
    {
      match ConfigChangedEffects(serverVersion, env)
      case Failure(e) =>
        outcome := Fail(e);
      case Success(effects) =>
        Record(effects);
        outcome := Pass;
    }

    /**
     * `handleReset`: clears `Client4.serverVersion`, cancels local notifications, clears
     * the stored server version and restarts the app with a fade, in this order.
     */
    method HandleReset()
      requires Valid()
      modifies this`clientServerVersion, this`trace
      ensures Valid()
      ensures clientServerVersion == ""
      ensures trace == old(trace) + [SetClientServerVersion(""), CancelAllLocalNotifications, SetServerVersion("")]
        + StartAppEffects(isConfigured, Fade)
    {
      clientServerVersion := "";
      Record([SetClientServerVersion("")]);
      Record([CancelAllLocalNotifications]);
      Record([SetServerVersion("")]);
      StartApp(Fade);
    }

    /** `handleResetDisplayName`: the display name is set verbatim. */
    method HandleResetDisplayName(displayName: string)
      requires Valid()
      modifies this`trace
      ensures Valid()
      ensures trace == old(trace) + [SetChannelDisplayName(displayName)]
    {
      Record([SetChannelDisplayName(displayName)]);
    }

    /**
     * `handleVersionUpgrade`, run when the upgrade alert is acknowledged: clears
     * `Client4.serverVersion` and the badge, and defers one logout when a session exists;
     * it never logs out itself.
     */
    method HandleVersionUpgrade(store: StoreView)
      requires Valid()
      modifies this`clientServerVersion, this`trace, this`deferred
      ensures Valid()
      ensures clientServerVersion == ""
      ensures trace == old(trace) + [SetClientServerVersion(""), SetApplicationIconBadgeNumber(0)]
      ensures deferred == old(deferred) + (if HasToken(store) then [Logout] else [])
    {
      clientServerVersion := "";
      Record([SetClientServerVersion("")]);
      Record([SetApplicationIconBadgeNumber(0)]);
      if HasToken(store) {
        deferred := deferred + [Logout];
      }
    }

    /**
     * `listenForHydration`, which the store calls while it is subscribed: once hydration
     * is complete it unsubscribes and starts the app without animation.
     */
    method ListenForHydration(store: StoreView)
      requires Valid() && subscribed
      modifies this`subscribed, this`trace, this`hydrationStarts
      ensures Valid()
      ensures subscribed == !store.hydrationComplete
      ensures trace == old(trace) + (if store.hydrationComplete then StartAppEffects(isConfigured, NoAnimation) else [])
    {
      if store.hydrationComplete {
        subscribed := false;
        hydrationStarts := hydrationStarts + 1;
        StartApp();
      }
    }

    /**
     * A store change as the store delivers it: to the hydration listener only while it
     * is subscribed. After the first start nothing further starts the app.
     */
    method StoreChanged(store: StoreView)
      requires Valid()
      modifies this`subscribed, this`trace, this`hydrationStarts
      ensures Valid() && hydrationStarts <= 1
      ensures old(subscribed) ==> subscribed == !store.hydrationComplete
      ensures !old(subscribed) ==> !subscribed && trace == old(trace) && hydrationStarts == old(hydrationStarts)
      ensures trace == old(trace) +
        (if old(subscribed) && store.hydrationComplete then StartAppEffects(isConfigured, NoAnimation) else [])
    {
      if subscribed {
        ListenForHydration(store);
      }
    }

    /** `configurePushNotifications`: registers the device and notification callbacks. */
    method ConfigurePushNotifications()
      requires Valid()
      modifies this`trace
      ensures Valid()
      ensures trace == old(trace) + [ConfigurePush]
    {
      Record([ConfigurePush]);
    }

    /** `onRegisterDevice`: stores `prefix:token` and then marks push notifications configured. */
    method OnRegisterDevice(token: string)
      requires Valid()
      modifies this`trace, this`isConfigured
      ensures Valid() && isConfigured
      ensures trace == old(trace) + [SetDeviceToken(DeviceToken(env, token))]
    {
      trace := trace + [SetDeviceToken(DeviceToken(env, token))];
      DeviceTokenStoredAppend(old(trace), [SetDeviceToken(DeviceToken(env, token))]);
      assert DeviceTokenStored([SetDeviceToken(DeviceToken(env, token))]) by {
        assert SetDeviceToken(DeviceToken(env, token)) in [SetDeviceToken(DeviceToken(env, token))];
      }
      isConfigured := true;
    }

    /** `onPushNotification`: the router's single action, or none. */
    method OnPushNotification(n: DeviceNotification, store: StoreView)
      requires Valid() && n.data.Some?
      modifies this`trace
      ensures Valid()
      ensures trace == old(trace) + PushNotificationEffects(n, store)
    {
      Record(PushNotificationEffects(n, store));
    }

    /**
     * `startApp(animationType = 'none')`: configures push notifications while not yet
     * configured, then starts the root screen.
     */
    method StartApp(animation: Animation := NoAnimation)
      requires Valid()
      modifies this`trace
      ensures Valid()
      ensures trace == old(trace) + StartAppEffects(isConfigured, animation)
    {
      if !isConfigured {
        ConfigurePushNotifications();
      }
      Record([StartSingleScreenApp(animation)]);
    }

    /** Appends effects that store no device token. */
    method Record(effects: seq<Effect>)
      requires Valid() && !DeviceTokenStored(effects)
      modifies this`trace
      ensures Valid()
      ensures trace == old(trace) + effects
    {
      DeviceTokenStoredAppend(trace, effects);
      trace := trace + effects;
    }
  }
}

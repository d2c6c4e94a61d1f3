/** The state and the three actions of the usePushNotifications hook. The
    browser and server calls they make are parameters: what they return, or
    the message of the error they throw. */
module PushNotifications {
  import opened JsValues
  import opened PushKey

  /** `{ success, error }` as the actions return it. */
  datatype Outcome = Outcome(success: bool, error: Option<string>)

  /** What authRequest resolves to: `{ success, error: { message } }`. */
  datatype ServerResponse = ServerResponse(success: bool, errorMessage: Option<string>)

  /** A push subscription from the browser's push manager. */
  datatype BrowserSubscription = BrowserSubscription(endpoint: string, p256dh: string, auth: string)

  const NotReady: string := "Push notifications not supported or not ready"
  const PermissionDenied: string := "Notification permission denied"
  const NoSubscription: string := "No active subscription"

  /** The failure outcome for a response without success:
      `response.error?.message || fallback`. */
  function Rejected(response: ServerResponse, fallback: string): (r: Outcome)
    requires fallback != ""
    ensures !r.success && r.error.Some? && r.error.value != ""
    ensures Truthy(response.errorMessage) ==> r.error == response.errorMessage
    ensures !Truthy(response.errorMessage) ==> r.error == Some(fallback)
  {
    Outcome(false, Some(OrElse(response.errorMessage, fallback)))
  }

  /** The subscription that subscribe obtains after its guard, or the error it
      reports: permission, service-worker registration, key decoding, the push
      manager and the server are consulted in this order, and the first to
      refuse or throw decides. */
  datatype Subscribed = Obtained(subscription: BrowserSubscription) | Refused(error: string)

  function SubscribeSteps(publicVapidKey: string, permission: string, registration: Attempt<()>,
                          atob: Atob, pushManager: seq<byte> -> Attempt<BrowserSubscription>,
                          response: Attempt<ServerResponse>): (s: Subscribed)
    // the subscription is obtained exactly when every step succeeds
    ensures s.Obtained? <==>
              && permission == "granted" && registration.Returned?
              && KeyBytes(publicVapidKey, atob).Returned?
              && pushManager(KeyBytes(publicVapidKey, atob).value).Returned?
              && response.Returned? && response.value.success
    ensures s.Obtained? ==> pushManager(KeyBytes(publicVapidKey, atob).value) == Returned(s.subscription)
    // the first step to refuse or throw decides the error
    ensures permission != "granted" ==> s == Refused(PermissionDenied)
    ensures permission == "granted" && registration.Threw? ==> s == Refused(registration.message)
    ensures permission == "granted" && registration.Returned? && KeyBytes(publicVapidKey, atob).Threw? ==>
              s == Refused(KeyBytes(publicVapidKey, atob).message)
    ensures permission == "granted" && registration.Returned? && KeyBytes(publicVapidKey, atob).Returned? &&
            pushManager(KeyBytes(publicVapidKey, atob).value).Threw? ==>
              s == Refused(pushManager(KeyBytes(publicVapidKey, atob).value).message)
    ensures permission == "granted" && registration.Returned? && KeyBytes(publicVapidKey, atob).Returned? &&
            pushManager(KeyBytes(publicVapidKey, atob).value).Returned? ==>
              && (response.Threw? ==> s == Refused(response.message))
              && (response.Returned? && !response.value.success ==>
                    s == Refused(Rejected(response.value, "Failed to subscribe").error.value))
  {
    if permission != "granted" then Refused(PermissionDenied)
    else if registration.Threw? then Refused(registration.message)
    else match KeyBytes(publicVapidKey, atob)
      case Threw(m) => Refused(m)
      case Returned(key) =>
        match pushManager(key)
        case Threw(m) => Refused(m)
        case Returned(sub) =>
          match response
          case Threw(m) => Refused(m)
          case Returned(res) =>
            if res.success then Obtained(sub)
            else Refused(Rejected(res, "Failed to subscribe").error.value)
  }

  /** The hook's state cells and the auth context it reads. */
  class PushNotificationsHook {
    var isSupported: bool
    var isSubscribed: bool
    var subscription: Option<BrowserSubscription>
    var publicVapidKey: Option<string>
    /** `auth?.accessToken`. */
    var accessToken: Option<string>

    constructor (accessToken: Option<string>)
      ensures !isSupported && !isSubscribed && subscription == None && publicVapidKey == None
      ensures this.accessToken == accessToken
    {
      isSupported := false;
      isSubscribed := false;
      subscription := None;
      publicVapidKey := None;
      this.accessToken := accessToken;
    }

    /** The first effect: push is supported when the browser has a service
        worker, a push manager and notifications. */
    method DetectSupport(hasServiceWorker: bool, hasPushManager: bool, hasNotification: bool)
      modifies this
      ensures isSupported == (old(isSupported) || (hasServiceWorker && hasPushManager && hasNotification))
      ensures isSubscribed == old(isSubscribed) && subscription == old(subscription)
      ensures publicVapidKey == old(publicVapidKey) && accessToken == old(accessToken)
    {
      if hasServiceWorker && hasPushManager && hasNotification {
        isSupported := true;
      }
    }

    /** The second effect: with an access token, the server's public key is
        fetched and kept when the response carries a non-empty one. */
    method ReceiveVapidKey(fetched: Attempt<Option<string>>)
      modifies this
      ensures Truthy(old(accessToken)) && fetched.Returned? && Truthy(fetched.value) ==>
                publicVapidKey == fetched.value
      ensures !(Truthy(old(accessToken)) && fetched.Returned? && Truthy(fetched.value)) ==>
                publicVapidKey == old(publicVapidKey)
      ensures isSupported == old(isSupported) && isSubscribed == old(isSubscribed)
      ensures subscription == old(subscription) && accessToken == old(accessToken)
    {
      if accessToken.Some? && accessToken.value != "" {
        if fetched.Returned? && fetched.value.Some? && fetched.value.value != "" {
          publicVapidKey := fetched.value;
        }
      }
    }

    /** subscribe. */
    method Subscribe(permission: string, registration: Attempt<()>, atob: Atob,
                     pushManager: seq<byte> -> Attempt<BrowserSubscription>,
                     response: Attempt<ServerResponse>) returns (r: Outcome)
      modifies this
      ensures isSupported == old(isSupported) && publicVapidKey == old(publicVapidKey)
      ensures accessToken == old(accessToken)
      // the guard: nothing is attempted and nothing changes
      ensures !(old(isSupported) && Truthy(old(publicVapidKey)) && Truthy(old(accessToken))) ==>
                r == Outcome(false, Some(NotReady)) &&
                isSubscribed == old(isSubscribed) && subscription == old(subscription)
      ensures old(isSupported) && Truthy(old(publicVapidKey)) && Truthy(old(accessToken)) ==>
                var s := SubscribeSteps(old(publicVapidKey).value, permission, registration, atob, pushManager, response);
                && (r.success <==> s.Obtained?)
                && (s.Obtained? ==> r == Outcome(true, None) && isSubscribed && subscription == Some(s.subscription))
                && (s.Refused? ==> r == Outcome(false, Some(s.error)))
      // a failure leaves the state as it was
      ensures !r.success ==> isSubscribed == old(isSubscribed) && subscription == old(subscription)
    {
      if !isSupported || publicVapidKey.None? || publicVapidKey.value == ""
         || accessToken.None? || accessToken.value == "" {
        return Outcome(false, Some(NotReady));
      }
      if permission != "granted" {
        return Outcome(false, Some(PermissionDenied));
      }
      if registration.Threw? {
        return Outcome(false, Some(registration.message));
      }
      var key := UrlBase64ToUint8Array(publicVapidKey.value, atob);
      if key.Threw? {
        return Outcome(false, Some(key.message));
      }
      var pushSubscription := pushManager(key.value[..]);
      if pushSubscription.Threw? {
        return Outcome(false, Some(pushSubscription.message));
      }
      if response.Threw? {
        return Outcome(false, Some(response.message));
      }
      if response.value.success {
        subscription := Some(pushSubscription.value);
        isSubscribed := true;
        r := Outcome(true, None);
      } else {
        r := Rejected(response.value, "Failed to subscribe");
      }
    }

    /** unsubscribe: the browser subscription is cancelled first, then the
        server is told. */
    method Unsubscribe(browserUnsubscribe: Attempt<bool>, response: Attempt<ServerResponse>) returns (r: Outcome)
      modifies this
      ensures isSupported == old(isSupported) && publicVapidKey == old(publicVapidKey)
      ensures accessToken == old(accessToken)
      ensures old(subscription).None? ==> r == Outcome(false, Some(NoSubscription))
      ensures r.success <==> old(subscription).Some? && browserUnsubscribe.Returned? &&
                             response.Returned? && response.value.success
      ensures r.success ==> r.error.None? && subscription == None && !isSubscribed
      ensures !r.success ==> r.error.Some? && isSubscribed == old(isSubscribed) && subscription == old(subscription)
      // a throw from subscription.unsubscribe() or from the server call is reported with its message
      ensures old(subscription).Some? && browserUnsubscribe.Threw? ==>
                r == Outcome(false, Some(browserUnsubscribe.message))
      ensures old(subscription).Some? && browserUnsubscribe.Returned? && response.Threw? ==>
                r == Outcome(false, Some(response.message))
      ensures old(subscription).Some? && browserUnsubscribe.Returned? && response.Returned? && !response.value.success ==>
                r == Rejected(response.value, "Failed to unsubscribe")
    {
      if subscription.None? {
        return Outcome(false, Some(NoSubscription));
      }
      if browserUnsubscribe.Threw? {
        return Outcome(false, Some(browserUnsubscribe.message));
      }
      if response.Threw? {
        return Outcome(false, Some(response.message));
      }
      if response.value.success {
        subscription := None;
        isSubscribed := false;
        r := Outcome(true, None);
      } else {
        r := Rejected(response.value, "Failed to unsubscribe");
      }
    }

    /** toggle(enabled): only the server's answer decides; there is no guard. */
    method Toggle(enabled: bool, response: Attempt<ServerResponse>) returns (r: Outcome)
      modifies this
      ensures isSupported == old(isSupported) && publicVapidKey == old(publicVapidKey)
      ensures accessToken == old(accessToken) && subscription == old(subscription)
      ensures r.success <==> response.Returned? && response.value.success
      ensures r.success ==> r.error.None? && isSubscribed == enabled
      ensures !r.success ==> r.error.Some? && isSubscribed == old(isSubscribed)
      ensures response.Threw? ==> r == Outcome(false, Some(response.message))
      ensures response.Returned? && !response.value.success ==> r == Rejected(response.value, "Failed to toggle")
    {
      if response.Threw? {
        return Outcome(false, Some(response.message));
      }
      if response.value.success {
        isSubscribed := enabled;
        r := Outcome(true, None);
      } else {
        r := Rejected(response.value, "Failed to toggle");
      }
    }
  }
}

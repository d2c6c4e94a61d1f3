/** The service worker's two handlers: building the notification shown for an
    inbound push message, and routing a click on that notification. */
module ServiceWorker {
  import opened JsValues

  /** The `data` object of a push message, as string keys and values. */
  type DataMap = map<string, string>

  /** An inbound push message; every field may be absent. A
      `requireInteraction` that is not a boolean is None here, since only the
      boolean `false` matters to the handler. A `data` member that is null or
      otherwise falsy is None too. */
  datatype PushPayload = PushPayload(
    title: Option<string>,
    body: Option<string>,
    icon: Option<string>,
    badge: Option<string>,
    data: Option<DataMap>,
    requireInteraction: Option<bool>)

  /** `{}`: what the handler uses when the push carries no data. */
  const EmptyPayload := PushPayload(None, None, None, None, None, None)

  const DefaultTitle: string := "Emergency Alert"
  const DefaultBody: string := "You have a new emergency alert"
  const DefaultIcon: string := "/vite.svg"
  const DefaultTag: string := "emergency"
  const EmergencyIdKey: string := "emergencyId"
  const LandingRoute: string := "/main"

  /** The title and options passed to showNotification. */
  datatype Notification = Notification(
    title: string,
    body: string,
    icon: string,
    badge: string,
    data: DataMap,
    requireInteraction: bool,
    tag: string)

  /** The incident id of a payload, when it carries a non-empty one. */
  function EmergencyId(p: PushPayload): Option<string> {
    if p.data.Some? && EmergencyIdKey in p.data.value then Some(p.data.value[EmergencyIdKey])
    else None
  }

  /** `data.data?.emergencyId || "emergency"`. */
  function NotificationTag(p: PushPayload): (tag: string)
    ensures tag != ""
    ensures Truthy(EmergencyId(p)) ==> tag == EmergencyId(p).value
    ensures !Truthy(EmergencyId(p)) ==> tag == DefaultTag
  {
    OrElse(EmergencyId(p), DefaultTag)
  }

  /** The notification shown for the parsed push data `data`: each option
      falls back to its default when the payload leaves it out or empty. */
  function BuildNotification(data: PushPayload): (n: Notification)
    // present, non-empty fields are shown as sent; the others get their defaults
    ensures Truthy(data.title) ==> n.title == data.title.value
    ensures !Truthy(data.title) ==> n.title == DefaultTitle
    ensures Truthy(data.body) ==> n.body == data.body.value
    ensures !Truthy(data.body) ==> n.body == DefaultBody
    ensures Truthy(data.icon) ==> n.icon == data.icon.value
    ensures !Truthy(data.icon) ==> n.icon == DefaultIcon
    ensures Truthy(data.badge) ==> n.badge == data.badge.value
    ensures !Truthy(data.badge) ==> n.badge == DefaultIcon
    ensures data.data.Some? ==> n.data == data.data.value
    ensures data.data.None? ==> n.data == map[]
    ensures n.tag == NotificationTag(data)
    // nothing shown is ever blank
    ensures n.title != "" && n.body != "" && n.icon != "" && n.badge != "" && n.tag != ""
    // only an explicit `false` lets the notification close by itself
    ensures !n.requireInteraction <==> data.requireInteraction == Some(false)
  {
    Notification(
      OrElse(data.title, DefaultTitle),
      OrElse(data.body, DefaultBody),
      OrElse(data.icon, DefaultIcon),
      OrElse(data.badge, DefaultIcon),
      data.data.GetOr(map[]),
      data.requireInteraction != Some(false),
      NotificationTag(data))
  }

  /** What `event.data` holds and what `event.data.json()` makes of it: no
      data at all, a body that is not JSON (json() throws), the JSON value
      `null`, or a JSON value read as a payload. A JSON value that is neither
      null nor an object has no fields and is a payload with every field
      absent. */
  datatype PushData = NoData | NotJson | JsonNull | Json(payload: PushPayload)

  /** The push handler: the notification it shows, or None when it throws
      before showNotification is called (json() fails, or `data.title` is read
      from null). */
  function OnPush(e: PushData): (r: Option<Notification>)
    // no data: every default applies
    ensures e.NoData? ==>
              r == Some(Notification(DefaultTitle, DefaultBody, DefaultIcon, DefaultIcon, map[], true, DefaultTag))
    ensures r.None? <==> e.NotJson? || e.JsonNull?
    ensures e.Json? ==> r == Some(BuildNotification(e.payload))
  {
    match e
    case NoData => Some(BuildNotification(EmptyPayload))
    case NotJson => None
    case JsonNull => None
    case Json(payload) => Some(BuildNotification(payload))
  }

  /** Repeated alerts for one incident carry the same tag, so the browser
      replaces the earlier notification instead of stacking a new one; alerts
      for different incidents do not share a tag. */
  lemma SameIncidentCoalesces(e1: PushPayload, e2: PushPayload)
    requires Truthy(EmergencyId(e1)) && Truthy(EmergencyId(e2))
    ensures BuildNotification(e1).tag == BuildNotification(e2).tag
            <==> EmergencyId(e1) == EmergencyId(e2)
  {
  }

  /** A window client as clients.matchAll reports it. */
  datatype WindowClient = WindowClient(url: string, hasFocus: bool)

  /** `client.url === self.location.origin && "focus" in client`. */
  predicate Focusable(c: WindowClient, origin: string) {
    c.url == origin && c.hasFocus
  }

  /** The index of the first focusable client at or after `from`. */
  function FirstFocusable(clients: seq<WindowClient>, origin: string, from: nat): (r: Option<nat>)
    requires from <= |clients|
    ensures r.Some? ==> from <= r.value < |clients| && Focusable(clients[r.value], origin)
    ensures r.Some? ==> forall j :: from <= j < r.value ==> !Focusable(clients[j], origin)
    ensures r.None? ==> forall j :: from <= j < |clients| ==> !Focusable(clients[j], origin)
    decreases |clients| - from
  {
    if from == |clients| then None
    else if Focusable(clients[from], origin) then Some(from)
    else FirstFocusable(clients, origin, from + 1)
  }

  /** The effects of a click on the notification. */
  datatype Effect = CloseNotification | Focus(index: nat) | Open(url: string)

  /** The promise the click handler waits on: focus the first window already
      at the origin, else open the landing route if the runtime can, else
      nothing. */
  function RouteClick(clients: seq<WindowClient>, origin: string, canOpenWindow: bool): (a: Option<Effect>)
    ensures a != Some(CloseNotification)
    ensures a.Some? && a.value.Focus? ==> a.value.index < |clients| && Focusable(clients[a.value.index], origin)
    ensures a.Some? && a.value.Focus? ==> forall j :: 0 <= j < a.value.index ==> !Focusable(clients[j], origin)
    ensures !(a.Some? && a.value.Focus?) <==> forall j :: 0 <= j < |clients| ==> !Focusable(clients[j], origin)
    ensures a.Some? && a.value.Open? ==> a.value.url == LandingRoute && canOpenWindow
    ensures a.None? <==> !(a.Some? && a.value.Focus?) && !canOpenWindow
  {
    match FirstFocusable(clients, origin, 0)
    case Some(i) => Some(Focus(i))
    case None => if canOpenWindow then Some(Open(LandingRoute)) else None
  }

  /** The click handler's effects, in order: the notification is closed, then
      the routing action, if any, is taken. */
  function HandleClick(clients: seq<WindowClient>, origin: string, canOpenWindow: bool): (effects: seq<Effect>)
    ensures 1 <= |effects| <= 2 && effects[0] == CloseNotification
    ensures RouteClick(clients, origin, canOpenWindow).None? ==> effects == [CloseNotification]
    ensures RouteClick(clients, origin, canOpenWindow).Some? ==>
              effects == [CloseNotification, RouteClick(clients, origin, canOpenWindow).value]
    // no window at the origin and openWindow available: the landing route opens
    ensures (forall j :: 0 <= j < |clients| ==> !Focusable(clients[j], origin)) && canOpenWindow ==>
              effects == [CloseNotification, Open(LandingRoute)]
  {
    var a := RouteClick(clients, origin, canOpenWindow);
    [CloseNotification] + (if a.Some? then [a.value] else [])
  }
}

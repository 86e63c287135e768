/**
 * The background hooks: `sync` and `periodicsync` tag dispatch, the
 * periodic update check, the notification a `push` shows, and what a
 * notification click does.  Each is a decision over its event's data; what
 * the host does with the decision (show a notification, open a window) is an
 * output value here.
 */
module Hooks {
  import opened Wrappers
  import opened Http

  const BackgroundSyncTag: string := "background-sync"
  const PeriodicSyncTag: string := "periodic-sync"
  const NotificationTitle: string := "Digital Sanctuary Bible"
  const DefaultBody: string := "New content available!"
  const Icon: string := "/assets/icon-192.png"

  /** A button on a notification: its action name, label and icon. */
  datatype NotificationAction = NotificationAction(action: string, title: string, icon: string)

  /** A notification as passed to `showNotification`: title and options. */
  datatype Notification = Notification(title: string, body: string, icon: string, badge: string, actions: seq<NotificationAction>)

  /** The background work a sync event can start. */
  datatype Task = SyncDataTask | PeriodicSyncDataTask

  /** The events that carry a tag. */
  datatype TaggedEvent = Sync(tag: string) | PeriodicSync(tag: string)

  /** Tag dispatch: each handler starts its work only for its own tag and ignores every other. */
  function TaskFor(e: TaggedEvent): (t: Option<Task>)
    ensures t == Some(SyncDataTask) <==> e == Sync(BackgroundSyncTag)
    ensures t == Some(PeriodicSyncDataTask) <==> e == PeriodicSync(PeriodicSyncTag)
    ensures t.None? <==> e != Sync(BackgroundSyncTag) && e != PeriodicSync(PeriodicSyncTag)
  {
    match e
    case Sync(tag) => if tag == BackgroundSyncTag then Some(SyncDataTask) else None
    case PeriodicSync(tag) => if tag == PeriodicSyncTag then Some(PeriodicSyncDataTask) else None
  }

  /** The two buttons of a push notification, in order. */
  const PushActions: seq<NotificationAction> := [
    NotificationAction("explore", "Open App", Icon),
    NotificationAction("close", "Close", Icon)
  ]

  /** `push`: `payload` is `event.data.text()`, None when the push carries no data. */
  function PushNotification(payload: Option<string>): (n: Notification)
    ensures n.title == NotificationTitle && n.icon == Icon && n.badge == Icon
    ensures payload.Some? ==> n.body == payload.value
    ensures payload.None? ==> n.body == DefaultBody
    ensures |n.actions| == 2 && n.actions[0].action == "explore" && n.actions[1].action == "close"
  {
    var body := match payload case Some(text) => text case None => DefaultBody;
    Notification(NotificationTitle, body, Icon, Icon, PushActions)
  }

  /** What a click on a notification does: it is closed, and a window may be opened. */
  datatype ClickEffect = ClickEffect(closesNotification: bool, opensWindow: Option<string>)

  /** `notificationclick`: `action` is `event.action`, the empty string for a click on the body. */
  function NotificationClick(action: string): (e: ClickEffect)
    ensures e.closesNotification
    ensures e.opensWindow.Some? <==> action == "explore"
    ensures e.opensWindow.Some? ==> e.opensWindow.value == "/"
  {
    ClickEffect(true, if action == "explore" then Some("/") else None)
  }

  /** Of the buttons a push notification shows, the first opens the app and the second only closes. */
  lemma ClickOnPushButtons(payload: Option<string>)
    ensures var buttons := PushNotification(payload).actions;
      && NotificationClick(buttons[0].action) == ClickEffect(true, Some("/"))
      && NotificationClick(buttons[1].action) == ClickEffect(true, None)
      && NotificationClick("") == ClickEffect(true, None)
  {
    var buttons := PushNotification(payload).actions;
    assert buttons[1].action == "close" && "close" != "explore";
    assert "" != "explore";
  }

  /** A decoded JSON value. */
  datatype Json =
    | JNull
    | JBool(b: bool)
    | JNumber(n: real)
    | JString(s: string)
    | JArray(items: seq<Json>)
    | JObject(fields: map<string, Json>)

  /** JavaScript truthiness of a decoded JSON value. */
  predicate Truthy(v: Json)
  {
    match v
    case JNull => false
    case JBool(b) => b
    case JNumber(n) => n != 0.0
    case JString(s) => s != ""
    case JArray(_) => true
    case JObject(_) => true
  }

  /** What the update check produced: a rejected fetch, or a response and its body parsed as JSON (None when it is not JSON). */
  datatype UpdateCheck =
    | Unreachable
    | Answered(response: Response, body: Option<Json>)

  /** The update check reports new content: an ok response whose JSON object has a truthy `hasNewContent`. */
  predicate ReportsNewContent(check: UpdateCheck)
  {
    && check.Answered? && Ok(check.response)
    && check.body.Some? && check.body.value.JObject?
    && "hasNewContent" in check.body.value.fields
    && Truthy(check.body.value.fields["hasNewContent"])
  }

  /** The notification shown when the update check finds new content. */
  const UpdateNotification: Notification := Notification(NotificationTitle, DefaultBody, Icon, Icon, [])

  /** How `periodicSyncData` ends. */
  datatype SyncOutcome = Notified(notification: Notification) | NoUpdate | Swallowed

  /**
   * `periodicSyncData`: a rejected fetch, a body that is not JSON and a
   * property read on `null` throw and are caught; other values without a
   * `hasNewContent` property read as `undefined`.
   */
  function PeriodicSyncData(check: UpdateCheck): (o: SyncOutcome)
    ensures o.Notified? <==> ReportsNewContent(check)
    ensures o.Notified? ==> o.notification == UpdateNotification
    ensures o.Swallowed? <==> check.Unreachable? || (Ok(check.response) && check.body in {None, Some(JNull)})
  {
    match check
    case Unreachable => Swallowed
    case Answered(response, body) =>
      if !Ok(response) then NoUpdate
      else
        match body
        case None => Swallowed
        case Some(updates) =>
          match updates
          case JNull => Swallowed
          case JObject(fields) =>
            if "hasNewContent" in fields && Truthy(fields["hasNewContent"]) then Notified(UpdateNotification) else NoUpdate
          case _ => NoUpdate
  }

  /** `periodicsync`: the notification shown, if any; no failure leaves the handler. */
  function OnPeriodicSync(tag: string, check: UpdateCheck): (shown: Option<Notification>)
    ensures shown.Some? <==> tag == PeriodicSyncTag && ReportsNewContent(check)
    ensures shown.Some? ==> shown.value == UpdateNotification
  {
    if TaskFor(PeriodicSync(tag)) == Some(PeriodicSyncDataTask) then
      match PeriodicSyncData(check)
      case Notified(n) => Some(n)
      case _ => None
    else None
  }
}

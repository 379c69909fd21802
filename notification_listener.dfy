/**
 * SendBoxNotificationListenerService.onNotificationPosted: keep only KakaoTalk
 * notifications with some content, and turn each into one broadcast intent.
 */
module NotificationListener {
  import opened Wrappers

  const ACTION_NOTIFICATION_RECEIVED: string := "com.sendbox.app.NOTIFICATION_RECEIVED"
  const EXTRA_PACKAGE_NAME: string := "packageName"
  const EXTRA_TITLE: string := "title"
  const EXTRA_BODY: string := "body"
  const EXTRA_TIMESTAMP: string := "timestamp"

  const KAKAO_TALK: string := "com.kakao.talk"
  const KAKAO_TALK_PLUS: string := "com.kakao.talk.plus"

  /** The three `Notification.extras` the service reads, each possibly absent, as their `toString()`. */
  datatype Extras = Extras(title: Option<string>, text: Option<string>, bigText: Option<string>)

  datatype Notification = Notification(extras: Option<Extras>)

  datatype StatusBarNotification = StatusBarNotification(packageName: Option<string>, notification: Option<Notification>)

  /** One extra of an Intent: `putExtra` with a String or with a Long. */
  datatype ExtraValue = StringExtra(s: string) | LongExtra(n: int)

  /** An Android Intent as far as these components use it: an action and its extras bundle. */
  datatype Intent = Intent(action: Option<string>, extras: map<string, ExtraValue>)

  /** The extras of the posted notification, when both the notification and its extras are present. */
  function ExtrasOf(sbn: StatusBarNotification): Option<Extras> {
    if sbn.notification.Some? then sbn.notification.value.extras else None
  }

  /** Each extra is read with `?.toString() ?: ""`: a missing notification, extras bundle or extra reads as "". */
  function Title(sbn: StatusBarNotification): string {
    match ExtrasOf(sbn)
    case None => ""
    case Some(e) => e.title.GetOr("")
  }

  function Text(sbn: StatusBarNotification): string {
    match ExtrasOf(sbn)
    case None => ""
    case Some(e) => e.text.GetOr("")
  }

  function BigText(sbn: StatusBarNotification): string {
    match ExtrasOf(sbn)
    case None => ""
    case Some(e) => e.bigText.GetOr("")
  }

  /** A present extra is read as it is; a missing notification, extras bundle or extra reads as "". */
  lemma MissingExtrasReadAsEmpty(sbn: StatusBarNotification)
    ensures ExtrasOf(sbn).None? ==> Title(sbn) == "" && Text(sbn) == "" && BigText(sbn) == ""
    ensures ExtrasOf(sbn).Some? ==>
              var e := ExtrasOf(sbn).value;
              (e.title.None? ==> Title(sbn) == "") && (e.title.Some? ==> Title(sbn) == e.title.value) &&
              (e.text.None? ==> Text(sbn) == "") && (e.text.Some? ==> Text(sbn) == e.text.value) &&
              (e.bigText.None? ==> BigText(sbn) == "") && (e.bigText.Some? ==> BigText(sbn) == e.bigText.value)
  {
  }

  /** The allow-list. */
  predicate IsKakaoPackage(packageName: string) {
    packageName == KAKAO_TALK || packageName == KAKAO_TALK_PLUS
  }

  /** The chosen message body: the expanded text when it is non-empty, the short text otherwise. */
  function MessageBody(sbn: StatusBarNotification): (body: string)
    ensures BigText(sbn) != "" ==> body == BigText(sbn)
    ensures BigText(sbn) == "" ==> body == Text(sbn)
    ensures body == "" <==> BigText(sbn) == "" && Text(sbn) == ""
  {
    var bigText := BigText(sbn);
    if |bigText| > 0 then bigText else Text(sbn)
  }

  /** The broadcast the service sends for one accepted notification. */
  function NotificationIntent(packageName: string, title: string, body: string, timestamp: int): Intent {
    Intent(Some(ACTION_NOTIFICATION_RECEIVED),
           map[EXTRA_PACKAGE_NAME := StringExtra(packageName), EXTRA_TITLE := StringExtra(title),
               EXTRA_BODY := StringExtra(body), EXTRA_TIMESTAMP := LongExtra(timestamp)])
  }

  /** A notification the service accepts: a present notification from an allowed package with some title or text. */
  ghost predicate Accepted(notification: Option<StatusBarNotification>) {
    notification.Some? && notification.value.packageName.Some? &&
    IsKakaoPackage(notification.value.packageName.value) &&
    (Title(notification.value) != "" || Text(notification.value) != "" || BigText(notification.value) != "")
  }

  /**
   * `onNotificationPosted`, with `System.currentTimeMillis()` passed in as
   * `now`: the broadcast it sends, if any.
   */
  function OnNotificationPosted(notification: Option<StatusBarNotification>, now: int): (sent: Option<Intent>)
    // Exactly the accepted notifications produce a broadcast.
    ensures sent.Some? <==> Accepted(notification)
    // Only the two KakaoTalk packages are ever broadcast.
    ensures sent.Some? ==> notification.value.packageName == Some(KAKAO_TALK) ||
                           notification.value.packageName == Some(KAKAO_TALK_PLUS)
    // The broadcast carries the package, the title, the chosen body and the time.
    ensures sent.Some? ==>
              var sbn := notification.value;
              sent.value.action == Some(ACTION_NOTIFICATION_RECEIVED) &&
              sent.value.extras == map[EXTRA_PACKAGE_NAME := StringExtra(sbn.packageName.value),
                                      EXTRA_TITLE := StringExtra(Title(sbn)),
                                      EXTRA_BODY := StringExtra(MessageBody(sbn)),
                                      EXTRA_TIMESTAMP := LongExtra(now)]
  {
    match notification
    case None => None
    case Some(sbn) =>
      match sbn.packageName
      case None => None
      case Some(packageName) =>
        if packageName != KAKAO_TALK && packageName != KAKAO_TALK_PLUS then None
        else
          var title := Title(sbn);
          var messageBody := MessageBody(sbn);
          if messageBody == "" && title == "" then None
          else Some(NotificationIntent(packageName, title, messageBody, now))
  }

  /** A notification whose title, text and expanded text are all missing or empty is never broadcast. */
  lemma EmptyNotificationIsDropped(sbn: StatusBarNotification, now: int)
    requires Title(sbn) == "" && Text(sbn) == "" && BigText(sbn) == ""
    ensures OnNotificationPosted(Some(sbn), now) == None
  {
  }
}

/**
 * What the host SDK (Batch) hands the dispatcher for every tracked occurrence: the event type
 * and a read-only payload view. The deep link is kept as the raw string the payload exposes;
 * turning it into a URI is the job of the Android URI library, which this model takes as a
 * parameter (`UriParser`).
 */
module BatchEvents {
  import opened Options

  /** `Batch.EventDispatcher.Type`: the nine occurrences the dispatcher is told about. */
  datatype EventType =
    | NotificationDisplay
    | NotificationOpen
    | NotificationDismiss
    | MessagingShow
    | MessagingClose
    | MessagingAutoClose
    | MessagingCloseError
    | MessagingClick
    | MessagingWebViewClick

  /** `Type.isNotificationEvent()`: the push-notification occurrences. */
  predicate IsNotificationEvent(t: EventType) {
    t.NotificationDisplay? || t.NotificationOpen? || t.NotificationDismiss?
  }

  /** `Type.isMessagingEvent()`: the in-app message occurrences. */
  predicate IsMessagingEvent(t: EventType) {
    || t.MessagingShow? || t.MessagingClose? || t.MessagingAutoClose? || t.MessagingCloseError?
    || t.MessagingClick? || t.MessagingWebViewClick?
  }

  /**
   * `Batch.EventDispatcher.Payload`: the optional tracking id, the optional raw deep link, the
   * custom key/value payload (`getCustomValue` is a lookup in it; a missing key is `null`), and
   * the optional web-view analytics id of in-app messages.
   */
  datatype Payload = Payload(
    trackingId: Option<string>,
    deeplink: Option<string>,
    custom: map<string, string>,
    webViewAnalyticsId: Option<string>)

  /**
   * A parsed `android.net.Uri`, as far as the dispatcher looks at it. An opaque URI
   * (`mailto:...`) is not hierarchical. A hierarchical one has its decoded query parameters in
   * order of appearance (a parameter written without `=` has the empty value) and its decoded
   * fragment, if any.
   */
  datatype Uri =
    | NonHierarchical
    | Hierarchical(query: seq<(string, string)>, fragment: Option<string>)

  /** `Uri.parse`, owned by the Android framework. */
  type UriParser = string -> Uri
}

/**
 * What AbstractPianoDispatcher shares with every dispatcher built on it: the configuration
 * flags, the dispatcher identity, the Piano key and event-name constants, and the
 * classification of Batch event types into Piano events.
 */
module AbstractDispatcher {
  import opened BatchEvents

  // ---------------------------------------------------------------------------
  // Identity and configuration
  // ---------------------------------------------------------------------------

  const DispatcherName: string := "piano"
  const DispatcherVersion: int := 2

  /** `getName()`. */
  function GetName(): (r: string)
    ensures r == "piano"
  {
    DispatcherName
  }

  /** `getVersion()`. */
  function GetVersion(): (r: int)
    ensures r == 2
  {
    DispatcherVersion
  }

  /**
   * The three process-wide flags: send custom events, send on-site-ad events, read `utm_*`
   * tags.
   */
  datatype Settings = Settings(customEvents: bool, onSiteAds: bool, utmTracking: bool)

  /** Custom events off, on-site ads on, UTM tracking on. */
  const DefaultSettings: Settings := Settings(customEvents := false, onSiteAds := true, utmTracking := true)

  /** `enableBatchCustomEvents`: sets one flag, leaves the others alone. */
  function EnableBatchCustomEvents(s: Settings, enabled: bool): (r: Settings)
    ensures r.customEvents == enabled
    ensures r.onSiteAds == s.onSiteAds && r.utmTracking == s.utmTracking
  {
    s.(customEvents := enabled)
  }

  /** `enableBatchOnSiteAdsEvents`: sets one flag, leaves the others alone. */
  function EnableBatchOnSiteAdsEvents(s: Settings, enabled: bool): (r: Settings)
    ensures r.onSiteAds == enabled
    ensures r.customEvents == s.customEvents && r.utmTracking == s.utmTracking
  {
    s.(onSiteAds := enabled)
  }

  /** `enableUTMTracking`: sets one flag, leaves the others alone. */
  function EnableUTMTracking(s: Settings, enabled: bool): (r: Settings)
    ensures r.utmTracking == enabled
    ensures r.customEvents == s.customEvents && r.onSiteAds == s.onSiteAds
  {
    s.(utmTracking := enabled)
  }

  // ---------------------------------------------------------------------------
  // Piano output
  // ---------------------------------------------------------------------------

  /** A Piano property value: the dispatcher only ever sends strings and booleans. */
  datatype Value = Str(s: string) | Bool(b: bool)

  /** `io.piano.analytics.Event`: a name and its data map. */
  datatype Event = Event(name: string, data: map<string, Value>)

  const KeyCampaign: string := "src_campaign"
  const KeySource: string := "src_source"
  const KeySourceForce: string := "src_force"
  const KeyMedium: string := "src_medium"
  const KeyContent: string := "src_content"
  const KeyWebViewAnalyticsId: string := "batch_webview_analytics_id"
  const KeyTrackingId: string := "batch_tracking_id"

  /** The keys every custom event carries. */
  const CustomBaseKeys: set<string> := {KeyCampaign, KeyMedium, KeySource, KeySourceForce}

  /** The keys a custom event may carry in addition. */
  const CustomOptionalKeys: set<string> := {KeyTrackingId, KeyContent, KeyWebViewAnalyticsId}

  /** The optional keys are distinct from each other and from the base keys. */
  lemma CustomKeysDistinct()
    ensures KeyTrackingId !in CustomBaseKeys && KeyContent !in CustomBaseKeys && KeyWebViewAnalyticsId !in CustomBaseKeys
    ensures KeyTrackingId != KeyContent && KeyTrackingId != KeyWebViewAnalyticsId && KeyContent != KeyWebViewAnalyticsId
    ensures |CustomBaseKeys| == 4
  {
  }

  const EventImpression: string := "publisher.impression"
  const EventClick: string := "publisher.click"

  const OnSiteType: string := "onsitead_type"
  const OnSiteTypePublisher: string := "Publisher"
  const OnSiteAdvertiser: string := "onsitead_advertiser"
  const OnSiteCampaign: string := "onsitead_campaign"
  const OnSiteFormat: string := "onsitead_format"

  /** The keys of an on-site-ad event. */
  const OnSiteKeys: set<string> := {OnSiteType, OnSiteAdvertiser, OnSiteCampaign, OnSiteFormat}

  const UnknownEventName: string := "batch_unknown"

  // ---------------------------------------------------------------------------
  // Event classification
  // ---------------------------------------------------------------------------

  /** `getPianoEventName`: the custom-event name of each Batch event type. */
  function PianoEventName(t: EventType): (r: string)
    ensures r != UnknownEventName
    ensures r != EventImpression && r != EventClick
  {
    match t
    case NotificationDisplay => "batch_notification_display"
    case NotificationOpen => "batch_notification_open"
    case NotificationDismiss => "batch_notification_dismiss"
    case MessagingShow => "batch_in_app_show"
    case MessagingClose => "batch_in_app_close"
    case MessagingAutoClose => "batch_in_app_auto_close"
    case MessagingCloseError => "batch_in_app_close_error"
    case MessagingClick => "batch_in_app_click"
    case MessagingWebViewClick => "batch_in_app_webview_click"
  }

  /** No two event types share a custom-event name. */
  lemma PianoEventNameInjective(a: EventType, b: EventType)
    ensures PianoEventName(a) == PianoEventName(b) ==> a == b
  {
  }

  /** Notification events are named `batch_notification_*`, in-app message events `batch_in_app_*`. */
  lemma PianoEventNameFollowsCategory(t: EventType)
    ensures IsNotificationEvent(t) <==> "batch_notification_" <= PianoEventName(t)
    ensures IsMessagingEvent(t) <==> "batch_in_app_" <= PianoEventName(t)
  {
    var n := PianoEventName(t);
    if IsNotificationEvent(t) {
      assert n[..19] == "batch_notification_";
      assert n[6] != "batch_in_app_"[6];
    } else {
      assert n[..13] == "batch_in_app_";
      assert n[6] != "batch_notification_"[6];
    }
  }

  /** `isImpression`: the types that are a Piano publisher impression. */
  predicate IsImpression(t: EventType) {
    t == NotificationDisplay || t == MessagingShow
  }

  /** `isClick`: the types that are a Piano publisher click. */
  predicate IsClick(t: EventType) {
    t == NotificationOpen || t == MessagingClick || t == MessagingWebViewClick
  }

  /** `shouldBeDispatchedAsOnSiteAd`. */
  predicate ShouldBeDispatchedAsOnSiteAd(t: EventType) {
    IsImpression(t) || IsClick(t)
  }

  /**
   * No type is both an impression and a click, and exactly the dismiss and close types are sent
   * as no on-site ad at all.
   */
  lemma OnSiteClassification(t: EventType)
    ensures !(IsImpression(t) && IsClick(t))
    ensures !ShouldBeDispatchedAsOnSiteAd(t) <==>
      t in {NotificationDismiss, MessagingClose, MessagingAutoClose, MessagingCloseError}
  {
  }
}

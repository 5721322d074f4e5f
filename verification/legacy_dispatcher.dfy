/**
 * LegacyPianoDispatcher: the dispatcher used with Piano SDK 3.2.1 and older. It builds Java
 * `Event`s (a name and a `HashMap` of data) from the shared field derivation, and its dispatch
 * gate honours both the on-site-ads and the custom-events flags.
 */
module LegacyDispatcher {
  import opened Options
  import opened BatchEvents
  import opened FieldDerivation
  import opened AbstractDispatcher
  import opened JavaEventData

  /**
   * `buildPianoOnSiteAdsEvent`: nothing for a type that is neither an impression nor a click;
   * otherwise `publisher.impression` or `publisher.click` with exactly the four on-site keys:
   * the publisher type, the source as advertiser, the campaign, and the medium as format.
   */
  function BuildPianoOnSiteAdsEvent(s: Settings, parse: UriParser, t: EventType, p: Payload): (r: Option<Event>)
    ensures r.None? <==> !ShouldBeDispatchedAsOnSiteAd(t)
    ensures r.Some? ==> r.value.name == (if IsImpression(t) then EventImpression else EventClick)
    ensures r.Some? ==>
      && r.value.data.Keys == OnSiteKeys
      && r.value.data[OnSiteType] == Str(OnSiteTypePublisher)
      && r.value.data[OnSiteAdvertiser] == Str(Source(parse, s.utmTracking, p))
      && r.value.data[OnSiteCampaign] == Str(Campaign(parse, s.utmTracking, p))
      && r.value.data[OnSiteFormat] == Str(Medium(parse, s.utmTracking, t, p))
  {
    if !IsImpression(t) && !IsClick(t) then None
    else
      var name := if IsImpression(t) then EventImpression else EventClick;
      Some(Event(name, OnSiteData(
        Source(parse, s.utmTracking, p), Campaign(parse, s.utmTracking, p), Medium(parse, s.utmTracking, t, p))))
  }

  /**
   * `buildPianoCustomEvent`: named after the event type, always carrying campaign, medium,
   * source and `src_force = true`; the tracking id and the content only when present and not
   * empty; the web-view analytics id only for in-app message events, and only when present and
   * not empty.
   */
  function BuildPianoCustomEvent(s: Settings, parse: UriParser, t: EventType, p: Payload): (r: Event)
    ensures r.name == PianoEventName(t)
    ensures CustomBaseKeys <= r.data.Keys <= CustomBaseKeys + CustomOptionalKeys
    ensures r.data[KeyCampaign] == Str(Campaign(parse, s.utmTracking, p))
    ensures r.data[KeyMedium] == Str(Medium(parse, s.utmTracking, t, p))
    ensures r.data[KeySource] == Str(Source(parse, s.utmTracking, p))
    ensures r.data[KeySourceForce] == Bool(true)
    ensures KeyTrackingId in r.data <==> Present(p.trackingId)
    ensures KeyTrackingId in r.data ==> r.data[KeyTrackingId] == Str(p.trackingId.value)
    ensures KeyContent in r.data <==> Content(parse, s.utmTracking, p).Some?
    ensures KeyContent in r.data ==> r.data[KeyContent] == Str(Content(parse, s.utmTracking, p).value)
    ensures KeyWebViewAnalyticsId in r.data <==> IsMessagingEvent(t) && Present(p.webViewAnalyticsId)
    ensures KeyWebViewAnalyticsId in r.data ==> r.data[KeyWebViewAnalyticsId] == Str(p.webViewAnalyticsId.value)
  {
    Event(PianoEventName(t), CustomEventData(
      Campaign(parse, s.utmTracking, p),
      Medium(parse, s.utmTracking, t, p),
      Source(parse, s.utmTracking, p),
      p.trackingId,
      Content(parse, s.utmTracking, p),
      p.webViewAnalyticsId,
      IsMessagingEvent(t)))
  }

  /**
   * `dispatchEvent`: the events handed to Piano, in order. The on-site-ad event is sent exactly
   * when on-site ads are enabled and the type is an impression or a click; the custom event
   * exactly when custom events are enabled. So zero, one or two sends, and none with both flags
   * off.
   */
  function DispatchEvent(s: Settings, parse: UriParser, t: EventType, p: Payload): (r: seq<Event>)
    ensures |r| == (if s.onSiteAds && ShouldBeDispatchedAsOnSiteAd(t) then 1 else 0) + (if s.customEvents then 1 else 0)
    ensures s.onSiteAds && ShouldBeDispatchedAsOnSiteAd(t) ==> r[0] == BuildPianoOnSiteAdsEvent(s, parse, t, p).value
    ensures BuildPianoCustomEvent(s, parse, t, p) in r <==> s.customEvents
    ensures forall i | 0 <= i < |r| :: r[i].name in {EventImpression, EventClick} ==> s.onSiteAds && ShouldBeDispatchedAsOnSiteAd(t)
  {
    var onSite := if s.onSiteAds && ShouldBeDispatchedAsOnSiteAd(t) then
      match BuildPianoOnSiteAdsEvent(s, parse, t, p)
      case Some(e) => [e]
      case None => []
    else [];
    var custom := if s.customEvents then [BuildPianoCustomEvent(s, parse, t, p)] else [];
    // The custom event is never named like an on-site-ad event, so it is not among them.
    assert forall e | e in onSite :: e.name != BuildPianoCustomEvent(s, parse, t, p).name;
    onSite + custom
  }
}

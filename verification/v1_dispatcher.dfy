/**
 * PianoDispatcher.java, the first generation of the dispatcher (version 1). It keeps its own,
 * flag-free copies of the field derivation: every `utm_*` tag is always consulted. It has a
 * custom-events flag but no on-site-ads flag, so every impression or click is sent as an on-site
 * ad. Its tag lookup, event naming and classification are textually the shared ones and are used
 * from `TagResolver` and `AbstractDispatcher`.
 */
module V1Dispatcher {
  import opened Options
  import opened BatchEvents
  import opened TagResolver
  import opened AbstractDispatcher
  import opened JavaEventData
  import FieldDerivation
  import LegacyDispatcher

  const V1Version: int := 1

  /** `getName()` and `getVersion()` of the first generation: same name, version 1. */
  lemma V1Identity()
    ensures DispatcherName == "piano" && V1Version == 1
    ensures V1Version < DispatcherVersion
  {
  }

  // ---------------------------------------------------------------------------
  // Flag-free field derivation
  // ---------------------------------------------------------------------------

  function Present(o: Option<string>): bool {
    FieldDerivation.Present(o)
  }

  /** `getCampaign`: `at_campaign`, then `utm_campaign`, then the tracking id, then a literal. */
  function Campaign(parse: UriParser, p: Payload): (r: string)
    ensures r != ""
  {
    var at := TagFromPayload(parse, p, FieldDerivation.AtCampaign);
    if Present(at) then at.value
    else
      var fromUtm := TagFromPayload(parse, p, FieldDerivation.UtmCampaign);
      if Present(fromUtm) then fromUtm.value
      else if Present(p.trackingId) then p.trackingId.value
      else FieldDerivation.DefaultCampaign
  }

  /** `getMedium`: `at_medium`, then `utm_medium`, then `push` or `in-app` by event category. */
  function Medium(parse: UriParser, t: EventType, p: Payload): (r: string)
    ensures r != ""
  {
    var at := TagFromPayload(parse, p, FieldDerivation.AtMedium);
    if Present(at) then at.value
    else
      var fromUtm := TagFromPayload(parse, p, FieldDerivation.UtmMedium);
      if Present(fromUtm) then fromUtm.value
      else if IsNotificationEvent(t) then FieldDerivation.FormatPush
      else FieldDerivation.FormatInApp
  }

  /** `getSource`: `utm_source`, then `Batch`. */
  function Source(parse: UriParser, p: Payload): (r: string)
    ensures r != ""
  {
    var source := TagFromPayload(parse, p, FieldDerivation.UtmSource);
    if Present(source) then source.value else FieldDerivation.BatchSource
  }

  /** `getContent`: `utm_content`, or nothing. */
  function Content(parse: UriParser, p: Payload): (r: Option<string>)
    ensures r.None? || r.value != ""
  {
    var content := TagFromPayload(parse, p, FieldDerivation.UtmContent);
    if Present(content) then content else None
  }

  /**
   * The flag-free copies are the shared derivation with UTM tracking on: the first generation
   * always reads the `utm_*` tags.
   */
  lemma DerivationIsUtmEnabled(parse: UriParser, t: EventType, p: Payload)
    ensures Campaign(parse, p) == FieldDerivation.Campaign(parse, true, p)
    ensures Medium(parse, t, p) == FieldDerivation.Medium(parse, true, t, p)
    ensures Source(parse, p) == FieldDerivation.Source(parse, true, p)
    ensures Content(parse, p) == FieldDerivation.Content(parse, true, p)
  {
    CampaignIsUtmEnabled(parse, p);
    MediumIsUtmEnabled(parse, t, p);
  }

  lemma CampaignIsUtmEnabled(parse: UriParser, p: Payload)
    ensures Campaign(parse, p) == FieldDerivation.Campaign(parse, true, p)
  {
    var at := TagFromPayload(parse, p, FieldDerivation.AtCampaign);
    var fromUtm := TagFromPayload(parse, p, FieldDerivation.UtmCampaign);
    assert Campaign(parse, p) == if Present(at) then at.value
      else if Present(fromUtm) then fromUtm.value
      else if Present(p.trackingId) then p.trackingId.value
      else FieldDerivation.DefaultCampaign;
  }

  lemma MediumIsUtmEnabled(parse: UriParser, t: EventType, p: Payload)
    ensures Medium(parse, t, p) == FieldDerivation.Medium(parse, true, t, p)
  {
    var at := TagFromPayload(parse, p, FieldDerivation.AtMedium);
    var fromUtm := TagFromPayload(parse, p, FieldDerivation.UtmMedium);
    assert Medium(parse, t, p) == if Present(at) then at.value
      else if Present(fromUtm) then fromUtm.value
      else FieldDerivation.DefaultMedium(t);
  }

  // ---------------------------------------------------------------------------
  // Event construction and dispatch
  // ---------------------------------------------------------------------------

  /**
   * `buildPianoOnSiteAdsEvent`: nothing for a type that is neither an impression nor a click;
   * otherwise `publisher.impression` or `publisher.click` with exactly the four on-site keys.
   */
  function BuildPianoOnSiteAdsEvent(parse: UriParser, t: EventType, p: Payload): (r: Option<Event>)
    ensures r.None? <==> !ShouldBeDispatchedAsOnSiteAd(t)
    ensures r.Some? ==> r.value.name == (if IsImpression(t) then EventImpression else EventClick)
    ensures r.Some? ==>
      && r.value.data.Keys == OnSiteKeys
      && r.value.data[OnSiteType] == Str(OnSiteTypePublisher)
      && r.value.data[OnSiteAdvertiser] == Str(Source(parse, p))
      && r.value.data[OnSiteCampaign] == Str(Campaign(parse, p))
      && r.value.data[OnSiteFormat] == Str(Medium(parse, t, p))
  {
    if IsImpression(t) || IsClick(t) then
      var name := if IsImpression(t) then EventImpression else EventClick;
      Some(Event(name, OnSiteData(
        Source(parse, p), Campaign(parse, p), Medium(parse, t, p))))
    else None
  }

  /**
   * `buildPianoCustomEvent`: named after the event type, with campaign, medium, source and
   * `src_force = true`, the tracking id and the content when present and not empty, and the
   * web-view analytics id for in-app message events when present and not empty.
   */
  function BuildPianoCustomEvent(parse: UriParser, t: EventType, p: Payload): (r: Event)
    ensures r.name == PianoEventName(t)
    ensures CustomBaseKeys <= r.data.Keys <= CustomBaseKeys + CustomOptionalKeys
    ensures r.data[KeyCampaign] == Str(Campaign(parse, p))
    ensures r.data[KeyMedium] == Str(Medium(parse, t, p))
    ensures r.data[KeySource] == Str(Source(parse, p))
    ensures r.data[KeySourceForce] == Bool(true)
    ensures KeyTrackingId in r.data <==> Present(p.trackingId)
    ensures KeyTrackingId in r.data ==> r.data[KeyTrackingId] == Str(p.trackingId.value)
    ensures KeyContent in r.data <==> Present(TagFromPayload(parse, p, FieldDerivation.UtmContent))
    ensures KeyContent in r.data ==> r.data[KeyContent] == Str(TagFromPayload(parse, p, FieldDerivation.UtmContent).value)
    ensures KeyWebViewAnalyticsId in r.data <==> IsMessagingEvent(t) && Present(p.webViewAnalyticsId)
    ensures KeyWebViewAnalyticsId in r.data ==> r.data[KeyWebViewAnalyticsId] == Str(p.webViewAnalyticsId.value)
  {
    Event(PianoEventName(t), CustomEventData(
      Campaign(parse, p),
      Medium(parse, t, p),
      Source(parse, p),
      p.trackingId,
      Content(parse, p),
      p.webViewAnalyticsId,
      IsMessagingEvent(t)))
  }

  /**
   * `dispatchEvent`: an on-site-ad event for every impression or click, whatever the flags, then
   * the custom event exactly when custom events are enabled; at most two sends.
   */
  function DispatchEvent(customEventsEnabled: bool, parse: UriParser, t: EventType, p: Payload): (r: seq<Event>)
    ensures |r| == (if ShouldBeDispatchedAsOnSiteAd(t) then 1 else 0) + (if customEventsEnabled then 1 else 0)
    ensures ShouldBeDispatchedAsOnSiteAd(t) ==> r[0] == BuildPianoOnSiteAdsEvent(parse, t, p).value
    ensures BuildPianoCustomEvent(parse, t, p) in r <==> customEventsEnabled
  {
    var onSite := if ShouldBeDispatchedAsOnSiteAd(t) then
      match BuildPianoOnSiteAdsEvent(parse, t, p)
      case Some(e) => [e]
      case None => []
    else [];
    var custom := if customEventsEnabled then [BuildPianoCustomEvent(parse, t, p)] else [];
    // The custom event is never named like an on-site-ad event, so it is not among them.
    assert forall e | e in onSite :: e.name != BuildPianoCustomEvent(parse, t, p).name;
    onSite + custom
  }

  /**
   * The first generation sends what the legacy dispatcher sends with on-site ads and UTM
   * tracking both on: the later flags only switch parts of the first generation's behaviour off.
   */
  lemma MatchesLegacyWithOnSiteAndUtm(customEventsEnabled: bool, parse: UriParser, t: EventType, p: Payload)
    ensures DispatchEvent(customEventsEnabled, parse, t, p)
         == LegacyDispatcher.DispatchEvent(Settings(customEventsEnabled, true, true), parse, t, p)
  {
    DerivationIsUtmEnabled(parse, t, p);
  }
}

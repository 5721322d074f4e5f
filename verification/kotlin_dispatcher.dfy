/**
 * PianoDispatcher.kt: the dispatcher used with Piano SDK 3.3.0 and newer. Its events carry a set
 * of typed properties instead of a map, and its optional properties are dropped when blank
 * (Kotlin `isNotBlank`) rather than only when empty.
 */
module KotlinDispatcher {
  import opened Options
  import opened JavaStrings
  import opened BatchEvents
  import opened FieldDerivation
  import opened AbstractDispatcher
  import JavaEventData
  import LegacyDispatcher

  /** `io.piano.android.analytics.model.Property`: a named value. */
  datatype Property = Property(name: string, value: Value)

  /** An event of the newer Piano SDK: a name and a set of properties. */
  datatype PropertyEvent = PropertyEvent(name: string, properties: set<Property>)

  /** The names the properties carry. */
  function Names(props: set<Property>): set<string> {
    set pr | pr in props :: pr.name
  }

  /** No two properties share a name: each name carries one value. */
  predicate UniqueNames(props: set<Property>) {
    forall a, b | a in props && b in props && a.name == b.name :: a == b
  }

  /** The properties of a data map, one per entry: the bridge between the two output shapes. */
  function AsProperties(data: map<string, Value>): (r: set<Property>)
    ensures forall pr :: pr in r <==> pr.name in data && data[pr.name] == pr.value
    ensures Names(r) == data.Keys
  {
    var r := set k | k in data :: Property(k, data[k]);
    assert forall k | k in data :: Property(k, data[k]) in r;
    r
  }

  /** A value the Kotlin builder accepts: present and not blank. */
  predicate NotBlank(o: Option<string>) {
    o.Some? && !IsBlank(o.value)
  }

  /**
   * `buildPianoOnSiteAdsEvent`: nothing for a type that is neither an impression nor a click;
   * otherwise `publisher.impression` or `publisher.click` with exactly four properties: the
   * publisher type, the source as advertiser, the campaign and the medium as format.
   */
  function BuildPianoOnSiteAdsEvent(s: Settings, parse: UriParser, t: EventType, p: Payload): (r: Option<PropertyEvent>)
    ensures r.None? <==> !ShouldBeDispatchedAsOnSiteAd(t)
    ensures r.Some? ==> r.value.name == (if IsImpression(t) then EventImpression else EventClick)
    ensures r.Some? ==> r.value.properties == OnSiteProperties(
      Source(parse, s.utmTracking, p), Campaign(parse, s.utmTracking, p), Medium(parse, s.utmTracking, t, p))
  {
    if IsImpression(t) || IsClick(t) then
      var name := if IsImpression(t) then EventImpression else EventClick;
      Some(PropertyEvent(name, OnSiteProperties(
        Source(parse, s.utmTracking, p), Campaign(parse, s.utmTracking, p), Medium(parse, s.utmTracking, t, p))))
    else None
  }

  /** The four properties of an on-site-ad event, one per on-site key. */
  function OnSiteProperties(advertiser: string, campaign: string, format: string): (r: set<Property>)
    ensures |r| == 4
    ensures Names(r) == OnSiteKeys
    ensures forall pr | pr in r :: pr.value == Str(
      if pr.name == OnSiteType then OnSiteTypePublisher
      else if pr.name == OnSiteAdvertiser then advertiser
      else if pr.name == OnSiteCampaign then campaign
      else format)
  {
    var r := {
      Property(OnSiteType, Str(OnSiteTypePublisher)),
      Property(OnSiteAdvertiser, Str(advertiser)),
      Property(OnSiteCampaign, Str(campaign)),
      Property(OnSiteFormat, Str(format))};
    assert Names(r) == OnSiteKeys;
    r
  }

  /** Adds `Property(key, value)` when `value` is present and not blank. */
  function AddIfNotBlank(props: set<Property>, key: string, value: Option<string>): (r: set<Property>)
    ensures NotBlank(value) ==> r == props + {Property(key, Str(value.value))}
    ensures !NotBlank(value) ==> r == props
    ensures Names(r) == Names(props) + (if NotBlank(value) then {key} else {})
    ensures props <= r
    ensures NotBlank(value) ==> Property(key, Str(value.value)) in r
  {
    if value.Some? && !IsBlank(value.value) then
      var r := props + {Property(key, Str(value.value))};
      assert Property(key, Str(value.value)) in r;
      r
    else props
  }

  /** The four properties every custom event carries. */
  function BaseProperties(campaign: string, medium: string, source: string): (r: set<Property>)
    ensures Names(r) == CustomBaseKeys
    ensures Property(KeySource, Str(source)) in r && Property(KeyCampaign, Str(campaign)) in r
    ensures Property(KeyMedium, Str(medium)) in r && Property(KeySourceForce, Bool(true)) in r
  {
    var r := {Property(KeySource, Str(source)), Property(KeyCampaign, Str(campaign)),
              Property(KeyMedium, Str(medium)), Property(KeySourceForce, Bool(true))};
    assert Property(KeySource, Str(source)) in r && Property(KeyCampaign, Str(campaign)) in r;
    assert Property(KeyMedium, Str(medium)) in r && Property(KeySourceForce, Bool(true)) in r;
    r
  }

  /**
   * The properties of a custom event, from its derived fields: the four base properties, then the
   * optional ones, each only when not blank.
   */
  function CustomEventProperties(
    campaign: string, medium: string, source: string,
    trackingId: Option<string>, content: Option<string>, webViewId: Option<string>, messaging: bool)
    : (r: set<Property>)
    ensures Property(KeySource, Str(source)) in r && Property(KeyCampaign, Str(campaign)) in r
    ensures Property(KeyMedium, Str(medium)) in r && Property(KeySourceForce, Bool(true)) in r
    ensures CustomBaseKeys <= Names(r) <= CustomBaseKeys + CustomOptionalKeys
    ensures KeyTrackingId in Names(r) <==> NotBlank(trackingId)
    ensures KeyContent in Names(r) <==> NotBlank(content)
    ensures KeyWebViewAnalyticsId in Names(r) <==> messaging && NotBlank(webViewId)
    ensures NotBlank(trackingId) ==> Property(KeyTrackingId, Str(trackingId.value)) in r
    ensures NotBlank(content) ==> Property(KeyContent, Str(content.value)) in r
    ensures messaging && NotBlank(webViewId) ==> Property(KeyWebViewAnalyticsId, Str(webViewId.value)) in r
  {
    var base := BaseProperties(campaign, medium, source);
    var r := AddOptional(base, trackingId, content, webViewId, messaging);
    CustomKeysDistinct();
    OptionalNames(CustomBaseKeys, Names(r), KeyTrackingId, KeyContent, KeyWebViewAnalyticsId,
      NotBlank(trackingId), NotBlank(content), messaging && NotBlank(webViewId));
    r
  }

  /**
   * The optional properties of a custom event, in the builder's order: the tracking id, the
   * content, then (for in-app message events only) the web-view analytics id, each only when not
   * blank.
   */
  function AddOptional(
    props: set<Property>, trackingId: Option<string>, content: Option<string>, webViewId: Option<string>, messaging: bool)
    : (r: set<Property>)
    ensures props <= r
    ensures Names(r) == Names(props)
      + (if NotBlank(trackingId) then {KeyTrackingId} else {})
      + (if NotBlank(content) then {KeyContent} else {})
      + (if messaging && NotBlank(webViewId) then {KeyWebViewAnalyticsId} else {})
    ensures NotBlank(trackingId) ==> Property(KeyTrackingId, Str(trackingId.value)) in r
    ensures NotBlank(content) ==> Property(KeyContent, Str(content.value)) in r
    ensures messaging && NotBlank(webViewId) ==> Property(KeyWebViewAnalyticsId, Str(webViewId.value)) in r
  {
    var withTracking := AddIfNotBlank(props, KeyTrackingId, trackingId);
    var withContent := AddIfNotBlank(withTracking, KeyContent, content);
    if messaging then AddIfNotBlank(withContent, KeyWebViewAnalyticsId, webViewId) else withContent
  }

  /**
   * Adding up to three distinct optional names to a base set: each is there exactly when it was
   * added, and nothing else is.
   */
  lemma OptionalNames(base: set<string>, n: set<string>, x: string, y: string, z: string, px: bool, py: bool, pz: bool)
    requires x !in base && y !in base && z !in base && x != y && x != z && y != z
    requires n == base + (if px then {x} else {}) + (if py then {y} else {}) + (if pz then {z} else {})
    ensures base <= n <= base + {x, y, z}
    ensures (x in n <==> px) && (y in n <==> py) && (z in n <==> pz)
  {
  }

  /**
   * `buildPianoCustomEvent`: named after the event type, always carrying source, campaign,
   * medium and `src_force = true`; the tracking id, the content and (for in-app message events)
   * the web-view analytics id only when present and not blank.
   */
  function BuildPianoCustomEvent(s: Settings, parse: UriParser, t: EventType, p: Payload): (r: PropertyEvent)
    ensures r.name == PianoEventName(t)
    ensures Property(KeySource, Str(Source(parse, s.utmTracking, p))) in r.properties
    ensures Property(KeyCampaign, Str(Campaign(parse, s.utmTracking, p))) in r.properties
    ensures Property(KeyMedium, Str(Medium(parse, s.utmTracking, t, p))) in r.properties
    ensures Property(KeySourceForce, Bool(true)) in r.properties
    ensures CustomBaseKeys <= Names(r.properties) <= CustomBaseKeys + CustomOptionalKeys
    ensures KeyTrackingId in Names(r.properties) <==> NotBlank(p.trackingId)
    ensures KeyContent in Names(r.properties) <==> NotBlank(Content(parse, s.utmTracking, p))
    ensures KeyWebViewAnalyticsId in Names(r.properties) <==> IsMessagingEvent(t) && NotBlank(p.webViewAnalyticsId)
    ensures NotBlank(p.trackingId) ==> Property(KeyTrackingId, Str(p.trackingId.value)) in r.properties
    ensures NotBlank(Content(parse, s.utmTracking, p)) ==>
      Property(KeyContent, Str(Content(parse, s.utmTracking, p).value)) in r.properties
    ensures IsMessagingEvent(t) && NotBlank(p.webViewAnalyticsId) ==>
      Property(KeyWebViewAnalyticsId, Str(p.webViewAnalyticsId.value)) in r.properties
  {
    PropertyEvent(PianoEventName(t), CustomEventProperties(
      Campaign(parse, s.utmTracking, p),
      Medium(parse, s.utmTracking, t, p),
      Source(parse, s.utmTracking, p),
      p.trackingId,
      Content(parse, s.utmTracking, p),
      p.webViewAnalyticsId,
      IsMessagingEvent(t)))
  }

  /**
   * `dispatchEvent`: the on-site-ad event exactly when on-site ads are enabled and the type is an
   * impression or a click, then the custom event exactly when custom events are enabled.
   */
  function DispatchEvent(s: Settings, parse: UriParser, t: EventType, p: Payload): (r: seq<PropertyEvent>)
    ensures |r| == (if s.onSiteAds && ShouldBeDispatchedAsOnSiteAd(t) then 1 else 0) + (if s.customEvents then 1 else 0)
    ensures s.onSiteAds && ShouldBeDispatchedAsOnSiteAd(t) ==> r[0] == BuildPianoOnSiteAdsEvent(s, parse, t, p).value
    ensures BuildPianoCustomEvent(s, parse, t, p) in r <==> s.customEvents
  {
    var onSite := if s.onSiteAds && ShouldBeDispatchedAsOnSiteAd(t) then
      match BuildPianoOnSiteAdsEvent(s, parse, t, p)
      case Some(e) => [e]
      case None => []
    else [];
    var custom := if s.customEvents then [BuildPianoCustomEvent(s, parse, t, p)] else [];
    // The custom event is never named like an on-site-ad event, so it is not among them.
    assert forall e | e in onSite :: e.name != BuildPianoCustomEvent(s, parse, t, p).name;
    onSite + custom
  }

  // ---------------------------------------------------------------------------
  // Against the Java builders
  // ---------------------------------------------------------------------------

  /** A value with blank text counts as absent: what `isNotBlank` filters out. */
  function DropBlank(o: Option<string>): (r: Option<string>)
    ensures Present(r) <==> NotBlank(o)
    ensures Present(r) ==> r == o
  {
    if o.Some? && IsBlank(o.value) then None else o
  }

  /** Text that is there and not empty, yet blank: the one case where the builders disagree. */
  predicate WhitespaceOnly(o: Option<string>) {
    o.Some? && o.value != "" && IsBlank(o.value)
  }

  /**
   * The Kotlin custom properties are exactly the entries the Java builder puts in its map once
   * blank optional values are treated as absent.
   */
  lemma CustomPropertiesAreJavaDataWithoutBlanks(
    campaign: string, medium: string, source: string,
    trackingId: Option<string>, content: Option<string>, webViewId: Option<string>, messaging: bool)
    ensures CustomEventProperties(campaign, medium, source, trackingId, content, webViewId, messaging)
         == AsProperties(JavaEventData.CustomEventData(
              campaign, medium, source, DropBlank(trackingId), DropBlank(content), DropBlank(webViewId), messaging))
  {
    var baseData := JavaEventData.BaseData(campaign, medium, source);
    var baseProps := BaseProperties(campaign, medium, source);
    BaseDataAsProperties(campaign, medium, source);
    var d1 := JavaEventData.PutIfNotEmpty(baseData, KeyTrackingId, DropBlank(trackingId));
    var d2 := JavaEventData.PutIfNotEmpty(d1, KeyContent, DropBlank(content));
    var p1 := AddIfNotBlank(baseProps, KeyTrackingId, trackingId);
    var p2 := AddIfNotBlank(p1, KeyContent, content);
    CustomKeysDistinct();
    PutMatchesAdd(baseData, KeyTrackingId, trackingId);
    PutMatchesAdd(d1, KeyContent, content);
    if messaging {
      PutMatchesAdd(d2, KeyWebViewAnalyticsId, webViewId);
    }
    assert CustomEventProperties(campaign, medium, source, trackingId, content, webViewId, messaging)
        == if messaging then AddIfNotBlank(p2, KeyWebViewAnalyticsId, webViewId) else p2;
    JavaEventData.CustomEventDataInOrder(
      campaign, medium, source, DropBlank(trackingId), DropBlank(content), DropBlank(webViewId), messaging);
  }

  /** The four base entries of the Java map are the four base properties. */
  lemma BaseDataAsProperties(campaign: string, medium: string, source: string)
    ensures AsProperties(JavaEventData.BaseData(campaign, medium, source)) == BaseProperties(campaign, medium, source)
    ensures CustomBaseKeys == JavaEventData.BaseData(campaign, medium, source).Keys
  {
  }

  /**
   * Each name of a custom event carries exactly one value, so the membership clauses of
   * `CustomEventProperties` fix the value of every property it holds.
   */
  lemma CustomPropertiesOneValuePerName(
    campaign: string, medium: string, source: string,
    trackingId: Option<string>, content: Option<string>, webViewId: Option<string>, messaging: bool)
    ensures UniqueNames(CustomEventProperties(campaign, medium, source, trackingId, content, webViewId, messaging))
  {
    CustomPropertiesAreJavaDataWithoutBlanks(campaign, medium, source, trackingId, content, webViewId, messaging);
  }

  /** One optional entry: the Java put of the de-blanked value is the Kotlin add of the value. */
  lemma PutMatchesAdd(data: map<string, Value>, key: string, value: Option<string>)
    requires key !in data
    ensures AsProperties(JavaEventData.PutIfNotEmpty(data, key, DropBlank(value)))
         == AddIfNotBlank(AsProperties(data), key, value)
  {
    if NotBlank(value) {
      var d := data[key := Str(value.value)];
      assert JavaEventData.PutIfNotEmpty(data, key, DropBlank(value)) == d;
      assert AsProperties(d) == AsProperties(data) + {Property(key, Str(value.value))};
    }
  }

  /**
   * The on-site-ad events of the Kotlin and the legacy Java dispatcher carry the same entries.
   */
  lemma OnSiteMatchesLegacy(s: Settings, parse: UriParser, t: EventType, p: Payload)
    ensures var k := BuildPianoOnSiteAdsEvent(s, parse, t, p);
      var j := LegacyDispatcher.BuildPianoOnSiteAdsEvent(s, parse, t, p);
      && (k.Some? <==> j.Some?)
      && (k.Some? ==> k.value.name == j.value.name && k.value.properties == AsProperties(j.value.data))
  {
    if ShouldBeDispatchedAsOnSiteAd(t) {
      OnSitePropertiesAreData(
        Source(parse, s.utmTracking, p), Campaign(parse, s.utmTracking, p), Medium(parse, s.utmTracking, t, p));
    }
  }

  /** The four on-site properties are the entries of the Java on-site map. */
  lemma OnSitePropertiesAreData(advertiser: string, campaign: string, format: string)
    ensures OnSiteProperties(advertiser, campaign, format) == AsProperties(JavaEventData.OnSiteData(advertiser, campaign, format))
  {
  }

  /**
   * Without whitespace-only optional values, the Kotlin custom event carries exactly the entries
   * of the legacy Java one.
   */
  lemma CustomMatchesLegacyWithoutBlanks(s: Settings, parse: UriParser, t: EventType, p: Payload)
    requires !WhitespaceOnly(p.trackingId) && !WhitespaceOnly(p.webViewAnalyticsId)
    requires !WhitespaceOnly(Content(parse, s.utmTracking, p))
    ensures var k := BuildPianoCustomEvent(s, parse, t, p);
      var j := LegacyDispatcher.BuildPianoCustomEvent(s, parse, t, p);
      k.name == j.name && k.properties == AsProperties(j.data)
  {
    var campaign := Campaign(parse, s.utmTracking, p);
    var medium := Medium(parse, s.utmTracking, t, p);
    var source := Source(parse, s.utmTracking, p);
    var content := Content(parse, s.utmTracking, p);
    CustomPropertiesAreJavaDataWithoutBlanks(
      campaign, medium, source, p.trackingId, content, p.webViewAnalyticsId, IsMessagingEvent(t));
    JavaEventData.CustomEventDataIgnoresEmpty(campaign, medium, source,
      DropBlank(p.trackingId), DropBlank(content), DropBlank(p.webViewAnalyticsId),
      p.trackingId, content, p.webViewAnalyticsId, IsMessagingEvent(t));
  }

  /**
   * Where the two generations part: a whitespace-only tracking id, the one case the previous
   * lemma excludes, is sent by the Java builder and dropped by the Kotlin one.
   */
  lemma BlankTrackingIdDiverges(s: Settings, parse: UriParser, t: EventType, p: Payload)
    requires WhitespaceOnly(p.trackingId)
    ensures LegacyDispatcher.BuildPianoCustomEvent(s, parse, t, p).data[KeyTrackingId] == Str(p.trackingId.value)
    ensures KeyTrackingId !in Names(BuildPianoCustomEvent(s, parse, t, p).properties)
  {
  }
}

/**
 * How both Java dispatchers (PianoDispatcher.java and LegacyPianoDispatcher.java) fill the
 * `HashMap`s of their events: the four fixed entries of an on-site-ad event, and for a custom
 * event the four base entries first, then each optional entry only when its value is present and
 * not empty.
 */
module JavaEventData {
  import opened Options
  import opened FieldDerivation
  import opened AbstractDispatcher

  /** Adds `key := value` when `value` is present and not empty. */
  function PutIfNotEmpty(data: map<string, Value>, key: string, value: Option<string>): (r: map<string, Value>)
    ensures key in r <==> key in data || Present(value)
    ensures Present(value) ==> r[key] == Str(value.value)
    ensures forall k | k in data && k != key :: k in r && r[k] == data[k]
    ensures r.Keys == data.Keys + (if Present(value) then {key} else {})
    ensures !Present(value) ==> r == data
  {
    if value.Some? && value.value != "" then data[key := Str(value.value)] else data
  }

  /** The data map of an on-site-ad event: the publisher type, the advertiser, the campaign and the format. */
  function OnSiteData(advertiser: string, campaign: string, format: string): (r: map<string, Value>)
    ensures r.Keys == OnSiteKeys
    ensures r[OnSiteType] == Str(OnSiteTypePublisher) && r[OnSiteAdvertiser] == Str(advertiser)
    ensures r[OnSiteCampaign] == Str(campaign) && r[OnSiteFormat] == Str(format)
  {
    map[
      OnSiteType := Str(OnSiteTypePublisher),
      OnSiteAdvertiser := Str(advertiser),
      OnSiteCampaign := Str(campaign),
      OnSiteFormat := Str(format)]
  }

  /** The four entries every custom event carries. */
  function BaseData(campaign: string, medium: string, source: string): map<string, Value> {
    map[KeyCampaign := Str(campaign), KeyMedium := Str(medium), KeySource := Str(source), KeySourceForce := Bool(true)]
  }

  /**
   * The data map of a custom event, from its derived fields: the four base entries, then the
   * optional ones in the order `buildPianoCustomEvent` puts them.
   */
  function CustomEventData(
    campaign: string, medium: string, source: string,
    trackingId: Option<string>, content: Option<string>, webViewId: Option<string>, messaging: bool)
    : (r: map<string, Value>)
    ensures CustomBaseKeys <= r.Keys <= CustomBaseKeys + CustomOptionalKeys
    ensures r[KeyCampaign] == Str(campaign) && r[KeyMedium] == Str(medium)
    ensures r[KeySource] == Str(source) && r[KeySourceForce] == Bool(true)
    ensures KeyTrackingId in r <==> Present(trackingId)
    ensures KeyTrackingId in r ==> r[KeyTrackingId] == Str(trackingId.value)
    ensures KeyContent in r <==> Present(content)
    ensures KeyContent in r ==> r[KeyContent] == Str(content.value)
    ensures KeyWebViewAnalyticsId in r <==> messaging && Present(webViewId)
    ensures KeyWebViewAnalyticsId in r ==> r[KeyWebViewAnalyticsId] == Str(webViewId.value)
  {
    CustomKeysDistinct();
    var base := BaseData(campaign, medium, source);
    assert base.Keys == CustomBaseKeys;
    var withTracking := PutIfNotEmpty(base, KeyTrackingId, trackingId);
    var withContent := PutIfNotEmpty(withTracking, KeyContent, content);
    assert withContent.Keys == CustomBaseKeys
      + (if Present(trackingId) then {KeyTrackingId} else {})
      + (if Present(content) then {KeyContent} else {});
    if messaging then PutIfNotEmpty(withContent, KeyWebViewAnalyticsId, webViewId) else withContent
  }

  /** The map is built by three puts in order onto the base entries. */
  lemma CustomEventDataInOrder(
    campaign: string, medium: string, source: string,
    trackingId: Option<string>, content: Option<string>, webViewId: Option<string>, messaging: bool)
    ensures CustomEventData(campaign, medium, source, trackingId, content, webViewId, messaging)
         == var withContent := PutIfNotEmpty(
              PutIfNotEmpty(BaseData(campaign, medium, source), KeyTrackingId, trackingId), KeyContent, content);
            if messaging then PutIfNotEmpty(withContent, KeyWebViewAnalyticsId, webViewId) else withContent
  {
  }


  /** Two optional values a builder cannot tell apart: both absent or empty, or the same text. */
  predicate SamePresent(a: Option<string>, b: Option<string>) {
    (Present(a) <==> Present(b)) && (Present(a) ==> a == b)
  }

  /**
   * The map depends on each optional value only through whether it is present and not empty:
   * an absent value and an empty one give the same event.
   */
  lemma CustomEventDataIgnoresEmpty(
    campaign: string, medium: string, source: string,
    trackingId: Option<string>, content: Option<string>, webViewId: Option<string>,
    trackingId': Option<string>, content': Option<string>, webViewId': Option<string>, messaging: bool)
    requires SamePresent(trackingId, trackingId')
    requires SamePresent(content, content')
    requires SamePresent(webViewId, webViewId')
    ensures CustomEventData(campaign, medium, source, trackingId, content, webViewId, messaging)
         == CustomEventData(campaign, medium, source, trackingId', content', webViewId', messaging)
  {
    var a := CustomEventData(campaign, medium, source, trackingId, content, webViewId, messaging);
    var b := CustomEventData(campaign, medium, source, trackingId', content', webViewId', messaging);
    assert a.Keys == b.Keys;
  }
}

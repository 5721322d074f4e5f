/**
 * Concrete occurrences the repository's unit tests pin down, stated as lemmas over the model.
 * A deep link is given by what the URI library parses its trimmed text into.
 */
module Scenarios {
  import opened Options
  import opened JavaStrings
  import opened BatchEvents
  import opened TagResolver
  import opened AbstractDispatcher
  import FieldDerivation
  import JavaEventData
  import LegacyDispatcher
  import KotlinDispatcher

  /** A payload with only a tracking id: no deep link, nothing custom. */
  function TrackingOnly(trackingId: string): Payload {
    Payload(Some(trackingId), None, map[], None)
  }

  /** The custom event of an in-app message shown for a payload carrying only a tracking id. */
  lemma CustomEventInApp(parse: UriParser)
    ensures LegacyDispatcher.BuildPianoCustomEvent(DefaultSettings, parse, MessagingShow, TrackingOnly("campaign_label"))
         == Event("batch_in_app_show", map[
              "src_campaign" := Str("campaign_label"),
              "src_source" := Str("Batch"),
              "src_force" := Bool(true),
              "src_medium" := Str("in-app"),
              "batch_tracking_id" := Str("campaign_label")])
  {
    var p := TrackingOnly("campaign_label");
    assert FieldDerivation.Campaign(parse, true, p) == "campaign_label";
    assert FieldDerivation.Medium(parse, true, MessagingShow, p) == "in-app";
    assert FieldDerivation.Source(parse, true, p) == "Batch";
    assert FieldDerivation.Content(parse, true, p) == None;
    DataWithTracking("campaign_label", "in-app", "Batch", "campaign_label", true);
  }

  /** The same for a notification display: only the medium changes, to `push`. */
  lemma CustomEventPush(parse: UriParser)
    ensures LegacyDispatcher.BuildPianoCustomEvent(DefaultSettings, parse, NotificationDisplay, TrackingOnly("campaign_label"))
         == Event("batch_notification_display", map[
              "src_campaign" := Str("campaign_label"),
              "src_source" := Str("Batch"),
              "src_force" := Bool(true),
              "src_medium" := Str("push"),
              "batch_tracking_id" := Str("campaign_label")])
  {
    var p := TrackingOnly("campaign_label");
    assert FieldDerivation.Campaign(parse, true, p) == "campaign_label";
    assert FieldDerivation.Medium(parse, true, NotificationDisplay, p) == "push";
    assert FieldDerivation.Source(parse, true, p) == "Batch";
    assert FieldDerivation.Content(parse, true, p) == None;
    DataWithTracking("campaign_label", "push", "Batch", "campaign_label", false);
  }

  /** The four `utm_*` pairs of the Firebase-style links of the tests. */
  const FirebasePairs: seq<(string, string)> := [
    ("utm_campaign", "campaign_label"),
    ("utm_medium", "email"),
    ("utm_source", "firebase"),
    ("utm_content", "content")]

  /** The custom event a Firebase-style data set gives for a notification display. */
  const FirebaseEvent: Event := Event("batch_notification_display", map[
    "src_campaign" := Str("campaign_label"),
    "src_source" := Str("firebase"),
    "src_force" := Bool(true),
    "src_medium" := Str("email"),
    "src_content" := Str("content"),
    "batch_tracking_id" := Str("batchTrackingId")])

  /** A deep link whose URI has no fragment: every tag comes from its query. */
  lemma QueryOnlyLink(parse: UriParser, link: string, query: seq<(string, string)>, tagName: string)
    requires parse(Trim(link)) == Hierarchical(query, None)
    ensures TagFromDeeplink(parse, Some(link), tagName) == QueryParameter(query, Lower(tagName))
  {
  }

  /** One step of the query loop: the first parameter either matches or is passed over. */
  lemma QueryParameterStep(query: seq<(string, string)>, name: string)
    requires |query| > 0
    ensures QueryParameter(query, name)
         == if EqualsIgnoreCase(name, query[0].0) then Some(query[0].1) else QueryParameter(query[1..], name)
  {
  }

  const AtQuery: seq<(string, string)> := [("at_campaign", "campaign_label"), ("at_medium", "email")]

  lemma AtQueryCampaign()
    ensures QueryParameter(AtQuery, Lower("at_campaign")) == Some("campaign_label")
  {
    assert Lower("at_campaign") == "at_campaign";
    QueryParameterStep(AtQuery, "at_campaign");
  }

  lemma AtQueryMedium()
    ensures QueryParameter(AtQuery, Lower("at_medium")) == Some("email")
  {
    assert Lower("at_medium") == "at_medium";
    QueryParameterStep(AtQuery, "at_medium");
    QueryParameterStep(AtQuery[1..], "at_medium");
  }

  lemma AtQueryNoSource()
    ensures QueryParameter(AtQuery, Lower("utm_source")) == None
  {
    assert Lower("utm_source") == "utm_source";
    QueryParameterStep(AtQuery, "utm_source");
    QueryParameterStep(AtQuery[1..], "utm_source");
    assert AtQuery[1..][1..] == [];
  }

  lemma AtQueryNoContent()
    ensures QueryParameter(AtQuery, Lower("utm_content")) == None
  {
    assert Lower("utm_content") == "utm_content";
    assert !CharsEqualIgnoreCase("utm_content"[0], "at_campaign"[0]);
    QueryParameterStep(AtQuery, "utm_content");
    QueryParameterStep(AtQuery[1..], "utm_content");
    assert AtQuery[1..][1..] == [];
  }

  /** The tags the `at_*` deep link of the tests carries. */
  lemma AtDeeplinkTags(parse: UriParser, link: string)
    requires parse(Trim(link)) == Hierarchical(AtQuery, None)
    ensures var p := Payload(Some("batchTrackingId"), Some(link), map[], None);
      && TagFromPayload(parse, p, "at_campaign") == Some("campaign_label")
      && TagFromPayload(parse, p, "at_medium") == Some("email")
      && TagFromPayload(parse, p, "utm_source") == None
      && TagFromPayload(parse, p, "utm_content") == None
  {
    QueryOnlyLink(parse, link, AtQuery, "at_campaign");
    QueryOnlyLink(parse, link, AtQuery, "at_medium");
    QueryOnlyLink(parse, link, AtQuery, "utm_source");
    QueryOnlyLink(parse, link, AtQuery, "utm_content");
    AtQueryCampaign();
    AtQueryMedium();
    AtQueryNoSource();
    AtQueryNoContent();
  }

  /** The custom event of a notification display whose payload yields the `at_*` tags of the tests. */
  lemma CustomEventOfAtTags(parse: UriParser, p: Payload)
    requires p.trackingId == Some("batchTrackingId") && p.webViewAnalyticsId == None
    requires TagFromPayload(parse, p, "at_campaign") == Some("campaign_label")
    requires TagFromPayload(parse, p, "at_medium") == Some("email")
    requires TagFromPayload(parse, p, "utm_source") == None
    requires TagFromPayload(parse, p, "utm_content") == None
    ensures LegacyDispatcher.BuildPianoCustomEvent(DefaultSettings, parse, NotificationDisplay, p)
         == Event("batch_notification_display", map[
              "src_campaign" := Str("campaign_label"),
              "src_source" := Str("Batch"),
              "src_force" := Bool(true),
              "src_medium" := Str("email"),
              "batch_tracking_id" := Str("batchTrackingId")])
  {
    assert FieldDerivation.Campaign(parse, true, p) == "campaign_label";
    assert FieldDerivation.Medium(parse, true, NotificationDisplay, p) == "email";
    assert FieldDerivation.Source(parse, true, p) == "Batch";
    assert FieldDerivation.Content(parse, true, p) == None;
    DataWithTracking("campaign_label", "email", "Batch", "batchTrackingId", false);
  }

  /** `at_*` tags in the query of a deep link give campaign and medium. */
  lemma CustomEventFromDeeplinkAt(parse: UriParser, link: string)
    requires parse(Trim(link)) == Hierarchical(AtQuery, None)
    ensures LegacyDispatcher.BuildPianoCustomEvent(DefaultSettings, parse, NotificationDisplay,
              Payload(Some("batchTrackingId"), Some(link), map[], None))
         == Event("batch_notification_display", map[
              "src_campaign" := Str("campaign_label"),
              "src_source" := Str("Batch"),
              "src_force" := Bool(true),
              "src_medium" := Str("email"),
              "batch_tracking_id" := Str("batchTrackingId")])
  {
    AtDeeplinkTags(parse, link);
    CustomEventOfAtTags(parse, Payload(Some("batchTrackingId"), Some(link), map[], None));
  }

  /** The same `at_*` tags carried by the custom payload instead give the same event. */
  lemma CustomEventFromPayloadAt(parse: UriParser)
    ensures LegacyDispatcher.BuildPianoCustomEvent(DefaultSettings, parse, NotificationDisplay,
              Payload(Some("batchTrackingId"), None, map["at_campaign" := "campaign_label", "at_medium" := "email"], None))
         == Event("batch_notification_display", map[
              "src_campaign" := Str("campaign_label"),
              "src_source" := Str("Batch"),
              "src_force" := Bool(true),
              "src_medium" := Str("email"),
              "batch_tracking_id" := Str("batchTrackingId")])
  {
    CustomEventOfAtTags(parse,
      Payload(Some("batchTrackingId"), None, map["at_campaign" := "campaign_label", "at_medium" := "email"], None));
  }

  /** The custom event of a notification display whose payload yields the `utm_*` tags of the tests. */
  lemma CustomEventOfFirebaseTags(parse: UriParser, p: Payload)
    requires p.trackingId == Some("batchTrackingId") && p.webViewAnalyticsId == None
    requires TagFromPayload(parse, p, "at_campaign") == None
    requires TagFromPayload(parse, p, "at_medium") == None
    requires TagFromPayload(parse, p, "utm_campaign") == Some("campaign_label")
    requires TagFromPayload(parse, p, "utm_medium") == Some("email")
    requires TagFromPayload(parse, p, "utm_source") == Some("firebase")
    requires TagFromPayload(parse, p, "utm_content") == Some("content")
    ensures LegacyDispatcher.BuildPianoCustomEvent(DefaultSettings, parse, NotificationDisplay, p) == FirebaseEvent
  {
    assert FieldDerivation.Campaign(parse, true, p) == "campaign_label";
    assert FieldDerivation.Medium(parse, true, NotificationDisplay, p) == "email";
    assert FieldDerivation.Source(parse, true, p) == "firebase";
    assert FieldDerivation.Content(parse, true, p) == Some("content");
    DataWithTrackingAndContent("campaign_label", "email", "firebase", "batchTrackingId", "content");
  }

  /** The Java data map of a custom event whose only optional entry is the tracking id. */
  lemma DataWithTracking(campaign: string, medium: string, source: string, trackingId: string, messaging: bool)
    requires trackingId != ""
    ensures JavaEventData.CustomEventData(campaign, medium, source, Some(trackingId), None, None, messaging)
         == map[KeyCampaign := Str(campaign), KeySource := Str(source), KeySourceForce := Bool(true),
                KeyMedium := Str(medium), KeyTrackingId := Str(trackingId)]
  {
  }

  /** The Java data map of a custom event that carries a tracking id and a content, outside in-app messages. */
  lemma DataWithTrackingAndContent(campaign: string, medium: string, source: string, trackingId: string, content: string)
    requires trackingId != "" && content != ""
    ensures JavaEventData.CustomEventData(campaign, medium, source, Some(trackingId), Some(content), None, false)
         == map[KeyCampaign := Str(campaign), KeySource := Str(source), KeySourceForce := Bool(true),
                KeyMedium := Str(medium), KeyContent := Str(content), KeyTrackingId := Str(trackingId)]
  {
  }

  /** No parameter of the Firebase query is an `at_*` tag. */
  lemma FirebaseQueryNoAt(name: string)
    requires name == "at_campaign" || name == "at_medium"
    ensures QueryParameter(FirebasePairs, Lower(name)) == None
  {
    assert Lower(name) == name;
    forall j | 0 <= j < |FirebasePairs| ensures !EqualsIgnoreCase(name, FirebasePairs[j].0) {
      assert !CharsEqualIgnoreCase(name[0], FirebasePairs[j].0[0]);
    }
  }

  /** Each `utm_*` tag of the Firebase query finds its own parameter. */
  lemma FirebaseQueryUtm()
    ensures QueryParameter(FirebasePairs, Lower("utm_campaign")) == Some("campaign_label")
    ensures QueryParameter(FirebasePairs, Lower("utm_medium")) == Some("email")
    ensures QueryParameter(FirebasePairs, Lower("utm_source")) == Some("firebase")
    ensures QueryParameter(FirebasePairs, Lower("utm_content")) == Some("content")
  {
    FirebaseQueryCampaign();
    FirebaseQueryMedium();
    FirebaseQuerySource();
    FirebaseQueryContent();
  }

  lemma FirebaseQueryCampaign()
    ensures QueryParameter(FirebasePairs, Lower("utm_campaign")) == Some("campaign_label")
  {
    assert Lower("utm_campaign") == "utm_campaign";
    assert FirstMatchAt(FirebasePairs, "utm_campaign", 0);
    QueryParameterFirstMatch(FirebasePairs, "utm_campaign", 0);
  }

  lemma FirebaseQueryMedium()
    ensures QueryParameter(FirebasePairs, Lower("utm_medium")) == Some("email")
  {
    assert Lower("utm_medium") == "utm_medium";
    assert FirstMatchAt(FirebasePairs, "utm_medium", 1);
    QueryParameterFirstMatch(FirebasePairs, "utm_medium", 1);
  }

  lemma FirebaseQuerySource()
    ensures QueryParameter(FirebasePairs, Lower("utm_source")) == Some("firebase")
  {
    assert Lower("utm_source") == "utm_source";
    assert !CharsEqualIgnoreCase("utm_source"[4], "utm_medium"[4]);
    assert FirstMatchAt(FirebasePairs, "utm_source", 2);
    QueryParameterFirstMatch(FirebasePairs, "utm_source", 2);
  }

  lemma FirebaseQueryContent()
    ensures QueryParameter(FirebasePairs, Lower("utm_content")) == Some("content")
  {
    assert Lower("utm_content") == "utm_content";
    assert forall j | 0 <= j < 3 :: |FirebasePairs[j].0| != |"utm_content"|;
    assert FirstMatchAt(FirebasePairs, "utm_content", 3);
    QueryParameterFirstMatch(FirebasePairs, "utm_content", 3);
  }

  /** The tags the Firebase query link of the tests carries. */
  lemma FirebaseDeeplinkTags(parse: UriParser, link: string)
    requires parse(Trim(link)) == Hierarchical(FirebasePairs, None)
    ensures var p := Payload(Some("batchTrackingId"), Some(link), map[], None);
      && TagFromPayload(parse, p, "at_campaign") == None
      && TagFromPayload(parse, p, "at_medium") == None
      && TagFromPayload(parse, p, "utm_campaign") == Some("campaign_label")
      && TagFromPayload(parse, p, "utm_medium") == Some("email")
      && TagFromPayload(parse, p, "utm_source") == Some("firebase")
      && TagFromPayload(parse, p, "utm_content") == Some("content")
  {
    QueryOnlyLink(parse, link, FirebasePairs, "at_campaign");
    QueryOnlyLink(parse, link, FirebasePairs, "at_medium");
    QueryOnlyLink(parse, link, FirebasePairs, "utm_campaign");
    QueryOnlyLink(parse, link, FirebasePairs, "utm_medium");
    QueryOnlyLink(parse, link, FirebasePairs, "utm_source");
    QueryOnlyLink(parse, link, FirebasePairs, "utm_content");
    FirebaseQueryNoAt("at_campaign");
    FirebaseQueryNoAt("at_medium");
    FirebaseQueryUtm();
  }

  /** `utm_*` parameters in the query of a deep link give campaign, medium, source and content. */
  lemma CustomEventFromDeeplinkFirebase(parse: UriParser, link: string)
    requires parse(Trim(link)) == Hierarchical(FirebasePairs, None)
    ensures LegacyDispatcher.BuildPianoCustomEvent(DefaultSettings, parse, NotificationDisplay,
              Payload(Some("batchTrackingId"), Some(link), map[], None)) == FirebaseEvent
  {
    FirebaseDeeplinkTags(parse, link);
    CustomEventOfFirebaseTags(parse, Payload(Some("batchTrackingId"), Some(link), map[], None));
  }

  /** The `utm_*` entries carried by the custom payload instead give the same event. */
  lemma CustomEventFromPayloadFirebase(parse: UriParser)
    ensures var custom := map["utm_campaign" := "campaign_label", "utm_medium" := "email",
                              "utm_source" := "firebase", "utm_content" := "content"];
      LegacyDispatcher.BuildPianoCustomEvent(DefaultSettings, parse, NotificationDisplay,
        Payload(Some("batchTrackingId"), None, custom, None)) == FirebaseEvent
  {
    var custom := map["utm_campaign" := "campaign_label", "utm_medium" := "email",
                      "utm_source" := "firebase", "utm_content" := "content"];
    CustomEventOfFirebaseTags(parse, Payload(Some("batchTrackingId"), None, custom, None));
  }

  /**
   * A deep link whose URI has no query and whose fragment is written from `key=value` pairs:
   * every tag is the value of the last pair whose key is the tag ignoring case.
   */
  lemma EncodedFragmentLink(parse: UriParser, link: string, pairs: seq<(string, string)>, tagName: string)
    requires |pairs| >= 1
    requires forall i | 0 <= i < |pairs| :: EncodablePair(pairs[i])
    requires parse(Trim(link)) == Hierarchical([], Some(EncodeFragment(pairs)))
    ensures TagFromDeeplink(parse, Some(link), tagName)
         == if Lower(tagName) in PairsToMap(pairs) then Some(PairsToMap(pairs)[Lower(tagName)]) else None
  {
    FragmentRoundTrip(pairs);
    EncodeFragmentNotEmpty(pairs);
  }

  /** A fragment written from at least one pair is not empty. */
  lemma EncodeFragmentNotEmpty(pairs: seq<(string, string)>)
    requires |pairs| >= 1
    ensures EncodeFragment(pairs) != ""
  {
    var pieces := Pieces(pairs);
    assert pieces[0] == pairs[0].0 + "=" + pairs[0].1;
    if |pairs| > 1 {
      assert EncodeFragment(pairs) == pieces[0] + ['&'] + Join(pieces[1..], '&');
    }
  }

  /** An opaque `mailto:` link is not hierarchical, so its `utm_campaign` is never read. */
  lemma CampaignFromOpaqueLink(parse: UriParser, link: string)
    requires parse(Trim(link)) == NonHierarchical
    ensures FieldDerivation.Campaign(parse, true, Payload(None, Some(link), map[], None)) == "batch-default-campaign"
  {
  }

  /** An `at_campaign` of the custom payload wins over the one of the deep link. */
  lemma CampaignFromCustomPayload(parse: UriParser, link: string)
    requires parse(Trim(link)) == Hierarchical([("at_campaign", "from_deeplink")], None)
    ensures FieldDerivation.Campaign(parse, true, Payload(None, Some(link), map["at_campaign" := "from_payload"], None))
         == "from_payload"
  {
  }

  /** The custom payload of the UTM test: the four `utm_*` entries. */
  const UtmCustom: map<string, string> := map[
    "utm_campaign" := "campaign_label", "utm_medium" := "email",
    "utm_source" := "firebase", "utm_content" := "content"]

  /** With UTM tracking off, the `utm_*` entries of the custom payload are all ignored. */
  lemma CustomEventUtmDisabled(parse: UriParser)
    ensures LegacyDispatcher.BuildPianoCustomEvent(EnableUTMTracking(DefaultSettings, false), parse, NotificationDisplay,
              Payload(Some("batchTrackingId"), None, UtmCustom, None))
         == Event("batch_notification_display", map[
              "src_campaign" := Str("batchTrackingId"),
              "src_source" := Str("Batch"),
              "src_force" := Bool(true),
              "src_medium" := Str("push"),
              "batch_tracking_id" := Str("batchTrackingId")])
  {
    var p := Payload(Some("batchTrackingId"), None, UtmCustom, None);
    assert FieldDerivation.Campaign(parse, false, p) == "batchTrackingId";
    assert FieldDerivation.Medium(parse, false, NotificationDisplay, p) == "push";
    assert FieldDerivation.Source(parse, false, p) == "Batch";
    assert FieldDerivation.Content(parse, false, p) == None;
    DataWithTracking("batchTrackingId", "push", "Batch", "batchTrackingId", false);
  }

  /** The same with the Kotlin dispatcher, whose event carries properties. */
  lemma KotlinCustomEventUtmDisabled(parse: UriParser)
    ensures KotlinDispatcher.BuildPianoCustomEvent(EnableUTMTracking(DefaultSettings, false), parse, NotificationDisplay,
              Payload(Some("batchTrackingId"), None, UtmCustom, None))
         == KotlinDispatcher.PropertyEvent("batch_notification_display", {
              KotlinDispatcher.Property("src_campaign", Str("batchTrackingId")),
              KotlinDispatcher.Property("src_source", Str("Batch")),
              KotlinDispatcher.Property("src_force", Bool(true)),
              KotlinDispatcher.Property("src_medium", Str("push")),
              KotlinDispatcher.Property("batch_tracking_id", Str("batchTrackingId"))})
  {
    var p := Payload(Some("batchTrackingId"), None, UtmCustom, None);
    assert FieldDerivation.Campaign(parse, false, p) == "batchTrackingId";
    assert FieldDerivation.Medium(parse, false, NotificationDisplay, p) == "push";
    assert FieldDerivation.Source(parse, false, p) == "Batch";
    assert FieldDerivation.Content(parse, false, p) == None;
    assert !IsBlank("batchTrackingId") by {
      assert !IsWhitespace("batchTrackingId"[0]);
    }
    PropertiesWithTracking("batchTrackingId", "push", "Batch", "batchTrackingId");
    assert KotlinDispatcher.BuildPianoCustomEvent(EnableUTMTracking(DefaultSettings, false), parse, NotificationDisplay, p)
        == KotlinDispatcher.PropertyEvent("batch_notification_display", KotlinDispatcher.CustomEventProperties(
             "batchTrackingId", "push", "Batch", Some("batchTrackingId"), None, None, false));
  }

  /** The Kotlin properties of a custom event whose only optional property is the tracking id. */
  lemma PropertiesWithTracking(campaign: string, medium: string, source: string, trackingId: string)
    requires !IsBlank(trackingId)
    ensures KotlinDispatcher.CustomEventProperties(campaign, medium, source, Some(trackingId), None, None, false)
         == {KotlinDispatcher.Property(KeyCampaign, Str(campaign)), KotlinDispatcher.Property(KeySource, Str(source)),
             KotlinDispatcher.Property(KeySourceForce, Bool(true)), KotlinDispatcher.Property(KeyMedium, Str(medium)),
             KotlinDispatcher.Property(KeyTrackingId, Str(trackingId))}
  {
  }

  /** The on-site-ad event of a notification display: an impression, formatted `push`. */
  lemma OnSiteImpressionPush(parse: UriParser)
    ensures LegacyDispatcher.BuildPianoOnSiteAdsEvent(DefaultSettings, parse, NotificationDisplay, TrackingOnly("campaign_label"))
         == Some(Event("publisher.impression", map[
              "onsitead_type" := Str("Publisher"),
              "onsitead_advertiser" := Str("Batch"),
              "onsitead_campaign" := Str("campaign_label"),
              "onsitead_format" := Str("push")]))
  {
  }

  /** The on-site-ad event of an in-app click: a click, formatted `in-app`. */
  lemma OnSiteClickInApp(parse: UriParser)
    ensures LegacyDispatcher.BuildPianoOnSiteAdsEvent(DefaultSettings, parse, MessagingClick, TrackingOnly("campaign_label"))
         == Some(Event("publisher.click", map[
              "onsitead_type" := Str("Publisher"),
              "onsitead_advertiser" := Str("Batch"),
              "onsitead_campaign" := Str("campaign_label"),
              "onsitead_format" := Str("in-app")]))
  {
  }

  /** The Kotlin on-site-ad event of a notification display carries the same four values. */
  lemma KotlinOnSiteImpressionPush(parse: UriParser)
    ensures KotlinDispatcher.BuildPianoOnSiteAdsEvent(DefaultSettings, parse, NotificationDisplay, TrackingOnly("campaign_label"))
         == Some(KotlinDispatcher.PropertyEvent("publisher.impression", {
              KotlinDispatcher.Property("onsitead_type", Str("Publisher")),
              KotlinDispatcher.Property("onsitead_advertiser", Str("Batch")),
              KotlinDispatcher.Property("onsitead_campaign", Str("campaign_label")),
              KotlinDispatcher.Property("onsitead_format", Str("push"))}))
  {
  }

  /** With custom events off, an in-app click is one send: the `publisher.click` event. */
  lemma DispatchClickWithoutCustomEvents(parse: UriParser)
    ensures LegacyDispatcher.DispatchEvent(DefaultSettings, parse, MessagingClick, TrackingOnly("campaign_label"))
         == [Event("publisher.click", map[
              "onsitead_type" := Str("Publisher"),
              "onsitead_advertiser" := Str("Batch"),
              "onsitead_campaign" := Str("campaign_label"),
              "onsitead_format" := Str("in-app")])]
  {
    OnSiteClickInApp(parse);
  }

  /** With custom events on, an in-app show is two sends: the impression, then the custom event. */
  lemma DispatchShowWithCustomEvents(parse: UriParser)
    ensures LegacyDispatcher.DispatchEvent(EnableBatchCustomEvents(DefaultSettings, true), parse, MessagingShow,
              TrackingOnly("campaign_label"))
         == [Event("publisher.impression", map[
              "onsitead_type" := Str("Publisher"),
              "onsitead_advertiser" := Str("Batch"),
              "onsitead_campaign" := Str("campaign_label"),
              "onsitead_format" := Str("in-app")]),
            Event("batch_in_app_show", map[
              "src_campaign" := Str("campaign_label"),
              "src_source" := Str("Batch"),
              "src_force" := Bool(true),
              "src_medium" := Str("in-app"),
              "batch_tracking_id" := Str("campaign_label")])]
  {
    var s := EnableBatchCustomEvents(DefaultSettings, true);
    var p := TrackingOnly("campaign_label");
    assert LegacyDispatcher.BuildPianoOnSiteAdsEvent(s, parse, MessagingShow, p)
        == LegacyDispatcher.BuildPianoOnSiteAdsEvent(DefaultSettings, parse, MessagingShow, p);
    assert LegacyDispatcher.BuildPianoCustomEvent(s, parse, MessagingShow, p)
        == LegacyDispatcher.BuildPianoCustomEvent(DefaultSettings, parse, MessagingShow, p);
    CustomEventInApp(parse);
  }
}

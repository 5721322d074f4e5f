/**
 * Field derivation (`getCampaign`, `getMedium`, `getSource`, `getContent` of
 * AbstractPianoDispatcher): the four values every Piano event is built from, each the first
 * non-empty value of a fallback chain. The `utm` parameter is the UTM-tracking flag: when it is
 * off, no `utm_*` tag takes part in any chain.
 */
module FieldDerivation {
  import opened Options
  import opened BatchEvents
  import opened TagResolver

  const AtMedium: string := "at_medium"
  const AtCampaign: string := "at_campaign"
  const UtmSource: string := "utm_source"
  const UtmMedium: string := "utm_medium"
  const UtmCampaign: string := "utm_campaign"
  const UtmContent: string := "utm_content"

  /** The tags that take part only while UTM tracking is on. */
  const UtmTags: set<string> := {UtmSource, UtmMedium, UtmCampaign, UtmContent}

  const BatchSource: string := "Batch"
  const FormatInApp: string := "in-app"
  const FormatPush: string := "push"
  const DefaultCampaign: string := "batch-default-campaign"

  /** A value the chains accept: present and not empty (`x != null && !x.isEmpty()`). */
  predicate Present(o: Option<string>) {
    o.Some? && o.value != ""
  }

  // ---------------------------------------------------------------------------
  // Reference definition of a fallback chain
  // ---------------------------------------------------------------------------

  /** Candidate `i` is the first present one. */
  predicate FirstPresentAt(candidates: seq<Option<string>>, i: int)
    requires 0 <= i < |candidates|
  {
    Present(candidates[i]) && forall j | 0 <= j < i :: !Present(candidates[j])
  }

  /** The first present candidate's value, or `default` when none is present. */
  function FirstPresent(candidates: seq<Option<string>>, default: string): (r: string)
    ensures (forall i | 0 <= i < |candidates| :: !Present(candidates[i])) ==> r == default
    ensures (exists i | 0 <= i < |candidates| :: Present(candidates[i])) ==>
      exists i | 0 <= i < |candidates| :: FirstPresentAt(candidates, i) && r == candidates[i].value
    decreases |candidates|
  {
    if |candidates| == 0 then default
    else if Present(candidates[0]) then
      assert FirstPresentAt(candidates, 0);
      candidates[0].value
    else
      var rest := candidates[1..];
      var r := FirstPresent(rest, default);
      assert forall i | 1 <= i < |candidates| :: candidates[i] == rest[i - 1];
      if exists i | 1 <= i < |candidates| :: Present(candidates[i]) then
        var i :| 0 <= i < |rest| && FirstPresentAt(rest, i) && r == rest[i].value;
        assert FirstPresentAt(candidates, i + 1);
        r
      else r
  }

  lemma FirstPresentOfTwo(a: Option<string>, b: Option<string>, default: string)
    ensures FirstPresent([a, b], default)
         == if Present(a) then a.value else if Present(b) then b.value else default
  {
    assert [a, b][1..] == [b];
    assert [b][1..] == [];
  }

  lemma FirstPresentOfThree(a: Option<string>, b: Option<string>, c: Option<string>, default: string)
    ensures FirstPresent([a, b, c], default)
         == if Present(a) then a.value else if Present(b) then b.value else if Present(c) then c.value else default
  {
    assert [a, b, c][1..] == [b, c];
    FirstPresentOfTwo(b, c, default);
  }

  // ---------------------------------------------------------------------------
  // The four fields
  // ---------------------------------------------------------------------------

  /** The `utm_*` tag when UTM tracking is on; nothing when it is off. */
  function UtmTag(parse: UriParser, utm: bool, p: Payload, tagName: string): Option<string>
  {
    if utm then TagFromPayload(parse, p, tagName) else None
  }

  /** `getCampaign`: `at_campaign`, then `utm_campaign`, then the tracking id, then a literal. */
  function Campaign(parse: UriParser, utm: bool, p: Payload): (r: string)
    ensures r != ""
  {
    var at := TagFromPayload(parse, p, AtCampaign);
    if Present(at) then at.value
    else
      var fromUtm := TagFromPayload(parse, p, UtmCampaign);
      if utm && Present(fromUtm) then fromUtm.value
      else if Present(p.trackingId) then p.trackingId.value
      else DefaultCampaign
  }

  /** The medium used when no tag gives one: `push` for notifications, `in-app` otherwise. */
  function DefaultMedium(t: EventType): (r: string)
    ensures r == FormatPush <==> IsNotificationEvent(t)
    ensures r == FormatInApp <==> !IsNotificationEvent(t)
  {
    if IsNotificationEvent(t) then FormatPush else FormatInApp
  }

  /** `getMedium`: `at_medium`, then `utm_medium`, then the type's default. */
  function Medium(parse: UriParser, utm: bool, t: EventType, p: Payload): (r: string)
    ensures r != ""
  {
    var at := TagFromPayload(parse, p, AtMedium);
    if Present(at) then at.value
    else
      var fromUtm := TagFromPayload(parse, p, UtmMedium);
      if utm && Present(fromUtm) then fromUtm.value
      else DefaultMedium(t)
  }

  /** `getSource`: `utm_source`, then `Batch`. */
  function Source(parse: UriParser, utm: bool, p: Payload): (r: string)
    ensures r != ""
    ensures !utm ==> r == BatchSource
  {
    var source := TagFromPayload(parse, p, UtmSource);
    if utm && Present(source) then source.value else BatchSource
  }

  /** `getContent`: `utm_content`, or nothing; never an empty string. */
  function Content(parse: UriParser, utm: bool, p: Payload): (r: Option<string>)
    ensures r.None? || r.value != ""
    ensures !utm ==> r.None?
  {
    var content := TagFromPayload(parse, p, UtmContent);
    if utm && Present(content) then content else None
  }

  // ---------------------------------------------------------------------------
  // The chains
  // ---------------------------------------------------------------------------

  /**
   * The campaign is the first non-empty of `at_campaign`, `utm_campaign` (only with UTM tracking
   * on) and the tracking id, and `batch-default-campaign` when there is none.
   */
  lemma CampaignChain(parse: UriParser, utm: bool, p: Payload)
    ensures Campaign(parse, utm, p) == FirstPresent(
      [TagFromPayload(parse, p, AtCampaign), UtmTag(parse, utm, p, UtmCampaign), p.trackingId],
      DefaultCampaign)
  {
    FirstPresentOfThree(TagFromPayload(parse, p, AtCampaign), UtmTag(parse, utm, p, UtmCampaign), p.trackingId, DefaultCampaign);
  }

  /**
   * The medium is the first non-empty of `at_medium` and `utm_medium` (only with UTM tracking
   * on), and otherwise `push` exactly for notification events and `in-app` for the rest.
   */
  lemma MediumChain(parse: UriParser, utm: bool, t: EventType, p: Payload)
    ensures Medium(parse, utm, t, p) == FirstPresent(
      [TagFromPayload(parse, p, AtMedium), UtmTag(parse, utm, p, UtmMedium)],
      DefaultMedium(t))
  {
    FirstPresentOfTwo(TagFromPayload(parse, p, AtMedium), UtmTag(parse, utm, p, UtmMedium), DefaultMedium(t));
  }

  /** The source is `utm_source` when UTM tracking is on and it is non-empty, else `Batch`. */
  lemma SourceChain(parse: UriParser, utm: bool, p: Payload)
    ensures Source(parse, utm, p) == FirstPresent([UtmTag(parse, utm, p, UtmSource)], BatchSource)
  {
    var c := [UtmTag(parse, utm, p, UtmSource)];
    assert c[1..] == [];
  }

  /** The content is `utm_content` when UTM tracking is on and it is non-empty, else absent. */
  lemma ContentChain(parse: UriParser, utm: bool, p: Payload)
    ensures Content(parse, utm, p).Some? <==> Present(UtmTag(parse, utm, p, UtmContent))
    ensures Content(parse, utm, p).Some? ==> Content(parse, utm, p) == UtmTag(parse, utm, p, UtmContent)
  {
  }

  /**
   * With UTM tracking off, the four fields depend on nothing but `at_campaign`, `at_medium`, the
   * tracking id and the event type: two payloads that agree on those give the same fields,
   * whatever `utm_*` tags either carries.
   */
  lemma UtmDisabledIgnoresUtmTags(parse: UriParser, t: EventType, p: Payload, q: Payload)
    requires TagFromPayload(parse, p, AtCampaign) == TagFromPayload(parse, q, AtCampaign)
    requires TagFromPayload(parse, p, AtMedium) == TagFromPayload(parse, q, AtMedium)
    requires p.trackingId == q.trackingId
    ensures Campaign(parse, false, p) == Campaign(parse, false, q)
    ensures Medium(parse, false, t, p) == Medium(parse, false, t, q)
    ensures Source(parse, false, p) == Source(parse, false, q) == BatchSource
    ensures Content(parse, false, p) == Content(parse, false, q) == None
  {
  }

  /**
   * In particular, with UTM tracking off, adding or changing `utm_*` entries of the custom
   * payload changes none of the four fields.
   */
  lemma UtmCustomEntriesIgnoredWhenDisabled(parse: UriParser, t: EventType, p: Payload, extra: map<string, string>)
    requires extra.Keys <= UtmTags
    ensures var q := p.(custom := p.custom + extra);
      && Campaign(parse, false, q) == Campaign(parse, false, p)
      && Medium(parse, false, t, q) == Medium(parse, false, t, p)
      && Source(parse, false, q) == BatchSource
      && Content(parse, false, q) == None
  {
    var q := p.(custom := p.custom + extra);
    assert AtCampaign !in UtmTags && AtMedium !in UtmTags;
    UtmDisabledIgnoresUtmTags(parse, t, p, q);
  }
}

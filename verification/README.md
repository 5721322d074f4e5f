# Batch → Piano event dispatcher, modelled in Dafny

The Batch Android SDK reports engagement occurrences to a dispatcher: a notification displayed,
opened or dismissed, and an in-app message shown, closed or clicked. The Piano dispatcher turns
each occurrence into Piano Analytics events of two shapes:

- an on-site-ad event (`publisher.impression` or `publisher.click`) with four fixed keys;
- a custom event named after the occurrence (`batch_notification_display`, …), with the derived
  campaign, medium and source, `src_force = true`, and up to three optional keys.

The values come from tags (`at_campaign`, `utm_source`, …). A tag is looked up in the custom
payload, which wins, and otherwise in the deep link. Inside a hierarchical deep link, the first
query parameter whose name matches ignoring case wins over the `&`/`=` fragment. Every field is the
first non-empty value of a fallback chain. The `utm_*` tags take part only while UTM tracking is on.

The model is pure and functional. Events are values: a name plus a `map<string, Value>` for the
Java dispatchers, a name plus a `set<Property>` for the Kotlin one. A dispatch is the sequence of
events handed to Piano, in order. Three dispatchers share the derivation:

- `V1Dispatcher` models `PianoDispatcher.java` (version 1). It has flag-free copies of the helpers
  and no on-site-ads flag.
- `LegacyDispatcher` models `LegacyPianoDispatcher.java`. It is built on the helpers of
  `AbstractPianoDispatcher.java` and honours all three flags.
- `KotlinDispatcher` models `PianoDispatcher.kt`. It drops blank optional values, where the Java
  builders drop only empty ones.

Modules, in dependency order:

| module | file | what it holds |
|---|---|---|
| `Options` | options.dfy | `Option` |
| `JavaStrings` | java_strings.dfy | case mapping, `equalsIgnoreCase`, `trim`, Kotlin `isBlank`, Java `split` on one character |
| `BatchEvents` | batch_events.dfy | event types, the payload, parsed URIs; the URI parser is a parameter |
| `TagResolver` | tag_resolver.dfy | fragment map, query lookup, `getTagFromDeeplink`, `getTagFromPayload` |
| `AbstractDispatcher` | abstract_dispatcher.dfy | flags, identity, keys, event names, classification |
| `FieldDerivation` | field_derivation.dfy | campaign, medium, source and content, parameterised by the UTM flag |
| `JavaEventData` | java_event_data.dfy | the data maps both Java builders fill |
| `LegacyDispatcher` | legacy_dispatcher.dfy | `LegacyPianoDispatcher.java` |
| `V1Dispatcher` | v1_dispatcher.dfy | `PianoDispatcher.java` |
| `KotlinDispatcher` | kotlin_dispatcher.dfy | `PianoDispatcher.kt`, and how it relates to the Java output |
| `Scenarios` | scenarios.dfy | the exact outputs the repository's unit tests expect |

`Uri.parse` belongs to the Android framework. Every function that reads a deep link takes it as
a parameter `parse: string -> Uri`, applied to the trimmed link. A parsed URI is either
non-hierarchical or carries its decoded query pairs in order and its decoded fragment. The
scenarios state which URI the test's link parses to as a precondition.

## Model

| member | source | states |
|---|---|---|
| AbstractDispatcher.GetName | piano-dispatcher/src/main/java/com/batch/android/dispatcher/piano/AbstractPianoDispatcher.java:140-142 | the dispatcher's name is `piano` |
| AbstractDispatcher.GetVersion | piano-dispatcher/src/main/java/com/batch/android/dispatcher/piano/AbstractPianoDispatcher.java:150-152 | the shared dispatchers report version 2 |
| AbstractDispatcher.EnableBatchCustomEvents | piano-dispatcher/src/main/java/com/batch/android/dispatcher/piano/AbstractPianoDispatcher.java:113-115 | sets the custom-events flag and leaves the other two flags unchanged |
| AbstractDispatcher.EnableBatchOnSiteAdsEvents | piano-dispatcher/src/main/java/com/batch/android/dispatcher/piano/AbstractPianoDispatcher.java:122-124 | sets the on-site-ads flag and leaves the other two flags unchanged |
| AbstractDispatcher.EnableUTMTracking | piano-dispatcher/src/main/java/com/batch/android/dispatcher/piano/AbstractPianoDispatcher.java:130-132 | sets the UTM flag and leaves the other two flags unchanged |
| AbstractDispatcher.PianoEventName | piano-dispatcher/src/main/java/com/batch/android/dispatcher/piano/AbstractPianoDispatcher.java:256-278 | every type gets a name; none is `batch_unknown` or an on-site event name |
| AbstractDispatcher.PianoEventNameInjective | piano-dispatcher/src/main/java/com/batch/android/dispatcher/piano/AbstractPianoDispatcher.java:256-278 | no two event types share a custom-event name |
| AbstractDispatcher.PianoEventNameFollowsCategory | piano-dispatcher/src/main/java/com/batch/android/dispatcher/piano/AbstractPianoDispatcher.java:55-63 | a type is a notification event iff its name starts with `batch_notification_`, and a messaging event iff it starts with `batch_in_app_` |
| AbstractDispatcher.OnSiteClassification | piano-dispatcher/src/main/java/com/batch/android/dispatcher/piano/AbstractPianoDispatcher.java:286-311 | impressions and clicks are disjoint; exactly the dismiss and close types are not on-site ads |
| JavaStrings.LowerIsLowerCase | piano-dispatcher/src/main/java/com/batch/android/dispatcher/piano/AbstractPianoDispatcher.java:344 | lower-casing leaves no upper-case letter; it is the identity exactly on lower-case text |
| JavaStrings.LowerIdempotent | piano-dispatcher/src/main/java/com/batch/android/dispatcher/piano/AbstractPianoDispatcher.java:344 | lower-casing twice is lower-casing once |
| JavaStrings.EqualsIgnoreCaseIffSameLower | piano-dispatcher/src/main/java/com/batch/android/dispatcher/piano/AbstractPianoDispatcher.java:357 | the character-wise case-insensitive comparison holds iff both lower-cased strings are equal |
| JavaStrings.Trim | piano-dispatcher/src/main/java/com/batch/android/dispatcher/piano/AbstractPianoDispatcher.java:343 | the trimmed link neither starts nor ends with a character up to the space, and is no longer than the input |
| JavaStrings.Split | piano-dispatcher/src/main/java/com/batch/android/dispatcher/piano/AbstractPianoDispatcher.java:374 | no piece contains the separator; text without the separator is one piece; otherwise the last piece, if any, is non-empty |
| JavaStrings.TrimRemovesPadding | piano-dispatcher/src/main/java/com/batch/android/dispatcher/piano/AbstractPianoDispatcher.java:343 | trimming padding of characters up to the space around an untrimmable core gives exactly the core |
| JavaStrings.TrimIdempotent | piano-dispatcher/src/main/java/com/batch/android/dispatcher/piano/AbstractPianoDispatcher.java:343 | trimming twice is trimming once |
| JavaStrings.JoinSplitAll | piano-dispatcher/src/main/java/com/batch/android/dispatcher/piano/AbstractPianoDispatcher.java:374 | joining the raw pieces of a split with the separator gives the text back |
| JavaStrings.SplitJoin | piano-dispatcher/src/main/java/com/batch/android/dispatcher/piano/AbstractPianoDispatcher.java:374-377 | splitting the join of separator-free pieces gives the pieces back, unless the last one is empty (Java drops trailing empty pieces) |
| TagResolver.FragmentEntry | piano-dispatcher/src/main/java/com/batch/android/dispatcher/piano/AbstractPianoDispatcher.java:377-380 | a piece's key is always lower-case |
| TagResolver.FragmentEntryWithoutValue | piano-dispatcher/src/main/java/com/batch/android/dispatcher/piano/AbstractPianoDispatcher.java:377-378 | `k=` and a bare `k` give no entry, since Java's split leaves fewer than two parts |
| TagResolver.FragmentEntryTakesSecondPart | piano-dispatcher/src/main/java/com/batch/android/dispatcher/piano/AbstractPianoDispatcher.java:377-379 | in `k=v=w` the key is `k` lower-cased and the value is `v` |
| TagResolver.PutAllLastWins | piano-dispatcher/src/main/java/com/batch/android/dispatcher/piano/AbstractPianoDispatcher.java:375-381 | a key is in the fragment map iff some piece sets it, with the value of the last piece that does |
| TagResolver.FragmentMapKeysLowerCase | piano-dispatcher/src/main/java/com/batch/android/dispatcher/piano/AbstractPianoDispatcher.java:373-383 | every key of the fragment map is lower-case |
| TagResolver.FragmentRoundTrip | piano-dispatcher/src/main/java/com/batch/android/dispatcher/piano/AbstractPianoDispatcher.java:373-383 | a fragment written from `key=value` pairs parses back to the pairs' map: lower-cased keys, a later duplicate overriding an earlier one |
| TagResolver.QueryParameter | piano-dispatcher/src/main/java/com/batch/android/dispatcher/piano/AbstractPianoDispatcher.java:355-360 | nothing iff no parameter name matches ignoring case; otherwise the value of the first one that does |
| TagResolver.QueryParameterFirstMatch | piano-dispatcher/src/main/java/com/batch/android/dispatcher/piano/AbstractPianoDispatcher.java:355-359 | the first matching parameter is the one whose value is returned |
| TagResolver.LowerTagMatchesAlike | piano-dispatcher/src/main/java/com/batch/android/dispatcher/piano/AbstractPianoDispatcher.java:344-357 | lower-casing the tag before the case-insensitive comparison changes no match |
| TagResolver.TagFromDeeplink | piano-dispatcher/src/main/java/com/batch/android/dispatcher/piano/AbstractPianoDispatcher.java:339-364 | no tag without a deep link or for a non-hierarchical one |
| TagResolver.QueryParameterWins | piano-dispatcher/src/main/java/com/batch/android/dispatcher/piano/AbstractPianoDispatcher.java:346-359 | the first query parameter matching the tag gives the tag, whatever the fragment holds and even when its value is empty |
| TagResolver.FragmentTagLastWins | piano-dispatcher/src/main/java/com/batch/android/dispatcher/piano/AbstractPianoDispatcher.java:347-354 | the fragment gives a tag iff a piece sets it, with the last such piece's value; an empty fragment gives none |
| TagResolver.FragmentUsedWithoutQueryMatch | piano-dispatcher/src/main/java/com/batch/android/dispatcher/piano/AbstractPianoDispatcher.java:346-363 | with no matching query parameter, the fragment entry for the lower-cased tag decides |
| TagResolver.TagFromPayload | piano-dispatcher/src/main/java/com/batch/android/dispatcher/piano/AbstractPianoDispatcher.java:321-329 | a custom-payload value, even an empty one, replaces the deep-link value; without one the deep link decides |
| TagResolver.CustomValueOverridesDeeplink | piano-dispatcher/src/main/java/com/batch/android/dispatcher/piano/AbstractPianoDispatcher.java:321-329 | with the tag in the custom payload, no deep link changes the result |
| FieldDerivation.FirstPresent | piano-dispatcher/src/main/java/com/batch/android/dispatcher/piano/AbstractPianoDispatcher.java:168-182 | the fallback-chain reference: the default when no candidate is non-empty, else the value of the first non-empty candidate |
| FieldDerivation.Campaign | piano-dispatcher/src/main/java/com/batch/android/dispatcher/piano/AbstractPianoDispatcher.java:168-182 | the campaign is never empty |
| FieldDerivation.CampaignChain | piano-dispatcher/src/main/java/com/batch/android/dispatcher/piano/AbstractPianoDispatcher.java:168-182 | the campaign is the first non-empty of `at_campaign`, `utm_campaign` (UTM on only) and the tracking id, else `batch-default-campaign` |
| FieldDerivation.DefaultMedium | piano-dispatcher/src/main/java/com/batch/android/dispatcher/piano/AbstractPianoDispatcher.java:205-209 | `push` iff a notification event, `in-app` iff not |
| FieldDerivation.Medium | piano-dispatcher/src/main/java/com/batch/android/dispatcher/piano/AbstractPianoDispatcher.java:195-211 | the medium is never empty |
| FieldDerivation.MediumChain | piano-dispatcher/src/main/java/com/batch/android/dispatcher/piano/AbstractPianoDispatcher.java:195-211 | the medium is the first non-empty of `at_medium` and `utm_medium` (UTM on only), else the type's default |
| FieldDerivation.Source | piano-dispatcher/src/main/java/com/batch/android/dispatcher/piano/AbstractPianoDispatcher.java:223-229 | the source is never empty, and is `Batch` with UTM off |
| FieldDerivation.SourceChain | piano-dispatcher/src/main/java/com/batch/android/dispatcher/piano/AbstractPianoDispatcher.java:223-229 | the source is `utm_source` when UTM is on and it is non-empty, else `Batch` |
| FieldDerivation.Content | piano-dispatcher/src/main/java/com/batch/android/dispatcher/piano/AbstractPianoDispatcher.java:241-247 | the content is absent or non-empty, and absent with UTM off |
| FieldDerivation.ContentChain | piano-dispatcher/src/main/java/com/batch/android/dispatcher/piano/AbstractPianoDispatcher.java:241-247 | the content is present iff `utm_content` is non-empty with UTM on, and is then that tag |
| FieldDerivation.UtmDisabledIgnoresUtmTags | piano-dispatcher/src/main/java/com/batch/android/dispatcher/piano/AbstractPianoDispatcher.java:168-247 | with UTM off, two payloads that agree on `at_campaign`, `at_medium` and the tracking id get the same four fields: source `Batch`, no content |
| FieldDerivation.UtmCustomEntriesIgnoredWhenDisabled | piano-dispatcher/src/main/java/com/batch/android/dispatcher/piano/AbstractPianoDispatcher.java:168-247 | with UTM off, adding `utm_*` entries to the custom payload changes no field |
| JavaEventData.PutIfNotEmpty | piano-dispatcher/src/main/java/com/batch/android/dispatcher/piano/LegacyPianoDispatcher.java:108-111 | the key is added iff the value is present and non-empty, and no other entry changes |
| JavaEventData.OnSiteData | piano-dispatcher/src/main/java/com/batch/android/dispatcher/piano/LegacyPianoDispatcher.java:80-85 | exactly the four on-site keys, type `Publisher`, and the given advertiser, campaign and format |
| JavaEventData.CustomEventData | piano-dispatcher/src/main/java/com/batch/android/dispatcher/piano/LegacyPianoDispatcher.java:100-123 | the four base entries always; the tracking id and content iff present and non-empty; the web-view id iff a messaging event and present and non-empty |
| JavaEventData.CustomEventDataIgnoresEmpty | piano-dispatcher/src/main/java/com/batch/android/dispatcher/piano/LegacyPianoDispatcher.java:108-122 | an absent optional value and an empty one give the same map |
| LegacyDispatcher.BuildPianoOnSiteAdsEvent | piano-dispatcher/src/main/java/com/batch/android/dispatcher/piano/LegacyPianoDispatcher.java:69-87 | nothing iff not an impression or click; otherwise the impression or click name, the four on-site keys, advertiser = source, format = medium |
| LegacyDispatcher.BuildPianoCustomEvent | piano-dispatcher/src/main/java/com/batch/android/dispatcher/piano/LegacyPianoDispatcher.java:97-125 | named after the type; the base entries carry the derived fields and `true`; each optional key present iff its value is, with that value |
| LegacyDispatcher.DispatchEvent | piano-dispatcher/src/main/java/com/batch/android/dispatcher/piano/LegacyPianoDispatcher.java:44-58 | the on-site event first iff on-site ads are on and the type qualifies; the custom event iff custom events are on; nothing with both off |
| V1Dispatcher.V1Identity | piano-dispatcher/src/main/java/com/batch/android/dispatcher/piano/PianoDispatcher.java:32-33 | the first generation is named `piano` and reports version 1 |
| V1Dispatcher.Campaign | piano-dispatcher/src/main/java/com/batch/android/dispatcher/piano/PianoDispatcher.java:247-261 | the flag-free campaign is never empty |
| V1Dispatcher.Medium | piano-dispatcher/src/main/java/com/batch/android/dispatcher/piano/PianoDispatcher.java:274-290 | the flag-free medium is never empty |
| V1Dispatcher.Source | piano-dispatcher/src/main/java/com/batch/android/dispatcher/piano/PianoDispatcher.java:302-308 | the flag-free source is never empty |
| V1Dispatcher.Content | piano-dispatcher/src/main/java/com/batch/android/dispatcher/piano/PianoDispatcher.java:320-326 | the flag-free content is absent or non-empty |
| V1Dispatcher.DerivationIsUtmEnabled | piano-dispatcher/src/main/java/com/batch/android/dispatcher/piano/PianoDispatcher.java:247-326 | the four flag-free fields equal the shared ones with UTM tracking on |
| V1Dispatcher.BuildPianoOnSiteAdsEvent | piano-dispatcher/src/main/java/com/batch/android/dispatcher/piano/PianoDispatcher.java:176-194 | nothing iff not an impression or click; otherwise exactly four keys, type `Publisher` |
| V1Dispatcher.BuildPianoCustomEvent | piano-dispatcher/src/main/java/com/batch/android/dispatcher/piano/PianoDispatcher.java:204-232 | base keys always; `src_content` iff `utm_content` is non-empty; tracking and web-view ids as in the later Java builder |
| V1Dispatcher.DispatchEvent | piano-dispatcher/src/main/java/com/batch/android/dispatcher/piano/PianoDispatcher.java:150-165 | an on-site event for every impression or click, with no flag; the custom event iff custom events are on; at most two sends |
| V1Dispatcher.MatchesLegacyWithOnSiteAndUtm | piano-dispatcher/src/main/java/com/batch/android/dispatcher/piano/PianoDispatcher.java:150-165 | version 1 sends what the legacy dispatcher sends with on-site ads and UTM tracking on |
| KotlinDispatcher.BuildPianoOnSiteAdsEvent | piano-dispatcher/src/main/java/com/batch/android/dispatcher/piano/PianoDispatcher.kt:45-59 | nothing iff not an impression or click; otherwise the impression or click name and the four on-site properties |
| KotlinDispatcher.OnSiteProperties | piano-dispatcher/src/main/java/com/batch/android/dispatcher/piano/PianoDispatcher.kt:53-58 | exactly four properties, one per on-site key, with the matching values |
| KotlinDispatcher.AddIfNotBlank | piano-dispatcher/src/main/java/com/batch/android/dispatcher/piano/PianoDispatcher.kt:74-78 | the property is added iff the value is present and not blank |
| KotlinDispatcher.CustomEventProperties | piano-dispatcher/src/main/java/com/batch/android/dispatcher/piano/PianoDispatcher.kt:66-91 | the four base properties always; each optional name present iff its value is present and not blank (the web-view id only for messaging events), and then carrying that value |
| KotlinDispatcher.BaseProperties | piano-dispatcher/src/main/java/com/batch/android/dispatcher/piano/PianoDispatcher.kt:66-72 | exactly the four base names, carrying source, campaign, medium and `true` |
| KotlinDispatcher.AddOptional | piano-dispatcher/src/main/java/com/batch/android/dispatcher/piano/PianoDispatcher.kt:74-90 | keeps every earlier property and adds exactly the optional names whose values are not blank, each with its value |
| KotlinDispatcher.CustomPropertiesOneValuePerName | piano-dispatcher/src/main/java/com/batch/android/dispatcher/piano/PianoDispatcher.kt:66-91 | no two properties of a custom event share a name, so each name carries one value |
| KotlinDispatcher.BuildPianoCustomEvent | piano-dispatcher/src/main/java/com/batch/android/dispatcher/piano/PianoDispatcher.kt:62-93 | named after the type; carries the derived base properties; the tracking id, content and web-view id properties present iff not blank, each with its value |
| KotlinDispatcher.DispatchEvent | piano-dispatcher/src/main/java/com/batch/android/dispatcher/piano/PianoDispatcher.kt:23-35 | the on-site event first iff on-site ads are on and the type qualifies; the custom event iff custom events are on |
| KotlinDispatcher.CustomPropertiesAreJavaDataWithoutBlanks | piano-dispatcher/src/main/java/com/batch/android/dispatcher/piano/PianoDispatcher.kt:66-91 | the Kotlin properties are exactly the entries of the Java map once blank optional values count as absent |
| KotlinDispatcher.OnSiteMatchesLegacy | piano-dispatcher/src/main/java/com/batch/android/dispatcher/piano/PianoDispatcher.kt:45-59 | the Kotlin and legacy on-site events agree on presence, name and entries |
| KotlinDispatcher.CustomMatchesLegacyWithoutBlanks | piano-dispatcher/src/main/java/com/batch/android/dispatcher/piano/PianoDispatcher.kt:62-93 | without whitespace-only optional values, the Kotlin and legacy custom events carry the same entries |
| KotlinDispatcher.BlankTrackingIdDiverges | piano-dispatcher/src/main/java/com/batch/android/dispatcher/piano/PianoDispatcher.kt:74-78 | any non-empty whitespace-only tracking id is sent by the Java builder, with its value, and dropped by the Kotlin one |
| Scenarios.CampaignFromCustomPayload | piano-dispatcher/src/test/java/com/batch/android/dispatcher/piano/PianoDispatcherTest.java:46-52 | an `at_campaign` in the custom payload beats the deep link's |
| Scenarios.CampaignFromOpaqueLink | piano-dispatcher/src/test/java/com/batch/android/dispatcher/piano/PianoDispatcherTest.java:60-64 | a non-hierarchical link yields the default campaign |
| Scenarios.CustomEventInApp | piano-dispatcher/src/test/java/com/batch/android/dispatcher/piano/PianoDispatcherTest.java:80-94 | the exact custom event of an in-app show with a tracking id only |
| Scenarios.CustomEventPush | piano-dispatcher/src/test/java/com/batch/android/dispatcher/piano/PianoDispatcherTest.java:96-109 | the exact custom event of a notification display with a tracking id only |
| Scenarios.CustomEventFromDeeplinkAt | piano-dispatcher/src/test/java/com/batch/android/dispatcher/piano/PianoDispatcherTest.java:111-124 | `at_*` query parameters give campaign and medium |
| Scenarios.CustomEventFromDeeplinkFirebase | piano-dispatcher/src/test/java/com/batch/android/dispatcher/piano/PianoDispatcherTest.java:126-140 | `utm_*` query parameters give campaign, medium, source and content |
| Scenarios.EncodedFragmentLink | piano-dispatcher/src/test/java/com/batch/android/dispatcher/piano/PianoDispatcherTest.java:142-158 | with no query, every tag is the value of the last fragment pair whose key is the tag ignoring case |
| Scenarios.CustomEventFromPayloadAt | piano-dispatcher/src/test/java/com/batch/android/dispatcher/piano/PianoDispatcherTest.java:178-194 | `at_*` entries of the custom payload give campaign and medium |
| Scenarios.CustomEventFromPayloadFirebase | piano-dispatcher/src/test/java/com/batch/android/dispatcher/piano/PianoDispatcherTest.java:196-215 | `utm_*` entries of the custom payload give the same event as the query |
| Scenarios.CustomEventUtmDisabled | piano-dispatcher/src/test/java/com/batch/android/dispatcher/piano/PianoDispatcherTest.java:217-236 | with UTM off, the `utm_*` payload entries are ignored: campaign = tracking id, `Batch`, `push`, no content |
| Scenarios.KotlinCustomEventUtmDisabled | piano-dispatcher/src/test/java/com/batch/android/dispatcher/piano/PianoDispatcherTest.kt:194-216 | the same for the Kotlin builder's property set |
| Scenarios.OnSiteImpressionPush | piano-dispatcher/src/test/java/com/batch/android/dispatcher/piano/PianoDispatcherTest.java:238-251 | the exact impression event of a notification display |
| Scenarios.OnSiteClickInApp | piano-dispatcher/src/test/java/com/batch/android/dispatcher/piano/PianoDispatcherTest.java:253-266 | the exact click event of an in-app click |
| Scenarios.KotlinOnSiteImpressionPush | piano-dispatcher/src/test/java/com/batch/android/dispatcher/piano/PianoDispatcherTest.kt:218-235 | the Kotlin impression event carries the same four values |
| Scenarios.DispatchClickWithoutCustomEvents | piano-dispatcher/src/test/java/com/batch/android/dispatcher/piano/PianoDispatcherTest.java:268-284 | with custom events off, an in-app click is exactly one send: the click event |
| Scenarios.DispatchShowWithCustomEvents | piano-dispatcher/src/test/java/com/batch/android/dispatcher/piano/PianoDispatcherTest.java:286-315 | with custom events on, an in-app show is exactly two sends: the impression, then `batch_in_app_show` |

## Left out

- `Uri.parse`, `isHierarchical`, `getQueryParameterNames` and `getQueryParameter` internals, such as percent-decoding and scheme detection, belong to the Android framework. The parser is a parameter, and a parsed URI is taken as given.
- The Piano SDK classes (`Event`, `Property`, `PianoAnalytics`) and `sendEvent`/`sendEvents` are external. Events are values, and a dispatch is the sequence of events it would send.
- `PianoRegistrar.java` picks a dispatcher by the Piano SDK version found at run time. It is plumbing over Android `Context` with no logic of its own.
- `HashMap` iteration order and Kotlin set order are not modelled. Outputs are maps and sets.
- `getPianoEventName`'s fall-back to `batch_unknown` is unreachable: the event type is a closed enumeration of the nine types, and every one has a name.
- Case mapping (`toLowerCase`, `equalsIgnoreCase`) is modelled on ASCII letters only. Other Unicode letters are left unchanged.
- Kotlin's `isWhitespace` is modelled as a fixed list of code points: Java whitespace plus the Unicode space separators.
- `trim` and `isBlank` are modelled on Unicode scalar values, which is what a Dafny `string` holds, where Java and Kotlin work on UTF-16 code units. The two agree: every character `trim` strips (up to U+0020) and every whitespace code point is a single unit of the Basic Multilingual Plane, and no surrogate unit is either.
- `PianoDispatcher.java` has its own copies of the tag helpers, `getPianoEventName` and the classification (lines 335-462). They are textually the shared ones of `AbstractPianoDispatcher.java`, so `V1Dispatcher` uses `TagResolver` and `AbstractDispatcher` instead of repeating them. Only its field derivation, which differs by having no UTM flag, is modelled separately.
- `LegacyPianoDispatcher.java` is declared to extend `PianoDispatcher`. It reads `onSiteAdsEventsEnabled`, which only `AbstractPianoDispatcher.java` declares (line 97), and `EVENT_IMPRESSION`, which `PianoDispatcher.java` declares private (line 44); and the tests call `enableUTMTracking` on it. It is therefore modelled on the shared helpers, honouring all three flags.
- The fragment and query-priority tests (lines 142-176 of `PianoDispatcherTest.java`) use literal links. They are stated in general instead: `Scenarios.EncodedFragmentLink` for any fragment written from pairs, `TagResolver.QueryParameterWins` for any matching query parameter.
- The Kotlin test file's custom-event cases that repeat the Java ones are not restated. `KotlinDispatcher.CustomMatchesLegacyWithoutBlanks` gives them, since none of those tests uses blank values.

/**
 * Tag resolution (`getTagFromPayload`, `getTagFromDeeplink`, `getFragmentMap` of
 * AbstractPianoDispatcher): where a tag such as `utm_campaign` is looked up. The custom payload
 * wins over the deep link; within a hierarchical deep link a query parameter wins over the
 * fragment.
 */
module TagResolver {
  import opened Options
  import opened JavaStrings
  import opened BatchEvents

  // ---------------------------------------------------------------------------
  // Fragment parsing
  // ---------------------------------------------------------------------------

  /** What one piece of a fragment contributes to the map: nothing, or a (key, value) entry. */
  type Entry = Option<(string, string)>

  /**
   * One `&`-separated piece of a fragment: split on `=`, kept only when that gives at least two
   * parts, as (first part lower-cased, second part). So `k=` and `k` are skipped, and in
   * `k=v=w` the value is `v`.
   */
  function FragmentEntry(param: string): (r: Entry)
    ensures r.Some? ==> IsLowerCase(r.value.0)
  {
    var parts := Split(param, '=');
    if |parts| >= 2 then
      LowerIsLowerCase(parts[0]);
      Some((Lower(parts[0]), parts[1]))
    else None
  }

  /** The entries of the pieces, in order. */
  function Entries(params: seq<string>): (r: seq<Entry>)
    ensures |r| == |params|
    ensures forall i | 0 <= i < |params| :: r[i] == FragmentEntry(params[i])
  {
    seq(|params|, i requires 0 <= i < |params| => FragmentEntry(params[i]))
  }

  /** A piece without a value, `k=` or a bare `k`, contributes nothing. */
  lemma FragmentEntryWithoutValue(k: string)
    requires '=' !in k
    ensures FragmentEntry(k + "=") == None
    ensures FragmentEntry(k) == None
  {
    SplitAllFirstPiece(k, '=', "");
    assert k + "=" == k + ['='] + "";
    assert (k + "=")[|k|] == '=';
    var all := SplitAll(k + "=", '=');
    assert all == [k, ""];
    assert DropTrailingEmpty(all) == DropTrailingEmpty([k]);
  }

  /** In `k=v=w` the key is `k` lower-cased and the value is `v`: whatever follows is ignored. */
  lemma FragmentEntryTakesSecondPart(k: string, v: string, w: string)
    requires '=' !in k && '=' !in v && '=' !in w && w != ""
    ensures FragmentEntry(k + "=" + v + "=" + w) == Some((Lower(k), v))
  {
    assert Join([k, v, w], '=') == k + "=" + v + "=" + w by {
      assert Join([v, w], '=') == v + "=" + w;
      assert [k, v, w][1..] == [v, w];
    }
    SplitJoin([k, v, w], '=');
  }

  /** Entry `e` sets key `k`. */
  predicate Sets(e: Entry, k: string) {
    e.Some? && e.value.0 == k
  }

  /** The `HashMap` filled by the loop of `getFragmentMap`: each entry put in turn. */
  function PutAll(entries: seq<Entry>): (m: map<string, string>)
    decreases |entries|
  {
    if |entries| == 0 then map[]
    else
      var m := PutAll(entries[..|entries| - 1]);
      match entries[|entries| - 1]
      case None => m
      case Some(kv) => m[kv.0 := kv.1]
  }

  /** `getFragmentMap`: the fragment split on `&`, every piece read by `FragmentEntry`. */
  function FragmentMap(fragment: string): map<string, string>
  {
    PutAll(Entries(Split(fragment, '&')))
  }

  /**
   * A key is in the map exactly when some entry sets it, and its value comes from the LAST entry
   * that does: a later duplicate overwrites an earlier one.
   */
  lemma {:induction false} PutAllLastWins(entries: seq<Entry>, k: string)
    ensures k in PutAll(entries) <==> exists i | 0 <= i < |entries| :: Sets(entries[i], k)
    ensures k in PutAll(entries) ==>
      exists i | 0 <= i < |entries| ::
        && Sets(entries[i], k)
        && entries[i].value.1 == PutAll(entries)[k]
        && forall j | i < j < |entries| :: !Sets(entries[j], k)
    decreases |entries|
  {
    if |entries| > 0 {
      var n := |entries| - 1;
      var init := entries[..n];
      PutAllLastWins(init, k);
      assert forall j | 0 <= j < n :: entries[j] == init[j];
      var m := PutAll(entries);
      if Sets(entries[n], k) {
        assert m[k] == entries[n].value.1;
      } else {
        assert k in m <==> k in PutAll(init);
        if k in m {
          var i :| 0 <= i < n && Sets(init[i], k) && init[i].value.1 == PutAll(init)[k]
                   && forall j | i < j < n :: !Sets(init[j], k);
          assert Sets(entries[i], k) && entries[i].value.1 == m[k];
        }
      }
    }
  }

  /** Every key the map holds comes from some entry, so it is lower-case. */
  lemma PutAllKeysLowerCase(params: seq<string>, k: string)
    requires k in PutAll(Entries(params))
    ensures IsLowerCase(k)
  {
    PutAllLastWins(Entries(params), k);
  }

  /** Every key of the fragment map is lower-case. */
  lemma FragmentMapKeysLowerCase(fragment: string, k: string)
    requires k in FragmentMap(fragment)
    ensures IsLowerCase(k)
  {
    PutAllKeysLowerCase(Split(fragment, '&'), k);
  }

  /** The fragment text written from `key=value` pairs, `&` between pairs. */
  function EncodeFragment(pairs: seq<(string, string)>): string
  {
    Join(Pieces(pairs), '&')
  }

  function Pieces(pairs: seq<(string, string)>): (r: seq<string>)
    ensures |r| == |pairs|
    ensures forall i | 0 <= i < |pairs| :: r[i] == pairs[i].0 + "=" + pairs[i].1
  {
    seq(|pairs|, i requires 0 <= i < |pairs| => pairs[i].0 + "=" + pairs[i].1)
  }

  /** The map a list of pairs denotes: keys lower-cased, a later pair overriding an earlier one. */
  function PairsToMap(pairs: seq<(string, string)>): map<string, string>
    decreases |pairs|
  {
    if |pairs| == 0 then map[]
    else PairsToMap(pairs[..|pairs| - 1])[Lower(pairs[|pairs| - 1].0) := pairs[|pairs| - 1].1]
  }

  /** A pair that can be written as `key=value` and read back: no separators, a non-empty value. */
  predicate EncodablePair(kv: (string, string)) {
    '&' !in kv.0 && '=' !in kv.0 && '&' !in kv.1 && '=' !in kv.1 && kv.1 != ""
  }

  /** A key no pair lower-cases to is not in the map. */
  lemma {:induction false} PairsToMapMissing(pairs: seq<(string, string)>, k: string)
    requires forall j | 0 <= j < |pairs| :: Lower(pairs[j].0) != k
    ensures k !in PairsToMap(pairs)
    decreases |pairs|
  {
    if |pairs| > 0 {
      PairsToMapMissing(pairs[..|pairs| - 1], k);
    }
  }

  /** The key of pair `i` maps to its value when no later pair has the same lower-cased key. */
  lemma {:induction false} PairsToMapLastWins(pairs: seq<(string, string)>, i: int)
    requires 0 <= i < |pairs|
    requires forall j | i < j < |pairs| :: Lower(pairs[j].0) != Lower(pairs[i].0)
    ensures Lower(pairs[i].0) in PairsToMap(pairs)
    ensures PairsToMap(pairs)[Lower(pairs[i].0)] == pairs[i].1
    decreases |pairs|
  {
    if i < |pairs| - 1 {
      PairsToMapLastWins(pairs[..|pairs| - 1], i);
    }
  }

  lemma FragmentEntryOfPair(k: string, v: string)
    requires EncodablePair((k, v))
    ensures FragmentEntry(k + "=" + v) == Some((Lower(k), v))
  {
    assert Join([k, v], '=') == k + "=" + v;
    SplitJoin([k, v], '=');
  }

  lemma {:induction false} EntriesOfPieces(pairs: seq<(string, string)>)
    requires forall i | 0 <= i < |pairs| :: EncodablePair(pairs[i])
    ensures PutAll(Entries(Pieces(pairs))) == PairsToMap(pairs)
    decreases |pairs|
  {
    if |pairs| > 0 {
      var n := |pairs| - 1;
      assert Entries(Pieces(pairs))[..n] == Entries(Pieces(pairs[..n]));
      EntriesOfPieces(pairs[..n]);
      FragmentEntryOfPair(pairs[n].0, pairs[n].1);
    }
  }

  lemma PieceHasNoAmpersand(k: string, v: string)
    requires '&' !in k && '&' !in v
    ensures '&' !in k + "=" + v && k + "=" + v != ""
  {
    assert (k + "=" + v)[|k|] == '=';
  }

  /**
   * Round trip: a fragment written from well-formed `key=value` pairs parses back to the map
   * those pairs denote.
   */
  lemma FragmentRoundTrip(pairs: seq<(string, string)>)
    requires |pairs| >= 1
    requires forall i | 0 <= i < |pairs| :: EncodablePair(pairs[i])
    ensures FragmentMap(EncodeFragment(pairs)) == PairsToMap(pairs)
  {
    var pieces := Pieces(pairs);
    forall i | 0 <= i < |pieces| ensures '&' !in pieces[i] && pieces[i] != "" {
      PieceHasNoAmpersand(pairs[i].0, pairs[i].1);
    }
    SplitJoin(pieces, '&');
    EntriesOfPieces(pairs);
  }

  // ---------------------------------------------------------------------------
  // Deep link and payload lookup
  // ---------------------------------------------------------------------------

  /** Query parameter `i` is the first whose name equals `name` ignoring case. */
  predicate FirstMatchAt(query: seq<(string, string)>, name: string, i: int)
    requires 0 <= i < |query|
  {
    EqualsIgnoreCase(name, query[i].0) && forall j | 0 <= j < i :: !EqualsIgnoreCase(name, query[j].0)
  }

  /**
   * The loop over `getQueryParameterNames()`: the names come in order of first appearance and
   * `getQueryParameter` returns the first value of a name, so the result is the value of the
   * first parameter whose name equals `name` ignoring case.
   */
  function QueryParameter(query: seq<(string, string)>, name: string): (r: Option<string>)
    ensures r.None? <==> forall i | 0 <= i < |query| :: !EqualsIgnoreCase(name, query[i].0)
    ensures r.Some? ==> exists i | 0 <= i < |query| :: FirstMatchAt(query, name, i) && r.value == query[i].1
    decreases |query|
  {
    if |query| == 0 then None
    else if EqualsIgnoreCase(name, query[0].0) then
      assert FirstMatchAt(query, name, 0);
      Some(query[0].1)
    else
      var r := QueryParameter(query[1..], name);
      assert forall i | 1 <= i < |query| :: query[i] == query[1..][i - 1];
      if r.Some? then
        var i :| 0 <= i < |query| - 1 && FirstMatchAt(query[1..], name, i) && r.value == query[1..][i].1;
        assert FirstMatchAt(query, name, i + 1);
        r
      else r
  }

  /** The parameter that matches first is the one whose value is returned. */
  lemma QueryParameterFirstMatch(query: seq<(string, string)>, name: string, i: int)
    requires 0 <= i < |query| && FirstMatchAt(query, name, i)
    ensures QueryParameter(query, name) == Some(query[i].1)
  {
    var r := QueryParameter(query, name);
    var i' :| 0 <= i' < |query| && FirstMatchAt(query, name, i') && r.value == query[i'].1;
  }

  /** The fragment half of `getTagFromDeeplink`: a non-empty fragment's map, looked up by `name`. */
  function FragmentTag(fragment: Option<string>, name: string): Option<string>
  {
    if fragment.Some? && fragment.value != "" && name in FragmentMap(fragment.value)
    then Some(FragmentMap(fragment.value)[name])
    else None
  }

  /**
   * `getTagFromDeeplink`: nothing without a deep link or when the trimmed link does not parse to
   * a hierarchical URI; otherwise the first query parameter matching the tag ignoring case, and
   * failing that the fragment entry for the lower-cased tag.
   */
  function TagFromDeeplink(parse: UriParser, deeplink: Option<string>, tagName: string): (r: Option<string>)
    ensures deeplink.None? ==> r.None?
    ensures deeplink.Some? && parse(Trim(deeplink.value)).NonHierarchical? ==> r.None?
  {
    match deeplink
    case None => None
    case Some(link) =>
      var name := Lower(tagName);
      match parse(Trim(link))
      case NonHierarchical => None
      case Hierarchical(query, fragment) =>
        var fromFragment := FragmentTag(fragment, name);
        match QueryParameter(query, name)
        case Some(v) => Some(v)
        case None => fromFragment
  }

  /** Matching the lower-cased tag ignoring case is matching the tag itself ignoring case. */
  lemma LowerTagMatchesAlike(tagName: string, key: string)
    ensures EqualsIgnoreCase(Lower(tagName), key) <==> EqualsIgnoreCase(tagName, key)
  {
    EqualsIgnoreCaseIffSameLower(Lower(tagName), key);
    EqualsIgnoreCaseIffSameLower(tagName, key);
    LowerIdempotent(tagName);
  }

  /**
   * In a hierarchical deep link, the first query parameter matching the tag ignoring case gives
   * the tag, whatever the fragment says and even when its value is empty.
   */
  lemma QueryParameterWins(parse: UriParser, link: string, tagName: string, i: int)
    requires parse(Trim(link)).Hierarchical?
    requires 0 <= i < |parse(Trim(link)).query|
    requires FirstMatchAt(parse(Trim(link)).query, tagName, i)
    ensures TagFromDeeplink(parse, Some(link), tagName) == Some(parse(Trim(link)).query[i].1)
  {
    var query := parse(Trim(link)).query;
    var name := Lower(tagName);
    forall j | 0 <= j < |query|
      ensures EqualsIgnoreCase(name, query[j].0) <==> EqualsIgnoreCase(tagName, query[j].0)
    {
      LowerTagMatchesAlike(tagName, query[j].0);
    }
    assert FirstMatchAt(query, name, i);
    QueryParameterFirstMatch(query, name, i);
  }

  /**
   * The fragment lookup: a tag is found exactly when a `&`-piece of the fragment yields an entry
   * for it, and its value is that of the last such piece. An empty fragment has no such piece.
   */
  lemma FragmentTagLastWins(fragment: Option<string>, name: string)
    ensures var entries := Entries(Split(fragment.GetOr(""), '&'));
      var r := FragmentTag(fragment, name);
      && (r.Some? <==> fragment.Some? && exists i | 0 <= i < |entries| :: Sets(entries[i], name))
      && (r.Some? ==> exists i | 0 <= i < |entries| ::
            && Sets(entries[i], name)
            && entries[i].value.1 == r.value
            && forall j | i < j < |entries| :: !Sets(entries[j], name))
  {
    var entries := Entries(Split(fragment.GetOr(""), '&'));
    PutAllLastWins(entries, name);
    if fragment == Some("") {
      assert Split("", '&') == [""];
      assert Split("", '=') == [""];
      assert entries == [None];
    }
  }

  /** With no query parameter matching the tag ignoring case, the fragment decides. */
  lemma FragmentUsedWithoutQueryMatch(parse: UriParser, link: string, tagName: string)
    requires parse(Trim(link)).Hierarchical?
    requires forall j | 0 <= j < |parse(Trim(link)).query| :: !EqualsIgnoreCase(tagName, parse(Trim(link)).query[j].0)
    ensures TagFromDeeplink(parse, Some(link), tagName) == FragmentTag(parse(Trim(link)).fragment, Lower(tagName))
  {
    var uri := parse(Trim(link));
    var name := Lower(tagName);
    forall j | 0 <= j < |uri.query| ensures !EqualsIgnoreCase(name, uri.query[j].0) {
      LowerTagMatchesAlike(tagName, uri.query[j].0);
    }
  }

  /**
   * `getTagFromPayload`: a value in the custom payload, even an empty one, replaces whatever the
   * deep link gives; without one the deep link decides.
   */
  function TagFromPayload(parse: UriParser, p: Payload, tagName: string): (r: Option<string>)
    ensures tagName in p.custom ==> r == Some(p.custom[tagName])
    ensures tagName !in p.custom ==> r == TagFromDeeplink(parse, p.deeplink, tagName)
  {
    var tag := TagFromDeeplink(parse, p.deeplink, tagName);
    if tagName in p.custom then Some(p.custom[tagName]) else tag
  }

  /** With the tag in the custom payload, no deep link whatsoever changes the result. */
  lemma CustomValueOverridesDeeplink(parse: UriParser, p: Payload, tagName: string, link: string)
    requires tagName in p.custom
    ensures TagFromPayload(parse, p.(deeplink := Some(link)), tagName)
         == TagFromPayload(parse, p.(deeplink := None), tagName)
         == Some(p.custom[tagName])
  {
  }
}

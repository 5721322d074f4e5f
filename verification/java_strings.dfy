/**
 * The handful of `java.lang.String` / Kotlin string operations the dispatcher relies on:
 * ASCII case mapping, `equalsIgnoreCase`, `trim`, `isBlank`, and `split` on a one-character
 * separator with Java's rule of dropping trailing empty pieces.
 */
module JavaStrings {

  // ---------------------------------------------------------------------------
  // Case mapping
  // ---------------------------------------------------------------------------

  predicate IsUpper(c: char) { 'A' <= c <= 'Z' }

  predicate IsLower(c: char) { 'a' <= c <= 'z' }

  /** `Character.toLowerCase`, on the ASCII letters. */
  function LowerChar(c: char): char {
    if IsUpper(c) then (c as int + 32) as char else c
  }

  /** `Character.toUpperCase`, on the ASCII letters. */
  function UpperChar(c: char): char {
    if IsLower(c) then (c as int - 32) as char else c
  }

  /** `String.toLowerCase`: every character mapped through `LowerChar`. */
  function Lower(s: string): (r: string)
    ensures |r| == |s|
    ensures forall i | 0 <= i < |s| :: r[i] == LowerChar(s[i])
  {
    seq(|s|, i requires 0 <= i < |s| => LowerChar(s[i]))
  }

  /** No upper-case letter anywhere in `s`. */
  predicate IsLowerCase(s: string) {
    forall i | 0 <= i < |s| :: !IsUpper(s[i])
  }

  /** Lower-casing leaves no upper-case letter behind, and is the identity on lower-case text. */
  lemma LowerIsLowerCase(s: string)
    ensures IsLowerCase(Lower(s))
    ensures IsLowerCase(s) <==> Lower(s) == s
  {
    if IsLowerCase(s) {
      assert forall i | 0 <= i < |s| :: Lower(s)[i] == s[i];
    }
    if Lower(s) == s {
      assert forall i | 0 <= i < |s| :: !IsUpper(Lower(s)[i]);
    }
  }

  /** `Lower` is idempotent. */
  lemma LowerIdempotent(s: string)
    ensures Lower(Lower(s)) == Lower(s)
  {
    LowerIsLowerCase(s);
    LowerIsLowerCase(Lower(s));
  }

  /**
   * One step of `String.regionMatches(ignoreCase = true, ...)`: two characters match when they
   * are equal, when their upper-case forms are equal, or when the lower-case forms of their
   * upper-case forms are equal.
   */
  predicate CharsEqualIgnoreCase(a: char, b: char) {
    a == b || UpperChar(a) == UpperChar(b) || LowerChar(UpperChar(a)) == LowerChar(UpperChar(b))
  }

  /** `String.equalsIgnoreCase`: same length and every position matches ignoring case. */
  predicate EqualsIgnoreCase(a: string, b: string) {
    |a| == |b| && forall i | 0 <= i < |a| :: CharsEqualIgnoreCase(a[i], b[i])
  }

  lemma CharsEqualIgnoreCaseIffSameLower(a: char, b: char)
    ensures CharsEqualIgnoreCase(a, b) <==> LowerChar(a) == LowerChar(b)
  {
  }

  /** Java's character-wise case-insensitive comparison is equality after lower-casing. */
  lemma EqualsIgnoreCaseIffSameLower(a: string, b: string)
    ensures EqualsIgnoreCase(a, b) <==> Lower(a) == Lower(b)
  {
    if |a| == |b| {
      forall i | 0 <= i < |a|
        ensures CharsEqualIgnoreCase(a[i], b[i]) <==> Lower(a)[i] == Lower(b)[i]
      {
        CharsEqualIgnoreCaseIffSameLower(a[i], b[i]);
      }
      if forall i | 0 <= i < |a| :: Lower(a)[i] == Lower(b)[i] {
        assert Lower(a) == Lower(b);
      }
    }
  }

  // ---------------------------------------------------------------------------
  // Trimming and blankness
  // ---------------------------------------------------------------------------

  /** What `String.trim` strips: every character up to and including the space. */
  predicate IsTrimmable(c: char) { c <= ' ' }

  predicate AllTrimmable(s: string) {
    forall i | 0 <= i < |s| :: IsTrimmable(s[i])
  }

  /** Neither end of `s` can be trimmed. */
  predicate IsTrimmed(s: string) {
    s == "" || (!IsTrimmable(s[0]) && !IsTrimmable(s[|s| - 1]))
  }

  /** The leading loop of `String.trim`: drops trimmable characters from the front. */
  function TrimStart(s: string): (r: string)
    ensures |r| <= |s| && r == s[|s| - |r|..]
    ensures r == "" || !IsTrimmable(r[0])
    ensures AllTrimmable(s[..|s| - |r|])
    decreases |s|
  {
    if |s| > 0 && IsTrimmable(s[0]) then TrimStart(s[1..]) else s
  }

  /** The trailing loop of `String.trim`: drops trimmable characters from the back. */
  function TrimEnd(s: string): (r: string)
    ensures |r| <= |s| && r == s[..|r|]
    ensures r == "" || !IsTrimmable(r[|r| - 1])
    ensures AllTrimmable(s[|r|..])
    decreases |s|
  {
    if |s| > 0 && IsTrimmable(s[|s| - 1]) then TrimEnd(s[..|s| - 1]) else s
  }

  /** `String.trim`. */
  function Trim(s: string): (r: string)
    ensures IsTrimmed(r)
    ensures |r| <= |s|
  {
    TrimEnd(TrimStart(s))
  }

  lemma {:induction false} TrimStartSkipsPadding(pad: string, t: string)
    requires AllTrimmable(pad)
    ensures TrimStart(pad + t) == TrimStart(t)
    decreases |pad|
  {
    if |pad| > 0 {
      assert (pad + t)[1..] == pad[1..] + t;
      TrimStartSkipsPadding(pad[1..], t);
    } else {
      assert pad + t == t;
    }
  }

  lemma {:induction false} TrimStartOfPadding(pad: string)
    requires AllTrimmable(pad)
    ensures TrimStart(pad) == ""
    decreases |pad|
  {
    if |pad| > 0 {
      TrimStartOfPadding(pad[1..]);
    }
  }

  lemma {:induction false} TrimEndSkipsPadding(t: string, pad: string)
    requires AllTrimmable(pad)
    ensures TrimEnd(t + pad) == TrimEnd(t)
    decreases |pad|
  {
    if |pad| > 0 {
      assert (t + pad)[..|t + pad| - 1] == t + pad[..|pad| - 1];
      TrimEndSkipsPadding(t, pad[..|pad| - 1]);
    } else {
      assert t + pad == t;
    }
  }

  /**
   * `trim` returns exactly the core of a string: whatever padding of characters up to the space
   * surrounds a core whose ends are not such characters is removed, and nothing else is.
   */
  lemma TrimRemovesPadding(pre: string, core: string, post: string)
    requires AllTrimmable(pre) && AllTrimmable(post)
    requires IsTrimmed(core)
    ensures Trim(pre + core + post) == core
  {
    assert pre + core + post == pre + (core + post);
    TrimStartSkipsPadding(pre, core + post);
    if core == "" {
      assert core + post == post;
      TrimStartOfPadding(post);
    } else {
      assert (core + post)[0] == core[0];
      assert TrimStart(core + post) == core + post;
      TrimEndSkipsPadding(core, post);
      assert TrimEnd(core) == core;
    }
  }

  /** `trim` is idempotent. */
  lemma TrimIdempotent(s: string)
    ensures Trim(Trim(s)) == Trim(s)
  {
    var t := Trim(s);
    assert "" + t + "" == t;
    assert AllTrimmable("");
    TrimRemovesPadding("", t, "");
  }

  /** Kotlin's `Char.isWhitespace`: Java whitespace or a Unicode space separator. */
  predicate IsWhitespace(c: char) {
    || c == '\t' || c == '\n' || c == '\U{000B}' || c == '\U{000C}' || c == '\r'
    || ('\U{001C}' <= c <= '\U{001F}')
    || c == ' ' || c == '\U{00A0}' || c == '\U{1680}'
    || ('\U{2000}' <= c <= '\U{200A}')
    || c == '\U{2028}' || c == '\U{2029}' || c == '\U{202F}' || c == '\U{205F}' || c == '\U{3000}'
  }

  /** Kotlin's `CharSequence.isBlank`: empty, or whitespace only. */
  predicate IsBlank(s: string) {
    forall i | 0 <= i < |s| :: IsWhitespace(s[i])
  }

  // ---------------------------------------------------------------------------
  // Splitting
  // ---------------------------------------------------------------------------

  /** The pieces joined back together, `sep` between consecutive pieces. */
  function Join(parts: seq<string>, sep: char): string
  {
    if |parts| == 0 then ""
    else if |parts| == 1 then parts[0]
    else parts[0] + [sep] + Join(parts[1..], sep)
  }

  /** Every piece of `s` between occurrences of `sep`, empty pieces included. */
  function SplitAll(s: string, sep: char): (r: seq<string>)
    ensures |r| >= 1
    ensures forall i | 0 <= i < |r| :: sep !in r[i]
    decreases |s|
  {
    if |s| == 0 then [""]
    else
      var rest := SplitAll(s[1..], sep);
      if s[0] == sep then [""] + rest
      else [[s[0]] + rest[0]] + rest[1..]
  }

  /** Splitting and joining back gives the original text. */
  lemma {:induction false} JoinSplitAll(s: string, sep: char)
    ensures Join(SplitAll(s, sep), sep) == s
    decreases |s|
  {
    if |s| > 0 {
      var rest := SplitAll(s[1..], sep);
      JoinSplitAll(s[1..], sep);
      if s[0] == sep {
        assert SplitAll(s, sep) == [""] + rest;
        assert ([""] + rest)[1..] == rest;
        assert s == [s[0]] + s[1..];
      } else {
        var r := SplitAll(s, sep);
        assert r == [[s[0]] + rest[0]] + rest[1..];
        if |rest| == 1 {
          assert Join(r, sep) == [s[0]] + rest[0];
        } else {
          assert r[1..] == rest[1..];
          assert Join(rest, sep) == rest[0] + [sep] + Join(rest[1..], sep);
        }
        assert s == [s[0]] + s[1..];
      }
    }
  }

  /** Java drops trailing empty strings from the result of `split`. */
  function DropTrailingEmpty(parts: seq<string>): (r: seq<string>)
    ensures |r| <= |parts| && r == parts[..|r|]
    ensures r == [] || r[|r| - 1] != ""
    ensures forall k | |r| <= k < |parts| :: parts[k] == ""
    decreases |parts|
  {
    if |parts| > 0 && parts[|parts| - 1] == "" then DropTrailingEmpty(parts[..|parts| - 1]) else parts
  }

  /**
   * `String.split` with a one-character separator: with no separator present the result is the
   * whole string; otherwise it is every piece, trailing empty pieces removed.
   */
  function Split(s: string, sep: char): (r: seq<string>)
    ensures forall i | 0 <= i < |r| :: sep !in r[i]
    ensures sep !in s ==> r == [s]
    ensures sep in s ==> r == [] || r[|r| - 1] != ""
  {
    if sep !in s then [s]
    else
      var all := SplitAll(s, sep);
      var r := DropTrailingEmpty(all);
      assert forall i | 0 <= i < |r| :: r[i] == all[i];
      r
  }

  lemma {:induction false} SplitAllNoSeparator(a: string, sep: char)
    requires sep !in a
    ensures SplitAll(a, sep) == [a]
    decreases |a|
  {
    if |a| > 0 {
      SplitAllNoSeparator(a[1..], sep);
      assert a == [a[0]] + a[1..];
    }
  }

  lemma {:induction false} SplitAllFirstPiece(a: string, sep: char, b: string)
    requires sep !in a
    ensures SplitAll(a + [sep] + b, sep) == [a] + SplitAll(b, sep)
    decreases |a|
  {
    var s := a + [sep] + b;
    if |a| == 0 {
      assert s[0] == sep && s[1..] == b;
    } else {
      assert s[0] == a[0] && s[1..] == a[1..] + [sep] + b;
      SplitAllFirstPiece(a[1..], sep, b);
      assert a == [a[0]] + a[1..];
    }
  }

  lemma {:induction false} SplitAllJoin(parts: seq<string>, sep: char)
    requires |parts| >= 1
    requires forall i | 0 <= i < |parts| :: sep !in parts[i]
    ensures SplitAll(Join(parts, sep), sep) == parts
    ensures sep in Join(parts, sep) <==> |parts| >= 2
    decreases |parts|
  {
    if |parts| == 1 {
      SplitAllNoSeparator(parts[0], sep);
    } else {
      SplitAllJoin(parts[1..], sep);
      SplitAllFirstPiece(parts[0], sep, Join(parts[1..], sep));
      assert parts == [parts[0]] + parts[1..];
      var j := Join(parts, sep);
      assert j[|parts[0]|] == sep;
    }
  }

  /**
   * Round trip: splitting the join of separator-free pieces gives the pieces back, provided the
   * last piece is not an empty one that Java would drop.
   */
  lemma SplitJoin(parts: seq<string>, sep: char)
    requires |parts| >= 1
    requires forall i | 0 <= i < |parts| :: sep !in parts[i]
    requires |parts| == 1 || parts[|parts| - 1] != ""
    ensures Split(Join(parts, sep), sep) == parts
  {
    SplitAllJoin(parts, sep);
  }
}

/**
 * String-level URL helpers: JavaScript's `startsWith`, and the origin of a
 * serialized absolute URL (`scheme://authority` followed by a path, query or
 * fragment).
 */
module Urls {
  import opened Wrappers

  /** `s.startsWith(p)`, comparing the two strings character by character. */
  predicate StartsWith(s: string, p: string)
    decreases p
  {
    p == [] || (s != [] && s[0] == p[0] && StartsWith(s[1..], p[1..]))
  }

  /** The character-by-character scan agrees with the prefix reading of `startsWith`. */
  lemma {:induction false} StartsWithIsPrefix(s: string, p: string)
    ensures StartsWith(s, p) <==> |p| <= |s| && s[..|p|] == p
    decreases p
  {
    if p != [] && s != [] {
      StartsWithIsPrefix(s[1..], p[1..]);
      if |p| <= |s| {
        assert s[..|p|] == [s[0]] + s[1..][..|p| - 1];
        assert p == [p[0]] + p[1..];
      }
    }
  }

  /** The characters that end the authority part of a URL. */
  predicate IsDelimiter(c: char)
  {
    c == '/' || c == '?' || c == '#'
  }

  /** The index of the first delimiter of `s` at or after `i`, or `|s|` when there is none. */
  function NextDelimiter(s: string, i: nat): (k: nat)
    requires i <= |s|
    ensures i <= k <= |s|
    ensures forall j :: i <= j < k ==> !IsDelimiter(s[j])
    ensures k < |s| ==> IsDelimiter(s[k])
    decreases |s| - i
  {
    if i == |s| || IsDelimiter(s[i]) then i else NextDelimiter(s, i + 1)
  }

  /** The three properties above determine `NextDelimiter`. */
  lemma NextDelimiterUnique(s: string, i: nat, k: nat)
    requires i <= k <= |s|
    requires forall j :: i <= j < k ==> !IsDelimiter(s[j])
    requires k < |s| ==> IsDelimiter(s[k])
    ensures NextDelimiter(s, i) == k
  {
  }

  /**
   * The origin of a serialized URL: the scheme, the `//` and the authority,
   * that is everything before the first delimiter after the `//`.  A URL with
   * no `//` right after its scheme has an opaque origin (None).
   */
  function OriginOf(url: string): Option<string>
  {
    var f := NextDelimiter(url, 0);
    if f + 2 <= |url| && url[f..f + 2] == "//" then Some(url[..NextDelimiter(url, f + 2)]) else None
  }

  /** A string of the form `self.location.origin` takes: its own origin. */
  predicate IsOrigin(o: string)
  {
    OriginOf(o) == Some(o)
  }

  /** A URL is on `origin` when it starts with it and its authority ends right there. */
  predicate HasOrigin(url: string, origin: string)
  {
    StartsWith(url, origin) && (|url| == |origin| || (|origin| < |url| && IsDelimiter(url[|origin|])))
  }

  /** For a real origin, `HasOrigin` holds exactly of the URLs whose origin it is. */
  lemma HasOriginIsOriginOf(url: string, origin: string)
    requires IsOrigin(origin)
    ensures HasOrigin(url, origin) <==> OriginOf(url) == Some(origin)
  {
    StartsWithIsPrefix(url, origin);
    var f := NextDelimiter(origin, 0);
    assert f + 2 <= |origin| && origin[f..f + 2] == "//";
    assert NextDelimiter(origin, f + 2) == |origin|;
    if HasOrigin(url, origin) {
      assert url[..|origin|] == origin;
      assert forall j :: 0 <= j < |origin| ==> url[j] == origin[j];
      NextDelimiterUnique(url, 0, f);
      assert url[f..f + 2] == origin[f..f + 2];
      NextDelimiterUnique(url, f + 2, |origin|);
    }
    if OriginOf(url) == Some(origin) {
      var g := NextDelimiter(url, 0);
      var k := NextDelimiter(url, g + 2);
      assert url[..k] == origin;
    }
  }

  /** An origin followed by a path, query or fragment is a URL on that origin. */
  lemma PathOnOrigin(origin: string, rest: string)
    requires rest != [] && IsDelimiter(rest[0])
    ensures HasOrigin(origin + rest, origin)
  {
    StartsWithIsPrefix(origin + rest, origin);
    assert (origin + rest)[..|origin|] == origin;
  }

  /** The origin of a URL whose scheme ends at `f`, followed by `//`, and whose authority ends at `k`. */
  lemma OriginAt(url: string, f: nat, k: nat)
    requires f + 2 <= k <= |url|
    requires forall j :: 0 <= j < f ==> !IsDelimiter(url[j])
    requires url[f] == '/' && url[f + 1] == '/'
    requires forall j :: f + 2 <= j < k ==> !IsDelimiter(url[j])
    requires k < |url| ==> IsDelimiter(url[k])
    ensures OriginOf(url) == Some(url[..k])
  {
    NextDelimiterUnique(url, 0, f);
    NextDelimiterUnique(url, f + 2, k);
    assert url[f..f + 2] == "//";
  }

  /** A URL on a different host can still start with the origin string. */
  lemma StartsWithAdmitsForeignHost()
    ensures IsOrigin("http://a")
    ensures StartsWith("http://ab/", "http://a")
    ensures OriginOf("http://ab/") == Some("http://ab")
    ensures !HasOrigin("http://ab/", "http://a")
  {
    var origin, url := "http://a", "http://ab/";
    OriginAt(origin, 5, 8);
    assert origin[..8] == origin;
    OriginAt(url, 5, 9);
    assert url[..9] == "http://ab";
    StartsWithIsPrefix(url, origin);
    assert url[..8] == origin;
  }
}

/**
 * The cache key of a remote image (image.js, `_processSource`): a digest of
 * the URL's pathname, optionally followed by query values, plus the pathname's
 * "extension" as extracted by the regular expression `/.*\.(.*)/`.
 *
 * The digest (SHA-1 in the source) and URL parsing are library code: the
 * digest is a function parameter and the parsed URL is an input.
 */
module CacheKey {

  /** What URL parsing gives back: pathname, host (with port) and the query as a map. */
  datatype Url = Url(pathname: string, host: string, query: map<string, string>)

  /**
   * The `useQueryParamsInCacheKey` prop: an array of parameter names, or a
   * flag (false by default).
   */
  datatype QueryParamsPolicy = ListedParams(names: seq<string>) | Flag(on: bool)

  /**
   * The text JavaScript appends when `concat` is handed the parsed query
   * object itself: its string conversion, the same for every query.
   */
  const QueryObjectText: string := "[object Object]"

  // ---------------------------------------------------------------------
  // Key material
  // ---------------------------------------------------------------------

  /** The `forEach` of image.js:189-193: append the value of each listed name the query has. */
  function AppendPresent(acc: string, names: seq<string>, query: map<string, string>): string
    decreases |names|
  {
    if names == [] then acc
    else
      var next := if names[0] in query then acc + query[names[0]] else acc;
      AppendPresent(next, names[1..], query)
  }

  /** Reference definition: the values of the listed names the query has, in list order. */
  function SelectedValues(names: seq<string>, query: map<string, string>): string
  {
    if names == [] then ""
    else (if names[0] in query then query[names[0]] else "") + SelectedValues(names[1..], query)
  }

  lemma {:induction false} AppendPresentIsSelected(acc: string, names: seq<string>, query: map<string, string>)
    ensures AppendPresent(acc, names, query) == acc + SelectedValues(names, query)
    decreases |names|
  {
    if names != [] {
      var v := if names[0] in query then query[names[0]] else "";
      var next := if names[0] in query then acc + query[names[0]] else acc;
      assert next == acc + v;
      AppendPresentIsSelected(next, names[1..], query);
      assert (acc + v) + SelectedValues(names[1..], query) == acc + (v + SelectedValues(names[1..], query));
    }
  }

  /** `cacheable` of image.js:187-197: the text the digest is taken of. */
  function KeyMaterial(url: Url, policy: QueryParamsPolicy): (m: string)
    ensures policy.ListedParams? ==> m == url.pathname + SelectedValues(policy.names, url.query)
    ensures policy == Flag(false) ==> m == url.pathname
    ensures policy == Flag(true) ==> m == url.pathname + QueryObjectText
  {
    match policy
    case ListedParams(names) =>
      AppendPresentIsSelected(url.pathname, names, url.query);
      AppendPresent(url.pathname, names, url.query)
    case Flag(on) =>
      if on then url.pathname + QueryObjectText else url.pathname
  }

  /** Two queries that agree on every listed name: both lack it, or both have it with the same value. */
  ghost predicate AgreeOn(names: seq<string>, q1: map<string, string>, q2: map<string, string>)
  {
    forall k :: k in names ==> (k in q1 <==> k in q2) && (k in q1 ==> q1[k] == q2[k])
  }

  lemma {:induction false} SelectedValuesOnlyReadListed(names: seq<string>, q1: map<string, string>, q2: map<string, string>)
    requires AgreeOn(names, q1, q2)
    ensures SelectedValues(names, q1) == SelectedValues(names, q2)
  {
    if names != [] {
      assert names[0] in names;
      assert AgreeOn(names[1..], q1, q2) by {
        forall k | k in names[1..] ensures (k in q1 <==> k in q2) && (k in q1 ==> q1[k] == q2[k]) {
          assert k in names;
        }
      }
      SelectedValuesOnlyReadListed(names[1..], q1, q2);
    }
  }

  // ---------------------------------------------------------------------
  // The extension: `pathname.replace(/.*\.(.*)/, '$1')`
  // ---------------------------------------------------------------------

  /** The characters JavaScript's `.` does not match. */
  predicate IsLineTerminator(c: char)
  {
    c == '\n' || c == '\r' || c == '\U{2028}' || c == '\U{2029}'
  }

  /** Index of the first line terminator, or the length when there is none. */
  function LineEnd(s: string): (j: nat)
    ensures j <= |s|
    ensures forall k :: 0 <= k < j ==> !IsLineTerminator(s[k])
    ensures j < |s| ==> IsLineTerminator(s[j])
  {
    if s == [] || IsLineTerminator(s[0]) then 0 else 1 + LineEnd(s[1..])
  }

  /** The text after the last '.', which must be there. */
  function AfterLastDot(s: string): (t: string)
    requires '.' in s
    ensures |t| < |s| && s[|s| - |t| - 1] == '.' && t == s[|s| - |t|..]
    ensures '.' !in t
  {
    if s[|s| - 1] == '.' then ""
    else
      var init := s[..|s| - 1];
      assert '.' in init by {
        var i :| 0 <= i < |s| && s[i] == '.';
        assert init[i] == '.';
      }
      var t := AfterLastDot(init);
      assert s == init + [s[|s| - 1]];
      t + [s[|s| - 1]]
  }

  /**
   * `s.replace(/.*\.(.*)/, '$1')`. The leftmost match starts at the first
   * line that holds a '.'; there the greedy `.*` runs to that line's last
   * '.', and the group takes the rest of the line. Only that match is
   * replaced, by the group. Shorter than `s` exactly when `s` has a '.'.
   */
  function TypeText(s: string): (t: string)
    ensures |t| <= |s|
    ensures |t| < |s| <==> '.' in s
    decreases |s|
  {
    var j := LineEnd(s);
    var line := s[..j];
    if '.' in line then
      AfterLastDot(line) + s[j..]
    else if j == |s| then
      assert line == s;
      s
    else
      var rest := TypeText(s[j + 1..]);
      assert s == line + [s[j]] + s[j + 1..];
      line + [s[j]] + rest
  }

  /** On a single-line pathname the "extension" is the text after its last '.'. */
  lemma SingleLineTypeText(s: string)
    requires forall k :: 0 <= k < |s| ==> !IsLineTerminator(s[k])
    ensures '.' in s ==> TypeText(s) == AfterLastDot(s)
    ensures '.' !in s ==> TypeText(s) == s
  {
    var j := LineEnd(s);
    assert j == |s|;
    assert s[..j] == s;
  }

  /** The usual case: "/img/photo.jpg" has extension "jpg". */
  lemma TypeTextOfPhoto()
    ensures TypeText("/img/photo.jpg") == "jpg"
  {
    SingleLineTypeText("/img/photo.jpg");
    assert AfterLastDot("/img/photo.") == "";
    assert AfterLastDot("/img/photo.j") == "j";
    assert AfterLastDot("/img/photo.jp") == "jp";
    assert AfterLastDot("/img/photo.jpg") == "jpg";
  }

  /**
   * The last '.' need not be in the last path segment: for "/a.b/c" the
   * "extension" is "b/c", so the key holds a '/' and names a file one
   * directory below the cache directory.
   */
  lemma TypeTextCanHoldSlash()
    ensures TypeText("/a.b/c") == "b/c"
  {
    SingleLineTypeText("/a.b/c");
    assert AfterLastDot("/a.") == "";
    assert AfterLastDot("/a.b") == "b";
    assert AfterLastDot("/a.b/") == "b/";
    assert AfterLastDot("/a.b/c") == "b/c";
  }

  // ---------------------------------------------------------------------
  // The key
  // ---------------------------------------------------------------------

  /** `cacheKey` of image.js:199-200. */
  function CacheKeyFor(sha1: string -> string, url: Url, policy: QueryParamsPolicy): (key: string)
    ensures '.' !in url.pathname ==> key == sha1(KeyMaterial(url, policy))
    ensures '.' in url.pathname ==> key == sha1(KeyMaterial(url, policy)) + "." + TypeText(url.pathname)
  {
    var material := KeyMaterial(url, policy);
    var t := TypeText(url.pathname);
    sha1(material) + (if |t| < |url.pathname| then "." + t else "")
  }

  /**
   * URLs with the same pathname whose queries agree on what the policy reads
   * share a key: with the `false` policy and with the `true` policy that means
   * any two queries; with a list, the listed names.
   */
  lemma SameKeyForAgreeingQueries(sha1: string -> string, u1: Url, u2: Url, policy: QueryParamsPolicy)
    requires u1.pathname == u2.pathname
    requires policy.ListedParams? ==> AgreeOn(policy.names, u1.query, u2.query)
    ensures KeyMaterial(u1, policy) == KeyMaterial(u2, policy)
    ensures CacheKeyFor(sha1, u1, policy) == CacheKeyFor(sha1, u2, policy)
  {
    if policy.ListedParams? {
      SelectedValuesOnlyReadListed(policy.names, u1.query, u2.query);
    }
  }

  /** For one pathname the suffix is fixed, so keys collide exactly when the digests do. */
  lemma KeysEqualIffDigestsEqual(sha1: string -> string, u1: Url, u2: Url, policy: QueryParamsPolicy)
    requires u1.pathname == u2.pathname
    ensures CacheKeyFor(sha1, u1, policy) == CacheKeyFor(sha1, u2, policy)
            <==> sha1(KeyMaterial(u1, policy)) == sha1(KeyMaterial(u2, policy))
  {
    var d1, d2 := sha1(KeyMaterial(u1, policy)), sha1(KeyMaterial(u2, policy));
    var suffix := if '.' in u1.pathname then "." + TypeText(u1.pathname) else "";
    assert CacheKeyFor(sha1, u1, policy) == d1 + suffix;
    assert CacheKeyFor(sha1, u2, policy) == d2 + suffix;
    if d1 + suffix == d2 + suffix {
      assert |d1| == |d2|;
      assert d1 == (d1 + suffix)[..|d1|];
      assert d2 == (d2 + suffix)[..|d2|];
    }
  }

  /** With the list ["v"], "?v=2" and "?v=3" give different material, so different keys unless SHA-1 collides. */
  lemma ListedValueSeparatesKeys()
    ensures KeyMaterial(Url("/img/photo.jpg", "cdn.example.com", map["v" := "2"]), ListedParams(["v"]))
         != KeyMaterial(Url("/img/photo.jpg", "cdn.example.com", map["v" := "3"]), ListedParams(["v"]))
  {
    var p := "/img/photo.jpg";
    assert SelectedValues(["v"], map["v" := "2"]) == "2";
    assert SelectedValues(["v"], map["v" := "3"]) == "3";
    assert (p + "2")[|p|] != (p + "3")[|p|];
  }

  /**
   * The values are concatenated with no separator, so different queries can
   * give the same material: a=1&b=23 and a=12&b=3 under the list ["a", "b"].
   */
  lemma ListedValuesCanCollide()
    ensures KeyMaterial(Url("/p", "h", map["a" := "1", "b" := "23"]), ListedParams(["a", "b"]))
         == KeyMaterial(Url("/p", "h", map["a" := "12", "b" := "3"]), ListedParams(["a", "b"]))
  {
  }
}

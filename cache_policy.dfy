/**
 * The edge's cacheability policy (`isCacheable`): which origin responses may
 * be stored, decided from the cache key and the response's content type alone.
 */
module CachePolicy {
  import opened Wrappers

  /** Requests under this prefix are dynamic and are never cached. */
  const ApiPrefix: string := "/api/"

  /** Content-type prefixes the edge stores, in the order the source lists them. */
  const CacheableTypes: seq<string> :=
    ["text/html", "text/css", "application/javascript", "image/", "font/"]

  /** `s.startsWith(prefix)`: the first `|prefix|` characters of `s` are those of `prefix`. */
  predicate StartsWith(s: string, prefix: string)
    ensures StartsWith(s, prefix) <==>
      |prefix| <= |s| && forall i :: 0 <= i < |prefix| ==> s[i] == prefix[i]
  {
    |prefix| <= |s| && s[..|prefix|] == prefix
  }

  /**
   * `types.some(t => s.startsWith(t))`, one element at a time: an empty list
   * matches nothing and a match on the first element decides at once.
   */
  predicate AnyPrefixOf(types: seq<string>, s: string)
    ensures types == [] ==> !AnyPrefixOf(types, s)
    ensures |types| > 0 && StartsWith(s, types[0]) ==> AnyPrefixOf(types, s)
    decreases |types|
  {
    |types| > 0 && (StartsWith(s, types[0]) || AnyPrefixOf(types[1..], s))
  }

  /** May a response with this content type, fetched for this key, be stored? */
  function IsCacheable(url: string, contentType: Option<string>): (r: bool)
    ensures StartsWith(url, ApiPrefix) ==> !r
    ensures r ==> contentType.Some?
  {
    if StartsWith(url, ApiPrefix) then false
    else contentType.Some? && AnyPrefixOf(CacheableTypes, contentType.value)
  }

  /** The `.some` scan finds a match exactly when some listed prefix matches. */
  lemma {:induction false} AnyPrefixOfIff(types: seq<string>, s: string)
    ensures AnyPrefixOf(types, s) <==> exists i :: 0 <= i < |types| && StartsWith(s, types[i])
    decreases |types|
  {
    if |types| > 0 {
      AnyPrefixOfIff(types[1..], s);
      if AnyPrefixOf(types[1..], s) {
        var i :| 0 <= i < |types| - 1 && StartsWith(s, types[1..][i]);
        assert types[i + 1] == types[1..][i];
      }
      if (exists i :: 0 <= i < |types| && StartsWith(s, types[i])) && !StartsWith(s, types[0]) {
        var i :| 0 <= i < |types| && StartsWith(s, types[i]);
        assert i > 0 && types[1..][i - 1] == types[i];
      }
    }
  }

  /**
   * The whole policy, written out: never for an API key; otherwise only when a
   * content type is present and starts with one of the five allowed prefixes.
   */
  lemma IsCacheableIff(url: string, contentType: Option<string>)
    ensures IsCacheable(url, contentType) <==>
      && !StartsWith(url, "/api/")
      && contentType.Some?
      && (|| StartsWith(contentType.value, "text/html")
          || StartsWith(contentType.value, "text/css")
          || StartsWith(contentType.value, "application/javascript")
          || StartsWith(contentType.value, "image/")
          || StartsWith(contentType.value, "font/"))
  {
  }

  /** An API key is refused even with an allowed content type; other cases of the policy. */
  lemma PolicyExamples()
    ensures !IsCacheable("/api/x", Some("text/html"))
    ensures !IsCacheable("/x.bin", Some("application/octet-stream"))
    ensures IsCacheable("/x.png", Some("image/png"))
    ensures !IsCacheable("/index.html", None)
  {
    var bin, png := "application/octet-stream", "image/png";
    assert !StartsWith("/x.bin", ApiPrefix) by { assert "/x.bin"[1] != ApiPrefix[1]; }
    assert !StartsWith("/x.png", ApiPrefix) by { assert "/x.png"[1] != ApiPrefix[1]; }
    assert !StartsWith(bin, "text/html") && !StartsWith(bin, "text/css") by { assert bin[0] == 'a'; }
    assert !StartsWith(bin, "image/") && !StartsWith(bin, "font/") by { assert bin[0] == 'a'; }
    assert !StartsWith(bin, "application/javascript") by { assert bin[12] == 'o'; }
    assert StartsWith(png, "image/") by { assert png[..6] == "image/"; }
    IsCacheableIff("/x.bin", Some(bin));
    IsCacheableIff("/x.png", Some(png));
  }
}

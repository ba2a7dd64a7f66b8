/**
 * The fetch handler's routing decision: which requests the worker leaves
 * alone, and which caching strategy handles each of the others. A pure
 * function of the request's method and of its URL's protocol, hostname and
 * pathname.
 */
module Classifier {

  /** An intercepted request; the URL is given already split into its parts. */
  datatype Request = Request(httpMethod: string, url: string, protocol: string, hostname: string, pathname: string)

  /** What the fetch handler does with a request. */
  datatype Route = PassThrough | CacheFirst | NetworkFirst | StaleWhileRevalidate

  /** `s.endsWith(suffix)`. */
  predicate EndsWith(s: string, suffix: string)
  {
    |suffix| <= |s| && s[|s| - |suffix|..] == suffix
  }

  /** `s.includes(part)`, searched from the left. */
  predicate Includes(s: string, part: string)
    decreases |s|
  {
    if |s| < |part| then false
    else s[..|part|] == part || Includes(s[1..], part)
  }

  /** `part` occurs in `s` starting at index `i`. */
  predicate OccursAt(s: string, part: string, i: int)
  {
    0 <= i && i + |part| <= |s| && s[i..i + |part|] == part
  }

  /** The file suffixes of static assets: fonts, images and audio. */
  const STATIC_SUFFIXES: seq<string> := [".woff2", ".woff", ".svg", ".png", ".jpg", ".mp3", ".wav", ".ogg"]

  /** The path segments of static assets: background images and audio. */
  const STATIC_SEGMENTS: seq<string> := ["/backgrounds/", "/audio/"]

  /** The hosts of the remote APIs and of the raw GitHub content. */
  const API_HOSTS: seq<string> := ["libretranslate.com", "languagetool.org", "githubusercontent.com"]

  /**
   * Static assets: fonts, background images, icons and audio. The ten
   * tests are asked in the order of the worker; the result is the same as
   * asking whether any static suffix ends the path or any static segment
   * occurs in it.
   */
  function IsStaticAsset(pathname: string): (r: bool)
    ensures r ==> || (exists e :: e in STATIC_SUFFIXES && EndsWith(pathname, e))
                  || (exists p :: p in STATIC_SEGMENTS && Includes(pathname, p))
    ensures (exists e :: e in STATIC_SUFFIXES && EndsWith(pathname, e)) ==> r
    ensures (exists p :: p in STATIC_SEGMENTS && Includes(pathname, p)) ==> r
  {
    assert forall i :: 0 <= i < |STATIC_SUFFIXES| ==> STATIC_SUFFIXES[i] in STATIC_SUFFIXES;
    assert forall i :: 0 <= i < |STATIC_SEGMENTS| ==> STATIC_SEGMENTS[i] in STATIC_SEGMENTS;
    assert && STATIC_SUFFIXES[0] == ".woff2" && STATIC_SUFFIXES[1] == ".woff"
           && STATIC_SUFFIXES[2] == ".svg" && STATIC_SUFFIXES[3] == ".png" && STATIC_SUFFIXES[4] == ".jpg"
           && STATIC_SUFFIXES[5] == ".mp3" && STATIC_SUFFIXES[6] == ".wav" && STATIC_SUFFIXES[7] == ".ogg";
    assert STATIC_SEGMENTS[0] == "/backgrounds/" && STATIC_SEGMENTS[1] == "/audio/";
    || EndsWith(pathname, ".woff2")
    || EndsWith(pathname, ".woff")
    || Includes(pathname, "/backgrounds/")
    || EndsWith(pathname, ".svg")
    || EndsWith(pathname, ".png")
    || EndsWith(pathname, ".jpg")
    || EndsWith(pathname, ".mp3")
    || EndsWith(pathname, ".wav")
    || EndsWith(pathname, ".ogg")
    || Includes(pathname, "/audio/")
  }

  /** Hosts of the remote APIs and of the raw GitHub content. */
  function IsApiHost(hostname: string): (r: bool)
    ensures r ==> exists h :: h in API_HOSTS && Includes(hostname, h)
    ensures (exists h :: h in API_HOSTS && Includes(hostname, h)) ==> r
  {
    assert API_HOSTS[0] == "libretranslate.com" && API_HOSTS[1] == "languagetool.org"
           && API_HOSTS[2] == "githubusercontent.com";
    || Includes(hostname, "libretranslate.com")
    || Includes(hostname, "languagetool.org")
    || Includes(hostname, "githubusercontent.com")
  }

  /**
   * Non-GET requests and extension URLs pass through; every other request
   * gets exactly one strategy, and the static-asset test is asked before
   * the API-host test.
   */
  function Classify(req: Request): (r: Route)
    ensures r == PassThrough <==> req.httpMethod != "GET" || req.protocol == "chrome-extension:"
    ensures r == CacheFirst <==> r != PassThrough && IsStaticAsset(req.pathname)
    ensures r == NetworkFirst <==> r != PassThrough && !IsStaticAsset(req.pathname) && IsApiHost(req.hostname)
    ensures r == StaleWhileRevalidate <==> r != PassThrough && !IsStaticAsset(req.pathname) && !IsApiHost(req.hostname)
  {
    if req.httpMethod != "GET" then PassThrough
    else if req.protocol == "chrome-extension:" then PassThrough
    else if IsStaticAsset(req.pathname) then CacheFirst
    else if IsApiHost(req.hostname) then NetworkFirst
    else StaleWhileRevalidate
  }

  /** The left-to-right search finds `part` exactly when it occurs somewhere. */
  lemma {:induction false} IncludesIff(s: string, part: string)
    ensures Includes(s, part) <==> exists i :: OccursAt(s, part, i)
    decreases |s|
  {
    if |s| < |part| {
      assert forall i :: !OccursAt(s, part, i);
    } else if s[..|part|] == part {
      assert OccursAt(s, part, 0);
    } else {
      IncludesIff(s[1..], part);
      if Includes(s[1..], part) {
        var i :| OccursAt(s[1..], part, i);
        assert s[1..][i..i + |part|] == s[i + 1..i + 1 + |part|];
        assert OccursAt(s, part, i + 1);
      } else {
        forall i | OccursAt(s, part, i)
          ensures false
        {
          assert i != 0;
          assert s[1..][i - 1..i - 1 + |part|] == s[i..i + |part|];
          assert OccursAt(s[1..], part, i - 1);
        }
      }
    }
  }

  /** Any path with a static suffix ends with it. */
  lemma EndsWithAppended(stem: string, suffix: string)
    ensures EndsWith(stem + suffix, suffix)
  {
    assert (stem + suffix)[|stem|..] == suffix;
  }

  /**
   * The static-asset test wins over the API-host test: a PNG served from
   * raw.githubusercontent.com, an API host, is still handled cache-first.
   */
  lemma GitHubImageIsCacheFirst(url: string, stem: string)
    ensures Classify(Request("GET", url, "https:", "raw.githubusercontent.com", stem + ".png")) == CacheFirst
  {
    EndsWithAppended(stem, ".png");
  }

  /** The LibreTranslate detection endpoint is not a static asset. */
  lemma DetectEndpointIsNotStatic()
    ensures !IsStaticAsset("/detect")
  {
    assert !Includes("/detect", "/backgrounds/");
    assert "/detect"[..7][1] != "/audio/"[1];
    assert !Includes("/detect"[1..], "/audio/");
    assert !Includes("/detect", "/audio/");
  }

  /** A call to the LibreTranslate API is handled network-first. */
  lemma TranslationApiIsNetworkFirst(url: string)
    ensures Classify(Request("GET", url, "https:", "libretranslate.com", "/detect")) == NetworkFirst
  {
    DetectEndpointIsNotStatic();
    assert Includes("libretranslate.com", "libretranslate.com");
  }

  /** The application's start page is handled stale-while-revalidate. */
  lemma StartPageIsStaleWhileRevalidate(url: string)
    ensures Classify(Request("GET", url, "http:", "localhost", "/")) == StaleWhileRevalidate
  {
  }

  /** A POST is never intercepted, even to a path that looks like a static asset. */
  lemma PostOfImagePassesThrough(url: string, stem: string)
    ensures Classify(Request("POST", url, "https:", "raw.githubusercontent.com", stem + ".png")) == PassThrough
  {
  }
}

/** Query construction of `search_songs`: the BPM window, the choice of
    endpoint path, the URL the f-strings build and the parameter map. */
module SongQuery {
  import opened Wrappers
  import opened Text

  /** `self.base_url`, fixed by the client's constructor. */
  const BaseUrl: string := "https://api.getsongbpm.com"

  /** The tempo range sent upstream. */
  datatype Window = Window(min: int, max: int)

  /** `bpm_min = bpm - bpm_tolerance`, `bpm_max = bpm + bpm_tolerance`: a
      window centred on `bpm` of half-width `tolerance`. Nothing is validated,
      so a negative tolerance gives `min > max` and a negative or zero `bpm`
      passes through. */
  function TempoWindow(bpm: int, tolerance: int): (w: Window)
    ensures w.min + w.max == 2 * bpm
    ensures w.max - w.min == 2 * tolerance
  {
    Window(bpm - tolerance, bpm + tolerance)
  }

  /** A tempo lies in the window exactly when it is within `tolerance` of `bpm`. */
  lemma WindowMembership(bpm: int, tolerance: int, tempo: int)
    ensures var w := TempoWindow(bpm, tolerance);
            w.min <= tempo <= w.max <==> (tempo - bpm <= tolerance && bpm - tempo <= tolerance)
  {
  }

  /** The two upstream endpoints the search may target. */
  datatype Endpoint =
    | ArtistTempo(artist: string, window: Window)
    | Tempo(window: Window)

  /** `if artist:` -- a non-empty artist name selects the artist-scoped
      endpoint, `None` and `""` the general one. */
  function ChooseEndpoint(artist: Option<string>, w: Window): (e: Endpoint)
    ensures e.window == w
    ensures e.ArtistTempo? <==> Present(artist)
    ensures e.ArtistTempo? ==> e.artist == artist.value
  {
    if Present(artist) then ArtistTempo(artist.value, w) else Tempo(w)
  }

  /** Endpoints that `ChooseEndpoint` can produce. */
  predicate WellFormed(e: Endpoint) {
    e.ArtistTempo? ==> e.artist != ""
  }

  /** The f-string URL of an endpoint; the artist name is inserted verbatim,
      without URL encoding, and the bounds are written by `str(int)`. */
  function Url(e: Endpoint): (r: string)
    ensures |r| > |BaseUrl| && r[..|BaseUrl|] == BaseUrl
    ensures r[|r| - 1] == '/'
  {
    match e
    case ArtistTempo(artist, w) =>
      BaseUrl + "/artist/" + artist + "/tempo/" + IntToString(w.min) + "/" + IntToString(w.max) + "/"
    case Tempo(w) =>
      BaseUrl + "/tempo/" + IntToString(w.min) + "/" + IntToString(w.max) + "/"
  }

  /** Index of the last occurrence of `c` in `s`. */
  function LastIndexOf(s: string, c: char): (r: Option<nat>)
    ensures r.None? ==> forall j :: 0 <= j < |s| ==> s[j] != c
    ensures r.Some? ==> r.value < |s| && s[r.value] == c
    ensures r.Some? ==> forall j :: r.value < j < |s| ==> s[j] != c
    decreases |s|
  {
    if s == [] then None
    else if s[|s| - 1] == c then Some(|s| - 1)
    else LastIndexOf(s[..|s| - 1], c)
  }

  /** Splits `s` around its last slash. */
  function SplitLast(s: string): Option<(string, string)> {
    match LastIndexOf(s, '/')
    case None => None
    case Some(k) => Some((s[..k], s[k + 1..]))
  }

  lemma SplitLastConcat(x: string, y: string)
    requires '/' !in y
    ensures SplitLast(x + "/" + y) == Some((x, y))
  {
    var s := x + "/" + y;
    assert s[|x|] == '/';
    assert forall j :: |x| < j < |s| ==> s[j] == y[j - |x| - 1];
    var r := LastIndexOf(s, '/');
    assert r.Some?;
    assert r.value == |x|;
    assert s[..|x|] == x;
    assert s[|x| + 1..] == y;
  }

  /** The part of `ParseUrl` after the window: which endpoint the path prefix names. */
  function ParsePrefix(prefix: string, w: Window): Option<Endpoint> {
    if prefix == "/tempo" then Some(Tempo(w))
    else if |prefix| > 14 && prefix[..8] == "/artist/" && prefix[|prefix| - 6..] == "/tempo" then
      Some(ArtistTempo(prefix[8..|prefix| - 6], w))
    else None
  }

  /** The part of `ParseUrl` after the base URL: the two bounds are the last
      two slash-separated segments before the trailing slash. */
  function ParsePath(rest: string): Option<Endpoint> {
    if rest == [] || rest[|rest| - 1] != '/' then None
    else
      match SplitLast(rest[..|rest| - 1])
      case None => None
      case Some((front, maxText)) =>
        match SplitLast(front)
        case None => None
        case Some((prefix, minText)) =>
          match (ParseInt(minText), ParseInt(maxText))
          case (Some(lo), Some(hi)) => ParsePrefix(prefix, Window(lo, hi))
          case _ => None
  }

  /** Reads a URL built by `Url` back into the endpoint it came from. The
      artist name is taken to be everything between "/artist/" and the last
      "/tempo/", so a name that itself contains slashes is still recovered. */
  function ParseUrl(s: string): Option<Endpoint> {
    if |s| < |BaseUrl| || s[..|BaseUrl|] != BaseUrl then None
    else ParsePath(s[|BaseUrl|..])
  }

  function PathPrefix(e: Endpoint): string {
    match e
    case ArtistTempo(artist, _) => "/artist/" + artist + "/tempo"
    case Tempo(_) => "/tempo"
  }

  /** Regrouping of the concatenations that build a URL around its path prefix. */
  lemma Regroup(base: string, prefix: string, lo: string, hi: string)
    ensures base + prefix + "/" + lo + "/" + hi + "/" == base + (prefix + "/" + lo + "/" + hi + "/")
  {
  }

  lemma UrlShape(e: Endpoint)
    ensures Url(e) == BaseUrl + (PathPrefix(e) + "/" + IntToString(e.window.min) + "/" + IntToString(e.window.max) + "/")
  {
    var lo, hi := IntToString(e.window.min), IntToString(e.window.max);
    match e
    case ArtistTempo(artist, w) =>
      assert BaseUrl + "/artist/" + artist + "/tempo/" == BaseUrl + ("/artist/" + artist + "/tempo") + "/";
      Regroup(BaseUrl, "/artist/" + artist + "/tempo", lo, hi);
    case Tempo(w) =>
      assert BaseUrl + "/tempo/" == BaseUrl + "/tempo" + "/";
      Regroup(BaseUrl, "/tempo", lo, hi);
  }

  lemma ParsePathOf(prefix: string, w: Window)
    ensures ParsePath(prefix + "/" + IntToString(w.min) + "/" + IntToString(w.max) + "/") == ParsePrefix(prefix, w)
  {
    var lo, hi := IntToString(w.min), IntToString(w.max);
    var rest := prefix + "/" + lo + "/" + hi + "/";
    assert rest[..|rest| - 1] == (prefix + "/" + lo) + "/" + hi;
    SplitLastConcat(prefix + "/" + lo, hi);
    SplitLastConcat(prefix, lo);
    IntToStringRoundTrip(w.min);
    IntToStringRoundTrip(w.max);
  }

  lemma ParsePrefixOf(e: Endpoint)
    requires WellFormed(e)
    ensures ParsePrefix(PathPrefix(e), e.window) == Some(e)
  {
  }

  /** The URL determines the endpoint, its artist and its window. */
  lemma UrlRoundTrip(e: Endpoint)
    requires WellFormed(e)
    ensures ParseUrl(Url(e)) == Some(e)
  {
    var rest := PathPrefix(e) + "/" + IntToString(e.window.min) + "/" + IntToString(e.window.max) + "/";
    UrlShape(e);
    assert Url(e)[..|BaseUrl|] == BaseUrl;
    assert Url(e)[|BaseUrl|..] == rest;
    ParsePathOf(PathPrefix(e), e.window);
    ParsePrefixOf(e);
  }

  /** Two different well-formed endpoints (artist and window) never share a
      URL. Searches that differ only in the limit, or in an artist of `None`
      against `""`, do share one. */
  lemma UrlInjective(e1: Endpoint, e2: Endpoint)
    requires WellFormed(e1) && WellFormed(e2)
    requires Url(e1) == Url(e2)
    ensures e1 == e2
  {
    UrlRoundTrip(e1);
    UrlRoundTrip(e2);
  }

  /** One upstream request: the URL and the query parameters. */
  datatype Query = Query(url: string, params: map<string, int>)

  /** Lines 84-93 of `search_songs`: the URL names the window
      `[bpm - tolerance, bpm + tolerance]` and, when the artist argument is
      truthy, that artist verbatim; the parameters are exactly `{"limit": limit}`. */
  function BuildQuery(bpm: int, tolerance: int, artist: Option<string>, limit: int): (q: Query)
    ensures q.params == map["limit" := limit]
    ensures ParseUrl(q.url).Some?
    ensures var e := ParseUrl(q.url).value;
            && e.window.min == bpm - tolerance
            && e.window.max == bpm + tolerance
            && (e.ArtistTempo? <==> Present(artist))
            && (e.ArtistTempo? ==> e.artist == artist.value)
  {
    var e := ChooseEndpoint(artist, TempoWindow(bpm, tolerance));
    UrlRoundTrip(e);
    Query(Url(e), map["limit" := limit])
  }

  /** With no artist, or an empty one, the general tempo path is used. */
  lemma NoArtistUsesTempoPath(bpm: int, tolerance: int, artist: Option<string>, limit: int)
    requires artist == None || artist == Some("")
    ensures BuildQuery(bpm, tolerance, artist, limit).url
            == BaseUrl + "/tempo/" + IntToString(bpm - tolerance) + "/" + IntToString(bpm + tolerance) + "/"
  {
    assert BuildQuery(bpm, tolerance, artist, limit).url == Url(Tempo(Window(bpm - tolerance, bpm + tolerance)));
  }

  /** A non-empty artist is placed, unencoded, between "/artist/" and "/tempo/". */
  lemma ArtistUsesArtistPath(bpm: int, tolerance: int, artist: string, limit: int)
    requires artist != ""
    ensures BuildQuery(bpm, tolerance, Some(artist), limit).url
            == BaseUrl + "/artist/" + artist + "/tempo/" + IntToString(bpm - tolerance) + "/"
               + IntToString(bpm + tolerance) + "/"
  {
    assert BuildQuery(bpm, tolerance, Some(artist), limit).url
        == Url(ArtistTempo(artist, Window(bpm - tolerance, bpm + tolerance)));
  }
}

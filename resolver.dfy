/** URL classification (`Bandrip.from_url`), the page URLs the downloader
    builds, and the flow selection made by `Bandrip#initialize`. */
module Resolver {
  import opened Wrappers
  import opened RubyText

  /** The host suffix every Bandcamp artist site carries (13 characters). */
  const Domain: string := ".bandcamp.com"
  const TrackPrefix: string := "/track/"
  const AlbumPrefix: string := "/album/"
  /** The paths that denote an artist's own front page. */
  const BrowsePaths: seq<string> := ["/", "/music", ""]

  /** What a URL refers to: one track, one album, or an artist's catalogue. */
  datatype Target =
    | TrackTarget(artist: string, slug: string)
    | AlbumTarget(artist: string, slug: string)
    | BrowseTarget(artist: string)

  /** The ArgumentError "not a valid Bandcamp URL". */
  datatype UrlError = InvalidUrl

  /** `from_url` over the host and path of the parsed URL. The artist is the
      host minus its `.bandcamp.com` suffix; the path is matched against `/track/`
      first, then `/album/`, then the three browse paths. */
  function FromUrl(host: string, path: string): (r: Result<Target, UrlError>)
    ensures r.Success? ==> host == r.value.artist + Domain
    ensures r.Success? && r.value.TrackTarget? ==> path == TrackPrefix + r.value.slug
    ensures r.Success? && r.value.AlbumTarget? ==> path == AlbumPrefix + r.value.slug
    ensures r.Success? && r.value.BrowseTarget? ==> path in BrowsePaths
    ensures r.Failure? <==>
              !EndsWith(host, Domain)
              || !(StartsWith(path, TrackPrefix) || StartsWith(path, AlbumPrefix) || path in BrowsePaths)
  {
    if !EndsWith(host, Domain) then Failure(InvalidUrl)
    else
      var artist := host[..|host| - 13];
      assert host == artist + Domain;
      if StartsWith(path, TrackPrefix) then
        assert path == TrackPrefix + path[7..];
        Success(TrackTarget(artist, path[7..]))
      else if StartsWith(path, AlbumPrefix) then
        assert path == AlbumPrefix + path[7..];
        Success(AlbumTarget(artist, path[7..]))
      else if path in BrowsePaths then Success(BrowseTarget(artist))
      else Failure(InvalidUrl)
  }

  /** A host with the Bandcamp suffix yields exactly the label in front of it. */
  lemma ArtistOfHost(a: string, path: string)
    ensures FromUrl(a + Domain, path).Success? ==> FromUrl(a + Domain, path).value.artist == a
  {
    EndsWithSuffix(a, Domain);
  }

  /** A URL is a track exactly when its host is `<artist>.bandcamp.com` and
      its path is `/track/<slug>`. */
  lemma TrackIff(host: string, path: string, a: string, s: string)
    ensures FromUrl(host, path) == Success(TrackTarget(a, s))
            <==> host == a + Domain && path == TrackPrefix + s
  {
    if host == a + Domain && path == TrackPrefix + s {
      EndsWithSuffix(a, Domain);
      StartsWithPrefix(TrackPrefix, s);
    }
  }

  /** A URL is an album exactly when its host is `<artist>.bandcamp.com` and
      its path is `/album/<slug>`; no such path also starts with `/track/`. */
  lemma AlbumIff(host: string, path: string, a: string, s: string)
    ensures FromUrl(host, path) == Success(AlbumTarget(a, s))
            <==> host == a + Domain && path == AlbumPrefix + s
  {
    if host == a + Domain && path == AlbumPrefix + s {
      EndsWithSuffix(a, Domain);
      StartsWithPrefix(AlbumPrefix, s);
      assert path[1] == 'a';
    }
  }

  /** A URL is an artist browse exactly when its host is
      `<artist>.bandcamp.com` and its path is `''`, `'/'` or `'/music'`. */
  lemma BrowseIff(host: string, path: string, a: string)
    ensures FromUrl(host, path) == Success(BrowseTarget(a))
            <==> host == a + Domain && path in BrowsePaths
  {
    if host == a + Domain && path in BrowsePaths {
      EndsWithSuffix(a, Domain);
      assert !StartsWith(path, TrackPrefix) && !StartsWith(path, AlbumPrefix);
    }
  }

  // ---------------------------------------------------------------------
  // The page URLs the downloader requests

  /** `"https://#{artist}.bandcamp.com/track/#{track}"` */
  function TrackUrl(artist: string, slug: string): string {
    "https://" + artist + Domain + TrackPrefix + slug
  }

  /** `"https://#{artist}.bandcamp.com/album/#{album}"` */
  function AlbumUrl(artist: string, slug: string): string {
    "https://" + artist + Domain + AlbumPrefix + slug
  }

  /** The index of the first character of `s` that is in `stops`, or `|s|`. */
  function IndexOfAny(s: string, stops: string): (k: nat)
    ensures k <= |s|
    ensures forall i :: 0 <= i < k ==> s[i] !in stops
    ensures k < |s| ==> s[k] in stops
  {
    if s == [] || s[0] in stops then 0 else 1 + IndexOfAny(s[1..], stops)
  }

  lemma {:induction false} IndexOfAnyAppend(x: string, y: string, stops: string)
    requires forall i :: 0 <= i < |x| ==> x[i] !in stops
    requires y == [] || y[0] in stops
    ensures IndexOfAny(x + y, stops) == |x|
    decreases |x|
  {
    if x != [] {
      assert (x + y)[1..] == x[1..] + y;
      IndexOfAnyAppend(x[1..], y, stops);
    } else {
      assert x + y == y;
    }
  }

  /** The host and path of an `https://` URL: the host runs to the first
      `/`, `?` or `#`, and the path from there to the first `?` or `#`. */
  function SplitUrl(url: string): Option<(string, string)> {
    if !StartsWith(url, "https://") then None
    else
      var rest := url[8..];
      var h := IndexOfAny(rest, "/?#");
      var tail := rest[h..];
      Some((rest[..h], tail[..IndexOfAny(tail, "?#")]))
  }

  /** Splitting the URL `download_track` builds gives back the host and path
      it was made from. */
  lemma {:induction false} SplitTrackUrl(artist: string, slug: string)
    requires forall i :: 0 <= i < |artist| ==> artist[i] !in "/?#"
    requires forall i :: 0 <= i < |slug| ==> slug[i] !in "?#"
    ensures SplitUrl(TrackUrl(artist, slug)) == Some((artist + Domain, TrackPrefix + slug))
  {
    SplitBuilt(artist, TrackPrefix, slug);
  }

  /** Splitting the URL `download_album` builds gives back the host and path
      it was made from. */
  lemma {:induction false} SplitAlbumUrl(artist: string, slug: string)
    requires forall i :: 0 <= i < |artist| ==> artist[i] !in "/?#"
    requires forall i :: 0 <= i < |slug| ==> slug[i] !in "?#"
    ensures SplitUrl(AlbumUrl(artist, slug)) == Some((artist + Domain, AlbumPrefix + slug))
  {
    SplitBuilt(artist, AlbumPrefix, slug);
  }

  lemma {:induction false} SplitBuilt(artist: string, prefix: string, slug: string)
    requires prefix == TrackPrefix || prefix == AlbumPrefix
    requires forall i :: 0 <= i < |artist| ==> artist[i] !in "/?#"
    requires forall i :: 0 <= i < |slug| ==> slug[i] !in "?#"
    ensures SplitUrl("https://" + artist + Domain + prefix + slug) == Some((artist + Domain, prefix + slug))
  {
    var url := "https://" + artist + Domain + prefix + slug;
    var host := artist + Domain;
    var path := prefix + slug;
    assert url == "https://" + (host + path);
    StartsWithPrefix("https://", host + path);
    HostHasNoStop(artist);
    IndexOfAnyAppend(host, path, "/?#");
    var rest := host + path;
    assert rest[..|host|] == host && rest[|host|..] == path;
    PathHasNoStop(prefix, slug);
    IndexOfAnyAppend(path, [], "?#");
    assert path + [] == path;
  }

  lemma HostHasNoStop(artist: string)
    requires forall i :: 0 <= i < |artist| ==> artist[i] !in "/?#"
    ensures forall i :: 0 <= i < |artist + Domain| ==> (artist + Domain)[i] !in "/?#"
  {
    var host := artist + Domain;
    forall i | 0 <= i < |host| ensures host[i] !in "/?#" {
      if i >= |artist| { assert host[i] == Domain[i - |artist|]; }
    }
  }

  lemma PathHasNoStop(prefix: string, slug: string)
    requires prefix == TrackPrefix || prefix == AlbumPrefix
    requires forall i :: 0 <= i < |slug| ==> slug[i] !in "?#"
    ensures forall i :: 0 <= i < |prefix + slug| ==> (prefix + slug)[i] !in "?#"
  {
    var path := prefix + slug;
    forall i | 0 <= i < |path| ensures path[i] !in "?#" {
      if i >= |prefix| { assert path[i] == slug[i - |prefix|]; }
    }
  }

  /** The URL built for a track classifies back to that artist and track. */
  lemma TrackUrlRoundTrip(artist: string, slug: string)
    requires forall i :: 0 <= i < |artist| ==> artist[i] !in "/?#"
    requires forall i :: 0 <= i < |slug| ==> slug[i] !in "?#"
    ensures SplitUrl(TrackUrl(artist, slug)).Some?
    ensures var (host, path) := SplitUrl(TrackUrl(artist, slug)).value;
            FromUrl(host, path) == Success(TrackTarget(artist, slug))
  {
    SplitTrackUrl(artist, slug);
    TrackIff(artist + Domain, TrackPrefix + slug, artist, slug);
  }

  /** The URL built for an album classifies back to that artist and album. */
  lemma AlbumUrlRoundTrip(artist: string, slug: string)
    requires forall i :: 0 <= i < |artist| ==> artist[i] !in "/?#"
    requires forall i :: 0 <= i < |slug| ==> slug[i] !in "?#"
    ensures SplitUrl(AlbumUrl(artist, slug)).Some?
    ensures var (host, path) := SplitUrl(AlbumUrl(artist, slug)).value;
            FromUrl(host, path) == Success(AlbumTarget(artist, slug))
  {
    SplitAlbumUrl(artist, slug);
    AlbumIff(artist + Domain, AlbumPrefix + slug, artist, slug);
  }

  // ---------------------------------------------------------------------
  // Bandrip#initialize

  /** The flow `initialize` runs. */
  datatype Flow =
    | TrackFlow(artist: string, track: string)
    | AlbumFlow(artist: string, album: string)
    | BrowseFlow(artist: string)
    | NoArtist

  /** `initialize(artist, track:, album:)`: a track wins over an album, and
      an artist alone means browsing; without an artist it raises. */
  function Dispatch(artist: Option<string>, track: Option<string>, album: Option<string>): (f: Flow)
    ensures f.NoArtist? <==> artist.None?
    ensures f.TrackFlow? <==> artist.Some? && track.Some?
    ensures f.AlbumFlow? <==> artist.Some? && track.None? && album.Some?
    ensures f.TrackFlow? ==> f == TrackFlow(artist.value, track.value)
    ensures f.AlbumFlow? ==> f == AlbumFlow(artist.value, album.value)
    ensures artist.Some? && track.None? && album.None? ==> f == BrowseFlow(artist.value)
  {
    if artist.Some? && track.Some? then TrackFlow(artist.value, track.value)
    else if artist.Some? && album.Some? then AlbumFlow(artist.value, album.value)
    else if artist.Some? then BrowseFlow(artist.value)
    else NoArtist
  }

  /** The `track:` keyword argument `from_url` passes to `new`. */
  function TrackArg(t: Target): Option<string> {
    if t.TrackTarget? then Some(t.slug) else None
  }

  /** The `album:` keyword argument `from_url` passes to `new`. */
  function AlbumArg(t: Target): Option<string> {
    if t.AlbumTarget? then Some(t.slug) else None
  }

  /** The flow chosen for a classified URL is the one its target names; the
      "artist is required" error cannot arise from a URL. */
  lemma DispatchOfTarget(host: string, path: string)
    requires FromUrl(host, path).Success?
    ensures var t := FromUrl(host, path).value;
            Dispatch(Some(t.artist), TrackArg(t), AlbumArg(t))
            == match t
               case TrackTarget(a, s) => TrackFlow(a, s)
               case AlbumTarget(a, s) => AlbumFlow(a, s)
               case BrowseTarget(a) => BrowseFlow(a)
  {
  }
}

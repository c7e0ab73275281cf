/** What a run of the downloader does to the world: the HTTP requests it
    makes, the files it writes, the progress it reports and the error that
    ends it. The site is a fixed oracle: the parsed album table per album
    URL, the parsed facts per track URL, and the answer per media request. */
module Downloader {
  import opened Wrappers
  import opened RubyText
  import opened Resolver
  import opened Naming
  import opened Scraper
  import opened Album

  newtype byte = x: int | 0 <= x < 256

  /** A GET request: the URL and the `Referer` header, if any. */
  datatype Request = Request(url: string, referrer: Option<string>)

  /** The answer to a media request: the body, `false` for a response that
      is not a success, or an exception. */
  datatype Fetched = Body(data: seq<byte>) | NotSuccess | Raised

  /** What the two name selectors and `document.to_s` give for a track page. */
  datatype TrackPage = TrackPage(artistName: string, trackName: string, text: string)

  /** The site. A page that cannot be read into the facts the downloader
      selects (a failed fetch, a missing name element) is `None`. */
  datatype Site = Site(
    albumRows: string -> Option<seq<Row>>,
    trackPage: string -> Option<TrackPage>,
    media: Request -> Fetched)

  /** The line `download_track` prints after the filename. */
  datatype Report =
    | Skipped(filename: string)               // "already exists, skipping!"
    | Written(filename: string, size: nat)    // "done (… MB)"
    | FetchError(filename: string)            // "error!"

  /** The exception that ends a run. */
  datatype RunError =
    | UrlRejected(reason: UrlError) // ArgumentError "not a valid Bandcamp URL"
    | InsufficientArguments       // ArgumentError "Insufficient arguments, artist is required"
    | BrowseUnsupported           // NoMethodError: `browse_artist` is not defined
    | PageUnreadable(url: string) // the page fetch or a name selector raised
    | NoLink(error: LinkError)    // no MP3 link on the track page
    | MissingTitleLink            // NoMethodError: `nil['href']` on a row without a title anchor
    | MediaRaised(url: string)    // the media fetch raised

  /** The files in the working directory, every request made so far, and
      every line reported so far. */
  datatype World = World(files: map<string, seq<byte>>, requests: seq<Request>, reports: seq<Report>)

  /** A world after an operation, and whether the operation raised. */
  datatype Step = Step(world: World, outcome: Outcome<RunError>)

  // ---------------------------------------------------------------------
  // The effect of each operation, as a function of the world before it

  function Get(w: World, url: string, referrer: Option<string>): World {
    w.(requests := w.requests + [Request(url, referrer)])
  }

  function Say(w: World, r: Report): World {
    w.(reports := w.reports + [r])
  }

  /** `download_track(artist, track, number: number)` */
  function TrackEffect(site: Site, w: World, artist: string, slug: string, number: Option<int>): Step {
    var url := TrackUrl(artist, slug);
    var w1 := Get(w, url, None);
    match site.trackPage(url)
    case None => Step(w1, Fail(PageUnreadable(url)))
    case Some(page) =>
      var filename := TrackFilename(page.artistName, page.trackName, number);
      match Mp3Link(page.text)
      case Failure(e) => Step(w1, Fail(NoLink(e)))
      case Success(mp3) =>
        if filename in w1.files then Step(Say(w1, Skipped(filename)), Pass)
        else
          var w2 := Get(w1, mp3, Some(url));
          match site.media(Request(mp3, Some(url)))
          case Body(data) => Step(Say(w2.(files := w2.files[filename := data]), Written(filename, |data|)), Pass)
          case NotSuccess => Step(Say(w2, FetchError(filename)), Pass)
          case Raised => Step(w2, Fail(MediaRaised(mp3)))
  }

  /** The jobs run one after the other until one raises. */
  function JobsEffect(site: Site, w: World, artist: string, jobs: seq<Job>): Step
    decreases |jobs|
  {
    if jobs == [] then Step(w, Pass)
    else
      var s := TrackEffect(site, w, artist, jobs[0].slug, Some(jobs[0].number));
      if s.outcome.Fail? then s else JobsEffect(site, s.world, artist, jobs[1..])
  }

  /** The `each` over the track rows: a row is examined only after the
      downloads of the rows before it. */
  function RowsEffect(site: Site, w: World, artist: string, rows: seq<Row>): Step
    decreases |rows|
  {
    if rows == [] then Step(w, Pass)
    else
      match Action(rows[0])
      case Abort => Step(w, Fail(MissingTitleLink))
      case Ignore => RowsEffect(site, w, artist, rows[1..])
      case Download(j) =>
        var s := TrackEffect(site, w, artist, j.slug, Some(j.number));
        if s.outcome.Fail? then s else RowsEffect(site, s.world, artist, rows[1..])
  }

  /** `download_album(artist, album)` */
  function AlbumEffect(site: Site, w: World, artist: string, album: string): Step {
    var url := AlbumUrl(artist, album);
    var w1 := Get(w, url, None);
    match site.albumRows(url)
    case None => Step(w1, Fail(PageUnreadable(url)))
    case Some(rows) => RowsEffect(site, w1, artist, rows)
  }

  /** `initialize(artist, track: track, album: album)` */
  function InitializeEffect(site: Site, w: World, artist: Option<string>, track: Option<string>, album: Option<string>): Step {
    match Dispatch(artist, track, album)
    case TrackFlow(a, t) => TrackEffect(site, w, a, t, None)
    case AlbumFlow(a, al) => AlbumEffect(site, w, a, al)
    case BrowseFlow(_) => Step(w, Fail(BrowseUnsupported))
    case NoArtist => Step(w, Fail(InsufficientArguments))
  }

  /** `Bandrip.from_url(url)` for a URL with this host and path. */
  function FromUrlEffect(site: Site, w: World, host: string, path: string): Step {
    match FromUrl(host, path)
    case Failure(e) => Step(w, Fail(UrlRejected(e)))
    case Success(t) => InitializeEffect(site, w, Some(t.artist), TrackArg(t), AlbumArg(t))
  }

  // ---------------------------------------------------------------------
  // The downloader

  class Bandrip {
    var files: map<string, seq<byte>>
    var requests: seq<Request>
    var reports: seq<Report>

    function State(): World
      reads this
    {
      World(files, requests, reports)
    }

    /** A downloader in a directory holding `existing`, before any request. */
    constructor(existing: map<string, seq<byte>>)
      ensures State() == World(existing, [], [])
    {
      files := existing;
      requests := [];
      reports := [];
    }

    method Send(url: string, referrer: Option<string>)
      modifies this
      ensures State() == Get(old(State()), url, referrer)
    {
      requests := requests + [Request(url, referrer)];
    }

    method Announce(r: Report)
      modifies this
      ensures State() == Say(old(State()), r)
    {
      reports := reports + [r];
    }

    method DownloadTrack(site: Site, artist: string, slug: string, number: Option<int>)
      returns (r: Outcome<RunError>)
      modifies this
      ensures Step(State(), r) == TrackEffect(site, old(State()), artist, slug, number)
    {
      var url := TrackUrl(artist, slug);
      Send(url, None);
      var document := site.trackPage(url);
      if document.None? {
        return Fail(PageUnreadable(url));
      }
      var page := document.value;
      var filename := TrackFilename(page.artistName, page.trackName, number);
      var link := Mp3Link(page.text);
      if link.Failure? {
        return Fail(NoLink(link.error));
      }
      var mp3 := link.value;
      if filename in files {
        Announce(Skipped(filename));
        return Pass;
      }
      Send(mp3, Some(url));
      var fetched := site.media(Request(mp3, Some(url)));
      match fetched {
        case Body(data) =>
          files := files[filename := data];
          Announce(Written(filename, |data|));
          r := Pass;
        case NotSuccess =>
          Announce(FetchError(filename));
          r := Pass;
        case Raised =>
          r := Fail(MediaRaised(mp3));
      }
    }

    method DownloadAlbum(site: Site, artist: string, album: string)
      returns (r: Outcome<RunError>)
      modifies this
      ensures Step(State(), r) == AlbumEffect(site, old(State()), artist, album)
    {
      var url := AlbumUrl(artist, album);
      Send(url, None);
      var document := site.albumRows(url);
      if document.None? {
        return Fail(PageUnreadable(url));
      }
      var rows := document.value;
      ghost var goal := RowsEffect(site, State(), artist, rows);
      var i := 0;
      while i < |rows|
        invariant 0 <= i <= |rows|
        invariant RowsEffect(site, State(), artist, rows[i..]) == goal
        decreases |rows| - i
      {
        assert rows[i..][0] == rows[i] && rows[i..][1..] == rows[i + 1..];
        match Action(rows[i]) {
          case Abort =>
            return Fail(MissingTitleLink);
          case Ignore =>
          case Download(job) =>
            var o := DownloadTrack(site, artist, job.slug, Some(job.number));
            if o.Fail? {
              return o;
            }
        }
        i := i + 1;
      }
      r := Pass;
    }

    method Initialize(site: Site, artist: Option<string>, track: Option<string>, album: Option<string>)
      returns (r: Outcome<RunError>)
      modifies this
      ensures Step(State(), r) == InitializeEffect(site, old(State()), artist, track, album)
    {
      if artist.Some? && track.Some? {
        r := DownloadTrack(site, artist.value, track.value, None);
      } else if artist.Some? && album.Some? {
        r := DownloadAlbum(site, artist.value, album.value);
      } else if artist.Some? {
        r := Fail(BrowseUnsupported);
      } else {
        r := Fail(InsufficientArguments);
      }
    }

    method FromUrlRun(site: Site, host: string, path: string)
      returns (r: Outcome<RunError>)
      modifies this
      ensures Step(State(), r) == FromUrlEffect(site, old(State()), host, path)
    {
      var target := FromUrl(host, path);
      if target.Failure? {
        return Fail(UrlRejected(target.error));
      }
      var t := target.value;
      r := Initialize(site, Some(t.artist), TrackArg(t), AlbumArg(t));
    }
  }

  // ---------------------------------------------------------------------
  // The decision in download_track

  /** A track raises exactly when its page is unreadable, the page has no
      link, or the media fetch raises; the media is fetched only when the
      file is absent. */
  lemma TrackOutcome(site: Site, w: World, artist: string, slug: string, number: Option<int>)
    ensures var url := TrackUrl(artist, slug);
            var s := TrackEffect(site, w, artist, slug, number);
            var page := site.trackPage(url);
            && (s.outcome.Fail? <==>
                  || page.None?
                  || Mp3Link(page.value.text).Failure?
                  || (TrackFilename(page.value.artistName, page.value.trackName, number) !in w.files
                      && site.media(Request(Mp3Link(page.value.text).value, Some(url))).Raised?))
            && |s.world.requests| >= |w.requests| + 1
            && s.world.requests[|w.requests|] == Request(url, None)
            && (|s.world.requests| == |w.requests| + 2 <==>
                  page.Some? && Mp3Link(page.value.text).Success? && TrackFilename(page.value.artistName, page.value.trackName, number) !in w.files)
            && |s.world.requests| <= |w.requests| + 2
  {
  }

  /** An existing file is left alone and no media request is made. */
  lemma ExistingFileSkipped(site: Site, w: World, artist: string, slug: string, number: Option<int>)
    requires var page := site.trackPage(TrackUrl(artist, slug));
             && page.Some? && Mp3Link(page.value.text).Success?
             && TrackFilename(page.value.artistName, page.value.trackName, number) in w.files
    ensures var page := site.trackPage(TrackUrl(artist, slug)).value;
            var s := TrackEffect(site, w, artist, slug, number);
            && s.outcome == Pass
            && s.world.files == w.files
            && s.world.requests == w.requests + [Request(TrackUrl(artist, slug), None)]
            && s.world.reports == w.reports + [Skipped(TrackFilename(page.artistName, page.trackName, number))]
  {
  }

  /** An absent file is fetched with the track page as referrer; a body is
      written under the filename, a failed fetch writes nothing and is
      reported. */
  lemma AbsentFileFetched(site: Site, w: World, artist: string, slug: string, number: Option<int>)
    requires var page := site.trackPage(TrackUrl(artist, slug));
             && page.Some? && Mp3Link(page.value.text).Success?
             && TrackFilename(page.value.artistName, page.value.trackName, number) !in w.files
    ensures var url := TrackUrl(artist, slug);
            var page := site.trackPage(url).value;
            var filename := TrackFilename(page.artistName, page.trackName, number);
            var media := Request(Mp3Link(page.text).value, Some(url));
            var s := TrackEffect(site, w, artist, slug, number);
            && s.world.requests == w.requests + [Request(url, None), media]
            && (site.media(media).Body? ==>
                  s.outcome == Pass
                  && s.world.files == w.files[filename := site.media(media).data]
                  && s.world.reports == w.reports + [Written(filename, |site.media(media).data|)])
            && (site.media(media).NotSuccess? ==>
                  s.outcome == Pass && s.world.files == w.files
                  && s.world.reports == w.reports + [FetchError(filename)])
            && (site.media(media).Raised? ==>
                  s.outcome == Fail(MediaRaised(media.url)) && s.world.files == w.files
                  && s.world.reports == w.reports)
  {
  }

  /** Running a track again after it was written or skipped skips it: no
      media request, no change to the files. */
  lemma RerunSkips(site: Site, w: World, artist: string, slug: string, number: Option<int>)
    requires TrackEffect(site, w, artist, slug, number).outcome.Pass?
    requires var s := TrackEffect(site, w, artist, slug, number);
             s.world.reports != [] && !s.world.reports[|s.world.reports| - 1].FetchError?
    ensures var s := TrackEffect(site, w, artist, slug, number);
            var again := TrackEffect(site, s.world, artist, slug, number);
            && again.outcome == Pass
            && again.world.files == s.world.files
            && again.world.requests == s.world.requests + [Request(TrackUrl(artist, slug), None)]
  {
  }

  // ---------------------------------------------------------------------
  // Nothing written is ever lost, and the logs only grow

  /** `w2` keeps every file of `w1` with its contents and extends its logs. */
  predicate Grows(w1: World, w2: World) {
    && (forall n :: n in w1.files ==> n in w2.files && w2.files[n] == w1.files[n])
    && |w1.requests| <= |w2.requests| && w2.requests[..|w1.requests|] == w1.requests
    && |w1.reports| <= |w2.reports| && w2.reports[..|w1.reports|] == w1.reports
  }

  lemma GrowsTransitive(w1: World, w2: World, w3: World)
    requires Grows(w1, w2) && Grows(w2, w3)
    ensures Grows(w1, w3)
  {
    assert w3.requests[..|w1.requests|] == w3.requests[..|w2.requests|][..|w1.requests|];
    assert w3.reports[..|w1.reports|] == w3.reports[..|w2.reports|][..|w1.reports|];
  }

  lemma PrefixOfAppend<T>(a: seq<T>, b: seq<T>)
    ensures (a + b)[..|a|] == a
  {
  }

  /** The requests a track adds: its page, then the media when the file is
      absent and the page has a link. */
  function TrackRequests(site: Site, w: World, artist: string, slug: string, number: Option<int>): seq<Request> {
    var url := TrackUrl(artist, slug);
    var page := site.trackPage(url);
    if page.Some? && Mp3Link(page.value.text).Success? && TrackFilename(page.value.artistName, page.value.trackName, number) !in w.files
    then [Request(url, None), Request(Mp3Link(page.value.text).value, Some(url))]
    else [Request(url, None)]
  }

  lemma TrackAddsRequests(site: Site, w: World, artist: string, slug: string, number: Option<int>)
    ensures TrackEffect(site, w, artist, slug, number).world.requests
            == w.requests + TrackRequests(site, w, artist, slug, number)
  {
    var url := TrackUrl(artist, slug);
    var page := site.trackPage(url);
    if page.Some? && Mp3Link(page.value.text).Success? && TrackFilename(page.value.artistName, page.value.trackName, number) !in w.files {
      var media := Request(Mp3Link(page.value.text).value, Some(url));
      assert (w.requests + [Request(url, None)]) + [media] == w.requests + [Request(url, None), media];
    }
  }

  /** A track never overwrites a file and adds at most its own filename. */
  lemma TrackGrows(site: Site, w: World, artist: string, slug: string, number: Option<int>)
    ensures var s := TrackEffect(site, w, artist, slug, number);
            var page := site.trackPage(TrackUrl(artist, slug));
            && Grows(w, s.world)
            && forall n :: n in s.world.files && n !in w.files
                 ==> page.Some? && n == TrackFilename(page.value.artistName, page.value.trackName, number)
  {
    TrackAddsRequests(site, w, artist, slug, number);
    PrefixOfAppend(w.requests, TrackRequests(site, w, artist, slug, number));
    TrackKeepsFiles(site, w, artist, slug, number);
    TrackKeepsReports(site, w, artist, slug, number);
  }

  lemma TrackKeepsFiles(site: Site, w: World, artist: string, slug: string, number: Option<int>)
    ensures var s := TrackEffect(site, w, artist, slug, number);
            var page := site.trackPage(TrackUrl(artist, slug));
            && (forall n :: n in w.files ==> n in s.world.files && s.world.files[n] == w.files[n])
            && forall n :: n in s.world.files && n !in w.files
                 ==> page.Some? && n == TrackFilename(page.value.artistName, page.value.trackName, number)
  {
    var url := TrackUrl(artist, slug);
    var s := TrackEffect(site, w, artist, slug, number);
    match site.trackPage(url)
    case None =>
      assert s.world.files == w.files;
    case Some(page) =>
      var filename := TrackFilename(page.artistName, page.trackName, number);
      if Mp3Link(page.text).Success? && filename !in w.files
         && site.media(Request(Mp3Link(page.text).value, Some(url))).Body? {
        assert s.world.files == w.files[filename := site.media(Request(Mp3Link(page.text).value, Some(url))).data];
      } else {
        assert s.world.files == w.files;
      }
  }

  lemma TrackKeepsReports(site: Site, w: World, artist: string, slug: string, number: Option<int>)
    ensures var s := TrackEffect(site, w, artist, slug, number);
            |w.reports| <= |s.world.reports| && s.world.reports[..|w.reports|] == w.reports
  {
    var s := TrackEffect(site, w, artist, slug, number);
    assert |s.world.reports| == |w.reports| || s.world.reports == w.reports + [s.world.reports[|w.reports|]];
    if |s.world.reports| > |w.reports| {
      PrefixOfAppend(w.reports, [s.world.reports[|w.reports|]]);
    } else {
      assert s.world.reports == w.reports;
    }
  }

  lemma {:induction false} JobsGrow(site: Site, w: World, artist: string, jobs: seq<Job>)
    ensures Grows(w, JobsEffect(site, w, artist, jobs).world)
    decreases |jobs|
  {
    if jobs != [] {
      var s := TrackEffect(site, w, artist, jobs[0].slug, Some(jobs[0].number));
      TrackGrows(site, w, artist, jobs[0].slug, Some(jobs[0].number));
      if s.outcome.Pass? {
        JobsGrow(site, s.world, artist, jobs[1..]);
        GrowsTransitive(w, s.world, JobsEffect(site, s.world, artist, jobs[1..]).world);
      }
    }
  }

  /** The row loop does what the plan says: the planned jobs in order, then
      the abort of a row without a title anchor if no job raised first. */
  lemma {:induction false} RowsFollowPlan(site: Site, w: World, artist: string, rows: seq<Row>)
    ensures var p := AlbumPlan(rows);
            var s := JobsEffect(site, w, artist, p.jobs);
            RowsEffect(site, w, artist, rows)
            == if s.outcome.Pass? && p.aborted then Step(s.world, Fail(MissingTitleLink)) else s
    decreases |rows|
  {
    if rows != [] {
      match Action(rows[0])
      case Abort =>
      case Ignore =>
        RowsFollowPlan(site, w, artist, rows[1..]);
      case Download(j) =>
        var p := AlbumPlan(rows);
        var s := TrackEffect(site, w, artist, j.slug, Some(j.number));
        assert p.jobs[0] == j && p.jobs[1..] == AlbumPlan(rows[1..]).jobs;
        if s.outcome.Pass? {
          RowsFollowPlan(site, s.world, artist, rows[1..]);
        }
    }
  }

  /** An album never overwrites a file. */
  lemma AlbumGrows(site: Site, w: World, artist: string, album: string)
    ensures Grows(w, AlbumEffect(site, w, artist, album).world)
  {
    var url := AlbumUrl(artist, album);
    var w1 := Get(w, url, None);
    assert w1.requests[..|w.requests|] == w.requests;
    match site.albumRows(url)
    case None =>
    case Some(rows) =>
      RowsFollowPlan(site, w1, artist, rows);
      JobsGrow(site, w1, artist, AlbumPlan(rows).jobs);
      GrowsTransitive(w, w1, RowsEffect(site, w1, artist, rows).world);
  }

  /** No run, whatever its URL, overwrites or removes a file. */
  lemma FromUrlGrows(site: Site, w: World, host: string, path: string)
    ensures Grows(w, FromUrlEffect(site, w, host, path).world)
  {
    assert w.requests[..|w.requests|] == w.requests;
    assert w.reports[..|w.reports|] == w.reports;
    match FromUrl(host, path)
    case Failure(_) =>
    case Success(t) =>
      match Dispatch(Some(t.artist), TrackArg(t), AlbumArg(t))
      case TrackFlow(a, s) => TrackGrows(site, w, a, s, None);
      case AlbumFlow(a, al) => AlbumGrows(site, w, a, al);
      case BrowseFlow(_) =>
      case NoArtist =>
  }

  // ---------------------------------------------------------------------
  // Order of the page requests

  /** The page requests in a request log: those sent without a referrer. */
  function PageUrls(requests: seq<Request>): (r: seq<string>)
    ensures |r| <= |requests|
  {
    if requests == [] then []
    else (if requests[0].referrer.None? then [requests[0].url] else []) + PageUrls(requests[1..])
  }

  lemma {:induction false} PageUrlsAppend(a: seq<Request>, b: seq<Request>)
    ensures PageUrls(a + b) == PageUrls(a) + PageUrls(b)
    decreases |a|
  {
    if a == [] {
      assert a + b == b;
    } else {
      var head := if a[0].referrer.None? then [a[0].url] else [];
      assert (a + b)[0] == a[0] && (a + b)[1..] == a[1..] + b;
      assert PageUrls(a + b) == head + PageUrls(a[1..] + b);
      PageUrlsAppend(a[1..], b);
      assert head + (PageUrls(a[1..]) + PageUrls(b)) == (head + PageUrls(a[1..])) + PageUrls(b);
    }
  }

  /** The track page URLs of a list of jobs. */
  function TrackUrls(artist: string, jobs: seq<Job>): (r: seq<string>)
    ensures |r| == |jobs|
    ensures forall i :: 0 <= i < |jobs| ==> r[i] == TrackUrl(artist, jobs[i].slug)
  {
    if jobs == [] then [] else [TrackUrl(artist, jobs[0].slug)] + TrackUrls(artist, jobs[1..])
  }

  /** A track makes exactly one page request: its own page. */
  lemma TrackPageRequest(site: Site, w: World, artist: string, slug: string, number: Option<int>)
    ensures var s := TrackEffect(site, w, artist, slug, number);
            && |w.requests| <= |s.world.requests|
            && s.world.requests[..|w.requests|] == w.requests
            && PageUrls(s.world.requests) == PageUrls(w.requests) + [TrackUrl(artist, slug)]
  {
    var added := TrackRequests(site, w, artist, slug, number);
    TrackAddsRequests(site, w, artist, slug, number);
    PrefixOfAppend(w.requests, added);
    PageUrlsAppend(w.requests, added);
    assert added[1..] == [] || added[1..] == [added[1]];
    assert PageUrls(added) == [TrackUrl(artist, slug)];
  }

  /** Jobs fetch their track pages in job order: the page requests a list of
      jobs adds are a prefix of the jobs' track URLs, and all of them when
      no job raises. */
  lemma {:induction false} JobsPageOrder(site: Site, w: World, artist: string, jobs: seq<Job>)
    ensures var s := JobsEffect(site, w, artist, jobs);
            var before := PageUrls(w.requests);
            var after := PageUrls(s.world.requests);
            var all := TrackUrls(artist, jobs);
            && |before| <= |after| && after[..|before|] == before
            && |after| - |before| <= |all|
            && after[|before|..] == all[..|after| - |before|]
            && (s.outcome.Pass? ==> after[|before|..] == all)
    decreases |jobs|
  {
    var before := PageUrls(w.requests);
    if jobs == [] {
      assert PageUrls(w.requests)[|before|..] == [];
    } else {
      var j := jobs[0];
      var s1 := TrackEffect(site, w, artist, j.slug, Some(j.number));
      TrackPageRequest(site, w, artist, j.slug, Some(j.number));
      var mid := PageUrls(s1.world.requests);
      assert mid == before + [TrackUrl(artist, j.slug)];
      var all := TrackUrls(artist, jobs);
      if s1.outcome.Pass? {
        JobsPageOrder(site, s1.world, artist, jobs[1..]);
        var after := PageUrls(JobsEffect(site, s1.world, artist, jobs[1..]).world.requests);
        var rest := TrackUrls(artist, jobs[1..]);
        assert all == [TrackUrl(artist, j.slug)] + rest;
        PageSuffix(before, mid, after, TrackUrl(artist, j.slug), all, rest);
      } else {
        assert mid[|before|..] == [TrackUrl(artist, j.slug)];
        assert all[..1] == [TrackUrl(artist, j.slug)];
      }
    }
  }

  /** The sequence step of `JobsPageOrder`: one page in front of the rest. */
  lemma PageSuffix(before: seq<string>, mid: seq<string>, after: seq<string>,
                   u: string, all: seq<string>, rest: seq<string>)
    requires mid == before + [u] && all == [u] + rest
    requires |mid| <= |after| && after[..|mid|] == mid
    requires |after| - |mid| <= |rest| && after[|mid|..] == rest[..|after| - |mid|]
    ensures |before| <= |after| && after[..|before|] == before
    ensures |after| - |before| <= |all|
    ensures after[|before|..] == all[..|after| - |before|]
    ensures after[|mid|..] == rest ==> after[|before|..] == all
  {
    assert after[..|before|] == after[..|mid|][..|before|];
    assert after[|before|..] == [u] + after[|mid|..];
    assert all[..|after| - |before|] == [u] + rest[..|after| - |mid|];
  }

  // ---------------------------------------------------------------------
  // Runs from a URL

  /** A URL that is not a Bandcamp track, album or artist page, or an artist
      page (browsing is not implemented), ends the run before any request. */
  lemma FromUrlRejects(site: Site, w: World, host: string, path: string)
    requires FromUrl(host, path).Failure? || FromUrl(host, path).value.BrowseTarget?
    ensures FromUrlEffect(site, w, host, path)
            == Step(w, Fail(if FromUrl(host, path).Failure? then UrlRejected(InvalidUrl) else BrowseUnsupported))
  {
  }

  /** A track URL downloads that track, unnumbered; an album URL downloads
      that album. */
  lemma FromUrlDownloads(site: Site, w: World, artist: string, slug: string)
    ensures FromUrlEffect(site, w, artist + Domain, TrackPrefix + slug) == TrackEffect(site, w, artist, slug, None)
    ensures FromUrlEffect(site, w, artist + Domain, AlbumPrefix + slug) == AlbumEffect(site, w, artist, slug)
  {
    TrackIff(artist + Domain, TrackPrefix + slug, artist, slug);
    AlbumIff(artist + Domain, AlbumPrefix + slug, artist, slug);
  }

  /** Without an artist the constructor raises before any request. */
  lemma InitializeWithoutArtist(site: Site, w: World, track: Option<string>, album: Option<string>)
    ensures InitializeEffect(site, w, None, track, album) == Step(w, Fail(InsufficientArguments))
  {
  }
}

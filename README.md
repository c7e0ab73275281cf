# bandrip in Dafny

A model of `bandrip.rb`, a one-file Ruby downloader for Bandcamp. It takes a
track, album or artist URL and saves the 128 kbps MP3 stream of each track
into the working directory.

The model covers these parts, each in its own module:

- **Resolver**: URL classification (`Bandrip.from_url`). A host and a path
  become a track, an album or an artist-browse target. Anything else is
  rejected. This module also builds the track and album page URLs
  (`"https://#{artist}.bandcamp.com/track/#{track}"`) and does the flow
  selection of `initialize`.
- **Sanitizer**: `sanitize_filename`. It removes the `CHARACTER_FILTER`
  characters and turns each `[[:space:]]+` run into one space. It then keeps
  the first 251 characters.
- **Naming**: the filename of a track, `"<artist> - <track>.mp3"` sanitised,
  with `'%02d '` in front when the number is positive.
- **Scraper**: `MP3_REGEX` applied to a track page. Matching is leftmost,
  case-insensitive and with a greedy `\S+`.
- **Album**: the row loop of `download_album`. A row's number is its `rel`
  attribute with the first `tracknum=` removed, read with `String#to_i`.
  Only rows whose title link starts with `/track/` produce a download.
  Document order is kept.
- **Downloader**: a `Bandrip` class whose fields are the files in the
  directory, the requests made and the progress lines reported. Its methods
  `DownloadTrack`, `DownloadAlbum`, `Initialize` and `FromUrlRun` are proved
  equal to pure effect functions (`TrackEffect`, `AlbumEffect`, …). The
  lemmas about those functions cover four things:
  - the exists / write / error decision;
  - files are never overwritten;
  - the album follows its plan;
  - track pages are requested in job order.
- **RubyText**: the Ruby string primitives the above rely on:
  `start_with?`, `end_with?`, `sub` with a literal, `String#to_i` (spaces,
  sign, `0d` prefix, underscores) and the `%d` / `%02d` formats.

The site is an oracle, `Downloader.Site`. It gives the parsed album table
for an album URL, the artist name, track name and page text for a track URL,
and the answer to a media request. The model does not say how a page is
fetched or parsed. It says what the downloader does with whatever the site
answers.

The model follows the code:

- An exception aborts the whole run, including a missing MP3 link (see
  "## Findings" for which exception line 67 raises), a
  failed page, or a row without a title link in an album. Nothing is caught
  per track. Only a media fetch answered with `false` is reported and the
  run goes on.
- The media link comes from `MP3_REGEX` alone. There is no structured-data
  strategy and no check that the link is `https://`.
- Browsing an artist fails with a NoMethodError, because `browse_artist` is
  never defined. It fails before any request is made.

## Model

| member | source | states |
|---|---|---|
| Resolver.FromUrl | bandrip.rb:22-36 | Success exactly when the host ends with `.bandcamp.com` and the path starts with `/track/` or `/album/` or is `''`, `/` or `/music`. On success, host = artist + `.bandcamp.com` and path = prefix + slug for the target's kind. |
| Resolver.ArtistOfHost | bandrip.rb:24-25 | The host `a + ".bandcamp.com"` yields artist `a` (the 13-character suffix is removed). |
| Resolver.TrackIff | bandrip.rb:26-27 | A (host, path) pair is the track (a, s) iff host = a + `.bandcamp.com` and path = `/track/` + s. |
| Resolver.AlbumIff | bandrip.rb:28-29 | A (host, path) pair is the album (a, s) iff host = a + `.bandcamp.com` and path = `/album/` + s. |
| Resolver.BrowseIff | bandrip.rb:30-31 | A (host, path) pair is the artist browse of a iff host = a + `.bandcamp.com` and path is `''`, `/` or `/music`. |
| Resolver.SplitTrackUrl | bandrip.rb:59 | Splitting the track page URL gives host artist + `.bandcamp.com` and path `/track/` + slug, when the artist has no `/?#` and the slug no `?#`. |
| Resolver.SplitAlbumUrl | bandrip.rb:80 | Splitting the album page URL gives host artist + `.bandcamp.com` and path `/album/` + slug, under the same conditions. |
| Resolver.TrackUrlRoundTrip | bandrip.rb:59 | The track page URL the downloader builds classifies back to the same artist and slug. |
| Resolver.AlbumUrlRoundTrip | bandrip.rb:80 | The album page URL the downloader builds classifies back to the same artist and slug. |
| Resolver.Dispatch | bandrip.rb:39-50 | With no artist, an error. With an artist and a track, the track flow for that artist and track, whatever the album. With an artist and an album but no track, the album flow for that artist and album. With an artist alone, browsing that artist. |
| Resolver.DispatchOfTarget | bandrip.rb:35 | A classified URL runs the flow its target names; the "artist is required" error cannot come from a URL. |
| Sanitizer.Filter | bandrip.rb:18 | The result has no control character below U+0020 and none of slash, backslash, colon, asterisk, question mark, double quote, less-than, greater-than or vertical bar. It is no longer than the input and equals the input when the input is clean. |
| Sanitizer.FilterChar | bandrip.rb:92 | `gsub(CHARACTER_FILTER, '')` on one character: a forbidden character is dropped (not replaced), any other is kept as it is. With FilterAppend this fixes Filter on every string. |
| Sanitizer.FilterAppend | bandrip.rb:92 | Removing characters works character by character: Filter(a + b) = Filter(a) + Filter(b). |
| Sanitizer.CollapseShape | bandrip.rb:19 | After the whitespace replacement, every whitespace character is a plain space and no two spaces are adjacent. The result starts with a space iff the input starts with whitespace. |
| Sanitizer.CollapseKeepsText | bandrip.rb:19 | The replacement changes only whitespace: the non-whitespace characters stay the same, in the same order. |
| Sanitizer.CollapseKeepsClean | bandrip.rb:92 | Replacing whitespace brings back no forbidden character. |
| Sanitizer.CollapseFixesCollapsed | bandrip.rb:19 | Text with single plain spaces only is unchanged by the replacement. |
| Sanitizer.RunCollapses | bandrip.rb:19 | A whitespace run of any length becomes exactly one space. |
| Sanitizer.CollapseAppend | bandrip.rb:19 | The replacement works run by run: two pieces cut next to a non-space are replaced independently. |
| Sanitizer.DropSpacesAppend | bandrip.rb:19 | A whitespace run that starts in one piece continues into the next only if the first piece is all whitespace. |
| Sanitizer.Truncate | bandrip.rb:92 | `[0..250]` gives a prefix of the string: the whole string when it has at most 251 characters, otherwise exactly its first 251. |
| Sanitizer.SanitizeShape | bandrip.rb:91-93 | `sanitize_filename` output has no forbidden character, single plain spaces only and at most 251 characters. |
| Sanitizer.SanitizeFixesClean | bandrip.rb:91-93 | A name that already has that shape is returned unchanged. |
| Sanitizer.SanitizeIdempotent | bandrip.rb:91-93 | `sanitize_filename` applied to its own output gives that output. |
| Naming.UnnumberedFilename | bandrip.rb:64-66 | With no number or a number ≤ 0, the filename is exactly the sanitised `"<artist> - <track>.mp3"`, with every guarantee of the sanitiser. |
| Naming.NumberedFilename | bandrip.rb:64-66 | With a positive number, the filename is the number zero-padded to at least two digits, one space, then the sanitised name. `to_i` of the filename gives the number back. |
| Naming.SanitizedWithExtension | bandrip.rb:64 | The base name is the sanitised `"<artist> - <track>"` followed by `.mp3`, then cut to 251 characters. |
| Naming.ShortNameKeepsExtension | bandrip.rb:64 | A name whose sanitised stem plus `.mp3` fits in 251 characters ends in `.mp3`. |
| Naming.LongNameLosesExtension | bandrip.rb:64 | A name whose sanitised stem alone has 251 or more characters is cut before `.mp3`: it is the stem's first 251 characters. |
| RubyText.StartsWithPrefix | bandrip.rb:26 | `(p + x).start_with?(p)` holds, and what follows p is x. |
| RubyText.EndsWithSuffix | bandrip.rb:24 | `(x + p).end_with?(p)` holds, and what precedes p is x. |
| RubyText.RemoveFirstLeftmost | bandrip.rb:84 | `sub(pat, '')` removes exactly the leftmost occurrence of pat. |
| RubyText.RemoveFirstAbsent | bandrip.rb:84 | Without an occurrence, `sub` leaves the string unchanged. |
| RubyText.ToINonNumeric | bandrip.rb:84 | `to_i` of a string that does not start with a space, a sign or a digit is 0. |
| RubyText.DecimalToI | bandrip.rb:84 | `to_i` reads back the number written in decimal, followed by any text that does not continue a number. |
| RubyText.Pad2 | bandrip.rb:66 | `'%02d'` gives all digits, at least two of them, exactly two iff the number is below 100, and a leading zero iff the number is below 10 (so no padding beyond two digits). |
| RubyText.Pad2ToI | bandrip.rb:66 | `to_i` reads back the number `'%02d'` wrote, followed by any text that does not continue a number. |
| Scraper.MatchFrom | bandrip.rb:15 | From start i, gives the end of the longest `\S+` capture followed by `"}`, or none when no match starts at i. |
| Scraper.Search | bandrip.rb:15 | Gives the first index at or after i where a match starts, with the longest capture there. None when no match starts at or after i. |
| Scraper.Mp3Capture | bandrip.rb:15 | No capture iff no match anywhere. A capture is nonempty and free of `\s` characters. |
| Scraper.CaptureIsLeftmostLongest | bandrip.rb:15 | The scan returns (i, k) iff the match at i is the leftmost one and k the longest capture there; the capture is then `page[i+12..k]`. |
| Scraper.EmbeddedLinkFound | bandrip.rb:15 | A page with no `{` before `{"mp3-128":"<url>"}` (the literal in any letter case), followed by whitespace or the end of the page, yields `<url>`, even when `<url>` contains `"}`. |
| Scraper.Mp3LinkAsWritten | bandrip.rb:67 | As written: it succeeds exactly when a match exists, with the capture of the leftmost, longest match as `mp3_url`; without a match it fails on `nil.captures` (NilCaptures). |
| Scraper.NoMp3LinkGuardIsDead | bandrip.rb:67 | The `'No MP3 link found'` error is never raised as written; the empty page fails on `nil` instead. |
| Scraper.Mp3Link | bandrip.rb:67 | Fails with 'No MP3 link found' exactly when the page has no match. Otherwise gives the leftmost, greedy capture. |
| Scraper.CorrectionOnlyRenamesError | bandrip.rb:67 | The corrected and the as-written link succeed on the same pages with the same link; without a link one raises 'No MP3 link found' where the other raises NoMethodError. |
| Album.TaggedRelNumber | bandrip.rb:84 | `rel` = `tracknum=<n>` gives number n; a missing `rel` gives 0. |
| Album.UntaggedRelNumber | bandrip.rb:84 | A `rel` without `tracknum=` is read by `to_i` as it stands, and gives 0 when it does not start with a space, a sign or a digit. |
| Album.Action | bandrip.rb:85-86 | A row aborts iff it has no title anchor. It downloads iff the anchor's `href` exists and starts with `/track/`; the job's slug is what follows `/track/` and its number comes from `rel`. |
| Album.AlbumPlan | bandrip.rb:83-88 | The plan aborts iff some row has no title anchor, and has at most one job per row. |
| Album.AlbumPlanAppend | bandrip.rb:83-88 | Rows are planned in document order: the jobs of a table followed by more rows are its own jobs and then theirs, unless the first table aborts. |
| Album.PlannedIff | bandrip.rb:83-88 | A job is planned iff a row reached before any abort asks for it. |
| Album.AllTrackRows | bandrip.rb:83-88 | When every row links to a track, the plan has one job per row, in row order, and does not abort. |
| Album.PlannedSlugClassifies | bandrip.rb:85-86 | A planned slug names the track page it came from: `/track/<slug>` on the artist's host classifies as that track. |
| Downloader.Bandrip.DownloadTrack | bandrip.rb:58-77 | The new state and outcome are those of `TrackEffect` on the old state. A page without a link gives the corrected error of line 67 (see "## Left out"). |
| Downloader.Bandrip.DownloadAlbum | bandrip.rb:79-89 | The new state and outcome are those of `AlbumEffect` on the old state. The loop visits the rows in order and stops at the first error. |
| Downloader.Bandrip.Initialize | bandrip.rb:39-50 | The new state and outcome are those of `InitializeEffect` on the old state. |
| Downloader.Bandrip.FromUrlRun | bandrip.rb:22-36 | The new state and outcome are those of `FromUrlEffect` on the old state. |
| Downloader.TrackOutcome | bandrip.rb:67-76 | A track fails iff its page is unreadable, has no link, or the media fetch raises. It makes its page request first, and makes the media request iff the link exists and the file is absent. |
| Downloader.ExistingFileSkipped | bandrip.rb:69-70 | When the file exists, the track passes with no media request, files unchanged and a "skipping" report. |
| Downloader.AbsentFileFetched | bandrip.rb:71-76 | When the file is absent, the media is requested with the track page as referrer. A body is written under the filename with its size reported. `false` writes nothing and reports an error. An exception writes nothing and fails. |
| Downloader.RerunSkips | bandrip.rb:69-72 | Running a track again after it was written or skipped makes no media request and changes no file. |
| Downloader.TrackAddsRequests | bandrip.rb:59-71 | The requests a track adds are its page request, followed by the media request only when the page has a link and the file is absent. |
| Downloader.TrackGrows | bandrip.rb:69-72 | A track never changes or removes an existing file, and adds at most its own filename. The request and report logs only grow. |
| Downloader.JobsGrow | bandrip.rb:83-88 | A sequence of tracks never changes or removes an existing file. |
| Downloader.RowsFollowPlan | bandrip.rb:83-88 | The row loop runs the planned jobs in order. Then, if no job failed, it aborts at a row without a title anchor. |
| Downloader.AlbumGrows | bandrip.rb:79-89 | An album never changes or removes an existing file. |
| Downloader.FromUrlGrows | bandrip.rb:22-50 | No run, whatever its URL, changes or removes an existing file. |
| Downloader.PageUrlsAppend | bandrip.rb:61 | The page requests of two logs in sequence are those of the first, then those of the second. |
| Downloader.TrackPageRequest | bandrip.rb:59-61 | A track adds exactly one page request, its own page URL, and keeps the earlier log. |
| Downloader.JobsPageOrder | bandrip.rb:83-88 | The track pages of an album are requested in job order. The page requests added are a prefix of the jobs' page URLs, and all of them when no job fails. |
| Downloader.FromUrlRejects | bandrip.rb:24-46 | An invalid URL, or an artist page, ends the run with that error and with no request, file or report. |
| Downloader.FromUrlDownloads | bandrip.rb:26-44 | A track URL downloads that track unnumbered, and an album URL downloads that album. |
| Downloader.InitializeWithoutArtist | bandrip.rb:47-48 | Without an artist the run fails with 'Insufficient arguments' and has no effect. |

## Left out

- HTTP transport (`http_get`, lines 103-118): the request, TLS, headers, the success check and the `User-Agent`/`Accept` constants. A request is a log entry and its answer comes from the site oracle. A media answer is a body, `false` (a failed status, and also a missing body, which Ruby treats as false), or an exception. The URI parse of the media link is part of "an exception".
- The page fetch and Nokogiri parsing (lines 61-63, 82-85, 95-101, `document.to_s`): a page is given as the parsed facts the code selects. A page that cannot give them (a failed fetch, a missing name element) is `None` and ends the run.
- `sleep WAIT_TIME` (line 104): pacing in time cannot be stated in a sequential model.
- Cookies (`cookie_jar`, `cookies_for_uri`, lines 54-56 and 120-122): they belong to the foreign `http-cookie` library and do not affect what is downloaded in the model.
- `URI()` (line 23): classification starts from the host and path. `SplitUrl` is a simplified split, used only on the URLs the downloader itself builds: the host runs to the first `/`, `?` or `#`, and userinfo (`user@`) and a port (`:443`) are not separated from it as `URI()` would.
- File I/O (`File.exist?`, `File.binwrite`, lines 69-72): the directory is a map from names to bytes. An existing directory of that name, and write errors, are not modelled.
- `puts`/`print` output: progress is the list of per-track reports. The "Getting … info" lines, the filename echo and the MB figure formatted with floating point (line 73) are left out. The report carries the byte count.
- `ENV['DEBUG']` tracing (line 108), the `bundler/inline` gemfile (lines 5-11) and the command-line entry (line 125).
- The `@artist` field (line 40): it is assigned and never read.
- Invalid UTF-8 in a page or a name, which makes Ruby's regular expressions raise: strings are sequences of Unicode characters.
- Downloader.TrackEffect: a track page without an MP3 link ends the run with `NoLink(NoMp3Link)`, the 'No MP3 link found' error line 67 evidently intends, where the code as written raises NoMethodError on `nil` (`Scraper.Mp3LinkAsWritten`, `NilCaptures`). The same holds for everything built on it (`Bandrip.DownloadTrack`, `DownloadAlbum`, `Initialize`, `FromUrlRun`). `Scraper.CorrectionOnlyRenamesError` shows the two differ only in that error value: in both the run aborts at the same point, with no media request and no file written.
- Downloader.Site: the site answers each URL the same way every time. A site whose answers change between requests is not modelled.

## Findings

| source | as written | input that shows it | evidently intended | confidence | as-written member | corrected member |
|---|---|---|---|---|---|---|
| bandrip.rb:67 | `raise 'No MP3 link found' unless mp3_url = MP3_REGEX.match(document.to_s).captures.first` calls `.captures` on the result of `match`, which is `nil` when the page has no link, so the line raises NoMethodError and the guard never fires | a track page whose text has no `{"mp3-128":"…"}`, e.g. the empty page | raise 'No MP3 link found' when the page has no link | high, not executed | Scraper.NoMp3LinkGuardIsDead | Scraper.Mp3Link |

/** The media link `download_track` takes from a track page: the capture of
    `MP3_REGEX = /\{"mp3-128":"(\S+)"\}/mi`, matched leftmost-first with a
    greedy `\S+`. */
module Scraper {
  import opened Wrappers
  import opened RubyText

  /** The literal in front of the capture group: `{"mp3-128":"` (12 characters). */
  const Open: string := "{\"mp3-128\":\""

  /** The literal after the capture group. */
  const Close: string := "\"}"

  /** Case-insensitive comparison with a character of the pattern (the `i`
      flag). The pattern's only letters, `m` and `p`, have no case variants
      other than `M` and `P`. */
  predicate FoldsTo(c: char, p: char) {
    c == p || ('a' <= p <= 'z' && c as int == p as int - 32)
  }

  /** `o` is a spelling of `Open` the `i` flag accepts. */
  predicate OpenSpelling(o: string) {
    |o| == |Open| && forall k :: 0 <= k < |Open| ==> FoldsTo(o[k], Open[k])
  }

  predicate OpenAt(s: string, i: nat) {
    i + |Open| <= |s| && OpenSpelling(s[i..i + |Open|])
  }

  predicate CloseAt(s: string, k: nat) {
    k + 2 <= |s| && s[k] == '"' && s[k + 1] == '}'
  }

  /** No `\s` character (an ASCII space, tab, newline, vertical tab, form
      feed or carriage return) in `s[j..k]`. */
  predicate NonSpaceBetween(s: string, j: nat, k: nat)
    requires j <= k <= |s|
  {
    forall m :: j <= m < k ==> !IsAsciiSpace(s[m])
  }

  /** The regex matches `s` at index `i` with the capture `s[i + 12..k]`. */
  predicate MatchAt(s: string, i: nat, k: nat) {
    OpenAt(s, i) && i + |Open| < k && k <= |s| && NonSpaceBetween(s, i + |Open|, k) && CloseAt(s, k)
  }

  /** The match the regex engine reports: the leftmost start, and at that
      start the longest capture. */
  ghost predicate LeftmostLongest(s: string, i: nat, k: nat) {
    && MatchAt(s, i, k)
    && (forall i': nat, k': nat :: i' < i ==> !MatchAt(s, i', k'))
    && (forall k': nat :: k < k' ==> !MatchAt(s, i, k'))
  }

  /** Where the run of non-space characters starting at `j` ends. */
  function RunEnd(s: string, j: nat): (e: nat)
    requires j <= |s|
    ensures j <= e <= |s| && NonSpaceBetween(s, j, e)
    ensures e < |s| ==> IsAsciiSpace(s[e])
    decreases |s| - j
  {
    if j == |s| || IsAsciiSpace(s[j]) then j else RunEnd(s, j + 1)
  }

  /** Backtracking of the greedy `\S+`: the last `k` in `(j, e]` at which
      `"}` follows. */
  function LastClose(s: string, j: nat, e: nat): (r: Option<nat>)
    requires j <= e <= |s|
    ensures r.Some? ==> j < r.value <= e && CloseAt(s, r.value)
    ensures r.Some? ==> forall k :: r.value < k <= e ==> !CloseAt(s, k)
    ensures r.None? ==> forall k :: j < k <= e ==> !CloseAt(s, k)
    decreases e
  {
    if e <= j then None
    else if CloseAt(s, e) then Some(e)
    else LastClose(s, j, e - 1)
  }

  /** A capture that stays in the run cannot end past the run. */
  lemma WithinRun(s: string, j: nat, k: nat)
    requires j <= k <= |s| && NonSpaceBetween(s, j, k)
    ensures k <= RunEnd(s, j)
  {
  }

  /** The regex tried at index `i`: the end of the longest capture there. */
  function MatchFrom(s: string, i: nat): (r: Option<nat>)
    ensures r.Some? ==> MatchAt(s, i, r.value) && forall k: nat :: r.value < k ==> !MatchAt(s, i, k)
    ensures r.None? ==> forall k: nat :: !MatchAt(s, i, k)
  {
    if !OpenAt(s, i) then None
    else
      var j := i + |Open|;
      var e := RunEnd(s, j);
      var r := LastClose(s, j, e);
      assert forall k: nat :: MatchAt(s, i, k) ==> k <= e by {
        forall k: nat | MatchAt(s, i, k) ensures k <= e {
          WithinRun(s, j, k);
        }
      }
      assert r.Some? ==> NonSpaceBetween(s, j, r.value);
      r
  }

  /** The engine's scan: the first index at or after `i` where a match starts. */
  function Search(s: string, i: nat): (r: Option<(nat, nat)>)
    requires i <= |s|
    ensures r.Some? ==> i <= r.value.0 && MatchAt(s, r.value.0, r.value.1)
    ensures r.Some? ==> forall k: nat :: r.value.1 < k ==> !MatchAt(s, r.value.0, k)
    ensures r.Some? ==> forall i': nat, k: nat :: i <= i' < r.value.0 ==> !MatchAt(s, i', k)
    ensures r.None? ==> forall i': nat, k: nat :: i <= i' ==> !MatchAt(s, i', k)
    decreases |s| - i
  {
    if i == |s| then None
    else
      match MatchFrom(s, i)
      case Some(k) => Some((i, k))
      case None => Search(s, i + 1)
  }

  /** `MP3_REGEX.match(page)`: the capture of the match, or nil. */
  function Mp3Capture(page: string): (r: Option<string>)
    ensures r.None? <==> forall i: nat, k: nat :: !MatchAt(page, i, k)
    ensures r.Some? ==> r.value != [] && forall m :: 0 <= m < |r.value| ==> !IsAsciiSpace(r.value[m])
  {
    match Search(page, 0)
    case None => None
    case Some((i, k)) =>
      var c := page[i + |Open|..k];
      assert forall m :: 0 <= m < |c| ==> c[m] == page[i + |Open| + m];
      Some(c)
  }

  /** The capture is the one of the leftmost, longest match, and such a match
      is exactly what the scan finds. */
  lemma {:induction false} CaptureIsLeftmostLongest(page: string, i: nat, k: nat)
    ensures LeftmostLongest(page, i, k) <==> Search(page, 0) == Some((i, k))
    ensures LeftmostLongest(page, i, k) ==> Mp3Capture(page) == Some(page[i + |Open|..k])
  {
    var r := Search(page, 0);
    if LeftmostLongest(page, i, k) {
      assert r.Some?;
    }
  }

  // ---------------------------------------------------------------------
  // Pages that embed a link

  lemma NoOpenBefore(s: string, i: nat)
    requires i < |s| && s[i] != '{'
    ensures !OpenAt(s, i)
  {
    assert i + |Open| <= |s| ==> s[i..i + |Open|][0] == s[i];
  }

  /** A page that carries `{"mp3-128":"<url>"}` (in any letter case) and no
      `{` before it yields `<url>` as soon as the next character is a space
      or the page ends; `<url>` may itself contain `"}`, because `\S+` is
      greedy. */
  lemma {:induction false} EmbeddedLinkFound(pre: string, o: string, url: string, post: string)
    requires forall m :: 0 <= m < |pre| ==> pre[m] != '{'
    requires OpenSpelling(o)
    requires url != [] && forall m :: 0 <= m < |url| ==> !IsAsciiSpace(url[m])
    requires post == [] || IsAsciiSpace(post[0])
    ensures Mp3Capture(pre + o + url + Close + post) == Some(url)
  {
    var s := pre + o + url + Close + post;
    var i := |pre|;
    var j := i + |Open|;
    var k := j + |url|;
    assert s[i..j] == o;
    assert s[j..k] == url;
    assert s[k] == '"' && s[k + 1] == '}';
    assert NonSpaceBetween(s, j, k) by {
      forall m | j <= m < k ensures !IsAsciiSpace(s[m]) {
        assert s[m] == url[m - j];
      }
    }
    assert MatchAt(s, i, k);
    forall i': nat, k': nat | i' < i ensures !MatchAt(s, i', k') {
      assert s[i'] == pre[i'];
      NoOpenBefore(s, i');
    }
    assert k + 2 < |s| ==> s[k + 2] == post[0];
    forall k': nat | k < k' ensures !MatchAt(s, i, k') {
      if k' == k + 1 {
        assert s[k'] == '}';
      }
    }
    CaptureIsLeftmostLongest(s, i, k);
    assert s[j..k] == url;
  }

  // ---------------------------------------------------------------------
  // Line 67: the failure when no link is found

  datatype LinkError =
    | NoMp3Link    // RuntimeError 'No MP3 link found'
    | NilCaptures  // NoMethodError: undefined method `captures' for nil

  /** Line 67 as written: without a match, `match` returns nil and
      `.captures` is called on it. */
  function Mp3LinkAsWritten(page: string): (r: Result<string, LinkError>)
    ensures r.Success? <==> Mp3Capture(page).Some?
    ensures r.Success? ==> Mp3Capture(page) == Some(r.value)
    ensures r.Failure? ==> r.error == NilCaptures
  {
    match Mp3Capture(page)
    case Some(url) => Success(url)
    case None => Failure(NilCaptures)
  }

  /** The `raise 'No MP3 link found'` guard never fires: the capture group is
      not optional, so a match always has a first capture, and no match fails
      earlier, on nil. */
  lemma NoMp3LinkGuardIsDead(page: string)
    ensures Mp3LinkAsWritten(page) != Failure(NoMp3Link)
    ensures Mp3LinkAsWritten("") == Failure(NilCaptures)
  {
    assert !OpenAt("", 0);
  }

  /** The intended behaviour: the link of the leftmost match, or the error
      'No MP3 link found' when the page has none. */
  function Mp3Link(page: string): (r: Result<string, LinkError>)
    ensures r.Failure? <==> forall i: nat, k: nat :: !MatchAt(page, i, k)
    ensures r.Failure? ==> r.error == NoMp3Link
    ensures r.Success? ==> r.value != [] && forall m :: 0 <= m < |r.value| ==> !IsAsciiSpace(r.value[m])
    ensures r.Success? ==> Mp3Capture(page) == Some(r.value)
  {
    match Mp3Capture(page)
    case Some(url) => Success(url)
    case None => Failure(NoMp3Link)
  }

  /** The correction changes only which error a page without a link raises:
      both forms succeed on the same pages with the same link. */
  lemma CorrectionOnlyRenamesError(page: string)
    ensures Mp3Link(page).Success? <==> Mp3LinkAsWritten(page).Success?
    ensures Mp3Link(page).Success? ==> Mp3Link(page).value == Mp3LinkAsWritten(page).value
    ensures Mp3Link(page).Failure? ==> Mp3Link(page).error == NoMp3Link && Mp3LinkAsWritten(page).error == NilCaptures
  {
  }
}

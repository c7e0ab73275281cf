/** The filename `download_track` computes: the sanitised
    `"<artist> - <track>.mp3"`, with a two-digit track number in front when
    the number is positive. */
module Naming {
  import opened Wrappers
  import opened RubyText
  import opened Sanitizer

  /** The tail every name is built with before sanitising. */
  const Extension: string := ".mp3"

  /** The unsanitised `"#{artist_name} - #{track_name}"` part. */
  function Stem(artistName: string, trackName: string): string {
    artistName + " - " + trackName
  }

  /** `sanitize_filename("#{artist_name} - #{track_name}.mp3")` */
  function BaseName(artistName: string, trackName: string): string {
    Sanitize(Stem(artistName, trackName) + Extension)
  }

  /** `number.to_i` for the `number:` keyword, where nil reads as 0. */
  function NumberOf(number: Option<int>): int {
    number.GetOr(0)
  }

  /** The name the track is stored under. */
  function TrackFilename(artistName: string, trackName: string, number: Option<int>): string {
    var n := NumberOf(number);
    var base := BaseName(artistName, trackName);
    if n > 0 then Pad2(n) + " " + base else base
  }

  /** Without a positive number the name is the sanitised one, with every
      guarantee of the sanitiser. */
  lemma UnnumberedFilename(artistName: string, trackName: string, number: Option<int>)
    requires NumberOf(number) <= 0
    ensures var r := TrackFilename(artistName, trackName, number);
            && r == Sanitize(artistName + " - " + trackName + ".mp3")
            && NoForbidden(r) && SpacesCollapsed(r) && |r| <= MaxLength
  {
    SanitizeShape(Stem(artistName, trackName) + Extension);
  }

  /** With a positive number the name is that number zero-padded to at
      least two digits, a space and the sanitised name; reading the name
      with `to_i` gives the number back. */
  lemma NumberedFilename(artistName: string, trackName: string, number: Option<int>)
    requires NumberOf(number) > 0
    ensures var n := NumberOf(number);
            var r := TrackFilename(artistName, trackName, number);
            var k := |Pad2(n)|;
            && k >= 2 && k < |r| && AllDigits(r[..k]) && r[..k] == Pad2(n)
            && r[k] == ' ' && r[k + 1..] == BaseName(artistName, trackName)
            && ToI(r) == n
            && |r| <= MaxLength + k + 1
  {
    var n := NumberOf(number);
    var p := Pad2(n);
    var base := BaseName(artistName, trackName);
    var r := p + " " + base;
    assert r == p + (" " + base);
    Pad2ToI(n, " " + base);
    assert r[..|p|] == p && r[|p|] == ' ' && r[|p| + 1..] == base;
    SanitizeShape(Stem(artistName, trackName) + Extension);
  }

  /** The extension passes the filter and the whitespace replacement as it is. */
  lemma ExtensionIsClean()
    ensures Filter(Extension) == Extension
    ensures Collapse(Extension) == Extension
    ensures !IsSpace(Extension[0])
  {
    assert NoForbidden(Extension) by {
      forall i | 0 <= i < |Extension| ensures !Forbidden(Extension[i]) {
        assert Extension[i] in ".mp3";
      }
    }
    assert SpacesCollapsed(Extension) by {
      forall i | 0 <= i < |Extension| ensures !IsSpace(Extension[i]) {
        assert Extension[i] in ".mp3";
      }
    }
    CollapseFixesCollapsed(Extension);
  }

  /** Sanitising works on the stem and leaves the extension alone. */
  lemma SanitizedWithExtension(artistName: string, trackName: string)
    ensures var c := Collapse(Filter(Stem(artistName, trackName)));
            BaseName(artistName, trackName) == Truncate(c + Extension)
  {
    var x := Stem(artistName, trackName);
    FilterAppend(x, Extension);
    ExtensionIsClean();
    assert Filter(x + Extension) == Filter(x) + Extension;
    CollapseAppend(Filter(x), Extension);
  }

  /** A name short enough keeps its `.mp3` ending. */
  lemma ShortNameKeepsExtension(artistName: string, trackName: string)
    requires |Collapse(Filter(Stem(artistName, trackName)))| + |Extension| <= MaxLength
    ensures EndsWith(BaseName(artistName, trackName), Extension)
  {
    SanitizedWithExtension(artistName, trackName);
    EndsWithSuffix(Collapse(Filter(Stem(artistName, trackName))), Extension);
  }

  /** A long name is cut before its `.mp3`: the truncation to 251 characters
      takes the ending with it. */
  lemma LongNameLosesExtension(artistName: string, trackName: string)
    requires |Collapse(Filter(Stem(artistName, trackName)))| >= MaxLength
    ensures BaseName(artistName, trackName) == Collapse(Filter(Stem(artistName, trackName)))[..MaxLength]
  {
    var c := Collapse(Filter(Stem(artistName, trackName)));
    SanitizedWithExtension(artistName, trackName);
    assert (c + Extension)[..MaxLength] == c[..MaxLength];
  }
}

/** The row loop of `download_album`: which rows of the track table become
    track downloads, under which slug and number, and in which order. */
module Album {
  import opened Wrappers
  import opened RubyText
  import opened Resolver

  /** The `.title a[itemprop='url']` element of a row; its `href` attribute
      may be absent. */
  datatype Anchor = Anchor(href: Option<string>)

  /** One `tr` of the track table: its `rel` attribute, and the title anchor
      `at_css` finds, if any. */
  datatype Row = Row(rel: Option<string>, title: Option<Anchor>)

  /** A call `download_track(artist, slug, number: number)`. */
  datatype Job = Job(slug: string, number: int)

  /** What one row does: start a download, nothing, or abort the album with
      the NoMethodError of `nil['href']`. */
  datatype RowAction = Download(job: Job) | Ignore | Abort

  /** The tag in front of the number in `rel`. */
  const TrackNumTag: string := "tracknum="

  /** `tr['rel'].to_s.sub('tracknum=', '').to_i` */
  function RowNumber(rel: Option<string>): int {
    ToI(RemoveFirst(rel.GetOr(""), TrackNumTag))
  }

  /** A `rel` of the form `tracknum=<n>` gives back `n`; a row without a
      `rel` attribute has number 0. */
  lemma TaggedRelNumber(n: nat)
    ensures RowNumber(Some(TrackNumTag + Decimal(n))) == n
    ensures RowNumber(None) == 0
  {
    StartsWithPrefix(TrackNumTag, Decimal(n));
    DecimalToI(n, []);
    assert Decimal(n) + [] == Decimal(n);
  }

  /** A `rel` without the tag is read by `to_i` as it stands; one that does
      not start with a space, a sign or a digit gives 0. */
  lemma UntaggedRelNumber(rel: string)
    requires forall i: nat :: i <= |rel| ==> !OccursAt(rel, TrackNumTag, i)
    ensures RowNumber(Some(rel)) == ToI(rel)
    ensures rel == [] || !(IsAsciiSpace(rel[0]) || IsDigit(rel[0]) || rel[0] == '+' || rel[0] == '-')
            ==> RowNumber(Some(rel)) == 0
  {
    RemoveFirstAbsent(rel, TrackNumTag);
    if rel == [] || !(IsAsciiSpace(rel[0]) || IsDigit(rel[0]) || rel[0] == '+' || rel[0] == '-') {
      ToINonNumeric(rel);
    }
  }

  /** The condition `link = …['href'] and link.start_with?('/track/')`, and
      the slug `link[7..-1]`. */
  function Action(row: Row): (a: RowAction)
    ensures a.Abort? <==> row.title.None?
    ensures a.Download? <==>
              row.title.Some? && row.title.value.href.Some? && StartsWith(row.title.value.href.value, TrackPrefix)
    ensures a.Download? ==> row.title.value.href.value == TrackPrefix + a.job.slug
    ensures a.Download? ==> a.job.number == RowNumber(row.rel)
  {
    match row.title
    case None => Abort
    case Some(anchor) =>
      match anchor.href
      case None => Ignore
      case Some(link) =>
        if StartsWith(link, TrackPrefix) then
          assert link == TrackPrefix + link[7..];
          Download(Job(link[7..], RowNumber(row.rel)))
        else Ignore
  }

  /** The downloads the album asks for in document order, and whether a row
      without a title anchor stops the loop after them. */
  datatype Plan = Plan(jobs: seq<Job>, aborted: bool)

  /** No row before `i` aborts the loop, so row `i` is visited. */
  predicate Reached(rows: seq<Row>, i: nat)
    requires i <= |rows|
  {
    forall m :: 0 <= m < i ==> rows[m].title.Some?
  }

  /** The plan of a table: the jobs of the rows visited, in order. */
  function AlbumPlan(rows: seq<Row>): (p: Plan)
    ensures p.aborted <==> exists m :: 0 <= m < |rows| && rows[m].title.None?
    ensures |p.jobs| <= |rows|
  {
    if rows == [] then Plan([], false)
    else
      var rest := AlbumPlan(rows[1..]);
      assert forall m :: 0 < m < |rows| ==> rows[m] == rows[1..][m - 1];
      match Action(rows[0])
      case Abort => Plan([], true)
      case Ignore => rest
      case Download(j) => Plan([j] + rest.jobs, rest.aborted)
  }

  /** Planning two runs of rows one after the other: the second run is
      visited only when the first does not abort, and its jobs follow the
      first run's jobs. */
  lemma {:induction false} AlbumPlanAppend(a: seq<Row>, b: seq<Row>)
    ensures AlbumPlan(a + b)
            == if AlbumPlan(a).aborted then AlbumPlan(a)
               else Plan(AlbumPlan(a).jobs + AlbumPlan(b).jobs, AlbumPlan(b).aborted)
    decreases |a|
  {
    if a == [] {
      assert a + b == b;
    } else {
      assert (a + b)[0] == a[0];
      assert (a + b)[1..] == a[1..] + b;
      AlbumPlanAppend(a[1..], b);
      match Action(a[0])
      case Abort =>
      case Ignore =>
      case Download(j) =>
        assert [j] + (AlbumPlan(a[1..]).jobs + AlbumPlan(b).jobs)
               == ([j] + AlbumPlan(a[1..]).jobs) + AlbumPlan(b).jobs;
    }
  }

  /** A job is planned exactly when a visited row asks for it. */
  lemma {:induction false} PlannedIff(rows: seq<Row>, j: Job)
    ensures j in AlbumPlan(rows).jobs <==>
              exists i: nat :: i < |rows| && Reached(rows, i) && Action(rows[i]) == Download(j)
    decreases |rows|
  {
    if rows != [] {
      PlannedIff(rows[1..], j);
      var tail := rows[1..];
      if j in AlbumPlan(rows).jobs {
        match Action(rows[0])
        case Abort =>
        case Ignore =>
          var i: nat :| i < |tail| && Reached(tail, i) && Action(tail[i]) == Download(j);
          assert Reached(rows, i + 1) by {
            forall m | 0 <= m < i + 1 ensures rows[m].title.Some? {
              if m > 0 { assert rows[m] == tail[m - 1]; }
            }
          }
          assert rows[i + 1] == tail[i];
        case Download(j0) =>
          if j == j0 {
            assert Reached(rows, 0);
          } else {
            var i: nat :| i < |tail| && Reached(tail, i) && Action(tail[i]) == Download(j);
            assert Reached(rows, i + 1) by {
              forall m | 0 <= m < i + 1 ensures rows[m].title.Some? {
                if m > 0 { assert rows[m] == tail[m - 1]; }
              }
            }
            assert rows[i + 1] == tail[i];
          }
      }
      if exists i: nat :: i < |rows| && Reached(rows, i) && Action(rows[i]) == Download(j) {
        var i: nat :| i < |rows| && Reached(rows, i) && Action(rows[i]) == Download(j);
        if i > 0 {
          assert rows[0].title.Some?;
          assert Reached(tail, i - 1) by {
            forall m | 0 <= m < i - 1 ensures tail[m].title.Some? {
              assert tail[m] == rows[m + 1];
            }
          }
          assert tail[i - 1] == rows[i];
        }
      }
    }
  }

  /** A table whose rows all link to tracks plans one job per row, in row
      order. */
  lemma {:induction false} AllTrackRows(rows: seq<Row>)
    requires forall i :: 0 <= i < |rows| ==> Action(rows[i]).Download?
    ensures var p := AlbumPlan(rows);
            && !p.aborted && |p.jobs| == |rows|
            && forall i :: 0 <= i < |rows| ==> p.jobs[i] == Action(rows[i]).job
    decreases |rows|
  {
    if rows != [] {
      assert forall i :: 0 <= i < |rows[1..]| ==> rows[1..][i] == rows[i + 1];
      AllTrackRows(rows[1..]);
    }
  }

  /** The slug of a planned job names the track page it came from: the page
      URL built for it classifies back to the same artist and slug. */
  lemma PlannedSlugClassifies(row: Row, artist: string)
    requires Action(row).Download?
    ensures var slug := Action(row).job.slug;
            FromUrl(artist + Domain, row.title.value.href.value) == Success(TrackTarget(artist, slug))
  {
    var slug := Action(row).job.slug;
    TrackIff(artist + Domain, row.title.value.href.value, artist, slug);
  }
}

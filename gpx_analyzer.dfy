/**
  A model of the anomaly scans of gpxray's GPXAnalyzer.

  A parsed GPX file is a sequence of tracks; each track has an optional name
  and a sequence of segments; each segment is a sequence of track points.
  Each scan walks adjacent pairs (points of one segment, or segments of one
  track) in traversal order and reports the pairs its check flags.

  The specification of every scan is stated in two steps: `PointSites` and
  `SegmentSites` list the adjacent pairs in traversal order, and `Collect`
  keeps, in order, the issue each pair's check produces. The methods
  `AnalyzeSpeed`, `AnalyzeElevation` and `AnalyzeSegmentContinuity` are the
  nested loops of the source, proved equal to those specifications.
*/
module GpxAnalyzer {

  datatype Option<+T> = None | Some(value: T)

  // ---------------------------------------------------------------------
  // Track model
  // ---------------------------------------------------------------------

  /** A recorded sample; `time` is in whole seconds since the epoch. */
  datatype TrackPoint = TrackPoint(lat: real, lon: real, ele: real, time: int)

  type Segment = seq<TrackPoint>

  datatype Track = Track(name: Option<string>, segments: seq<Segment>)

  /** Great-circle distance in kilometres between (lat1, lon1) and (lat2, lon2). */
  type Distance = (real, real, real, real) -> real

  /** A reported anomaly: the offending value, the track's name and the time of the earlier point. */
  datatype Issue =
    | SpeedIssue(speed: real, location: Option<string>, time: int)
    | ElevationIssue(change: real, location: Option<string>, time: int)
    | ContinuityIssue(gap: int, location: Option<string>, time: int)
  {
    /** The number the scan compared with its threshold. */
    function Value(): real
    {
      match this
      case SpeedIssue(v, _, _) => v
      case ElevationIssue(v, _, _) => v
      case ContinuityIssue(g, _, _) => g as real
    }

    /** Position of the issue's kind in the combined report. */
    function Rank(): nat
    {
      if SpeedIssue? then 0 else if ElevationIssue? then 1 else 2
    }
  }

  /** The thresholds `analyze` passes to the three scans. */
  datatype Thresholds = Thresholds(maxSpeed: real, maxElevationChange: real, maxGap: real)

  const DefaultThresholds := Thresholds(100.0, 100.0, 300.0)

  // ---------------------------------------------------------------------
  // Adjacent pairs in traversal order
  // ---------------------------------------------------------------------

  /** Two consecutive elements and the name of the track they belong to. */
  datatype Site<T> = Site(location: Option<string>, first: T, second: T)

  /** The consecutive pairs of `xs`, in order. */
  function Sites<T>(location: Option<string>, xs: seq<T>): seq<Site<T>>
  {
    if |xs| < 2 then []
    else Sites(location, xs[..|xs| - 1]) + [Site(location, xs[|xs| - 2], xs[|xs| - 1])]
  }

  /** The point pairs of a track's segments, segment by segment. */
  function SegmentsPointSites(location: Option<string>, segments: seq<Segment>): seq<Site<TrackPoint>>
  {
    if segments == [] then []
    else SegmentsPointSites(location, segments[..|segments| - 1]) + Sites(location, segments[|segments| - 1])
  }

  /** Every consecutive point pair of every segment of every track, in traversal order. */
  function PointSites(tracks: seq<Track>): seq<Site<TrackPoint>>
  {
    if tracks == [] then []
    else
      var t := tracks[|tracks| - 1];
      PointSites(tracks[..|tracks| - 1]) + SegmentsPointSites(t.name, t.segments)
  }

  /** Every consecutive segment pair of every track, in traversal order. */
  function SegmentSites(tracks: seq<Track>): seq<Site<Segment>>
  {
    if tracks == [] then []
    else
      var t := tracks[|tracks| - 1];
      SegmentSites(tracks[..|tracks| - 1]) + Sites(t.name, t.segments)
  }

  function Emitted(o: Option<Issue>): seq<Issue>
  {
    if o.Some? then [o.value] else []
  }

  /** The issues `check` reports for `sites`, in the order of the sites. */
  function Collect<T>(sites: seq<Site<T>>, check: Site<T> -> Option<Issue>): seq<Issue>
  {
    if sites == [] then []
    else Collect(sites[..|sites| - 1], check) + Emitted(check(sites[|sites| - 1]))
  }

  // ---------------------------------------------------------------------
  // The checks of the three scans
  // ---------------------------------------------------------------------

  /** Elapsed time between two points, in hours. */
  function ElapsedHours(p1: TrackPoint, p2: TrackPoint): real
  {
    (p2.time - p1.time) as real / 3600.0
  }

  /** Average speed over a pair, in km/h; only defined for a positive elapsed time. */
  function Speed(dist: Distance, s: Site<TrackPoint>): real
    requires ElapsedHours(s.first, s.second) > 0.0
  {
    dist(s.first.lat, s.first.lon, s.second.lat, s.second.lon) / ElapsedHours(s.first, s.second)
  }

  function SpeedCheck(dist: Distance, maxSpeed: real, s: Site<TrackPoint>): Option<Issue>
  {
    if ElapsedHours(s.first, s.second) > 0.0 && Speed(dist, s) > maxSpeed
    then Some(SpeedIssue(Speed(dist, s), s.location, s.first.time))
    else None
  }

  function SpeedChecker(dist: Distance, maxSpeed: real): Site<TrackPoint> -> Option<Issue>
  {
    s => SpeedCheck(dist, maxSpeed, s)
  }

  function Abs(x: real): real
  {
    if x < 0.0 then -x else x
  }

  function ElevationChange(s: Site<TrackPoint>): real
  {
    Abs(s.second.ele - s.first.ele)
  }

  function ElevationCheck(maxChange: real, s: Site<TrackPoint>): Option<Issue>
  {
    if ElevationChange(s) > maxChange
    then Some(ElevationIssue(ElevationChange(s), s.location, s.first.time))
    else None
  }

  function ElevationChecker(maxChange: real): Site<TrackPoint> -> Option<Issue>
  {
    s => ElevationCheck(maxChange, s)
  }

  function Last(points: Segment): TrackPoint
    requires points != []
  {
    points[|points| - 1]
  }

  /** Seconds from the last point of one segment to the first point of the next. */
  function Gap(s: Site<Segment>): int
    requires s.first != [] && s.second != []
  {
    s.second[0].time - Last(s.first).time
  }

  function GapCheck(maxGap: real, s: Site<Segment>): Option<Issue>
  {
    if s.first != [] && s.second != [] && Gap(s) as real > maxGap
    then Some(ContinuityIssue(Gap(s), s.location, Last(s.first).time))
    else None
  }

  function GapChecker(maxGap: real): Site<Segment> -> Option<Issue>
  {
    s => GapCheck(maxGap, s)
  }

  // ---------------------------------------------------------------------
  // What each scan reports
  // ---------------------------------------------------------------------

  function SpeedIssues(dist: Distance, tracks: seq<Track>, maxSpeed: real): seq<Issue>
  {
    Collect(PointSites(tracks), SpeedChecker(dist, maxSpeed))
  }

  function ElevationIssues(tracks: seq<Track>, maxChange: real): seq<Issue>
  {
    Collect(PointSites(tracks), ElevationChecker(maxChange))
  }

  function ContinuityIssues(tracks: seq<Track>, maxGap: real): seq<Issue>
  {
    Collect(SegmentSites(tracks), GapChecker(maxGap))
  }

  /** The report of `analyze`: speed issues, then elevation issues, then continuity issues. */
  function AllIssues(dist: Distance, tracks: seq<Track>, limits: Thresholds): seq<Issue>
  {
    SpeedIssues(dist, tracks, limits.maxSpeed)
    + ElevationIssues(tracks, limits.maxElevationChange)
    + ContinuityIssues(tracks, limits.maxGap)
  }

  // ---------------------------------------------------------------------
  // Sequence facts, each proved on its own so that larger proofs stay small
  // ---------------------------------------------------------------------

  lemma PrefixOfPrefix<T>(s: seq<T>, i: nat)
    requires i < |s|
    ensures s[..i + 1][..i] == s[..i] && s[..i + 1][i] == s[i]
  {
  }

  lemma WholePrefix<T>(s: seq<T>)
    ensures s[..|s|] == s
  {
  }

  lemma DropLastOfAppend<T>(a: seq<T>, b: seq<T>)
    requires b != []
    ensures (a + b)[..|a + b| - 1] == a + b[..|b| - 1]
    ensures (a + b)[|a + b| - 1] == b[|b| - 1]
  {
  }

  lemma DropLastOfSnoc<T>(a: seq<T>, x: T)
    ensures (a + [x])[..|a|] == a && (a + [x])[|a|] == x
  {
  }

  lemma AppendAssoc<T>(x: seq<T>, y: seq<T>, z: seq<T>)
    ensures x + y + z == x + (y + z)
  {
  }

  lemma AppendEmpty<T>(x: seq<T>)
    ensures x + [] == x && [] + x == x
  {
  }

  // ---------------------------------------------------------------------
  // Sites and Collect, one step at a time
  // ---------------------------------------------------------------------

  /** Sites lists the pairs (xs[i], xs[i + 1]): one fewer than the elements, none for 0 or 1. */
  lemma {:induction false} SitesAt<T>(location: Option<string>, xs: seq<T>)
    ensures |Sites(location, xs)| == if |xs| == 0 then 0 else |xs| - 1
    ensures forall i :: 0 <= i < |Sites(location, xs)| ==> Sites(location, xs)[i] == Site(location, xs[i], xs[i + 1])
  {
    if |xs| >= 2 {
      var init := xs[..|xs| - 1];
      SitesAt(location, init);
      assert forall i :: 0 <= i < |init| ==> init[i] == xs[i];
    }
  }

  /** One more pair of the current segment (or track) has been examined. */
  lemma CollectExtend<T>(pairs: seq<Site<T>>, i: nat, check: Site<T> -> Option<Issue>)
    requires i < |pairs|
    ensures Collect(pairs[..i + 1], check) == Collect(pairs[..i], check) + Emitted(check(pairs[i]))
  {
    PrefixOfPrefix(pairs, i);
  }

  /** Issues of earlier sites come before issues of later sites. */
  lemma {:induction false} CollectAppend<T>(a: seq<Site<T>>, b: seq<Site<T>>, check: Site<T> -> Option<Issue>)
    ensures Collect(a + b, check) == Collect(a, check) + Collect(b, check)
  {
    if b == [] {
      AppendEmpty(a);
      AppendEmpty(Collect(a, check));
    } else {
      var init := b[..|b| - 1];
      CollectAppend(a, init, check);
      DropLastOfAppend(a, b);
      AppendAssoc(Collect(a, check), Collect(init, check), Emitted(check(b[|b| - 1])));
    }
  }

  /** One more segment of the current track has been examined by a point scan. */
  lemma CollectSegmentsExtend(location: Option<string>, segments: seq<Segment>, g: nat, check: Site<TrackPoint> -> Option<Issue>)
    requires g < |segments|
    ensures Collect(SegmentsPointSites(location, segments[..g + 1]), check)
            == Collect(SegmentsPointSites(location, segments[..g]), check) + Collect(Sites(location, segments[g]), check)
  {
    PrefixOfPrefix(segments, g);
    CollectAppend(SegmentsPointSites(location, segments[..g]), Sites(location, segments[g]), check);
  }

  /** One more track has been examined by a point scan. */
  lemma CollectPointSitesExtend(tracks: seq<Track>, k: nat, check: Site<TrackPoint> -> Option<Issue>)
    requires k < |tracks|
    ensures Collect(PointSites(tracks[..k + 1]), check)
            == Collect(PointSites(tracks[..k]), check) + Collect(SegmentsPointSites(tracks[k].name, tracks[k].segments), check)
  {
    PrefixOfPrefix(tracks, k);
    CollectAppend(PointSites(tracks[..k]), SegmentsPointSites(tracks[k].name, tracks[k].segments), check);
  }

  /** One more track has been examined by the continuity scan. */
  lemma CollectSegmentSitesExtend(tracks: seq<Track>, k: nat, check: Site<Segment> -> Option<Issue>)
    requires k < |tracks|
    ensures Collect(SegmentSites(tracks[..k + 1]), check)
            == Collect(SegmentSites(tracks[..k]), check) + Collect(Sites(tracks[k].name, tracks[k].segments), check)
  {
    PrefixOfPrefix(tracks, k);
    CollectAppend(SegmentSites(tracks[..k]), Sites(tracks[k].name, tracks[k].segments), check);
  }

  // ---------------------------------------------------------------------
  // The scans, loop for loop
  // ---------------------------------------------------------------------

  /** The innermost loop of analyze_speed: appends the speed issues of one segment. */
  method ScanSegmentSpeed(dist: Distance, name: Option<string>, points: Segment, maxSpeedThreshold: real, issues: seq<Issue>)
    returns (result: seq<Issue>)
    ensures result == issues + Collect(Sites(name, points), SpeedChecker(dist, maxSpeedThreshold))
  {
    ghost var check := SpeedChecker(dist, maxSpeedThreshold);
    ghost var pairs := Sites(name, points);
    SitesAt(name, points);
    AppendEmpty(issues);
    result := issues;
    var i := 0;
    while i < |points| - 1
      invariant 0 <= i <= |pairs|
      invariant result == issues + Collect(pairs[..i], check)
    {
      ghost var done := Collect(pairs[..i], check);
      var p1, p2 := points[i], points[i + 1];
      assert pairs[i] == Site(name, p1, p2);
      ghost var found := SpeedCheck(dist, maxSpeedThreshold, Site(name, p1, p2));
      ghost var previous := result;
      var distance := dist(p1.lat, p1.lon, p2.lat, p2.lon);
      var timeDiff := (p2.time - p1.time) as real / 3600.0;
      if timeDiff > 0.0 {
        var speed := distance / timeDiff;
        if speed > maxSpeedThreshold {
          result := result + [SpeedIssue(speed, name, p1.time)];
          assert found == Some(SpeedIssue(speed, name, p1.time));
        }
      }
      assert result == previous + Emitted(found);
      CollectExtend(pairs, i, check);
      AppendAssoc(issues, done, Emitted(found));
      i := i + 1;
    }
    WholePrefix(pairs);
  }

  /** analyze_speed: every pair of consecutive points whose average speed exceeds the threshold. */
  method AnalyzeSpeed(dist: Distance, tracks: seq<Track>, maxSpeedThreshold: real) returns (issues: seq<Issue>)
    ensures issues == SpeedIssues(dist, tracks, maxSpeedThreshold)
  {
    ghost var check := SpeedChecker(dist, maxSpeedThreshold);
    issues := [];
    for k := 0 to |tracks|
      invariant issues == Collect(PointSites(tracks[..k]), check)
    {
      var trk := tracks[k];
      ghost var before := issues;
      AppendEmpty(before);
      for g := 0 to |trk.segments|
        invariant issues == before + Collect(SegmentsPointSites(trk.name, trk.segments[..g]), check)
      {
        ghost var done := Collect(SegmentsPointSites(trk.name, trk.segments[..g]), check);
        issues := ScanSegmentSpeed(dist, trk.name, trk.segments[g], maxSpeedThreshold, issues);
        CollectSegmentsExtend(trk.name, trk.segments, g, check);
        AppendAssoc(before, done, Collect(Sites(trk.name, trk.segments[g]), check));
      }
      WholePrefix(trk.segments);
      CollectPointSitesExtend(tracks, k, check);
    }
    WholePrefix(tracks);
  }

  /** The innermost loop of analyze_elevation: appends the elevation issues of one segment. */
  method ScanSegmentElevation(name: Option<string>, points: Segment, maxElevationChange: real, issues: seq<Issue>)
    returns (result: seq<Issue>)
    ensures result == issues + Collect(Sites(name, points), ElevationChecker(maxElevationChange))
  {
    ghost var check := ElevationChecker(maxElevationChange);
    ghost var pairs := Sites(name, points);
    SitesAt(name, points);
    AppendEmpty(issues);
    result := issues;
    var i := 0;
    while i < |points| - 1
      invariant 0 <= i <= |pairs|
      invariant result == issues + Collect(pairs[..i], check)
    {
      ghost var done := Collect(pairs[..i], check);
      var p1, p2 := points[i], points[i + 1];
      assert pairs[i] == Site(name, p1, p2);
      ghost var found := ElevationCheck(maxElevationChange, Site(name, p1, p2));
      ghost var previous := result;
      var elevationChange := Abs(p2.ele - p1.ele);
      if elevationChange > maxElevationChange {
        result := result + [ElevationIssue(elevationChange, name, p1.time)];
      }
      assert result == previous + Emitted(found);
      CollectExtend(pairs, i, check);
      AppendAssoc(issues, done, Emitted(found));
      i := i + 1;
    }
    WholePrefix(pairs);
  }

  /** analyze_elevation: every pair of consecutive points whose elevation differs by more than the threshold. */
  method AnalyzeElevation(tracks: seq<Track>, maxElevationChange: real) returns (issues: seq<Issue>)
    ensures issues == ElevationIssues(tracks, maxElevationChange)
  {
    ghost var check := ElevationChecker(maxElevationChange);
    issues := [];
    for k := 0 to |tracks|
      invariant issues == Collect(PointSites(tracks[..k]), check)
    {
      var trk := tracks[k];
      ghost var before := issues;
      AppendEmpty(before);
      for g := 0 to |trk.segments|
        invariant issues == before + Collect(SegmentsPointSites(trk.name, trk.segments[..g]), check)
      {
        ghost var done := Collect(SegmentsPointSites(trk.name, trk.segments[..g]), check);
        issues := ScanSegmentElevation(trk.name, trk.segments[g], maxElevationChange, issues);
        CollectSegmentsExtend(trk.name, trk.segments, g, check);
        AppendAssoc(before, done, Collect(Sites(trk.name, trk.segments[g]), check));
      }
      WholePrefix(trk.segments);
      CollectPointSitesExtend(tracks, k, check);
    }
    WholePrefix(tracks);
  }

  /** The inner loop of analyze_segment_continuity: appends the gap issues of one track. */
  method ScanTrackContinuity(name: Option<string>, trksegs: seq<Segment>, maxGap: real, issues: seq<Issue>)
    returns (result: seq<Issue>)
    ensures result == issues + Collect(Sites(name, trksegs), GapChecker(maxGap))
  {
    ghost var check := GapChecker(maxGap);
    ghost var pairs := Sites(name, trksegs);
    SitesAt(name, trksegs);
    AppendEmpty(issues);
    result := issues;
    var i := 0;
    while i < |trksegs| - 1
      invariant 0 <= i <= |pairs|
      invariant result == issues + Collect(pairs[..i], check)
    {
      ghost var done := Collect(pairs[..i], check);
      var seg1Points: Segment, seg2Points: Segment := trksegs[i], trksegs[i + 1];
      assert pairs[i] == Site(name, seg1Points, seg2Points);
      ghost var found := GapCheck(maxGap, Site(name, seg1Points, seg2Points));
      ghost var previous := result;
      if seg1Points != [] && seg2Points != [] {
        var lastPoint := seg1Points[|seg1Points| - 1];
        var firstPoint := seg2Points[0];
        var timeDiff := firstPoint.time - lastPoint.time;
        if timeDiff as real > maxGap {
          result := result + [ContinuityIssue(timeDiff, name, lastPoint.time)];
          assert found == Some(ContinuityIssue(timeDiff, name, lastPoint.time));
        }
      }
      assert result == previous + Emitted(found);
      CollectExtend(pairs, i, check);
      AppendAssoc(issues, done, Emitted(found));
      i := i + 1;
    }
    WholePrefix(pairs);
  }

  /** analyze_segment_continuity: every pair of consecutive non-empty segments separated by more than the threshold. */
  method AnalyzeSegmentContinuity(tracks: seq<Track>, maxGap: real) returns (issues: seq<Issue>)
    ensures issues == ContinuityIssues(tracks, maxGap)
  {
    ghost var check := GapChecker(maxGap);
    issues := [];
    for k := 0 to |tracks|
      invariant issues == Collect(SegmentSites(tracks[..k]), check)
    {
      var trk := tracks[k];
      issues := ScanTrackContinuity(trk.name, trk.segments, maxGap, issues);
      CollectSegmentSitesExtend(tracks, k, check);
    }
    WholePrefix(tracks);
  }

  /**
   * The `analyze` command: the three scans concatenated, and the count it reports.
   * The report lists speed issues first, then elevation, then continuity; it is
   * empty ("No issues found") exactly when every scan is.
   */
  method Analyze(dist: Distance, tracks: seq<Track>, limits: Thresholds) returns (allIssues: seq<Issue>, count: nat)
    ensures allIssues == AllIssues(dist, tracks, limits)
    ensures count == |SpeedIssues(dist, tracks, limits.maxSpeed)| + |ElevationIssues(tracks, limits.maxElevationChange)|
                     + |ContinuityIssues(tracks, limits.maxGap)|
    ensures forall i, j :: 0 <= i < j < |allIssues| ==> allIssues[i].Rank() <= allIssues[j].Rank()
    ensures allIssues == [] <==> SpeedIssues(dist, tracks, limits.maxSpeed) == []
                                 && ElevationIssues(tracks, limits.maxElevationChange) == []
                                 && ContinuityIssues(tracks, limits.maxGap) == []
  {
    var speedIssues := AnalyzeSpeed(dist, tracks, limits.maxSpeed);
    var elevationIssues := AnalyzeElevation(tracks, limits.maxElevationChange);
    var continuityIssues := AnalyzeSegmentContinuity(tracks, limits.maxGap);
    allIssues := speedIssues + elevationIssues + continuityIssues;
    count := |allIssues|;
    ReportGroupedByKind(dist, tracks, limits);
  }

  // ---------------------------------------------------------------------
  // Properties of Collect
  // ---------------------------------------------------------------------

  /** Each site contributes at most one issue. */
  lemma {:induction false} CollectLength<T>(sites: seq<Site<T>>, check: Site<T> -> Option<Issue>)
    ensures |Collect(sites, check)| <= |sites|
  {
    if sites != [] {
      CollectLength(sites[..|sites| - 1], check);
    }
  }

  /** An issue is reported exactly when the check of some site produces it. */
  lemma {:induction false} CollectMember<T>(sites: seq<Site<T>>, check: Site<T> -> Option<Issue>, x: Issue)
    ensures x in Collect(sites, check) <==> exists i :: 0 <= i < |sites| && check(sites[i]) == Some(x)
  {
    if sites != [] {
      var init := sites[..|sites| - 1];
      CollectMember(init, check, x);
      if x in Collect(sites, check) && x !in Collect(init, check) {
        assert check(sites[|sites| - 1]) == Some(x);
      }
      if i :| 0 <= i < |sites| && check(sites[i]) == Some(x) {
        if i < |sites| - 1 {
          assert init[i] == sites[i];
        }
      }
    }
  }

  /** A check that produces nothing on any site produces an empty report. */
  lemma CollectNone<T>(sites: seq<Site<T>>, check: Site<T> -> Option<Issue>)
    requires forall i :: 0 <= i < |sites| ==> check(sites[i]) == None
    ensures Collect(sites, check) == []
  {
    if Collect(sites, check) != [] {
      CollectMember(sites, check, Collect(sites, check)[0]);
    }
  }

  // ---------------------------------------------------------------------
  // Traversal order over tracks and segments
  // ---------------------------------------------------------------------

  lemma {:induction false} PointSitesAppend(ts1: seq<Track>, ts2: seq<Track>)
    ensures PointSites(ts1 + ts2) == PointSites(ts1) + PointSites(ts2)
  {
    if ts2 == [] {
      AppendEmpty(ts1);
      AppendEmpty(PointSites(ts1));
    } else {
      var init, t := ts2[..|ts2| - 1], ts2[|ts2| - 1];
      PointSitesAppend(ts1, init);
      DropLastOfAppend(ts1, ts2);
      AppendAssoc(PointSites(ts1), PointSites(init), SegmentsPointSites(t.name, t.segments));
    }
  }

  lemma {:induction false} SegmentSitesAppend(ts1: seq<Track>, ts2: seq<Track>)
    ensures SegmentSites(ts1 + ts2) == SegmentSites(ts1) + SegmentSites(ts2)
  {
    if ts2 == [] {
      AppendEmpty(ts1);
      AppendEmpty(SegmentSites(ts1));
    } else {
      var init, t := ts2[..|ts2| - 1], ts2[|ts2| - 1];
      SegmentSitesAppend(ts1, init);
      DropLastOfAppend(ts1, ts2);
      AppendAssoc(SegmentSites(ts1), SegmentSites(init), Sites(t.name, t.segments));
    }
  }

  /** Within a track, the pairs of earlier segments precede those of later segments. */
  lemma {:induction false} SegmentsPointSitesAppend(location: Option<string>, s1: seq<Segment>, s2: seq<Segment>)
    ensures SegmentsPointSites(location, s1 + s2) == SegmentsPointSites(location, s1) + SegmentsPointSites(location, s2)
  {
    if s2 == [] {
      AppendEmpty(s1);
      AppendEmpty(SegmentsPointSites(location, s1));
    } else {
      var init, last := s2[..|s2| - 1], s2[|s2| - 1];
      SegmentsPointSitesAppend(location, s1, init);
      DropLastOfAppend(s1, s2);
      AppendAssoc(SegmentsPointSites(location, s1), SegmentsPointSites(location, init), Sites(location, last));
    }
  }

  /** The speed issues of earlier tracks precede those of later tracks; none is lost or added. */
  lemma SpeedIssuesInTrackOrder(dist: Distance, ts1: seq<Track>, ts2: seq<Track>, maxSpeed: real)
    ensures SpeedIssues(dist, ts1 + ts2, maxSpeed) == SpeedIssues(dist, ts1, maxSpeed) + SpeedIssues(dist, ts2, maxSpeed)
  {
    PointSitesAppend(ts1, ts2);
    CollectAppend(PointSites(ts1), PointSites(ts2), SpeedChecker(dist, maxSpeed));
  }

  /** The elevation issues of earlier tracks precede those of later tracks; none is lost or added. */
  lemma ElevationIssuesInTrackOrder(ts1: seq<Track>, ts2: seq<Track>, maxChange: real)
    ensures ElevationIssues(ts1 + ts2, maxChange) == ElevationIssues(ts1, maxChange) + ElevationIssues(ts2, maxChange)
  {
    PointSitesAppend(ts1, ts2);
    CollectAppend(PointSites(ts1), PointSites(ts2), ElevationChecker(maxChange));
  }

  /** The continuity issues of earlier tracks precede those of later tracks; none is lost or added. */
  lemma ContinuityIssuesInTrackOrder(ts1: seq<Track>, ts2: seq<Track>, maxGap: real)
    ensures ContinuityIssues(ts1 + ts2, maxGap) == ContinuityIssues(ts1, maxGap) + ContinuityIssues(ts2, maxGap)
  {
    SegmentSitesAppend(ts1, ts2);
    CollectAppend(SegmentSites(ts1), SegmentSites(ts2), GapChecker(maxGap));
  }

  /** Within one track, the speed issues of earlier segments precede those of later segments. */
  lemma SpeedIssuesInSegmentOrder(dist: Distance, name: Option<string>, s1: seq<Segment>, s2: seq<Segment>, maxSpeed: real)
    ensures SpeedIssues(dist, [Track(name, s1 + s2)], maxSpeed)
            == SpeedIssues(dist, [Track(name, s1)], maxSpeed) + SpeedIssues(dist, [Track(name, s2)], maxSpeed)
  {
    SingleTrackPointSites(Track(name, s1 + s2));
    SingleTrackPointSites(Track(name, s1));
    SingleTrackPointSites(Track(name, s2));
    SegmentsPointSitesAppend(name, s1, s2);
    CollectAppend(SegmentsPointSites(name, s1), SegmentsPointSites(name, s2), SpeedChecker(dist, maxSpeed));
  }

  /** Within one track, the elevation issues of earlier segments precede those of later segments. */
  lemma ElevationIssuesInSegmentOrder(name: Option<string>, s1: seq<Segment>, s2: seq<Segment>, maxChange: real)
    ensures ElevationIssues([Track(name, s1 + s2)], maxChange)
            == ElevationIssues([Track(name, s1)], maxChange) + ElevationIssues([Track(name, s2)], maxChange)
  {
    SingleTrackPointSites(Track(name, s1 + s2));
    SingleTrackPointSites(Track(name, s1));
    SingleTrackPointSites(Track(name, s2));
    SegmentsPointSitesAppend(name, s1, s2);
    CollectAppend(SegmentsPointSites(name, s1), SegmentsPointSites(name, s2), ElevationChecker(maxChange));
  }

  // ---------------------------------------------------------------------
  // Where the sites come from
  // ---------------------------------------------------------------------

  /** A site of a track's segments is a pair of consecutive points of one of its segments, and every such pair is one. */
  lemma {:induction false} SegmentsPointSitesMember(location: Option<string>, segments: seq<Segment>, s: Site<TrackPoint>)
    ensures s in SegmentsPointSites(location, segments) <==>
      exists g, j :: 0 <= g < |segments| && 0 <= j < |segments[g]| - 1
                     && s == Site(location, segments[g][j], segments[g][j + 1])
  {
    if segments != [] {
      var init := segments[..|segments| - 1];
      var last := segments[|segments| - 1];
      SegmentsPointSitesMember(location, init, s);
      var pairs := Sites(location, last);
      SitesAt(location, last);
      if s in pairs {
        var j :| 0 <= j < |pairs| && pairs[j] == s;
        assert s == Site(location, segments[|segments| - 1][j], segments[|segments| - 1][j + 1]);
      }
      if g, j :| 0 <= g < |segments| && 0 <= j < |segments[g]| - 1
                 && s == Site(location, segments[g][j], segments[g][j + 1]) {
        if g < |segments| - 1 {
          assert init[g] == segments[g];
        } else {
          assert pairs[j] == s;
        }
      }
    }
  }

  lemma {:induction false} PointSiteOrigin(tracks: seq<Track>, s: Site<TrackPoint>)
    requires s in PointSites(tracks)
    ensures exists k, g, j :: 0 <= k < |tracks| && 0 <= g < |tracks[k].segments|
                              && 0 <= j < |tracks[k].segments[g]| - 1
                              && s == Site(tracks[k].name, tracks[k].segments[g][j], tracks[k].segments[g][j + 1])
  {
    var init, t := tracks[..|tracks| - 1], tracks[|tracks| - 1];
    if s in PointSites(init) {
      PointSiteOrigin(init, s);
      var k, g, j :| 0 <= k < |init| && 0 <= g < |init[k].segments|
                     && 0 <= j < |init[k].segments[g]| - 1
                     && s == Site(init[k].name, init[k].segments[g][j], init[k].segments[g][j + 1]);
      assert init[k] == tracks[k];
    } else {
      SegmentsPointSitesMember(t.name, t.segments, s);
      var g, j :| 0 <= g < |t.segments| && 0 <= j < |t.segments[g]| - 1
                  && s == Site(t.name, t.segments[g][j], t.segments[g][j + 1]);
      assert tracks[|tracks| - 1] == t;
    }
  }

  lemma {:induction false} PairInPointSites(tracks: seq<Track>, k: nat, g: nat, j: nat)
    requires k < |tracks| && g < |tracks[k].segments| && j < |tracks[k].segments[g]| - 1
    ensures Site(tracks[k].name, tracks[k].segments[g][j], tracks[k].segments[g][j + 1]) in PointSites(tracks)
  {
    var init, t := tracks[..|tracks| - 1], tracks[|tracks| - 1];
    if k < |tracks| - 1 {
      assert init[k] == tracks[k];
      PairInPointSites(init, k, g, j);
    } else {
      SegmentsPointSitesMember(t.name, t.segments, Site(t.name, t.segments[g][j], t.segments[g][j + 1]));
    }
  }

  /** The point sites are exactly the consecutive point pairs of the segments of the tracks, tagged with the track's name. */
  lemma PointSitesMember(tracks: seq<Track>, s: Site<TrackPoint>)
    ensures s in PointSites(tracks) <==>
      exists k, g, j :: 0 <= k < |tracks| && 0 <= g < |tracks[k].segments|
                        && 0 <= j < |tracks[k].segments[g]| - 1
                        && s == Site(tracks[k].name, tracks[k].segments[g][j], tracks[k].segments[g][j + 1])
  {
    if s in PointSites(tracks) {
      PointSiteOrigin(tracks, s);
    }
    if k, g, j :| 0 <= k < |tracks| && 0 <= g < |tracks[k].segments|
                  && 0 <= j < |tracks[k].segments[g]| - 1
                  && s == Site(tracks[k].name, tracks[k].segments[g][j], tracks[k].segments[g][j + 1]) {
      PairInPointSites(tracks, k, g, j);
    }
  }

  /** The segment sites are exactly the consecutive segment pairs of each track, tagged with the track's name. */
  lemma {:induction false} SegmentSitesMember(tracks: seq<Track>, s: Site<Segment>)
    ensures s in SegmentSites(tracks) <==>
      exists k, g :: 0 <= k < |tracks| && 0 <= g < |tracks[k].segments| - 1
                     && s == Site(tracks[k].name, tracks[k].segments[g], tracks[k].segments[g + 1])
  {
    if tracks != [] {
      var init := tracks[..|tracks| - 1];
      var t := tracks[|tracks| - 1];
      SegmentSitesMember(init, s);
      var pairs := Sites(t.name, t.segments);
      SitesAt(t.name, t.segments);
      if s in pairs {
        var g :| 0 <= g < |pairs| && pairs[g] == s;
        assert s == Site(tracks[|tracks| - 1].name, tracks[|tracks| - 1].segments[g], tracks[|tracks| - 1].segments[g + 1]);
      }
      if k, g :| 0 <= k < |tracks| && 0 <= g < |tracks[k].segments| - 1
                 && s == Site(tracks[k].name, tracks[k].segments[g], tracks[k].segments[g + 1]) {
        if k < |tracks| - 1 {
          assert init[k] == tracks[k];
        } else {
          assert pairs[g] == s;
        }
      }
    }
  }

  /**
    A point scan reports x exactly when, for some track k, segment g and index
    j, the check of points j and j + 1 of that segment produces x.
  */
  lemma PointScanFromPairs(tracks: seq<Track>, check: Site<TrackPoint> -> Option<Issue>, x: Issue)
    ensures x in Collect(PointSites(tracks), check) <==>
      exists k, g, j :: 0 <= k < |tracks| && 0 <= g < |tracks[k].segments|
                        && 0 <= j < |tracks[k].segments[g]| - 1
                        && check(Site(tracks[k].name, tracks[k].segments[g][j], tracks[k].segments[g][j + 1])) == Some(x)
  {
    var sites := PointSites(tracks);
    CollectMember(sites, check, x);
    if x in Collect(sites, check) {
      var i :| 0 <= i < |sites| && check(sites[i]) == Some(x);
      assert sites[i] in sites;
      PointSiteOrigin(tracks, sites[i]);
    }
    if k, g, j :| 0 <= k < |tracks| && 0 <= g < |tracks[k].segments|
                  && 0 <= j < |tracks[k].segments[g]| - 1
                  && check(Site(tracks[k].name, tracks[k].segments[g][j], tracks[k].segments[g][j + 1])) == Some(x) {
      var s := Site(tracks[k].name, tracks[k].segments[g][j], tracks[k].segments[g][j + 1]);
      PairInPointSites(tracks, k, g, j);
      var i :| 0 <= i < |sites| && sites[i] == s;
    }
  }

  /**
    The continuity scan reports x exactly when, for some track k and index g,
    the check of segments g and g + 1 of that track produces x.
  */
  lemma SegmentScanFromPairs(tracks: seq<Track>, check: Site<Segment> -> Option<Issue>, x: Issue)
    ensures x in Collect(SegmentSites(tracks), check) <==>
      exists k, g :: 0 <= k < |tracks| && 0 <= g < |tracks[k].segments| - 1
                     && check(Site(tracks[k].name, tracks[k].segments[g], tracks[k].segments[g + 1])) == Some(x)
  {
    var sites := SegmentSites(tracks);
    CollectMember(sites, check, x);
    if x in Collect(sites, check) {
      var i :| 0 <= i < |sites| && check(sites[i]) == Some(x);
      assert sites[i] in sites;
      SegmentSitesMember(tracks, sites[i]);
    }
    if k, g :| 0 <= k < |tracks| && 0 <= g < |tracks[k].segments| - 1
               && check(Site(tracks[k].name, tracks[k].segments[g], tracks[k].segments[g + 1])) == Some(x) {
      var s := Site(tracks[k].name, tracks[k].segments[g], tracks[k].segments[g + 1]);
      SegmentSitesMember(tracks, s);
      var i :| 0 <= i < |sites| && sites[i] == s;
    }
  }

  // ---------------------------------------------------------------------
  // When each scan reports an issue
  // ---------------------------------------------------------------------

  /** The elapsed time is positive exactly when the later point's timestamp is strictly larger. */
  lemma ElapsedHoursPositive(p1: TrackPoint, p2: TrackPoint)
    ensures ElapsedHours(p1, p2) > 0.0 <==> p2.time - p1.time > 0
  {
  }

  /**
    A point pair yields a speed issue exactly when its elapsed time is positive
    and distance over elapsed hours strictly exceeds the threshold; the issue
    carries that speed, the track's name and the earlier point's time.
  */
  lemma SpeedIssueIff(dist: Distance, tracks: seq<Track>, maxSpeed: real, x: Issue)
    ensures x in SpeedIssues(dist, tracks, maxSpeed) <==>
      exists i :: 0 <= i < |PointSites(tracks)|
        && PointSites(tracks)[i].second.time - PointSites(tracks)[i].first.time > 0
        && Speed(dist, PointSites(tracks)[i]) > maxSpeed
        && x == SpeedIssue(Speed(dist, PointSites(tracks)[i]), PointSites(tracks)[i].location, PointSites(tracks)[i].first.time)
  {
    var sites := PointSites(tracks);
    var check := SpeedChecker(dist, maxSpeed);
    CollectMember(sites, check, x);
    if x in SpeedIssues(dist, tracks, maxSpeed) {
      var i :| 0 <= i < |sites| && check(sites[i]) == Some(x);
      ElapsedHoursPositive(sites[i].first, sites[i].second);
    }
    if i :| 0 <= i < |sites| && sites[i].second.time - sites[i].first.time > 0
           && Speed(dist, sites[i]) > maxSpeed
           && x == SpeedIssue(Speed(dist, sites[i]), sites[i].location, sites[i].first.time) {
      ElapsedHoursPositive(sites[i].first, sites[i].second);
      assert check(sites[i]) == Some(x);
    }
  }

  /**
    A point pair yields an elevation issue exactly when the absolute elevation
    difference strictly exceeds the threshold; the issue carries that
    difference, which is never negative.
  */
  lemma ElevationIssueIff(tracks: seq<Track>, maxChange: real, x: Issue)
    ensures x in ElevationIssues(tracks, maxChange) <==>
      exists i :: 0 <= i < |PointSites(tracks)|
        && ElevationChange(PointSites(tracks)[i]) > maxChange
        && x == ElevationIssue(ElevationChange(PointSites(tracks)[i]), PointSites(tracks)[i].location, PointSites(tracks)[i].first.time)
    ensures x in ElevationIssues(tracks, maxChange) ==> x.ElevationIssue? && x.change >= 0.0 && x.change > maxChange
  {
    var sites := PointSites(tracks);
    var check := ElevationChecker(maxChange);
    CollectMember(sites, check, x);
    if i :| 0 <= i < |sites| && ElevationChange(sites[i]) > maxChange
           && x == ElevationIssue(ElevationChange(sites[i]), sites[i].location, sites[i].first.time) {
      assert check(sites[i]) == Some(x);
    }
  }

  /**
    A segment pair yields a continuity issue exactly when both segments have
    points and the time from the last point of the first to the first point of
    the second strictly exceeds the threshold; the issue is anchored at the
    last point of the first segment.
  */
  lemma ContinuityIssueIff(tracks: seq<Track>, maxGap: real, x: Issue)
    ensures x in ContinuityIssues(tracks, maxGap) <==>
      exists i :: 0 <= i < |SegmentSites(tracks)|
        && SegmentSites(tracks)[i].first != [] && SegmentSites(tracks)[i].second != []
        && Gap(SegmentSites(tracks)[i]) as real > maxGap
        && x == ContinuityIssue(Gap(SegmentSites(tracks)[i]), SegmentSites(tracks)[i].location,
                                Last(SegmentSites(tracks)[i].first).time)
  {
    var sites := SegmentSites(tracks);
    var check := GapChecker(maxGap);
    CollectMember(sites, check, x);
    if i :| 0 <= i < |sites| && sites[i].first != [] && sites[i].second != []
           && Gap(sites[i]) as real > maxGap
           && x == ContinuityIssue(Gap(sites[i]), sites[i].location, Last(sites[i].first).time) {
      assert check(sites[i]) == Some(x);
    }
  }

  /** Each scan reports only issues of its own kind. */
  lemma ScanKinds(dist: Distance, tracks: seq<Track>, limits: Thresholds)
    ensures forall x :: x in SpeedIssues(dist, tracks, limits.maxSpeed) ==> x.SpeedIssue?
    ensures forall x :: x in ElevationIssues(tracks, limits.maxElevationChange) ==> x.ElevationIssue?
    ensures forall x :: x in ContinuityIssues(tracks, limits.maxGap) ==> x.ContinuityIssue?
  {
    forall x | x in SpeedIssues(dist, tracks, limits.maxSpeed) ensures x.SpeedIssue? {
      CollectMember(PointSites(tracks), SpeedChecker(dist, limits.maxSpeed), x);
    }
    forall x | x in ElevationIssues(tracks, limits.maxElevationChange) ensures x.ElevationIssue? {
      CollectMember(PointSites(tracks), ElevationChecker(limits.maxElevationChange), x);
    }
    forall x | x in ContinuityIssues(tracks, limits.maxGap) ensures x.ContinuityIssue? {
      CollectMember(SegmentSites(tracks), GapChecker(limits.maxGap), x);
    }
  }

  /**
    Pairs whose elapsed time is not positive are skipped: when no pair of any
    segment moves forward in time, the speed scan reports nothing, whatever the
    distances and the threshold.
  */
  lemma NonPositiveElapsedTimeIsSkipped(dist: Distance, tracks: seq<Track>, maxSpeed: real)
    requires forall k, g, j :: 0 <= k < |tracks| && 0 <= g < |tracks[k].segments|
                               && 0 <= j < |tracks[k].segments[g]| - 1
                               ==> tracks[k].segments[g][j + 1].time <= tracks[k].segments[g][j].time
    ensures SpeedIssues(dist, tracks, maxSpeed) == []
  {
    var sites := PointSites(tracks);
    forall i | 0 <= i < |sites| ensures SpeedChecker(dist, maxSpeed)(sites[i]) == None {
      var s := sites[i];
      assert s in sites;
      PointSitesMember(tracks, s);
      var k, g, j :| 0 <= k < |tracks| && 0 <= g < |tracks[k].segments|
                     && 0 <= j < |tracks[k].segments[g]| - 1
                     && s == Site(tracks[k].name, tracks[k].segments[g][j], tracks[k].segments[g][j + 1]);
      ElapsedHoursPositive(s.first, s.second);
    }
    CollectNone(sites, SpeedChecker(dist, maxSpeed));
  }

  /** Points that never move (distance zero) are never flagged for speed at a non-negative threshold. */
  lemma StationaryPointsNeverFlagged(dist: Distance, tracks: seq<Track>, maxSpeed: real)
    requires maxSpeed >= 0.0
    requires forall k, g, j :: 0 <= k < |tracks| && 0 <= g < |tracks[k].segments|
                               && 0 <= j < |tracks[k].segments[g]| - 1
                               ==> dist(tracks[k].segments[g][j].lat, tracks[k].segments[g][j].lon,
                                        tracks[k].segments[g][j + 1].lat, tracks[k].segments[g][j + 1].lon) == 0.0
    ensures SpeedIssues(dist, tracks, maxSpeed) == []
  {
    var sites := PointSites(tracks);
    forall i | 0 <= i < |sites| ensures SpeedChecker(dist, maxSpeed)(sites[i]) == None {
      var s := sites[i];
      assert s in sites;
      PointSitesMember(tracks, s);
      var k, g, j :| 0 <= k < |tracks| && 0 <= g < |tracks[k].segments|
                     && 0 <= j < |tracks[k].segments[g]| - 1
                     && s == Site(tracks[k].name, tracks[k].segments[g][j], tracks[k].segments[g][j + 1]);
      assert dist(s.first.lat, s.first.lon, s.second.lat, s.second.lon) == 0.0;
    }
    CollectNone(sites, SpeedChecker(dist, maxSpeed));
  }

  // ---------------------------------------------------------------------
  // Small inputs
  // ---------------------------------------------------------------------

  lemma SitesOfTwo<T>(location: Option<string>, a: T, b: T)
    ensures Sites(location, [a, b]) == [Site(location, a, b)]
  {
    assert [a, b][..1] == [a];
  }

  lemma SitesOfThree<T>(location: Option<string>, a: T, b: T, c: T)
    ensures Sites(location, [a, b, c]) == [Site(location, a, b), Site(location, b, c)]
  {
    assert [a, b, c][..2] == [a, b];
    SitesOfTwo(location, a, b);
  }

  lemma CollectOne<T>(s: Site<T>, check: Site<T> -> Option<Issue>)
    ensures Collect([s], check) == Emitted(check(s))
  {
    assert [s][..0] == [];
  }

  lemma CollectTwo<T>(s: Site<T>, t: Site<T>, check: Site<T> -> Option<Issue>)
    ensures Collect([s, t], check) == Emitted(check(s)) + Emitted(check(t))
  {
    assert [s, t][..1] == [s];
    CollectOne(s, check);
  }

  lemma SingleTrackPointSites(t: Track)
    ensures PointSites([t]) == SegmentsPointSites(t.name, t.segments)
  {
    assert [t][..0] == [];
  }

  lemma SingleTrackSegmentSites(t: Track)
    ensures SegmentSites([t]) == Sites(t.name, t.segments)
  {
    assert [t][..0] == [];
  }

  lemma SegmentsPointSitesOne(location: Option<string>, points: Segment)
    ensures SegmentsPointSites(location, [points]) == Sites(location, points)
  {
    assert [points][..0] == [];
  }

  lemma SegmentsPointSitesTwo(location: Option<string>, s0: Segment, s1: Segment)
    ensures SegmentsPointSites(location, [s0, s1]) == Sites(location, s0) + Sites(location, s1)
  {
    assert [s0, s1][..1] == [s0];
    SegmentsPointSitesOne(location, s0);
  }

  // ---------------------------------------------------------------------
  // Bounds
  // ---------------------------------------------------------------------

  /** n elements give at most n - 1 issues, and none for 0 or 1 elements. */
  lemma AdjacentIssueBound<T>(location: Option<string>, xs: seq<T>, check: Site<T> -> Option<Issue>)
    ensures |xs| <= 1 ==> Collect(Sites(location, xs), check) == []
    ensures |Collect(Sites(location, xs), check)| <= if |xs| == 0 then 0 else |xs| - 1
  {
    SitesAt(location, xs);
    CollectLength(Sites(location, xs), check);
  }

  /** A track with one segment has exactly that segment's consecutive pairs. */
  lemma SingleSegmentSites(name: Option<string>, points: Segment)
    ensures PointSites([Track(name, [points])]) == Sites(name, points)
  {
    SingleTrackPointSites(Track(name, [points]));
    SegmentsPointSitesOne(name, points);
  }

  /** The speed scan reports at most len(points) - 1 issues for one segment, none for 0 or 1 points. */
  lemma SpeedSegmentBound(dist: Distance, name: Option<string>, points: Segment, maxSpeed: real)
    ensures |points| <= 1 ==> SpeedIssues(dist, [Track(name, [points])], maxSpeed) == []
    ensures |SpeedIssues(dist, [Track(name, [points])], maxSpeed)| <= if |points| == 0 then 0 else |points| - 1
  {
    SingleSegmentSites(name, points);
    AdjacentIssueBound(name, points, SpeedChecker(dist, maxSpeed));
  }

  /** The elevation scan reports at most len(points) - 1 issues for one segment, none for 0 or 1 points. */
  lemma ElevationSegmentBound(name: Option<string>, points: Segment, maxChange: real)
    ensures |points| <= 1 ==> ElevationIssues([Track(name, [points])], maxChange) == []
    ensures |ElevationIssues([Track(name, [points])], maxChange)| <= if |points| == 0 then 0 else |points| - 1
  {
    SingleSegmentSites(name, points);
    AdjacentIssueBound(name, points, ElevationChecker(maxChange));
  }

  /** The continuity scan reports at most len(segments) - 1 issues for one track, none for 0 or 1 segments. */
  lemma ContinuityTrackBound(t: Track, maxGap: real)
    ensures |t.segments| <= 1 ==> ContinuityIssues([t], maxGap) == []
    ensures |ContinuityIssues([t], maxGap)| <= if |t.segments| == 0 then 0 else |t.segments| - 1
  {
    SingleTrackSegmentSites(t);
    AdjacentIssueBound(t.name, t.segments, GapChecker(maxGap));
  }

  /** An empty segment between two segments hides the gap across it, however long. */
  lemma EmptySegmentHidesGap(name: Option<string>, before: Segment, after: Segment, maxGap: real)
    ensures ContinuityIssues([Track(name, [before, [], after])], maxGap) == []
  {
    SingleTrackSegmentSites(Track(name, [before, [], after]));
    SitesOfThree(name, before, [], after);
    CollectTwo(Site(name, before, []), Site(name, [], after), GapChecker(maxGap));
  }

  // ---------------------------------------------------------------------
  // Raising a threshold
  // ---------------------------------------------------------------------

  /** The issues whose value strictly exceeds `threshold`, in order. */
  function AboveThreshold(issues: seq<Issue>, threshold: real): (r: seq<Issue>)
    ensures |r| <= |issues|
    ensures forall x :: x in r ==> x in issues && x.Value() > threshold
  {
    if issues == [] then []
    else
      var last := issues[|issues| - 1];
      AboveThreshold(issues[..|issues| - 1], threshold) + (if last.Value() > threshold then [last] else [])
  }

  /** `a` is `b` with some elements removed, the rest kept in order. */
  predicate IsSubsequence(a: seq<Issue>, b: seq<Issue>)
    decreases |b|
  {
    if b == [] then a == []
    else
      IsSubsequence(a, b[..|b| - 1])
      || (a != [] && a[|a| - 1] == b[|b| - 1] && IsSubsequence(a[..|a| - 1], b[..|b| - 1]))
  }

  lemma {:induction false} AboveThresholdIsSubsequence(issues: seq<Issue>, threshold: real)
    ensures IsSubsequence(AboveThreshold(issues, threshold), issues)
  {
    if issues != [] {
      var init, last := issues[..|issues| - 1], issues[|issues| - 1];
      AboveThresholdIsSubsequence(init, threshold);
      if last.Value() > threshold {
        DropLastOfSnoc(AboveThreshold(init, threshold), last);
      } else {
        AppendEmpty(AboveThreshold(init, threshold));
      }
    }
  }

  /** The issue `o`, if any, kept only when its value exceeds `threshold`. */
  function Above(o: Option<Issue>, threshold: real): Option<Issue>
  {
    if o.Some? && o.value.Value() > threshold then o else None
  }

  lemma AboveThresholdSnoc(issues: seq<Issue>, o: Option<Issue>, threshold: real)
    ensures AboveThreshold(issues + Emitted(o), threshold) == AboveThreshold(issues, threshold) + Emitted(Above(o, threshold))
  {
    if o.Some? {
      DropLastOfSnoc(issues, o.value);
    } else {
      AppendEmpty(issues);
      AppendEmpty(AboveThreshold(issues, threshold));
    }
  }

  /** Each check, at a higher threshold, keeps exactly its lower-threshold result when that exceeds the higher one. */
  lemma SpeedCheckRaise(dist: Distance, low: real, high: real, s: Site<TrackPoint>)
    requires low <= high
    ensures SpeedCheck(dist, high, s) == Above(SpeedCheck(dist, low, s), high)
  {
  }

  lemma ElevationCheckRaise(low: real, high: real, s: Site<TrackPoint>)
    requires low <= high
    ensures ElevationCheck(high, s) == Above(ElevationCheck(low, s), high)
  {
  }

  lemma GapCheckRaise(low: real, high: real, s: Site<Segment>)
    requires low <= high
    ensures GapCheck(high, s) == Above(GapCheck(low, s), high)
  {
  }

  /** A stricter check that keeps exactly the looser check's issues above `threshold` reports exactly those. */
  lemma {:induction false} CollectRaise<T>(sites: seq<Site<T>>, low: Site<T> -> Option<Issue>, high: Site<T> -> Option<Issue>, threshold: real)
    requires forall i :: 0 <= i < |sites| ==> high(sites[i]) == Above(low(sites[i]), threshold)
    ensures Collect(sites, high) == AboveThreshold(Collect(sites, low), threshold)
  {
    if sites != [] {
      var init, last := sites[..|sites| - 1], sites[|sites| - 1];
      assert forall i :: 0 <= i < |init| ==> init[i] == sites[i];
      CollectRaise(init, low, high, threshold);
      AboveThresholdSnoc(Collect(init, low), low(last), threshold);
    }
  }

  /**
    Raising the speed threshold keeps exactly the old issues whose speed
    exceeds the new threshold: nothing is added, nothing reordered.
  */
  lemma SpeedThresholdMonotone(dist: Distance, tracks: seq<Track>, low: real, high: real)
    requires low <= high
    ensures SpeedIssues(dist, tracks, high) == AboveThreshold(SpeedIssues(dist, tracks, low), high)
    ensures IsSubsequence(SpeedIssues(dist, tracks, high), SpeedIssues(dist, tracks, low))
    ensures |SpeedIssues(dist, tracks, high)| <= |SpeedIssues(dist, tracks, low)|
  {
    var sites := PointSites(tracks);
    forall i | 0 <= i < |sites| ensures SpeedChecker(dist, high)(sites[i]) == Above(SpeedChecker(dist, low)(sites[i]), high) {
      SpeedCheckRaise(dist, low, high, sites[i]);
    }
    CollectRaise(sites, SpeedChecker(dist, low), SpeedChecker(dist, high), high);
    AboveThresholdIsSubsequence(SpeedIssues(dist, tracks, low), high);
  }

  /** Raising the elevation threshold keeps exactly the old issues whose change exceeds the new threshold. */
  lemma ElevationThresholdMonotone(tracks: seq<Track>, low: real, high: real)
    requires low <= high
    ensures ElevationIssues(tracks, high) == AboveThreshold(ElevationIssues(tracks, low), high)
    ensures IsSubsequence(ElevationIssues(tracks, high), ElevationIssues(tracks, low))
    ensures |ElevationIssues(tracks, high)| <= |ElevationIssues(tracks, low)|
  {
    var sites := PointSites(tracks);
    forall i | 0 <= i < |sites| ensures ElevationChecker(high)(sites[i]) == Above(ElevationChecker(low)(sites[i]), high) {
      ElevationCheckRaise(low, high, sites[i]);
    }
    CollectRaise(sites, ElevationChecker(low), ElevationChecker(high), high);
    AboveThresholdIsSubsequence(ElevationIssues(tracks, low), high);
  }

  /** Raising the gap threshold keeps exactly the old issues whose gap exceeds the new threshold. */
  lemma ContinuityThresholdMonotone(tracks: seq<Track>, low: real, high: real)
    requires low <= high
    ensures ContinuityIssues(tracks, high) == AboveThreshold(ContinuityIssues(tracks, low), high)
    ensures IsSubsequence(ContinuityIssues(tracks, high), ContinuityIssues(tracks, low))
    ensures |ContinuityIssues(tracks, high)| <= |ContinuityIssues(tracks, low)|
  {
    var sites := SegmentSites(tracks);
    forall i | 0 <= i < |sites| ensures GapChecker(high)(sites[i]) == Above(GapChecker(low)(sites[i]), high) {
      GapCheckRaise(low, high, sites[i]);
    }
    CollectRaise(sites, GapChecker(low), GapChecker(high), high);
    AboveThresholdIsSubsequence(ContinuityIssues(tracks, low), high);
  }

  // ---------------------------------------------------------------------
  // The combined report
  // ---------------------------------------------------------------------

  lemma GroupedRanks(s: seq<Issue>, e: seq<Issue>, c: seq<Issue>)
    requires forall x :: x in s ==> x.SpeedIssue?
    requires forall x :: x in e ==> x.ElevationIssue?
    requires forall x :: x in c ==> x.ContinuityIssue?
    ensures forall i, j :: 0 <= i < j < |s + e + c| ==> (s + e + c)[i].Rank() <= (s + e + c)[j].Rank()
  {
    var all := s + e + c;
    forall i | 0 <= i < |all|
      ensures all[i].Rank() == if i < |s| then 0 else if i < |s| + |e| then 1 else 2
    {
      if i < |s| {
        assert all[i] == s[i] && s[i] in s;
      } else if i < |s| + |e| {
        assert all[i] == e[i - |s|] && e[i - |s|] in e;
      } else {
        assert all[i] == c[i - |s| - |e|] && c[i - |s| - |e|] in c;
      }
    }
  }

  /**
    The report lists all speed issues, then all elevation issues, then all
    continuity issues, and is empty exactly when every scan found nothing.
  */
  lemma ReportGroupedByKind(dist: Distance, tracks: seq<Track>, limits: Thresholds)
    ensures forall i, j :: 0 <= i < j < |AllIssues(dist, tracks, limits)| ==>
      AllIssues(dist, tracks, limits)[i].Rank() <= AllIssues(dist, tracks, limits)[j].Rank()
    ensures AllIssues(dist, tracks, limits) == [] <==>
      SpeedIssues(dist, tracks, limits.maxSpeed) == []
      && ElevationIssues(tracks, limits.maxElevationChange) == []
      && ContinuityIssues(tracks, limits.maxGap) == []
  {
    ScanKinds(dist, tracks, limits);
    GroupedRanks(SpeedIssues(dist, tracks, limits.maxSpeed), ElevationIssues(tracks, limits.maxElevationChange),
                 ContinuityIssues(tracks, limits.maxGap));
  }

  // ---------------------------------------------------------------------
  // The test fixture: one track, a segment of three points one second
  // apart at elevations 10, 20, 30, then a one-point segment a second later.
  // ---------------------------------------------------------------------

  /** 2024-01-01T10:00:00Z in seconds since the epoch. */
  const FixtureStart := 1704103200
  const FixtureName: Option<string> := Some("Test Track")
  const FixtureP0 := TrackPoint(40.7128, -74.0060, 10.0, FixtureStart)
  const FixtureP1 := TrackPoint(40.7129, -74.0061, 20.0, FixtureStart + 1)
  const FixtureP2 := TrackPoint(40.7130, -74.0062, 30.0, FixtureStart + 2)
  const FixtureP3 := TrackPoint(40.7131, -74.0063, 40.0, FixtureStart + 3)

  function Fixture(): seq<Track>
  {
    [Track(FixtureName, [[FixtureP0, FixtureP1, FixtureP2], [FixtureP3]])]
  }

  /** The fixture's point pairs: the two pairs of its first segment; the one-point segment has none. */
  lemma FixturePointSites()
    ensures PointSites(Fixture()) == [Site(FixtureName, FixtureP0, FixtureP1), Site(FixtureName, FixtureP1, FixtureP2)]
  {
    SingleTrackPointSites(Fixture()[0]);
    SegmentsPointSitesTwo(FixtureName, [FixtureP0, FixtureP1, FixtureP2], [FixtureP3]);
    SitesOfThree(FixtureName, FixtureP0, FixtureP1, FixtureP2);
    AppendEmpty(Sites(FixtureName, [FixtureP0, FixtureP1, FixtureP2]));
  }

  /** At threshold 5.0 both 10-metre steps are flagged, the first one first; at 25.0 neither is. */
  lemma FixtureElevation()
    ensures ElevationIssues(Fixture(), 5.0) ==
      [ElevationIssue(10.0, FixtureName, FixtureStart), ElevationIssue(10.0, FixtureName, FixtureStart + 1)]
    ensures ElevationIssues(Fixture(), 25.0) == []
  {
    FixturePointSites();
    var s, t := Site(FixtureName, FixtureP0, FixtureP1), Site(FixtureName, FixtureP1, FixtureP2);
    CollectTwo(s, t, ElevationChecker(5.0));
    CollectTwo(s, t, ElevationChecker(25.0));
  }

  /** The one-second gap between the two segments is flagged at threshold 0.1 and not at 10. */
  lemma FixtureContinuity()
    ensures ContinuityIssues(Fixture(), 0.1) == [ContinuityIssue(1, FixtureName, FixtureStart + 2)]
    ensures ContinuityIssues(Fixture(), 10.0) == []
  {
    SingleTrackSegmentSites(Fixture()[0]);
    SitesOfTwo(FixtureName, [FixtureP0, FixtureP1, FixtureP2], [FixtureP3]);
    var s := Site(FixtureName, [FixtureP0, FixtureP1, FixtureP2], [FixtureP3]);
    assert Gap(s) == 1;
    CollectOne(s, GapChecker(0.1));
    CollectOne(s, GapChecker(10.0));
  }

  /**
    At the command's default thresholds (100 m, 300 s) the fixture's 10-metre
    steps and one-second gap are not flagged.
  */
  lemma FixtureAtDefaults()
    ensures ElevationIssues(Fixture(), DefaultThresholds.maxElevationChange) == []
    ensures ContinuityIssues(Fixture(), DefaultThresholds.maxGap) == []
  {
    FixturePointSites();
    CollectTwo(Site(FixtureName, FixtureP0, FixtureP1), Site(FixtureName, FixtureP1, FixtureP2),
               ElevationChecker(DefaultThresholds.maxElevationChange));
    SingleTrackSegmentSites(Fixture()[0]);
    SitesOfTwo(FixtureName, [FixtureP0, FixtureP1, FixtureP2], [FixtureP3]);
    var s := Site(FixtureName, [FixtureP0, FixtureP1, FixtureP2], [FixtureP3]);
    assert Gap(s) == 1;
    CollectOne(s, GapChecker(DefaultThresholds.maxGap));
  }

  /**
    With any distance function that puts the fixture's first two points more
    than 1/3600 km apart, the speed scan at 1.0 km/h reports a speed issue
    first, for the first point, at 3600 times that distance.
  */
  lemma FixtureSpeed(dist: Distance)
    requires dist(40.7128, -74.0060, 40.7129, -74.0061) > 1.0 / 3600.0
    ensures |SpeedIssues(dist, Fixture(), 1.0)| > 0
    ensures SpeedIssues(dist, Fixture(), 1.0)[0]
            == SpeedIssue(3600.0 * dist(40.7128, -74.0060, 40.7129, -74.0061), FixtureName, FixtureStart)
  {
    FixturePointSites();
    var s, t := Site(FixtureName, FixtureP0, FixtureP1), Site(FixtureName, FixtureP1, FixtureP2);
    CollectTwo(s, t, SpeedChecker(dist, 1.0));
    assert ElapsedHours(FixtureP0, FixtureP1) == 1.0 / 3600.0;
    assert Speed(dist, s) == 3600.0 * dist(40.7128, -74.0060, 40.7129, -74.0061);
  }

  /** Two points 0.1 km and one second apart: 360 km/h, flagged at 1.0, not at 1000.0. */
  lemma FastPair(dist: Distance, name: Option<string>, p1: TrackPoint, p2: TrackPoint)
    requires dist(p1.lat, p1.lon, p2.lat, p2.lon) == 0.1 && p2.time == p1.time + 1
    ensures SpeedIssues(dist, [Track(name, [[p1, p2]])], 1.0) == [SpeedIssue(360.0, name, p1.time)]
    ensures SpeedIssues(dist, [Track(name, [[p1, p2]])], 1000.0) == []
  {
    SingleSegmentSites(name, [p1, p2]);
    SitesOfTwo(name, p1, p2);
    var s := Site(name, p1, p2);
    assert ElapsedHours(p1, p2) == 1.0 / 3600.0;
    assert Speed(dist, s) == 360.0;
    CollectOne(s, SpeedChecker(dist, 1.0));
    CollectOne(s, SpeedChecker(dist, 1000.0));
  }
}

# GPX anomaly scans, modelled in Dafny

`gpx_analyzer.dfy` (module `GpxAnalyzer`) models the anomaly detection of
`GPXAnalyzer` in gpxray's `gpx_analyzer.py`.

A parsed GPX file is a sequence of tracks. Each track has an optional name and
a sequence of segments, and each segment is a sequence of track points
(latitude, longitude, elevation, time). The analyzer runs three read-only scans
over this model:

- **speed**: for each pair of consecutive points of a segment, the distance
  divided by the elapsed hours. Pairs whose elapsed time is not positive are
  skipped. A pair is flagged when its speed is strictly above the threshold.
- **elevation**: flags consecutive points whose absolute elevation difference
  is strictly above the threshold.
- **continuity**: for each pair of consecutive segments of a track, when both
  have points, flags a gap from the last point of the first segment to the
  first point of the second that is strictly above the threshold.

The `analyze` command concatenates speed, elevation and continuity issues and
reports how many there are. Its default thresholds are 100 km/h, 100 m and
300 s (`DefaultThresholds`).

Each issue records:

- the offending value (speed, elevation change or gap);
- the track's name as an optional value;
- the time of the earlier point (for a gap, the last point of the first segment).

How it is specified:

- `PointSites` lists every pair of consecutive points, and `SegmentSites`
  every pair of consecutive segments. Both lists are in traversal order: track,
  then segment, then index.
- `Collect` keeps, in order, the issue that each pair's check produces.
  `SpeedIssues`, `ElevationIssues` and `ContinuityIssues` are these filters.
- The methods `AnalyzeSpeed`, `AnalyzeElevation` and `AnalyzeSegmentContinuity`
  are the source's nested loops, with the same appends. Their loop invariants
  tie the list built so far to `Collect` over the prefix of pairs already
  visited.
- The lemmas state what those filters promise: when an issue is reported, how
  many there can be, their order, and threshold monotonicity. The test
  fixture's expected results are proved too.

## Model

| member | source | states |
|---|---|---|
| GpxAnalyzer.TrackPoint | gpx_analyzer.py:9-14 | a recorded sample: latitude, longitude, elevation and time (whole seconds) |
| GpxAnalyzer.Issue | gpx_analyzer.py:64-69 | an issue dict: its `type` as the constructor, the offending value, the track's name and the earlier point's time |
| GpxAnalyzer.DefaultThresholds | gpx_analyzer.py:128-130 | the command's defaults: 100 km/h, 100 m and 300 s |
| GpxAnalyzer.Sites | gpx_analyzer.py:56-57 | the pairs (xs[i], xs[i + 1]) for i in range(len(xs) - 1), in order, each labelled with the track's name |
| GpxAnalyzer.SegmentsPointSites | gpx_analyzer.py:53-57 | a track's point pairs: the pairs of its first segment, then of its second, and so on |
| GpxAnalyzer.PointSites | gpx_analyzer.py:52-57 | every point pair the speed and elevation scans visit, in track, then segment, then index order |
| GpxAnalyzer.SegmentSites | gpx_analyzer.py:97-104 | every pair of consecutive segments the continuity scan visits, in track, then index order |
| GpxAnalyzer.Collect | gpx_analyzer.py:50-71 | the list built by `issues.append`: for each visited pair in order, the issue its check produces, if any |
| GpxAnalyzer.ElapsedHours | gpx_analyzer.py:59 | the seconds from p1 to p2 divided by 3600 |
| GpxAnalyzer.Speed | gpx_analyzer.py:58-62 | distance from p1 to p2 divided by the elapsed hours; defined only when those are positive |
| GpxAnalyzer.SpeedCheck | gpx_analyzer.py:58-69 | `time_diff > 0 and speed > max_speed_threshold` gives a speed issue with that speed, the track's name and p1's time; otherwise nothing |
| GpxAnalyzer.ElevationChange | gpx_analyzer.py:83 | the absolute difference of the two points' elevations |
| GpxAnalyzer.ElevationCheck | gpx_analyzer.py:83-91 | `elevation_change > max_elevation_change` gives an elevation issue with that change, the name and p1's time; otherwise nothing |
| GpxAnalyzer.Last | gpx_analyzer.py:107 | the last point of a non-empty segment (`seg1_points[-1]`) |
| GpxAnalyzer.Gap | gpx_analyzer.py:107-109 | the seconds from the last point of the first segment to the first point of the second |
| GpxAnalyzer.GapCheck | gpx_analyzer.py:106-117 | `seg1_points and seg2_points` and `time_diff > max_gap` give a continuity issue with that gap, the name and the last point's time; otherwise nothing |
| GpxAnalyzer.SpeedIssues | gpx_analyzer.py:48-71 | the result of `analyze_speed`: `Collect` of `SpeedCheck` over `PointSites` |
| GpxAnalyzer.ElevationIssues | gpx_analyzer.py:73-93 | the result of `analyze_elevation`: `Collect` of `ElevationCheck` over `PointSites` |
| GpxAnalyzer.ContinuityIssues | gpx_analyzer.py:95-119 | the result of `analyze_segment_continuity`: `Collect` of `GapCheck` over `SegmentSites` |
| GpxAnalyzer.AllIssues | gpx_analyzer.py:139 | `speed_issues + elevation_issues + continuity_issues` |
| GpxAnalyzer.ScanSegmentSpeed | gpx_analyzer.py:56-69 | the inner loop appends to the list exactly the speed issues of the segment's consecutive pairs, in pair order; it divides only when the elapsed time is positive |
| GpxAnalyzer.AnalyzeSpeed | gpx_analyzer.py:48-71 | the nested loops return exactly `SpeedIssues`, the in-order filter of every point pair of every segment of every track |
| GpxAnalyzer.ScanSegmentElevation | gpx_analyzer.py:81-91 | the inner loop appends exactly the elevation issues of the segment's consecutive pairs, in pair order |
| GpxAnalyzer.AnalyzeElevation | gpx_analyzer.py:73-93 | the nested loops return exactly `ElevationIssues`, the in-order filter of every point pair |
| GpxAnalyzer.ScanTrackContinuity | gpx_analyzer.py:99-117 | the loop over one track's segments appends exactly the gap issues of its consecutive segment pairs, in order |
| GpxAnalyzer.AnalyzeSegmentContinuity | gpx_analyzer.py:95-119 | the loops return exactly `ContinuityIssues`, the in-order filter of every consecutive segment pair of every track |
| GpxAnalyzer.Analyze | gpx_analyzer.py:135-145 | the report is speed ++ elevation ++ continuity issues; its count is the sum of the three lengths; kinds appear in that order; it is empty exactly when all three scans are |
| GpxAnalyzer.ReportGroupedByKind | gpx_analyzer.py:139-143 | in the concatenated list every speed issue precedes every elevation issue, which precedes every continuity issue; the list is empty iff each scan's list is |
| GpxAnalyzer.ScanKinds | gpx_analyzer.py:64-115 | each scan reports only issues of its own kind |
| GpxAnalyzer.SitesAt | gpx_analyzer.py:56-57 | `range(len(points) - 1)` visits len − 1 pairs (none for an empty list), and the i-th pair is (points[i], points[i + 1]) |
| GpxAnalyzer.CollectMember | gpx_analyzer.py:52-69 | an issue is in a scan's list iff the check of some visited pair produces it |
| GpxAnalyzer.CollectLength | gpx_analyzer.py:56-69 | each pair contributes at most one issue |
| GpxAnalyzer.CollectAppend | gpx_analyzer.py:52-53 | scanning a concatenation reports the first part's issues, then the second's |
| GpxAnalyzer.SegmentsPointSitesMember | gpx_analyzer.py:53-57 | the point pairs of a track are exactly the consecutive pairs of each of its segments; pairs never span two segments |
| GpxAnalyzer.PointSiteOrigin | gpx_analyzer.py:52-57 | every visited point pair is points j, j + 1 of some segment g of some track k, labelled with that track's name |
| GpxAnalyzer.PairInPointSites | gpx_analyzer.py:52-57 | every pair of consecutive points of every segment of every track is visited |
| GpxAnalyzer.PointSitesMember | gpx_analyzer.py:52-57 | both directions together: the visited point pairs are exactly the consecutive pairs of the segments |
| GpxAnalyzer.SegmentSitesMember | gpx_analyzer.py:97-103 | the visited segment pairs are exactly segments g, g + 1 of some track, labelled with its name |
| GpxAnalyzer.PointScanFromPairs | gpx_analyzer.py:52-57 | a point scan reports x iff the check of points j, j + 1 of segment g of track k produces x, for some k, g, j |
| GpxAnalyzer.SegmentScanFromPairs | gpx_analyzer.py:97-103 | the continuity scan reports x iff the check of segments g, g + 1 of track k produces x, for some k, g |
| GpxAnalyzer.ElapsedHoursPositive | gpx_analyzer.py:59-61 | elapsed hours are positive iff the later timestamp is strictly larger, so the hours test equals a seconds test |
| GpxAnalyzer.SpeedIssueIff | gpx_analyzer.py:59-69 | x is a speed issue iff some pair has positive elapsed time and distance / hours strictly above the threshold, and x carries that speed, the track's name and the earlier point's time |
| GpxAnalyzer.NonPositiveElapsedTimeIsSkipped | gpx_analyzer.py:59-62 | when no pair moves forward in time, the speed scan reports nothing, whatever the distances and threshold |
| GpxAnalyzer.StationaryPointsNeverFlagged | gpx_analyzer.py:57-63 | when every pair is at distance zero, the speed scan reports nothing at a non-negative threshold |
| GpxAnalyzer.FastPair | gpx_analyzer.py:57-63 | two points 0.1 km and one second apart give exactly one issue, at 360 km/h, at threshold 1 and none at 1000 |
| GpxAnalyzer.ElevationIssueIff | gpx_analyzer.py:83-91 | x is an elevation issue iff some pair's absolute elevation difference is strictly above the threshold, and x carries that difference, which is ≥ 0 |
| GpxAnalyzer.ContinuityIssueIff | gpx_analyzer.py:104-117 | x is a continuity issue iff two consecutive segments are both non-empty and first(next).time − last(prev).time is strictly above the threshold, and x is anchored at last(prev).time |
| GpxAnalyzer.EmptySegmentHidesGap | gpx_analyzer.py:106 | an empty segment between two segments hides the gap across it, however long |
| GpxAnalyzer.AdjacentIssueBound | gpx_analyzer.py:56 | n elements yield at most n − 1 issues, and none for 0 or 1 elements |
| GpxAnalyzer.SpeedSegmentBound | gpx_analyzer.py:56 | one segment yields at most len(points) − 1 speed issues, none for 0 or 1 points |
| GpxAnalyzer.ElevationSegmentBound | gpx_analyzer.py:81 | one segment yields at most len(points) − 1 elevation issues, none for 0 or 1 points |
| GpxAnalyzer.ContinuityTrackBound | gpx_analyzer.py:102 | one track yields at most len(segments) − 1 continuity issues, none for 0 or 1 segments |
| GpxAnalyzer.SegmentsPointSitesAppend | gpx_analyzer.py:53 | within a track, the pairs of earlier segments come before those of later segments |
| GpxAnalyzer.PointSitesAppend | gpx_analyzer.py:52 | the point pairs of earlier tracks come before those of later tracks |
| GpxAnalyzer.SegmentSitesAppend | gpx_analyzer.py:97 | the segment pairs of earlier tracks come before those of later tracks |
| GpxAnalyzer.SpeedIssuesInTrackOrder | gpx_analyzer.py:52-69 | the speed issues of tracks A ++ B are A's issues then B's; nothing is reordered, lost or duplicated |
| GpxAnalyzer.SpeedIssuesInSegmentOrder | gpx_analyzer.py:53-69 | within a track, the speed issues of earlier segments come before those of later segments |
| GpxAnalyzer.ElevationIssuesInSegmentOrder | gpx_analyzer.py:78-91 | within a track, the elevation issues of earlier segments come before those of later segments |
| GpxAnalyzer.ElevationIssuesInTrackOrder | gpx_analyzer.py:77-91 | the elevation issues of tracks A ++ B are A's issues then B's |
| GpxAnalyzer.ContinuityIssuesInTrackOrder | gpx_analyzer.py:97-117 | the continuity issues of tracks A ++ B are A's issues then B's |
| GpxAnalyzer.SpeedCheckRaise | gpx_analyzer.py:63 | at a higher threshold a pair's speed check keeps its lower-threshold issue exactly when that speed is above the higher threshold |
| GpxAnalyzer.ElevationCheckRaise | gpx_analyzer.py:85 | the same for the elevation check |
| GpxAnalyzer.GapCheckRaise | gpx_analyzer.py:111 | the same for the gap check |
| GpxAnalyzer.CollectRaise | gpx_analyzer.py:52-69 | a stricter check gives exactly the looser check's issues whose value exceeds the higher threshold, in the same order |
| GpxAnalyzer.AboveThresholdIsSubsequence | gpx_analyzer.py:63 | keeping only the issues above a threshold gives a subsequence of the list |
| GpxAnalyzer.SpeedThresholdMonotone | gpx_analyzer.py:63 | raising the speed threshold gives exactly the old issues whose speed exceeds it: a subsequence, never longer |
| GpxAnalyzer.ElevationThresholdMonotone | gpx_analyzer.py:85 | raising the elevation threshold gives exactly the old issues whose change exceeds it: a subsequence, never longer |
| GpxAnalyzer.ContinuityThresholdMonotone | gpx_analyzer.py:111 | raising the gap threshold gives exactly the old issues whose gap exceeds it: a subsequence, never longer |
| GpxAnalyzer.FixturePointSites | tests/test_gpx_analyzer.py:14-37 | the fixture track has two point pairs, both in its first segment; the one-point segment contributes none |
| GpxAnalyzer.FixtureElevation | tests/test_gpx_analyzer.py:71-75 | elevations 10, 20, 30 at threshold 5 give two elevation issues of 10 m, at 10:00:00 and 10:00:01; at 25 they give none |
| GpxAnalyzer.FixtureContinuity | tests/test_gpx_analyzer.py:77-81 | the 1-second gap between the fixture's segments gives one continuity issue at max_gap 0.1, anchored at 10:00:02, and none at 10 |
| GpxAnalyzer.FixtureAtDefaults | gpx_analyzer.py:129-130 | at the command's default thresholds (100 m, 300 s) the fixture has no elevation and no continuity issue |
| GpxAnalyzer.FixtureSpeed | tests/test_gpx_analyzer.py:65-69 | if the first two fixture points are more than 1/3600 km apart, the scan at 1 km/h reports a speed issue first, for 10:00:00, at 3600 × that distance |

## Left out

- XML parsing with lxml, namespace lookup and `_parse_trackpoint` (gpx_analyzer.py:18-22, 38-46): the model receives the parsed track list. Descendant searches (`.//trkseg`, `.//name`) are taken to find a track's own segments and name.
- ISO-8601 timestamp parsing: times are whole seconds since the epoch. Fractional seconds are not modelled.
- `_haversine_distance` (gpx_analyzer.py:24-36): floating-point trigonometry. Distance is the function parameter `dist`, and no property of it is assumed (no symmetry, no value for the fixture). `FixtureSpeed`, `FastPair` and `StationaryPointsNeverFlagged` take their hypotheses about the distance as preconditions.
- Floating-point rounding: latitudes, longitudes, elevations, thresholds and the speed are exact reals. NaN and infinities, which the source's `float()` parsing and float options accept, are not modelled: every comparison with NaN is false there, so a NaN threshold or elevation flags nothing, and `real` has no such values.
- Message text (`:.2f`, `isoformat()`), the `type` string and the `Track ` prefix of the location string (`f'Track {name}'`): each issue carries its raw value, its kind as a constructor, the bare optional track name and its time as seconds.
- The click CLI and `click.echo` printing (gpx_analyzer.py:121-152): `Analyze` takes the thresholds as a value and returns the list and the count that are printed.
- A track without a name: the source raises an error the moment it formats an issue for that track. The model carries the name as `Option<string>` and does not model the crash. A placeholder label, which is one proposed fix, is not modelled either.
- `TrackPoint.speed` (gpx_analyzer.py:15): never read by the scans.
- A track's `type` element: never read by the scans.
- The `strip-privacy` command called by the tests: `gpx_analyzer.py` defines no such command, so there is nothing to model.
- The scans' inner loops are separate methods (`ScanSegmentSpeed`, `ScanSegmentElevation`, `ScanTrackContinuity`) that the outer loops call. The statements are the source's.

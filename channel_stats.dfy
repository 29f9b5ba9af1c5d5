/**
 * Upload-interval statistics of a channel: the earliest upload, the mean gap
 * between consecutive uploads, and the mean gap over the six most recent ones.
 * Times are milliseconds; the averages are reported in days as reals.
 */
module ChannelStats {
  import opened Types

  const MsPerDay: real := 86400000.0
  const RecentWindow: nat := 6

  predicate Ascending(s: seq<int>) {
    forall i, j :: 0 <= i <= j < |s| ==> s[i] <= s[j]
  }

  lemma InMultisetIsIndexed(s: seq<int>, y: int)
    requires y in multiset(s)
    ensures exists k :: 0 <= k < |s| && s[k] == y
  {
    assert y in s;
  }

  lemma AscendingCons(h: int, t: seq<int>)
    requires Ascending(t)
    requires forall k :: 0 <= k < |t| ==> h <= t[k]
    ensures Ascending([h] + t)
  {
    var r := [h] + t;
    forall i, j | 0 <= i <= j < |r| ensures r[i] <= r[j] {
      if i > 0 {
        assert r[i] == t[i - 1] && r[j] == t[j - 1];
      }
    }
  }

  /** `x` put into an ascending list before the first element not smaller than it. */
  function Insert(x: int, s: seq<int>): (r: seq<int>)
    requires Ascending(s)
    ensures Ascending(r)
    ensures multiset(r) == multiset(s) + multiset{x}
    ensures |r| == |s| + 1
    ensures forall k :: 0 <= k < |r| ==> r[k] == x || r[k] in s
  {
    if s == [] || x <= s[0] then
      AscendingCons(x, s);
      [x] + s
    else
      var tail := Insert(x, s[1..]);
      assert s == [s[0]] + s[1..];
      forall k | 0 <= k < |tail| ensures s[0] <= tail[k] {
        if tail[k] != x {
          var j :| 0 <= j < |s[1..]| && s[1..][j] == tail[k];
          assert s[j + 1] == tail[k];
        }
      }
      AscendingCons(s[0], tail);
      [s[0]] + tail
  }

  /** The timestamps in ascending order (what the comparator `a - b` sort yields). */
  function SortAscending(s: seq<int>): (r: seq<int>)
    ensures Ascending(r)
    ensures multiset(r) == multiset(s)
    ensures |r| == |s|
  {
    if s == [] then []
    else
      assert s == [s[0]] + s[1..];
      Insert(s[0], SortAscending(s[1..]))
  }

  function PublishedTimes(videos: seq<AnalyzedVideo>): (r: seq<Timestamp>)
    ensures |r| == |videos|
    ensures forall i :: 0 <= i < |videos| ==> r[i] == videos[i].publishedAt
  {
    if videos == [] then [] else [videos[0].publishedAt] + PublishedTimes(videos[1..])
  }

  /** The last `k` elements, or all of them when there are fewer (`slice(-k)`). */
  function LastK(s: seq<int>, k: nat): (r: seq<int>)
    ensures |r| == if |s| <= k then |s| else k
    ensures r == s[|s| - |r|..]
  {
    if |s| <= k then s else s[|s| - k..]
  }

  /**
   * Mean gap between consecutive elements of an ascending list, which the
   * sum of the gaps telescopes to: (last - first) / (n - 1), dividing by 1
   * when there is a single element.
   */
  function MeanGap(s: seq<int>): real
    requires |s| > 0
  {
    Ratio(s[|s| - 1] - s[0], if |s| - 1 == 0 then 1 else |s| - 1)
  }

  /** `total / count` as an exact quotient. */
  function Ratio(total: int, count: nat): (q: real)
    requires count > 0
    ensures q * count as real == total as real
    ensures total >= 0 ==> q >= 0.0
  {
    total as real / count as real
  }

  /** Milliseconds as days. */
  function ToDays(ms: real): (days: real)
    ensures days * MsPerDay == ms
    ensures ms >= 0.0 ==> days >= 0.0
  {
    ms / MsPerDay
  }

  lemma MeanGapNonNegative(s: seq<int>)
    requires |s| > 0 && s[0] <= s[|s| - 1]
    ensures MeanGap(s) >= 0.0
  {
  }

  /** The sum of the gaps between consecutive elements, accumulated left to right. */
  method SumOfGaps(s: seq<int>) returns (total: int)
    ensures |s| > 0 ==> total == s[|s| - 1] - s[0]
    ensures |s| == 0 ==> total == 0
  {
    total := 0;
    var i := 1;
    while i < |s|
      invariant |s| > 0 ==> 1 <= i <= |s| && total == s[i - 1] - s[0]
      invariant |s| == 0 ==> total == 0
    {
      var diff := s[i] - s[i - 1];
      total := total + diff;
      i := i + 1;
    }
  }

  datatype ExtraStats =
    | NoVideos
    | Stats(firstVideoDate: Timestamp, averageUploadIntervalAll: real, averageUploadIntervalRecent: real)

  lemma FirstIsEarliest(times: seq<int>, sorted: seq<int>)
    requires |times| > 0
    requires Ascending(sorted) && multiset(sorted) == multiset(times)
    ensures sorted[0] in times
    ensures forall t :: t in times ==> sorted[0] <= t
  {
    assert |sorted| > 0 by {
      assert times[0] in multiset(times);
    }
    assert sorted[0] in multiset(sorted);
    forall t | t in times ensures sorted[0] <= t {
      assert t in multiset(sorted);
      InMultisetIsIndexed(sorted, t);
    }
  }

  /** The statistics read off the ascending upload times, in days. */
  function StatsOfSorted(sorted: seq<int>): ExtraStats
    requires |sorted| > 0
  {
    var recent := LastK(sorted, RecentWindow);
    var all := MeanGap(sorted);
    var recentMean := if |recent| > 1 then MeanGap(recent) else 0.0;
    Stats(sorted[0], ToDays(all), ToDays(if recentMean != 0.0 then recentMean else all))
  }

  lemma StatsOfSortedProperties(videos: seq<AnalyzedVideo>)
    requires videos != []
    ensures var stats := StatsOfSorted(SortAscending(PublishedTimes(videos)));
            && stats.firstVideoDate in PublishedTimes(videos)
            && (forall v :: v in videos ==> stats.firstVideoDate <= v.publishedAt)
            && stats.averageUploadIntervalAll >= 0.0 && stats.averageUploadIntervalRecent >= 0.0
  {
    var times := PublishedTimes(videos);
    var sorted := SortAscending(times);
    FirstIsEarliest(times, sorted);
    forall v | v in videos ensures sorted[0] <= v.publishedAt {
      var k :| 0 <= k < |videos| && videos[k] == v;
      assert times[k] in times;
    }
    var recent := LastK(sorted, RecentWindow);
    MeanGapNonNegative(sorted);
    if |recent| > 1 {
      MeanGapNonNegative(recent);
    }
  }

  /**
   * The statistics of a channel's videos: NoVideos (three empty texts) for
   * no videos; otherwise the earliest upload, the mean gap over all uploads,
   * and the mean gap over the last six uploads, falling back to the overall
   * mean when that is 0, both in days.
   */
  function ExtraStatsOf(videos: seq<AnalyzedVideo>): (stats: ExtraStats)
    ensures stats.NoVideos? <==> videos == []
    ensures stats.Stats? ==> stats.firstVideoDate in PublishedTimes(videos)
    ensures stats.Stats? ==> forall v :: v in videos ==> stats.firstVideoDate <= v.publishedAt
    ensures stats.Stats? ==> stats.averageUploadIntervalAll >= 0.0 && stats.averageUploadIntervalRecent >= 0.0
  {
    if videos == [] then NoVideos
    else
      StatsOfSortedProperties(videos);
      StatsOfSorted(SortAscending(PublishedTimes(videos)))
  }

  /** The same statistics, with the gaps summed one by one as the service does. */
  method CalculateExtraChannelStats(videos: seq<AnalyzedVideo>) returns (stats: ExtraStats)
    ensures stats == ExtraStatsOf(videos)
  {
    if |videos| == 0 {
      return NoVideos;
    }
    var sorted := SortAscending(PublishedTimes(videos));
    var firstVideoDate := sorted[0];

    var totalInterval := SumOfGaps(sorted);
    var avgAll := Ratio(totalInterval, if |sorted| - 1 == 0 then 1 else |sorted| - 1);

    var recent := LastK(sorted, RecentWindow);
    var recentInterval := 0.0;
    if |recent| > 1 {
      var recentTotal := SumOfGaps(recent);
      recentInterval := Ratio(recentTotal, |recent| - 1);
    }

    stats := Stats(firstVideoDate, ToDays(avgAll), ToDays(if recentInterval != 0.0 then recentInterval else avgAll));
    assert avgAll == MeanGap(sorted);
    assert recentInterval == if |recent| > 1 then MeanGap(recent) else 0.0;
    assert stats == StatsOfSorted(sorted);
    assert ExtraStatsOf(videos) == StatsOfSorted(sorted);
  }
}

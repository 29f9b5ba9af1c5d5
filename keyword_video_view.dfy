/**
 * The list computations of the keyword video analysis view: the filters,
 * the descending sort chosen by `sortOrder`, the totals over all fetched
 * videos, and the at most fifty points of the popularity chart.
 */
module KeywordVideoView {
  import opened Types
  import Sorting

  datatype SortOrder = ByPopularity | ByViews | ByDate
  datatype VideoTypeFilter = AllTypes | OnlyShort | OnlyRegular
  datatype CountryFilter = AllCountries | Korea | Foreign

  // ---------------------------------------------------------------------------
  // Filters
  // ---------------------------------------------------------------------------

  /** An empty `country` is the missing (falsy) value. */
  predicate PassesCountry(v: AnalyzedVideo, country: CountryFilter) {
    !(country == Korea && v.country != "" && v.country != "KR") && !(country == Foreign && v.country == "KR")
  }

  predicate PassesType(v: AnalyzedVideo, videoType: VideoTypeFilter) {
    !(videoType == OnlyShort && v.videoType != Short) && !(videoType == OnlyRegular && v.videoType != Regular)
  }

  /** The predicate handed to `videos.filter`, its checks in the order the code makes them. */
  predicate PassesFilters(v: AnalyzedVideo, country: CountryFilter, videoType: VideoTypeFilter, minViews: int): (ok: bool)
    ensures ok <==>
              && v.viewCount >= minViews
              && (country == Korea ==> v.country == "" || v.country == "KR")
              && (country == Foreign ==> v.country != "KR")
              && (videoType == OnlyShort ==> v.videoType == Short)
              && (videoType == OnlyRegular ==> v.videoType == Regular)
  {
    PassesCountry(v, country) && PassesType(v, videoType) && !(v.viewCount < minViews)
  }

  lemma CountryFilterMeaning(v: AnalyzedVideo)
    ensures PassesCountry(v, AllCountries)
    ensures PassesCountry(v, Korea) <==> v.country == "" || v.country == "KR"
    ensures PassesCountry(v, Foreign) <==> v.country != "KR"
  {
  }

  lemma TypeFilterMeaning(v: AnalyzedVideo)
    ensures PassesType(v, AllTypes)
    ensures PassesType(v, OnlyShort) <==> v.videoType == Short
    ensures PassesType(v, OnlyRegular) <==> v.videoType == Regular
  {
  }

  /** `videos.filter(...)`: the passing videos in their original order. */
  function Filter(videos: seq<AnalyzedVideo>, country: CountryFilter, videoType: VideoTypeFilter, minViews: int)
    : (r: seq<AnalyzedVideo>)
    ensures |r| <= |videos|
    ensures forall v :: v in r <==> v in videos && PassesFilters(v, country, videoType, minViews)
    ensures forall v :: multiset(r)[v] == if PassesFilters(v, country, videoType, minViews) then multiset(videos)[v] else 0
  {
    if videos == [] then []
    else
      var rest := Filter(videos[1..], country, videoType, minViews);
      assert videos == [videos[0]] + videos[1..];
      if PassesFilters(videos[0], country, videoType, minViews) then [videos[0]] + rest else rest
  }

  /** Everything the service analyses is tagged "KR", so the 'foreign' filter always comes back empty. */
  lemma {:induction false} ForeignFindsNothing(videos: seq<AnalyzedVideo>, videoType: VideoTypeFilter, minViews: int)
    requires forall k :: 0 <= k < |videos| ==> videos[k].country == "KR"
    ensures Filter(videos, Foreign, videoType, minViews) == []
  {
    if videos != [] {
      assert !PassesFilters(videos[0], Foreign, videoType, minViews);
      ForeignFindsNothing(videos[1..], videoType, minViews);
    }
  }

  // ---------------------------------------------------------------------------
  // Sorting
  // ---------------------------------------------------------------------------

  /** The number each comparator subtracts: `b.key - a.key` puts larger keys first. */
  function SortKey(order: SortOrder): (key: AnalyzedVideo -> real)
    ensures order == ByViews ==> forall v :: key(v) == v.viewCount as real
    ensures order == ByPopularity ==> forall v :: key(v) == v.popularityScore
    ensures order == ByDate ==> forall v :: key(v) == v.publishedAt as real
  {
    match order
    case ByPopularity => (v: AnalyzedVideo) => v.popularityScore
    case ByViews => (v: AnalyzedVideo) => v.viewCount as real
    case ByDate => (v: AnalyzedVideo) => v.publishedAt as real
  }

  /**
   * `filteredVideos`: a permutation of the passing videos, in non-increasing
   * order of the chosen key.
   */
  method FilteredVideos(videos: seq<AnalyzedVideo>, country: CountryFilter, videoType: VideoTypeFilter,
                        sortOrder: SortOrder, minViews: int)
    returns (result: seq<AnalyzedVideo>)
    ensures multiset(result) == multiset(Filter(videos, country, videoType, minViews))
    ensures forall v :: v in result ==> v in videos && PassesFilters(v, country, videoType, minViews)
    ensures forall v :: v in videos && PassesFilters(v, country, videoType, minViews) ==> v in result
    ensures Sorting.NonIncreasing(result, SortKey(sortOrder))
    ensures result == Sorting.InsertionSort(Filter(videos, country, videoType, minViews), SortKey(sortOrder))
    ensures forall k :: Sorting.WithKey(result, SortKey(sortOrder), k)
                        == Sorting.WithKey(Filter(videos, country, videoType, minViews), SortKey(sortOrder), k)
  {
    var kept := Filter(videos, country, videoType, minViews);
    var a := new AnalyzedVideo[|kept|](i requires 0 <= i < |kept| => kept[i]);
    assert a[..] == kept;
    Sorting.SortDescendingBy(a, SortKey(sortOrder));
    result := a[..];
    forall v | v in result ensures v in kept {
      assert v in multiset(result);
    }
    forall v | v in kept ensures v in result {
      assert v in multiset(kept);
    }
  }

  // ---------------------------------------------------------------------------
  // Totals and chart
  // ---------------------------------------------------------------------------

  datatype Totals = Totals(views: nat, likes: nat, comments: nat)

  function AddVideo(acc: Totals, v: AnalyzedVideo): Totals {
    Totals(acc.views + v.viewCount, acc.likes + v.likeCount, acc.comments + v.commentCount)
  }

  /** `videos.reduce(...)` from `{0, 0, 0}`, left to right. */
  function TotalStats(videos: seq<AnalyzedVideo>): (t: Totals)
    ensures videos == [] ==> t == Totals(0, 0, 0)
    ensures forall i :: 0 <= i < |videos| ==>
              videos[i].viewCount <= t.views && videos[i].likeCount <= t.likes && videos[i].commentCount <= t.comments
    ensures t.views == 0 <==> forall i :: 0 <= i < |videos| ==> videos[i].viewCount == 0
    decreases |videos|
  {
    if videos == [] then Totals(0, 0, 0) else AddVideo(TotalStats(videos[..|videos| - 1]), videos[|videos| - 1])
  }

  function Plus(x: Totals, y: Totals): Totals {
    Totals(x.views + y.views, x.likes + y.likes, x.comments + y.comments)
  }

  /** The totals split over a concatenation. */
  lemma {:induction false} TotalStatsAppend(xs: seq<AnalyzedVideo>, ys: seq<AnalyzedVideo>)
    ensures TotalStats(xs + ys) == Plus(TotalStats(xs), TotalStats(ys))
    decreases |ys|
  {
    if ys == [] {
      assert xs + ys == xs;
    } else {
      var init, last := ys[..|ys| - 1], ys[|ys| - 1];
      assert (xs + ys)[..|xs + ys| - 1] == xs + init;
      assert (xs + ys)[|xs + ys| - 1] == last;
      calc {
        TotalStats(xs + ys);
        AddVideo(TotalStats(xs + init), last);
        { TotalStatsAppend(xs, init); }
        AddVideo(Plus(TotalStats(xs), TotalStats(init)), last);
        Plus(TotalStats(xs), AddVideo(TotalStats(init), last));
        Plus(TotalStats(xs), TotalStats(ys));
      }
    }
  }

  /** The totals cover every fetched video: the filtered list never sums to more. */
  lemma {:induction false} FilteredTotalsAtMost(videos: seq<AnalyzedVideo>, country: CountryFilter,
                                                videoType: VideoTypeFilter, minViews: int)
    ensures var f := TotalStats(Filter(videos, country, videoType, minViews));
            var t := TotalStats(videos);
            f.views <= t.views && f.likes <= t.likes && f.comments <= t.comments
  {
    if videos != [] {
      var rest := videos[1..];
      assert videos == [videos[0]] + rest;
      FilteredTotalsAtMost(rest, country, videoType, minViews);
      TotalStatsAppend([videos[0]], rest);
      if PassesFilters(videos[0], country, videoType, minViews) {
        TotalStatsAppend([videos[0]], Filter(rest, country, videoType, minViews));
      }
    }
  }

  const ChartLimit: nat := 50
  const NameLength: nat := 10

  datatype ChartPoint = ChartPoint(name: string, fullTitle: string, score: real)

  /** The bar label: a title longer than ten characters is cut to ten and marked with "...". */
  function ShortName(title: string): (name: string)
    ensures |title| <= NameLength ==> name == title
    ensures |title| > NameLength ==> |name| == NameLength + 3 && name[..NameLength] == title[..NameLength]
                                     && name[NameLength..] == "..."
  {
    if |title| > NameLength then title[..NameLength] + "..." else title
  }

  /** `filteredVideos.slice(0, 50).map(...)`. */
  function ChartData(filtered: seq<AnalyzedVideo>): (points: seq<ChartPoint>)
    ensures |points| == if |filtered| < ChartLimit then |filtered| else ChartLimit
    ensures forall i :: 0 <= i < |points| ==>
              points[i] == ChartPoint(ShortName(filtered[i].title), filtered[i].title, filtered[i].popularityScore)
  {
    var n := if |filtered| < ChartLimit then |filtered| else ChartLimit;
    seq(n, i requires 0 <= i < n => ChartPoint(ShortName(filtered[i].title), filtered[i].title, filtered[i].popularityScore))
  }
}

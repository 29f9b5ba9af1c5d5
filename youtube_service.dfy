/**
 * The pure helpers of the YouTube service: the ISO 8601 duration reader,
 * short/regular classification, hashtag extraction, the popularity score,
 * the record built from one API item, splitting ids into request batches,
 * and the channel battle's power score and winner rule.
 */
module YouTubeService {
  import opened Wrappers
  import opened Text
  import opened Types

  // ---------------------------------------------------------------------------
  // ISO 8601 durations: the `/PT(\d+H)?(\d+M)?(\d+S)?/` match
  // ---------------------------------------------------------------------------

  predicate PTAt(s: string, i: int) {
    0 <= i && i + 1 < |s| && s[i] == 'P' && s[i + 1] == 'T'
  }

  ghost predicate HasPT(s: string) {
    exists i :: PTAt(s, i)
  }

  /** The index of the first "PT" at or after `from`. */
  function FirstPT(s: string, from: nat): (r: Option<nat>)
    decreases |s| - from
    ensures r.None? ==> forall j :: from <= j ==> !PTAt(s, j)
    ensures r.Some? ==> from <= r.value && PTAt(s, r.value)
    ensures r.Some? ==> forall j :: from <= j < r.value ==> !PTAt(s, j)
  {
    if from + 1 >= |s| then None
    else if PTAt(s, from) then Some(from)
    else FirstPT(s, from + 1)
  }

  /**
   * One optional designator group `(\d+L)?`: a digit run followed by `letter`
   * gives its value and the text after the letter; otherwise the group is
   * empty, its value is 0 and nothing is consumed.
   */
  function Designator(r: string, letter: char): (nat, string) {
    var k := DigitPrefix(r);
    if 0 < k < |r| && r[k] == letter then (DigitsValue(r[..k]), r[k + 1..]) else (0, r)
  }

  /**
   * Seconds denoted by a duration such as "PT1H2M3S": 3600 per hour, 60 per
   * minute, one per second, read after the first "PT"; 0 when there is no "PT".
   */
  function ParseIso8601Duration(duration: string): (seconds: nat)
    ensures !HasPT(duration) ==> seconds == 0
  {
    match FirstPT(duration, 0)
    case None => 0
    case Some(i) => ParseAfterPT(duration[i + 2..])
  }

  /** The text "PT[hH][mM][sS]" with the given designators present. */
  function Field(n: Option<nat>, letter: char): string {
    match n
    case None => ""
    case Some(v) => NatToString(v) + [letter]
  }

  function DurationText(h: Option<nat>, m: Option<nat>, s: Option<nat>): string {
    "PT" + TimeFields(h, m, s)
  }

  function TimeFields(h: Option<nat>, m: Option<nat>, s: Option<nat>): string {
    Field(h, 'H') + Field(m, 'M') + Field(s, 'S')
  }

  lemma {:induction false} DigitPrefixOf(digits: string, tail: string)
    requires AllDigits(digits)
    requires tail == [] || !IsDigit(tail[0])
    ensures DigitPrefix(digits + tail) == |digits|
  {
    if digits != [] {
      assert (digits + tail)[1..] == digits[1..] + tail;
      DigitPrefixOf(digits[1..], tail);
    }
  }

  /** A group "nL" is read by the designator for L and skipped by any other. */
  lemma DesignatorReads(n: nat, l: char, rest: string, letter: char)
    requires !IsDigit(l)
    ensures Designator(NatToString(n) + [l] + rest, letter)
         == if l == letter then (n, rest) else (0, NatToString(n) + [l] + rest)
  {
    var t := NatToString(n);
    var s := t + [l] + rest;
    assert s == t + ([l] + rest);
    DigitPrefixOf(t, [l] + rest);
    assert s[..|t|] == t;
    assert s[|t| + 1..] == rest;
    NatToStringValue(n);
  }

  /** The seconds read from the text after "PT". */
  function ParseAfterPT(r: string): nat {
    var (hours, afterHours) := Designator(r, 'H');
    var (minutes, afterMinutes) := Designator(afterHours, 'M');
    var (secs, _) := Designator(afterMinutes, 'S');
    hours * 3600 + minutes * 60 + secs
  }

  lemma ReadSeconds(s: Option<nat>, letter: char)
    requires letter == 'S' || letter == 'H' || letter == 'M'
    ensures Designator(Field(s, 'S'), letter) == if letter == 'S' then (s.GetOr(0), "") else (0, Field(s, 'S'))
  {
    if s.Some? {
      assert Field(s, 'S') == NatToString(s.value) + ['S'] + "";
      DesignatorReads(s.value, 'S', "", letter);
    }
  }

  lemma ReadMinutes(m: Option<nat>, s: Option<nat>, letter: char)
    requires letter == 'M' || letter == 'H'
    ensures Designator(Field(m, 'M') + Field(s, 'S'), letter)
         == if letter == 'M' then (m.GetOr(0), Field(s, 'S')) else (0, Field(m, 'M') + Field(s, 'S'))
  {
    if m.Some? {
      DesignatorReads(m.value, 'M', Field(s, 'S'), letter);
    } else {
      assert Field(m, 'M') + Field(s, 'S') == Field(s, 'S');
      ReadSeconds(s, letter);
    }
  }

  lemma ReadHours(h: Option<nat>, m: Option<nat>, s: Option<nat>)
    ensures Designator(Field(h, 'H') + Field(m, 'M') + Field(s, 'S'), 'H') == (h.GetOr(0), Field(m, 'M') + Field(s, 'S'))
  {
    var rest := Field(m, 'M') + Field(s, 'S');
    assert Field(h, 'H') + Field(m, 'M') + Field(s, 'S') == Field(h, 'H') + rest;
    if h.Some? {
      DesignatorReads(h.value, 'H', rest, 'H');
    } else {
      assert Field(h, 'H') + rest == rest;
      ReadMinutes(m, s, 'H');
    }
  }

  /** Reading back a duration written with any of the H, M and S designators. */
  lemma DurationTextValue(h: Option<nat>, m: Option<nat>, s: Option<nat>)
    ensures ParseIso8601Duration(DurationText(h, m, s)) == h.GetOr(0) * 3600 + m.GetOr(0) * 60 + s.GetOr(0)
  {
    var text := DurationText(h, m, s);
    var r := TimeFields(h, m, s);
    assert text[2..] == r;
    assert FirstPT(text, 0) == Some(0);
    ReadHours(h, m, s);
    ReadMinutes(m, s, 'M');
    ReadSeconds(s, 'S');
  }

  /** A date designator before the time part hides the "PT": "P1DT2H" reads as 0. */
  lemma DaysHidePT()
    ensures ParseIso8601Duration("P1DT2H") == 0
  {
  }

  // ---------------------------------------------------------------------------
  // Short or regular
  // ---------------------------------------------------------------------------

  function VideoTypeOf(durationSeconds: nat): (t: VideoType)
    ensures t == Short <==> durationSeconds <= 60
  {
    if durationSeconds <= 60 then Short else Regular
  }

  // ---------------------------------------------------------------------------
  // Hashtags: the global match `/#[a-z0-9_]+/gi` with the '#' dropped
  // ---------------------------------------------------------------------------

  predicate IsTagChar(c: char) {
    'a' <= c <= 'z' || 'A' <= c <= 'Z' || '0' <= c <= '9' || c == '_'
  }

  predicate IsHashtag(t: string) {
    |t| > 0 && forall i :: 0 <= i < |t| ==> IsTagChar(t[i])
  }

  /** The length of the run of tag characters at the start of `s`. */
  function TagPrefix(s: string): (k: nat)
    ensures k <= |s|
    ensures forall i :: 0 <= i < k ==> IsTagChar(s[i])
    ensures k < |s| ==> !IsTagChar(s[k])
  {
    if s == [] || !IsTagChar(s[0]) then 0 else 1 + TagPrefix(s[1..])
  }

  /**
   * The tags of a text in order of occurrence: the run of letters, digits and
   * underscores after each '#'. A '#' followed by anything else gives nothing.
   */
  function ExtractHashtags(text: string): (tags: seq<string>)
    ensures forall t :: t in tags ==> IsHashtag(t)
    ensures (forall i :: 0 <= i < |text| ==> text[i] != '#') ==> tags == []
    ensures |tags| <= |text| / 2
    decreases |text|
  {
    if text == [] then []
    else if text[0] == '#' && TagPrefix(text[1..]) > 0 then
      var k := TagPrefix(text[1..]);
      [text[1..1 + k]] + ExtractHashtags(text[1 + k..])
    else
      ExtractHashtags(text[1..])
  }

  /** Tags written out as "#tag " one after another. */
  function RenderTags(tags: seq<string>): string {
    if tags == [] then "" else "#" + tags[0] + " " + RenderTags(tags[1..])
  }

  lemma {:induction false} TagPrefixOf(t: string, tail: string)
    requires forall i :: 0 <= i < |t| ==> IsTagChar(t[i])
    requires tail == [] || !IsTagChar(tail[0])
    ensures TagPrefix(t + tail) == |t|
  {
    if t != [] {
      assert (t + tail)[1..] == t[1..] + tail;
      TagPrefixOf(t[1..], tail);
    }
  }

  /** Extraction reads back exactly the tags that were written. */
  lemma {:induction false} HashtagsRoundTrip(tags: seq<string>)
    requires forall t :: t in tags ==> IsHashtag(t)
    ensures ExtractHashtags(RenderTags(tags)) == tags
  {
    if tags != [] {
      var t, rest := tags[0], RenderTags(tags[1..]);
      assert t in tags;
      var s := "#" + t + " " + rest;
      assert s[1..] == t + (" " + rest);
      TagPrefixOf(t, " " + rest);
      assert s[1..1 + |t|] == t;
      assert s[1 + |t|..] == " " + rest;
      assert (" " + rest)[1..] == rest;
      HashtagsRoundTrip(tags[1..]);
    }
  }

  /** A '#' before a character outside [A-Za-z0-9_], such as a Hangul syllable, starts no tag. */
  lemma HashBeforeOtherChar(c: char, rest: string)
    requires !IsTagChar(c)
    ensures ExtractHashtags(['#', c] + rest) == ExtractHashtags([c] + rest)
  {
    assert (['#', c] + rest)[1..] == [c] + rest;
  }

  // ---------------------------------------------------------------------------
  // Popularity score
  // ---------------------------------------------------------------------------

  /** ((2 * likes + 5 * comments) / views) * 1000, and 0 for a video without views. */
  function PopularityScore(viewCount: nat, likeCount: nat, commentCount: nat): (score: real)
    ensures score >= 0.0
    ensures viewCount == 0 ==> score == 0.0
    ensures viewCount > 0 ==> score * viewCount as real == 1000.0 * (2 * likeCount + 5 * commentCount) as real
  {
    if viewCount > 0 then ((likeCount * 2 + commentCount * 5) as real / viewCount as real) * 1000.0 else 0.0
  }

  /** More likes or comments on the same views never lower the score. */
  lemma PopularityMonotone(views: nat, likes1: nat, comments1: nat, likes2: nat, comments2: nat)
    requires likes1 <= likes2 && comments1 <= comments2
    ensures PopularityScore(views, likes1, comments1) <= PopularityScore(views, likes2, comments2)
  {
    if views > 0 {
      var a := (likes1 * 2 + comments1 * 5) as real;
      var b := (likes2 * 2 + comments2 * 5) as real;
      var v := views as real;
      assert a <= b;
      assert a / v <= b / v;
    }
  }

  // ---------------------------------------------------------------------------
  // One video record from one API item
  // ---------------------------------------------------------------------------

  /** The fields of one `videos` API item the service reads; absent counts are None. */
  datatype RawVideoItem = RawVideoItem(
    id: string,
    title: string,
    description: string,
    publishedAt: Timestamp,
    mediumThumbnail: Option<string>,
    defaultThumbnail: Option<string>,
    tags: Option<seq<string>>,
    viewCount: Option<nat>,
    likeCount: Option<nat>,
    commentCount: Option<nat>,
    duration: string,
    channelId: string,
    channelTitle: string)

  function AnalyzeItem(item: RawVideoItem): (v: AnalyzedVideo)
    ensures v.viewCount == item.viewCount.GetOr(0)
    ensures v.likeCount == item.likeCount.GetOr(0)
    ensures v.commentCount == item.commentCount.GetOr(0)
    ensures v.popularityScore >= 0.0
    ensures v.viewCount == 0 ==> v.popularityScore == 0.0
    ensures v.duration == ParseIso8601Duration(item.duration)
    ensures v.videoType == Short <==> v.duration <= 60
    ensures v.popularityScore == PopularityScore(v.viewCount, v.likeCount, v.commentCount)
    ensures v.hashtags == ExtractHashtags(item.description)
    ensures forall t :: t in v.hashtags ==> IsHashtag(t)
    ensures v.id == item.id && v.title == item.title && v.description == item.description
    ensures v.channelId == item.channelId && v.channelTitle == item.channelTitle
    ensures v.publishedAt == item.publishedAt && v.tags == item.tags.GetOr([])
    ensures item.mediumThumbnail.Some? && item.mediumThumbnail.value != "" ==> v.thumbnailUrl == item.mediumThumbnail.value
    ensures (item.mediumThumbnail.None? || item.mediumThumbnail.value == "") ==> v.thumbnailUrl == item.defaultThumbnail.GetOr("")
    ensures v.country == "KR"
  {
    var views := item.viewCount.GetOr(0);
    var likes := item.likeCount.GetOr(0);
    var comments := item.commentCount.GetOr(0);
    var duration := ParseIso8601Duration(item.duration);
    AnalyzedVideo(
      id := item.id,
      title := item.title,
      description := item.description,
      publishedAt := item.publishedAt,
      thumbnailUrl := if item.mediumThumbnail.Some? && item.mediumThumbnail.value != ""
                      then item.mediumThumbnail.value else item.defaultThumbnail.GetOr(""),
      tags := item.tags.GetOr([]),
      hashtags := ExtractHashtags(item.description),
      viewCount := views,
      likeCount := likes,
      commentCount := comments,
      popularityScore := PopularityScore(views, likes, comments),
      duration := duration,
      videoType := VideoTypeOf(duration),
      channelId := item.channelId,
      channelTitle := item.channelTitle,
      country := "KR")
  }

  // ---------------------------------------------------------------------------
  // Request batches of at most 50 ids
  // ---------------------------------------------------------------------------

  const BatchSize: nat := 50

  function Flatten(chunks: seq<seq<string>>): seq<string> {
    if chunks == [] then [] else chunks[0] + Flatten(chunks[1..])
  }

  lemma {:induction false} FlattenAppend(chunks: seq<seq<string>>, c: seq<string>)
    ensures Flatten(chunks + [c]) == Flatten(chunks) + c
  {
    if chunks != [] {
      assert (chunks + [c])[1..] == chunks[1..] + [c];
      FlattenAppend(chunks[1..], c);
    }
  }

  /**
   * The batches one request each is made for: nothing for no ids; otherwise
   * consecutive slices of 50 ids, the last one possibly shorter.
   */
  method ChunkIds(ids: seq<string>) returns (chunks: seq<seq<string>>)
    ensures Flatten(chunks) == ids
    ensures forall c :: c in chunks ==> 0 < |c| <= BatchSize
    ensures forall j :: 0 <= j < |chunks| - 1 ==> |chunks[j]| == BatchSize
    ensures chunks == [] <==> ids == []
    ensures |chunks| == (|ids| + BatchSize - 1) / BatchSize
  {
    chunks := [];
    var i := 0;
    while i < |ids|
      invariant i == BatchSize * |chunks|
      invariant i < |ids| + BatchSize
      invariant i <= |ids| ==> Flatten(chunks) == ids[..i]
      invariant i > |ids| ==> Flatten(chunks) == ids
      invariant forall c :: c in chunks ==> 0 < |c| <= BatchSize
      invariant forall j :: 0 <= j < |chunks| - 1 ==> |chunks[j]| == BatchSize
      invariant chunks != [] ==> (i <= |ids| ==> |chunks[|chunks| - 1]| == BatchSize)
    {
      var end := if i + BatchSize <= |ids| then i + BatchSize else |ids|;
      FlattenAppend(chunks, ids[i..end]);
      assert ids[..i] + ids[i..end] == ids[..end];
      chunks := chunks + [ids[i..end]];
      i := i + BatchSize;
    }
  }

  // ---------------------------------------------------------------------------
  // Channel battle
  // ---------------------------------------------------------------------------

  /**
   * min(round((views / 100000 + subscribers / 1000) / 2), 1000), with
   * `Math.round` rounding halves up.
   */
  function PowerScore(viewCount: nat, subscriberCount: nat): (score: nat)
    ensures score <= 1000
    ensures var x := (viewCount as real / 100000.0 + subscriberCount as real / 1000.0) / 2.0;
            if score < 1000 then score as real - 0.5 <= x < score as real + 0.5 else x >= 999.5
  {
    var n := viewCount + 100 * subscriberCount + 100000;
    var rounded := n / 200000;
    RoundedBounds(viewCount, subscriberCount, rounded);
    if rounded < 1000 then rounded else 1000
  }

  lemma RoundedBounds(viewCount: nat, subscriberCount: nat, rounded: nat)
    requires rounded == (viewCount + 100 * subscriberCount + 100000) / 200000
    ensures var x := (viewCount as real / 100000.0 + subscriberCount as real / 1000.0) / 2.0;
            rounded as real - 0.5 <= x < rounded as real + 0.5
  {
    var n := viewCount + 100 * subscriberCount;
    assert 200000 * rounded <= n + 100000 < 200000 * rounded + 200000;
    var x := (viewCount as real / 100000.0 + subscriberCount as real / 1000.0) / 2.0;
    assert x == n as real / 200000.0;
  }

  /** The score never decreases when views or subscribers grow. */
  lemma PowerScoreMonotone(v1: nat, s1: nat, v2: nat, s2: nat)
    requires v1 <= v2 && s1 <= s2
    ensures PowerScore(v1, s1) <= PowerScore(v2, s2)
  {
    var n1 := v1 + 100 * s1 + 100000;
    var n2 := v2 + 100 * s2 + 100000;
    assert n1 / 200000 <= n2 / 200000;
  }

  datatype Winner = A | B | Tie

  function BattleWinner(scoreA: int, scoreB: int): (w: Winner)
    ensures w == A <==> scoreA > scoreB
    ensures w == B <==> scoreA < scoreB
    ensures w == Tie <==> scoreA == scoreB
  {
    if scoreA > scoreB then A else if scoreA < scoreB then B else Tie
  }

  function Mirror(w: Winner): Winner {
    match w
    case A => B
    case B => A
    case Tie => Tie
  }

  /** Swapping the two channels swaps the verdict. */
  lemma WinnerSwap(scoreA: int, scoreB: int)
    ensures BattleWinner(scoreB, scoreA) == Mirror(BattleWinner(scoreA, scoreB))
  {
  }

  datatype BattleStats = BattleStats(
    subscribers: nat,
    totalViews: nat,
    avgViews: Option<nat>,
    engagementRate: int,
    uploadFrequency: int,
    videoCount: nat,
    powerScore: nat)

  /**
   * The statistics shown for one side of the battle. `avgViews` is
   * round(views / videos); None stands for the Infinity or NaN a channel
   * without videos produces.
   */
  function StatsFor(c: YouTubeChannel): (s: BattleStats)
    ensures s.powerScore == PowerScore(c.viewCount, c.subscriberCount)
    ensures s.avgViews.None? <==> c.videoCount == 0
    ensures s.avgViews.Some? ==>
              2 * s.avgViews.value * c.videoCount <= 2 * c.viewCount + c.videoCount < 2 * (s.avgViews.value + 1) * c.videoCount
  {
    BattleStats(
      subscribers := c.subscriberCount,
      totalViews := c.viewCount,
      avgViews := if c.videoCount == 0 then None else Some((2 * c.viewCount + c.videoCount) / (2 * c.videoCount)),
      engagementRate := 0,
      uploadFrequency := 0,
      videoCount := c.videoCount,
      powerScore := PowerScore(c.viewCount, c.subscriberCount))
  }

  datatype BattleResult = BattleResult(channelA: YouTubeChannel, channelB: YouTubeChannel, statsA: BattleStats, statsB: BattleStats, winner: Winner)

  /** The verdict of a battle between two fetched channels. */
  function CompareChannels(a: YouTubeChannel, b: YouTubeChannel): (r: BattleResult)
    ensures r.winner == A <==> PowerScore(a.viewCount, a.subscriberCount) > PowerScore(b.viewCount, b.subscriberCount)
    ensures r.winner == B <==> PowerScore(a.viewCount, a.subscriberCount) < PowerScore(b.viewCount, b.subscriberCount)
    ensures r.winner == Tie <==> PowerScore(a.viewCount, a.subscriberCount) == PowerScore(b.viewCount, b.subscriberCount)
  {
    var sa := StatsFor(a);
    var sb := StatsFor(b);
    BattleResult(a, b, sa, sb, BattleWinner(sa.powerScore, sb.powerScore))
  }
}

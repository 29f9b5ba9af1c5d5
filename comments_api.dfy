/**
 * The comment-analysis endpoint on the server: the PRO-membership check on
 * the profile row and the request handler's chain of guards
 * (405 / 400 / 403 / 400 / 200, and 500 for anything thrown). The database,
 * YouTube and AI calls are parameters: what they answer is given, and the
 * model fixes what the handler asks them and what it does with the answer.
 */
module CommentsApi {
  import opened Wrappers
  import opened Types

  // ---------------------------------------------------------------------------
  // isProUser
  // ---------------------------------------------------------------------------

  /** `pro_expire_at`: absent or empty, a date, or text that is not a date. */
  datatype Expiry = NoExpiry | ExpiresAt(time: Timestamp) | InvalidDate

  /**
   * The decoded profile JSON: null, an array (the single-row request can
   * still come back as one), or the row itself. `isProTrue` is whether
   * `is_pro` is the boolean true.
   */
  datatype ProfileData = NullData | ArrayData(length: nat) | Row(isProTrue: bool, expiry: Expiry)

  /** The database answer: a non-2xx status, or a body. */
  datatype ProfileResponse = NotOk | Ok(data: ProfileData)

  /** Whether the expiry has not passed at `now`: no expiry, or a valid date after now. */
  predicate NotExpired(e: Expiry, now: Timestamp) {
    e.NoExpiry? || (e.ExpiresAt? && e.time > now)
  }

  /**
   * `isProUser`. An array body has no `is_pro` property, so it never counts,
   * and a date that does not parse never lies in the future.
   */
  function IsProUser(response: ProfileResponse, now: Timestamp): (active: bool)
    ensures response.NotOk? ==> !active
    ensures response.Ok? && (response.data.NullData? || response.data.ArrayData?) ==> !active
    ensures active <==> response.Ok? && response.data.Row? && response.data.isProTrue
                        && NotExpired(response.data.expiry, now)
  {
    match response
    case NotOk => false
    case Ok(data) =>
      match data
      case NullData => false
      // An empty array fails the length check; a non-empty one has no `is_pro`.
      case ArrayData(_) => false
      case Row(isProTrue, expiry) =>
        var stillValid := match expiry
          case NoExpiry => true
          case ExpiresAt(t) => t > now
          case InvalidDate => false;
        isProTrue && stillValid
  }

  /** Membership only lapses: a profile that is PRO now was PRO at every earlier time. */
  lemma ProOnlyLapses(response: ProfileResponse, earlier: Timestamp, later: Timestamp)
    requires earlier <= later && IsProUser(response, later)
    ensures IsProUser(response, earlier)
  {
  }

  /** A dated membership is PRO exactly up to (not including) its expiry time. */
  lemma ProUntilExpiry(t: Timestamp, now: Timestamp)
    ensures IsProUser(Ok(Row(true, ExpiresAt(t))), now) <==> now < t
    ensures IsProUser(Ok(Row(true, NoExpiry)), now)
    ensures !IsProUser(Ok(Row(true, InvalidDate)), now)
  {
  }

  // ---------------------------------------------------------------------------
  // Video id extraction
  // ---------------------------------------------------------------------------

  predicate PairAt(s: string, i: nat) {
    i + 1 < |s| && s[i] == 'v' && s[i + 1] == '='
  }

  predicate NoPair(s: string) {
    forall i :: 0 <= i < |s| ==> !PairAt(s, i)
  }

  /** The index of the first "v=" in `s`. */
  function FindPair(s: string): (r: Option<nat>)
    ensures r.None? ==> NoPair(s)
    ensures r.Some? ==> PairAt(s, r.value) && forall i :: 0 <= i < r.value ==> !PairAt(s, i)
  {
    if |s| < 2 then None
    else if s[0] == 'v' && s[1] == '=' then Some(0)
    else
      match FindPair(s[1..])
      case None =>
        assert forall i :: 1 <= i < |s| ==> (PairAt(s, i) <==> PairAt(s[1..], i - 1));
        None
      case Some(k) =>
        assert forall i :: 1 <= i <= k ==> (PairAt(s, i) <==> PairAt(s[1..], i - 1));
        Some(k + 1)
  }

  /** The text before the first "v=", or all of `s` when there is none: a field of `split("v=")`. */
  function BeforePair(s: string): (r: string)
    ensures r <= s && NoPair(r)
    ensures forall k :: 0 <= k < |r| ==> !PairAt(s, k)
    ensures |r| < |s| ==> PairAt(s, |r|)
  {
    match FindPair(s)
    case None => s
    case Some(i) =>
      assert forall j :: 0 <= j < |s[..i]| ==> (PairAt(s[..i], j) ==> PairAt(s, j));
      s[..i]
  }

  /** The text before the first `c`, or all of `s`: the first field of `split(c)`. */
  function BeforeChar(s: string, c: char): (r: string)
    ensures r <= s && c !in r
    ensures |r| < |s| ==> s[|r|] == c
  {
    if s == [] || s[0] == c then [] else [s[0]] + BeforeChar(s[1..], c)
  }

  /**
   * `j` is the first position from `from` on that is the end of `url`, an
   * "&" or the start of a "v=".
   */
  predicate FirstStop(url: string, from: nat, j: nat) {
    && from <= j <= |url|
    && (j == |url| || url[j] == '&' || PairAt(url, j))
    && forall k :: from <= k < j ==> url[k] != '&' && !PairAt(url, k)
  }

  lemma FirstStopUnique(url: string, from: nat, a: nat, b: nat)
    requires FirstStop(url, from, a) && FirstStop(url, from, b)
    ensures a == b
  {
  }

  /**
   * `videoUrl.split("v=")[1]?.split("&")[0]`, with an empty result treated as
   * missing: the text after the first "v=", up to the next "&", the next
   * "v=" or the end, whichever comes first. The last ensures says that the
   * id (empty when there is none) runs exactly to that first stop.
   */
  function ExtractVideoId(url: string): (id: Option<string>)
    ensures FindPair(url).None? ==> id.None?
    ensures id.Some? ==> id.value != [] && '&' !in id.value && NoPair(id.value)
    ensures id.Some? ==> var i := FindPair(url).value; id.value <= url[i + 2..]
    ensures FindPair(url).Some? ==>
              FirstStop(url, FindPair(url).value + 2, FindPair(url).value + 2 + (if id.Some? then |id.value| else 0))
  {
    match FindPair(url)
    case None => None
    case Some(i) =>
      var rest := url[i + 2..];
      var field := BeforePair(rest);
      var videoId := BeforeChar(field, '&');
      assert forall j :: 0 <= j < |videoId| ==> (PairAt(videoId, j) ==> PairAt(field, j));
      assert forall k :: i + 2 <= k < |url| ==> (PairAt(url, k) <==> PairAt(rest, k - (i + 2)));
      assert forall k :: i + 2 <= k < i + 2 + |videoId| ==> url[k] == videoId[k - (i + 2)];
      if videoId == [] then None else Some(videoId)
  }

  /** The stop that the last ensures of `ExtractVideoId` describes determines the id. */
  lemma ExtractVideoIdUnique(url: string, i: nat, id: string)
    requires FindPair(url) == Some(i)
    requires id != [] && i + 2 + |id| <= |url| && url[i + 2..i + 2 + |id|] == id
    requires FirstStop(url, i + 2, i + 2 + |id|)
    ensures ExtractVideoId(url) == Some(id)
  {
    IdFromStop(url, i + 2, id, ExtractVideoId(url));
  }

  /** Any candidate that stops where `id` stops, and is a prefix of the same text, is `id`. */
  lemma IdFromStop(url: string, from: nat, id: string, r: Option<string>)
    requires from + |id| <= |url| && url[from..from + |id|] == id && id != []
    requires FirstStop(url, from, from + |id|)
    requires r.Some? ==> r.value <= url[from..]
    requires FirstStop(url, from, from + (if r.Some? then |r.value| else 0))
    ensures r == Some(id)
  {
    FirstStopUnique(url, from, from + |id|, from + (if r.Some? then |r.value| else 0));
    assert r.value == url[from..][..|id|];
    assert url[from..][..|id|] == url[from..from + |id|];
  }

  /** The first "v=" of `prefix + tail` ends the prefix when the prefix has none and `tail` starts with one. */
  lemma FirstPairAfter(prefix: string, tail: string)
    requires NoPair(prefix) && |tail| >= 2 && tail[0] == 'v' && tail[1] == '='
    ensures FindPair(prefix + tail) == Some(|prefix|)
  {
    var url := prefix + tail;
    var n := |prefix|;
    assert PairAt(url, n);
    forall i | 0 <= i < n ensures !PairAt(url, i) {
      if i + 1 < n {
        assert !PairAt(prefix, i);
      }
    }
  }

  /** The common watch URL with the id at the very end: `prefix + "v=" + id` gives that id. */
  lemma ExtractIdAtEnd(prefix: string, id: string)
    requires NoPair(prefix) && id != [] && '&' !in id && NoPair(id)
    ensures ExtractVideoId(prefix + "v=" + id) == Some(id)
  {
    var url := prefix + "v=" + id;
    var n := |prefix|;
    FirstPairAfter(prefix, "v=" + id);
    assert url == prefix + ("v=" + id);
    forall k | n + 2 <= k < n + 2 + |id| ensures url[k] != '&' && !PairAt(url, k) {
      assert url[k] == id[k - (n + 2)];
      if k + 1 < n + 2 + |id| {
        assert url[k + 1] == id[k + 1 - (n + 2)];
        assert !PairAt(id, k - (n + 2));
      }
    }
    assert url[n + 2..] == id;
    ExtractVideoIdUnique(url, n, id);
  }

  /** A second "v=" also ends the id: `prefix + "v=" + id + "v=" + rest` gives `id`. */
  lemma ExtractIdBeforeSecondPair(prefix: string, id: string, rest: string)
    requires NoPair(prefix) && id != [] && '&' !in id && NoPair(id)
    ensures ExtractVideoId(prefix + "v=" + id + "v=" + rest) == Some(id)
  {
    var url := prefix + "v=" + id + "v=" + rest;
    var n := |prefix|;
    var j := n + 2 + |id|;
    FirstPairAfter(prefix, "v=" + id + "v=" + rest);
    assert url == prefix + ("v=" + id + "v=" + rest);
    assert url[j] == 'v' && url[j + 1] == '=';
    forall k | n + 2 <= k < j ensures url[k] != '&' && !PairAt(url, k) {
      assert url[k] == id[k - (n + 2)];
      if k + 1 < j {
        assert url[k + 1] == id[k + 1 - (n + 2)];
        assert !PairAt(id, k - (n + 2));
      }
    }
    assert url[n + 2..j] == id;
    ExtractVideoIdUnique(url, n, id);
  }

  lemma NoPairPrefix(s: string, t: string)
    requires t <= s && NoPair(s)
    ensures NoPair(t)
  {
    assert forall j :: 0 <= j < |t| ==> (PairAt(t, j) ==> PairAt(s, j));
  }

  /**
   * A watch URL whose query starts with the id reads it back: for any
   * prefix without "v=", a non-empty id without "&" or "v=", and any rest,
   * `prefix + "v=" + id + "&" + rest` gives that id.
   */
  lemma ExtractWatchUrl(prefix: string, id: string, rest: string)
    requires NoPair(prefix) && id != [] && '&' !in id && NoPair(id)
    ensures ExtractVideoId(prefix + "v=" + id + "&" + rest) == Some(id)
  {
    var url := prefix + "v=" + id + "&" + rest;
    var n := |prefix|;
    assert PairAt(url, n);
    forall i | 0 <= i < n ensures !PairAt(url, i) {
      if i + 1 < n {
        assert !PairAt(prefix, i);
      }
    }
    assert FindPair(url) == Some(n);
    var after := url[n + 2..];
    assert after == id + "&" + rest;
    var field := BeforePair(after);
    assert after[..|id|] == id;
    assert after[|id|] == '&';
    NoPairBeforeAmpersand(after, id);
    assert field[..|id|] == id && field[|id|] == '&';
    BeforeCharStops(field, id, '&');
  }

  /** No "v=" starts inside `id` or at the "&" after it. */
  lemma NoPairBeforeAmpersand(s: string, id: string)
    requires |id| < |s| && s[..|id|] == id && s[|id|] == '&' && NoPair(id)
    ensures forall k :: 0 <= k <= |id| ==> !PairAt(s, k)
  {
    forall k | 0 <= k <= |id| ensures !PairAt(s, k) {
      if k + 1 < |id| {
        assert s[k] == id[k] && s[k + 1] == id[k + 1];
        assert !PairAt(id, k);
      }
    }
  }

  lemma {:induction false} BeforeCharStops(s: string, t: string, c: char)
    requires |t| < |s| && s[..|t|] == t && s[|t|] == c && c !in t
    ensures BeforeChar(s, c) == t
  {
    if t != [] {
      assert s[1..][..|t| - 1] == t[1..];
      BeforeCharStops(s[1..], t[1..], c);
    }
  }

  /** A URL without "v=", or with nothing between "v=" and the next "&", has no id. */
  lemma NoIdCases(prefix: string, rest: string)
    requires NoPair(prefix)
    ensures ExtractVideoId(prefix) == None
    ensures ExtractVideoId(prefix + "v=&" + rest) == None
  {
    var url := prefix + "v=&" + rest;
    var n := |prefix|;
    forall i | 0 <= i < n ensures !PairAt(url, i) {
      if i + 1 < n {
        assert !PairAt(prefix, i);
      }
    }
    assert PairAt(url, n);
    assert FindPair(url) == Some(n);
    assert url[n + 2..][0] == '&';
  }

  // ---------------------------------------------------------------------------
  // The handler
  // ---------------------------------------------------------------------------

  /** A body field that JavaScript treats as true: present and not empty. */
  predicate Truthy(f: Option<string>) {
    f.Some? && f.value != ""
  }

  /** `req.json()`: a body that does not parse (which throws), or its two fields. */
  datatype Body = Unparsable | Fields(videoUrl: Option<string>, userId: Option<string>)

  datatype Request = Request(httpMethod: string, body: Body)

  /** What a call to another service gave back, or that it threw. */
  datatype Fetch<T> = Threw | Answered(value: T)

  datatype ResponseBody = ErrorBody(error: string) | SuccessBody(analysis: string)

  datatype Response = Response(status: nat, body: ResponseBody)

  const MethodNotAllowed := "Method Not Allowed"
  const MissingFields := "videoUrl, userId가 필요합니다."
  const ProOnly := "PRO 사용자만 이용할 수 있습니다."
  const BadUrl := "잘못된 YouTube URL 형식입니다."
  const InternalError := "Internal Server Error"
  const AnalysisFailed := "분석 실패"

  /** `analyzeSentiment`'s result: the model's text, or "분석 실패" when it is missing or empty. */
  function AnalysisText(text: Option<string>): (r: string)
    ensures r != ""
    ensures text.Some? && text.value != "" ==> r == text.value
  {
    if text.Some? && text.value != "" then text.value else AnalysisFailed
  }

  function ServerError(): Response {
    Response(500, ErrorBody(InternalError))
  }

  /**
   * The handler. `profileOf(userId)` is the database answer for the user and
   * `sentimentOf(videoId)` the text the AI returns for the video's comments
   * (or that one of the two fetches behind it threw).
   */
  function Handle(req: Request, now: Timestamp,
                  profileOf: string -> Fetch<ProfileResponse>,
                  sentimentOf: string -> Fetch<Option<string>>): (resp: Response)
    ensures req.httpMethod != "POST" ==> resp == Response(405, ErrorBody(MethodNotAllowed))
    ensures req.httpMethod == "POST" && req.body.Unparsable? ==> resp == ServerError()
    ensures resp.status in {200, 400, 403, 405, 500}
    ensures resp.status == 200 <==> resp.body.SuccessBody?
  {
    if req.httpMethod != "POST" then Response(405, ErrorBody(MethodNotAllowed))
    else
      match req.body
      case Unparsable => ServerError()
      case Fields(videoUrl, userId) =>
        if !Truthy(videoUrl) || !Truthy(userId) then Response(400, ErrorBody(MissingFields))
        else
          match profileOf(userId.value)
          case Threw => ServerError()
          case Answered(profile) =>
            if !IsProUser(profile, now) then Response(403, ErrorBody(ProOnly))
            else
              match ExtractVideoId(videoUrl.value)
              case None => Response(400, ErrorBody(BadUrl))
              case Some(videoId) =>
                match sentimentOf(videoId)
                case Threw => ServerError()
                case Answered(text) => Response(200, SuccessBody(AnalysisText(text)))
  }

  /** Missing or empty fields are refused before the database is asked. */
  lemma MissingFieldsRefused(req: Request, now: Timestamp,
                             profileOf: string -> Fetch<ProfileResponse>,
                             sentimentOf: string -> Fetch<Option<string>>)
    requires req.httpMethod == "POST" && req.body.Fields?
    requires !Truthy(req.body.videoUrl) || !Truthy(req.body.userId)
    ensures Handle(req, now, profileOf, sentimentOf) == Response(400, ErrorBody(MissingFields))
  {
  }

  /**
   * A fetch that throws ends in 500: the database lookup for the user, or,
   * for a PRO user whose URL gives an id, the comment or AI fetch for it.
   */
  lemma FetchThrowsGives500(videoUrl: string, userId: string, now: Timestamp,
                            profileOf: string -> Fetch<ProfileResponse>,
                            sentimentOf: string -> Fetch<Option<string>>)
    requires videoUrl != "" && userId != ""
    ensures profileOf(userId).Threw? ==>
              Handle(Request("POST", Fields(Some(videoUrl), Some(userId))), now, profileOf, sentimentOf) == ServerError()
    ensures && profileOf(userId).Answered? && IsProUser(profileOf(userId).value, now)
            && ExtractVideoId(videoUrl).Some? && sentimentOf(ExtractVideoId(videoUrl).value).Threw? ==>
              Handle(Request("POST", Fields(Some(videoUrl), Some(userId))), now, profileOf, sentimentOf) == ServerError()
  {
  }

  /** A PRO user whose URL yields no video id gets 400 with the URL message. */
  lemma BadUrlRefused(videoUrl: string, userId: string, now: Timestamp,
                      profileOf: string -> Fetch<ProfileResponse>,
                      sentimentOf: string -> Fetch<Option<string>>)
    requires videoUrl != "" && userId != ""
    requires profileOf(userId).Answered? && IsProUser(profileOf(userId).value, now)
    requires ExtractVideoId(videoUrl).None?
    ensures Handle(Request("POST", Fields(Some(videoUrl), Some(userId))), now, profileOf, sentimentOf)
            == Response(400, ErrorBody(BadUrl))
  {
  }

  /**
   * A user who is not PRO gets 403 whatever the URL is, even one with no
   * video id: the membership check comes before the URL is looked at.
   */
  lemma ProCheckPrecedesUrl(videoUrl: string, userId: string, now: Timestamp, profile: ProfileResponse,
                            profileOf: string -> Fetch<ProfileResponse>,
                            sentimentOf: string -> Fetch<Option<string>>)
    requires videoUrl != "" && userId != ""
    requires profileOf(userId) == Answered(profile) && !IsProUser(profile, now)
    ensures Handle(Request("POST", Fields(Some(videoUrl), Some(userId))), now, profileOf, sentimentOf)
            == Response(403, ErrorBody(ProOnly))
  {
  }

  /**
   * Success, exactly: a POST with both fields, a PRO profile for that user,
   * an id in the URL and an answer for that id; the body then carries that
   * answer's text.
   */
  lemma SuccessIff(req: Request, now: Timestamp,
                   profileOf: string -> Fetch<ProfileResponse>,
                   sentimentOf: string -> Fetch<Option<string>>)
    ensures var resp := Handle(req, now, profileOf, sentimentOf);
            resp.status == 200 <==>
              && req.httpMethod == "POST" && req.body.Fields?
              && Truthy(req.body.videoUrl) && Truthy(req.body.userId)
              && profileOf(req.body.userId.value).Answered?
              && IsProUser(profileOf(req.body.userId.value).value, now)
              && ExtractVideoId(req.body.videoUrl.value).Some?
              && sentimentOf(ExtractVideoId(req.body.videoUrl.value).value).Answered?
    ensures var resp := Handle(req, now, profileOf, sentimentOf);
            resp.status == 200 ==>
              resp.body.analysis == AnalysisText(sentimentOf(ExtractVideoId(req.body.videoUrl.value).value).value)
  {
  }

  /** The analysis a PRO user gets for a watch URL is the one for the id in it. */
  lemma WatchUrlAnalysed(prefix: string, id: string, rest: string, userId: string, now: Timestamp,
                         profileOf: string -> Fetch<ProfileResponse>,
                         sentimentOf: string -> Fetch<Option<string>>)
    requires NoPair(prefix) && id != [] && '&' !in id && NoPair(id) && userId != ""
    requires profileOf(userId).Answered? && IsProUser(profileOf(userId).value, now)
    requires sentimentOf(id).Answered?
    ensures Handle(Request("POST", Fields(Some(prefix + "v=" + id + "&" + rest), Some(userId))), now, profileOf, sentimentOf)
            == Response(200, SuccessBody(AnalysisText(sentimentOf(id).value)))
  {
    var url := prefix + "v=" + id + "&" + rest;
    ExtractWatchUrl(prefix, id, rest);
    assert url != "" by {
      assert |url| > |prefix|;
    }
  }
}

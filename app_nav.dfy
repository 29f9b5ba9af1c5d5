/**
 * The top-level App component: which view is shown, the login gate in front
 * of every non-public view, and the channel-analysis and AI-report state that
 * its handlers set step by step. The network and AI calls are replaced by
 * their outcomes, passed in as parameters.
 */
module AppNav {
  import opened Wrappers
  import opened Types
  import opened Views
  import ChannelStats

  // ---------------------------------------------------------------------------
  // Navigation
  // ---------------------------------------------------------------------------

  datatype NavState = NavState(activeView: View, targetKeyword: string, isLoginModalOpen: bool, isApiKeyModalOpen: bool)

  const InitialNav := NavState(Home, "", false, false)

  /** The gate shared by the view change, the redirect effect and the renderer. */
  predicate MayShow(user: Option<User>, v: View) {
    user.Some? || IsPublic(v)
  }

  /** `handleViewChange`. */
  function ViewChange(s: NavState, user: Option<User>, view: View): (t: NavState)
    ensures MayShow(user, view) ==> t.activeView == view && t.targetKeyword == ""
    ensures !MayShow(user, view) ==> t.activeView == s.activeView && t.targetKeyword == s.targetKeyword
    ensures t.isLoginModalOpen <==> s.isLoginModalOpen || !MayShow(user, view)
    ensures t.isApiKeyModalOpen == s.isApiKeyModalOpen
  {
    if user.None? && !IsPublic(view) then s.(isLoginModalOpen := true)
    else s.(activeView := view, targetKeyword := "")
  }

  datatype DataTarget = ToChannel | ToKeywordAnalysis

  /** A navigation result together with the channel search it starts, if any. */
  datatype NavEffect = NavEffect(nav: NavState, search: Option<string>)

  /** `handleNavigateWithData`. */
  function NavigateWithData(s: NavState, user: Option<User>, target: DataTarget, data: string): (e: NavEffect)
    ensures user.None? ==> e == NavEffect(s.(isLoginModalOpen := true), None)
    ensures user.Some? && target == ToChannel ==> e.nav == s.(activeView := Channel) && e.search == Some(data)
    ensures user.Some? && target == ToKeywordAnalysis
            ==> e.nav == s.(activeView := KeywordAnalysis, targetKeyword := data) && e.search == None
  {
    if user.None? then NavEffect(s.(isLoginModalOpen := true), None)
    else match target
      case ToChannel => NavEffect(s.(activeView := Channel), Some(data))
      case ToKeywordAnalysis => NavEffect(s.(targetKeyword := data, activeView := KeywordAnalysis), None)
  }

  /** `triggerChannelAnalysis`. */
  function TriggerChannelAnalysis(s: NavState, user: Option<User>, channelId: string): (e: NavEffect)
    ensures user.None? ==> e == NavEffect(s.(isLoginModalOpen := true), None)
    ensures user.Some? ==> e == NavEffect(s.(activeView := Channel), Some(channelId))
  {
    if user.None? then NavEffect(s.(isLoginModalOpen := true), None)
    else NavEffect(s.(activeView := Channel), Some(channelId))
  }

  /** `openApiKeyModal`. */
  function OpenApiKeyModal(s: NavState, user: Option<User>): (t: NavState)
    ensures t.activeView == s.activeView && t.targetKeyword == s.targetKeyword
    ensures user.None? ==> t.isLoginModalOpen && t.isApiKeyModalOpen == s.isApiKeyModalOpen
    ensures user.Some? ==> t.isApiKeyModalOpen && t.isLoginModalOpen == s.isLoginModalOpen
  {
    if user.None? then s.(isLoginModalOpen := true) else s.(isApiKeyModalOpen := true)
  }

  /** The effect that runs whenever `user` or `activeView` changes. */
  function RedirectEffect(s: NavState, user: Option<User>): (t: NavState)
    ensures MayShow(user, t.activeView)
    ensures MayShow(user, s.activeView) ==> t == s
    ensures !MayShow(user, s.activeView) ==> t == s.(activeView := Home)
  {
    if user.None? && !IsPublic(s.activeView) then s.(activeView := Home) else s
  }

  datatype MainContent = LoginPrompt | ShowView(view: View)

  /** The gate at the top of `renderMainContent`; every view then has its own case. */
  function RenderMainContent(user: Option<User>, activeView: View): (c: MainContent)
    ensures c == LoginPrompt <==> !MayShow(user, activeView)
    ensures c.ShowView? ==> c.view == activeView
  {
    if user.None? && !IsPublic(activeView) then LoginPrompt else ShowView(activeView)
  }

  /** The navigation handlers, for reasoning about any sequence of them. */
  datatype NavOp = ChangeView(view: View) | NavigateWith(target: DataTarget, data: string)
                 | TriggerAnalysis(channelId: string) | OpenApiKey

  function NavStep(s: NavState, user: Option<User>, op: NavOp): NavState {
    match op
    case ChangeView(view) => ViewChange(s, user, view)
    case NavigateWith(target, data) => NavigateWithData(s, user, target, data).nav
    case TriggerAnalysis(channelId) => TriggerChannelAnalysis(s, user, channelId).nav
    case OpenApiKey => OpenApiKeyModal(s, user)
  }

  function NavRun(s: NavState, user: Option<User>, ops: seq<NavOp>): NavState
    decreases |ops|
  {
    if ops == [] then s else NavRun(NavStep(s, user, ops[0]), user, ops[1..])
  }

  lemma NavStepKeepsShowable(s: NavState, user: Option<User>, op: NavOp)
    requires MayShow(user, s.activeView)
    ensures MayShow(user, NavStep(s, user, op).activeView)
  {
  }

  /** No sequence of handlers takes a guest off the public views, or a user anywhere the gate would hide. */
  lemma {:induction false} NavRunKeepsShowable(s: NavState, user: Option<User>, ops: seq<NavOp>)
    requires MayShow(user, s.activeView)
    ensures MayShow(user, NavRun(s, user, ops).activeView)
    ensures RenderMainContent(user, NavRun(s, user, ops).activeView) == ShowView(NavRun(s, user, ops).activeView)
    decreases |ops|
  {
    if ops != [] {
      NavStepKeepsShowable(s, user, ops[0]);
      NavRunKeepsShowable(NavStep(s, user, ops[0]), user, ops[1..]);
    }
  }

  /** After a logout the effect brings a guest back to a public view, so the login prompt is not left on screen. */
  lemma LogoutReturnsHome(s: NavState)
    ensures IsPublic(RedirectEffect(s, None).activeView)
    ensures RenderMainContent(None, RedirectEffect(s, None).activeView) != LoginPrompt
    ensures !IsPublic(s.activeView) ==> RedirectEffect(s, None).activeView == Home
  {
  }

  /** The App itself never checks `isAdmin`: any logged-in user can open the admin view. */
  lemma AnyUserOpensAdmin(s: NavState, u: User)
    ensures ViewChange(s, Some(u), Admin).activeView == Admin
    ensures RenderMainContent(Some(u), Admin) == ShowView(Admin)
  {
  }

  // ---------------------------------------------------------------------------
  // Channel analysis and AI reports
  // ---------------------------------------------------------------------------

  /** An AI report is opaque here; its content comes from the model service. */
  type Report = string

  datatype AiKind = Strategy | Growth | Consulting

  /** The state of the channel search. */
  datatype SearchState = SearchState(
    channelQuery: string,
    isChannelLoading: bool,
    analyzedVideos: seq<AnalyzedVideo>,
    channelInfo: Option<YouTubeChannel>,
    channelStats: Option<ChannelStats.ExtraStats>,
    channelError: Option<string>)

  /** The state of the three AI reports built on the search results. */
  datatype ReportState = ReportState(
    strategyResult: Option<Report>,
    growthResult: Option<Report>,
    consultingResult: Option<Report>,
    isStrategyModalOpen: bool,
    isGrowthModalOpen: bool,
    isConsultingModalOpen: bool,
    isAIProcessing: bool,
    aiError: Option<string>)

  datatype ChannelState = ChannelState(search: SearchState, reports: ReportState)

  const InitialSearch := SearchState("", false, [], None, None, None)
  const InitialReports := ReportState(None, None, None, false, false, false, false, None)

  const NoVideosMessage := "해당 채널에서 분석할 수 있는 영상을 찾지 못했습니다."
  const SearchFailedMessage := "채널 분석 중 오류가 발생했습니다."

  /** `err.message || default`: an empty message falls back to the default. */
  function SearchErrorText(message: string): (text: string)
    ensures text != ""
    ensures message != "" ==> text == message
  {
    if message == "" then SearchFailedMessage else message
  }

  /**
   * What the two awaited calls of a search produced: `analyzeChannelVideos`
   * threw, or it returned videos with their statistics and then
   * `findChannel` either returned the channel or threw (it is only called
   * when there are videos).
   */
  datatype SearchOutcome =
    | AnalysisThrew(message: string)
    | Analysed(videos: seq<AnalyzedVideo>, stats: ChannelStats.ExtraStats, lookup: Result<YouTubeChannel, string>)

  /** `analyzeChannelVideos` returns the statistics of the videos it returns. */
  predicate FromAnalysis(outcome: SearchOutcome) {
    outcome.Analysed? ==> outcome.stats == ChannelStats.ExtraStatsOf(outcome.videos)
  }

  /** The synchronous prefix of `handleChannelSearch` for a non-empty query, up to the first await. */
  function BeginSearch(s: SearchState, query: string): (t: SearchState)
    ensures t.channelQuery == query && t.isChannelLoading
    ensures t.analyzedVideos == [] && t.channelInfo == None && t.channelError == None
    ensures t.channelStats == s.channelStats
  {
    s.(channelQuery := query, isChannelLoading := true, channelError := None, analyzedVideos := [], channelInfo := None)
  }

  /** The same prefix also drops the three reports. */
  function ClearReports(r: ReportState): (t: ReportState)
    ensures t.strategyResult == None && t.growthResult == None && t.consultingResult == None
    ensures t.isStrategyModalOpen == r.isStrategyModalOpen && t.isGrowthModalOpen == r.isGrowthModalOpen
    ensures t.isConsultingModalOpen == r.isConsultingModalOpen
    ensures t.isAIProcessing == r.isAIProcessing && t.aiError == r.aiError
  {
    r.(strategyResult := None, growthResult := None, consultingResult := None)
  }

  /**
   * The rest of `handleChannelSearch`, once the outcome is known: loading
   * ends, a throw or an empty result sets the error and touches nothing
   * else, and found videos are shown with their statistics together with
   * the channel or the lookup's error.
   */
  function CompleteSearch(s: SearchState, outcome: SearchOutcome): (t: SearchState)
    ensures !t.isChannelLoading && t.channelQuery == s.channelQuery
    ensures outcome.AnalysisThrew? ==> t == s.(isChannelLoading := false, channelError := Some(SearchErrorText(outcome.message)))
    ensures outcome.Analysed? && outcome.videos == [] ==> t == s.(isChannelLoading := false, channelError := Some(NoVideosMessage))
    ensures outcome.Analysed? && outcome.videos != [] ==> t.analyzedVideos == outcome.videos && t.channelStats == Some(outcome.stats)
    ensures outcome.Analysed? && outcome.videos != [] && outcome.lookup.Success?
            ==> t.channelInfo == Some(outcome.lookup.value) && t.channelError == s.channelError
    ensures outcome.Analysed? && outcome.videos != [] && outcome.lookup.Failure?
            ==> t.channelInfo == s.channelInfo && t.channelError == Some(SearchErrorText(outcome.lookup.error))
  {
    match outcome
    case AnalysisThrew(message) => s.(isChannelLoading := false, channelError := Some(SearchErrorText(message)))
    case Analysed(videos, stats, lookup) =>
      if videos == [] then s.(isChannelLoading := false, channelError := Some(NoVideosMessage))
      else
        var withVideos := s.(analyzedVideos := videos, channelStats := Some(stats));
        match lookup
        case Success(info) => withVideos.(channelInfo := Some(info), isChannelLoading := false)
        case Failure(message) => withVideos.(channelError := Some(SearchErrorText(message)), isChannelLoading := false)
  }

  /**
   * The whole of `handleChannelSearch`. An empty query does nothing. Any
   * other search ends with loading over and the query shown; it shows videos
   * exactly when some were found, reports no error exactly when videos were
   * found and the channel lookup succeeded, and always drops the three
   * reports.
   */
  function ChannelSearch(c: ChannelState, query: string, outcome: SearchOutcome): (t: ChannelState)
    ensures query == "" ==> t == c
    ensures query != "" ==> !t.search.isChannelLoading && t.search.channelQuery == query
    ensures query != "" ==> (t.search.analyzedVideos != [] <==> outcome.Analysed? && outcome.videos != [])
    ensures query != "" ==>
              (t.search.channelError == None <==> outcome.Analysed? && outcome.videos != [] && outcome.lookup.Success?)
    ensures query != "" ==> t.reports.strategyResult == None && t.reports.growthResult == None
                            && t.reports.consultingResult == None
  {
    if |query| == 0 then c
    else ChannelState(CompleteSearch(BeginSearch(c.search, query), outcome), ClearReports(c.reports))
  }

  /** The shown statistics belong to the shown videos. */
  predicate StatsDescribeVideos(s: SearchState) {
    s.analyzedVideos != [] ==> s.channelStats == Some(ChannelStats.ExtraStatsOf(s.analyzedVideos))
  }

  /** A search whose outcome comes from the analysis shows statistics that belong to the videos shown. */
  lemma ChannelSearchKeepsStats(c: ChannelState, query: string, outcome: SearchOutcome)
    requires StatsDescribeVideos(c.search) && FromAnalysis(outcome)
    ensures StatsDescribeVideos(ChannelSearch(c, query, outcome).search)
  {
  }

  /** A search that finds nothing keeps the statistics of the previous channel, although its videos are gone. */
  lemma StaleStatsAfterEmptySearch(c: ChannelState, query: string, stats: ChannelStats.ExtraStats,
                                   lookup: Result<YouTubeChannel, string>)
    requires query != ""
    ensures ChannelSearch(c, query, Analysed([], stats, lookup)).search.channelStats == c.search.channelStats
    ensures ChannelSearch(c, query, Analysed([], stats, lookup)).search.analyzedVideos == []
  {
  }

  function ReportOf(r: ReportState, kind: AiKind): Option<Report> {
    match kind
    case Strategy => r.strategyResult
    case Growth => r.growthResult
    case Consulting => r.consultingResult
  }

  function ModalOpen(r: ReportState, kind: AiKind): bool {
    match kind
    case Strategy => r.isStrategyModalOpen
    case Growth => r.isGrowthModalOpen
    case Consulting => r.isConsultingModalOpen
  }

  /** The synchronous prefix of a report handler once its guard has passed. */
  function BeginReport(r: ReportState, kind: AiKind): ReportState {
    var shown := match kind
      case Strategy => r.(isStrategyModalOpen := true)
      case Growth => r.(isGrowthModalOpen := true)
      case Consulting => r.(isConsultingModalOpen := true);
    shown.(isAIProcessing := true, aiError := None)
  }

  function SetReport(r: ReportState, kind: AiKind, report: Report): ReportState {
    match kind
    case Strategy => r.(strategyResult := Some(report))
    case Growth => r.(growthResult := Some(report))
    case Consulting => r.(consultingResult := Some(report))
  }

  /** The rest of a report handler: store the report or the error message, then stop processing. */
  function CompleteReport(r: ReportState, kind: AiKind, outcome: Result<Report, string>): ReportState {
    match outcome
    case Success(report) => SetReport(r, kind, report).(isAIProcessing := false)
    case Failure(message) => r.(aiError := Some(message), isAIProcessing := false)
  }

  /**
   * A whole report handler (`handleGenerateStrategy`, `handleGenerateGrowth`
   * or `handleGenerateConsulting`). With nothing analysed it does nothing;
   * otherwise it ends with its modal open and processing over, holding the
   * new report or the error, and leaving the other two reports and the
   * search alone.
   */
  function GenerateReport(c: ChannelState, kind: AiKind, outcome: Result<Report, string>): (t: ChannelState)
    ensures c.search.analyzedVideos == [] ==> t == c
    ensures c.search.analyzedVideos != [] ==> !t.reports.isAIProcessing && ModalOpen(t.reports, kind)
    ensures c.search.analyzedVideos != [] && outcome.Success? ==>
              ReportOf(t.reports, kind) == Some(outcome.value) && t.reports.aiError == None
    ensures c.search.analyzedVideos != [] && outcome.Failure? ==>
              ReportOf(t.reports, kind) == ReportOf(c.reports, kind) && t.reports.aiError == Some(outcome.error)
    ensures forall k :: k != kind ==> ReportOf(t.reports, k) == ReportOf(c.reports, k)
    ensures t.search == c.search
  {
    if c.search.analyzedVideos == [] then c
    else c.(reports := CompleteReport(BeginReport(c.reports, kind), kind, outcome))
  }

  /** Report requests one after another, each with its outcome. */
  function Reports(c: ChannelState, requests: seq<(AiKind, Result<Report, string>)>): ChannelState
    decreases |requests|
  {
    if requests == [] then c else Reports(GenerateReport(c, requests[0].0, requests[0].1), requests[1..])
  }

  lemma {:induction false} ReportsKeepSearch(c: ChannelState, requests: seq<(AiKind, Result<Report, string>)>)
    ensures Reports(c, requests).search == c.search
    decreases |requests|
  {
    if requests != [] {
      ReportsKeepSearch(GenerateReport(c, requests[0].0, requests[0].1), requests[1..]);
    }
  }

  /** A channel search followed by any number of report requests never shows statistics of other videos. */
  lemma StatsStayWithVideos(c: ChannelState, query: string, outcome: SearchOutcome,
                            requests: seq<(AiKind, Result<Report, string>)>)
    requires StatsDescribeVideos(c.search) && FromAnalysis(outcome)
    ensures StatsDescribeVideos(Reports(ChannelSearch(c, query, outcome), requests).search)
  {
    ChannelSearchKeepsStats(c, query, outcome);
    ReportsKeepSearch(ChannelSearch(c, query, outcome), requests);
  }

  // ---------------------------------------------------------------------------
  // The component's state
  // ---------------------------------------------------------------------------

  class App {
    var user: Option<User>
    var activeView: View
    var targetKeyword: string
    var isLoginModalOpen: bool
    var isApiKeyModalOpen: bool
    var channelQuery: string
    var isChannelLoading: bool
    var analyzedVideos: seq<AnalyzedVideo>
    var channelInfo: Option<YouTubeChannel>
    var channelStats: Option<ChannelStats.ExtraStats>
    var channelError: Option<string>
    var strategyResult: Option<Report>
    var growthResult: Option<Report>
    var consultingResult: Option<Report>
    var isStrategyModalOpen: bool
    var isGrowthModalOpen: bool
    var isConsultingModalOpen: bool
    var isAIProcessing: bool
    var aiError: Option<string>

    function Nav(): NavState
      reads this
    {
      NavState(activeView, targetKeyword, isLoginModalOpen, isApiKeyModalOpen)
    }

    function Search(): SearchState
      reads this
    {
      SearchState(channelQuery, isChannelLoading, analyzedVideos, channelInfo, channelStats, channelError)
    }

    function ReportPanel(): ReportState
      reads this
    {
      ReportState(strategyResult, growthResult, consultingResult,
                  isStrategyModalOpen, isGrowthModalOpen, isConsultingModalOpen, isAIProcessing, aiError)
    }

    function Channel(): ChannelState
      reads this
    {
      ChannelState(Search(), ReportPanel())
    }

    constructor (user: Option<User>)
      ensures this.user == user && Nav() == InitialNav
      ensures Search() == InitialSearch && ReportPanel() == InitialReports
    {
      this.user := user;
      activeView := Home;
      targetKeyword := "";
      isLoginModalOpen := false;
      isApiKeyModalOpen := false;
      channelQuery := "";
      isChannelLoading := false;
      analyzedVideos := [];
      channelInfo := None;
      channelStats := None;
      channelError := None;
      strategyResult := None;
      growthResult := None;
      consultingResult := None;
      isStrategyModalOpen := false;
      isGrowthModalOpen := false;
      isConsultingModalOpen := false;
      isAIProcessing := false;
      aiError := None;
    }

    /** The auth context publishes a new user; the redirect effect then runs. */
    method UserChanged(u: Option<User>)
      modifies this
      ensures user == u
      ensures Nav() == RedirectEffect(old(Nav()), u) && Channel() == old(Channel())
    {
      user := u;
      RunRedirectEffect();
    }

    method RunRedirectEffect()
      modifies this`activeView
      ensures Nav() == RedirectEffect(old(Nav()), user) && Channel() == old(Channel())
    {
      if user.None? && !IsPublic(activeView) {
        activeView := Home;
      }
    }

    method HandleViewChange(view: View)
      modifies this`activeView, this`targetKeyword, this`isLoginModalOpen
      ensures Nav() == ViewChange(old(Nav()), user, view) && Channel() == old(Channel())
    {
      if user.None? && view != Home && view != Notice {
        isLoginModalOpen := true;
        return;
      }
      activeView := view;
      targetKeyword := "";
    }

    method HandleNavigateWithData(target: DataTarget, data: string, outcome: SearchOutcome)
      modifies this
      ensures user == old(user)
      ensures var e := NavigateWithData(old(Nav()), user, target, data);
        Nav() == e.nav && Channel() == (if e.search.Some? then ChannelSearch(old(Channel()), data, outcome) else old(Channel()))
    {
      if user.None? {
        isLoginModalOpen := true;
        return;
      }
      if target == ToChannel {
        activeView := View.Channel;
        HandleChannelSearch(data, outcome);
      } else {
        targetKeyword := data;
        activeView := KeywordAnalysis;
      }
    }

    method TriggerChannelAnalysisFor(channelId: string, outcome: SearchOutcome)
      modifies this
      ensures user == old(user)
      ensures var e := TriggerChannelAnalysis(old(Nav()), user, channelId);
        Nav() == e.nav && Channel() == (if e.search.Some? then ChannelSearch(old(Channel()), channelId, outcome) else old(Channel()))
    {
      if user.None? {
        isLoginModalOpen := true;
        return;
      }
      activeView := View.Channel;
      HandleChannelSearch(channelId, outcome);
    }

    method OpenApiKeyModalFor()
      modifies this`isLoginModalOpen, this`isApiKeyModalOpen
      ensures Nav() == OpenApiKeyModal(old(Nav()), user) && Channel() == old(Channel())
    {
      if user.None? {
        isLoginModalOpen := true;
        return;
      }
      isApiKeyModalOpen := true;
    }

    /** The part of `handleChannelSearch` before its first await, for a non-empty query. */
    method StartChannelSearch(query: string)
      modifies this
      ensures user == old(user) && Nav() == old(Nav())
      ensures Search() == BeginSearch(old(Search()), query)
      ensures ReportPanel() == ClearReports(old(ReportPanel()))
    {
      ResetSearch(query);
      ClearReportResults();
    }

    method ResetSearch(query: string)
      modifies this`channelQuery, this`isChannelLoading, this`channelError, this`analyzedVideos, this`channelInfo
      ensures Search() == BeginSearch(old(Search()), query)
    {
      channelQuery := query;
      isChannelLoading := true;
      channelError := None;
      analyzedVideos := [];
      channelInfo := None;
    }

    method ClearReportResults()
      modifies this`strategyResult, this`growthResult, this`consultingResult
      ensures ReportPanel() == ClearReports(old(ReportPanel()))
    {
      strategyResult := None;
      growthResult := None;
      consultingResult := None;
    }

    /** The part of `handleChannelSearch` after the awaits. */
    method FinishChannelSearch(outcome: SearchOutcome)
      modifies this`isChannelLoading, this`channelError, this`analyzedVideos, this`channelInfo, this`channelStats
      ensures Nav() == old(Nav()) && ReportPanel() == old(ReportPanel())
      ensures Search() == CompleteSearch(old(Search()), outcome)
    {
      match outcome {
        case AnalysisThrew(message) =>
          channelError := Some(SearchErrorText(message));
        case Analysed(videos, stats, lookup) =>
          if videos != [] {
            ShowVideos(videos, stats, lookup);
          } else {
            channelError := Some(NoVideosMessage);
          }
      }
      isChannelLoading := false;
    }

    /** Videos were found: show them with their statistics, then the channel or the lookup error. */
    method ShowVideos(videos: seq<AnalyzedVideo>, stats: ChannelStats.ExtraStats, lookup: Result<YouTubeChannel, string>)
      modifies this`channelError, this`analyzedVideos, this`channelInfo, this`channelStats
      ensures Nav() == old(Nav()) && ReportPanel() == old(ReportPanel())
      ensures Search() == old(Search()).(analyzedVideos := videos, channelStats := Some(stats),
        channelInfo := if lookup.Success? then Some(lookup.value) else old(channelInfo),
        channelError := if lookup.Failure? then Some(SearchErrorText(lookup.error)) else old(channelError))
    {
      analyzedVideos := videos;
      channelStats := Some(stats);
      match lookup {
        case Success(info) =>
          channelInfo := Some(info);
        case Failure(message) =>
          channelError := Some(SearchErrorText(message));
      }
    }

    method HandleChannelSearch(query: string, outcome: SearchOutcome)
      modifies this
      ensures user == old(user) && Nav() == old(Nav())
      ensures Channel() == ChannelSearch(old(Channel()), query, outcome)
    {
      if |query| == 0 {
        return;
      }
      StartChannelSearch(query);
      FinishChannelSearch(outcome);
    }

    /** The part of a report handler before its await, once its guard has passed. */
    method StartReport(kind: AiKind)
      modifies this`isStrategyModalOpen, this`isGrowthModalOpen, this`isConsultingModalOpen, this`isAIProcessing, this`aiError
      ensures Nav() == old(Nav()) && Search() == old(Search())
      ensures ReportPanel() == BeginReport(old(ReportPanel()), kind)
    {
      match kind {
        case Strategy => isStrategyModalOpen := true;
        case Growth => isGrowthModalOpen := true;
        case Consulting => isConsultingModalOpen := true;
      }
      isAIProcessing := true;
      aiError := None;
    }

    /** The part of a report handler after its await. */
    method FinishReport(kind: AiKind, outcome: Result<Report, string>)
      modifies this`strategyResult, this`growthResult, this`consultingResult, this`isAIProcessing, this`aiError
      ensures Nav() == old(Nav()) && Search() == old(Search())
      ensures ReportPanel() == CompleteReport(old(ReportPanel()), kind, outcome)
    {
      match outcome {
        case Success(r) =>
          match kind {
            case Strategy => strategyResult := Some(r);
            case Growth => growthResult := Some(r);
            case Consulting => consultingResult := Some(r);
          }
        case Failure(message) =>
          aiError := Some(message);
      }
      isAIProcessing := false;
    }

    /** The three report handlers share this code and differ only in the modal and result they use. */
    method HandleGenerateReport(kind: AiKind, outcome: Result<Report, string>)
      modifies this
      ensures user == old(user) && Nav() == old(Nav())
      ensures Channel() == GenerateReport(old(Channel()), kind, outcome)
    {
      if analyzedVideos == [] {
        return;
      }
      StartReport(kind);
      FinishReport(kind, outcome);
    }
  }
}

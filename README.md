# YouTube analytics app: a verified model of its core logic

The app is a single-page React application for YouTube creators. It has channel
and keyword analysis, trending lists, a channel "battle", AI reports and an
admin dashboard, plus a small server function that analyses a video's comments
for paying users. Most of it is UI and calls to the YouTube Data API and Gemini.
This project models the logic underneath, in Dafny:

- **YouTube service helpers** (`YouTubeService`, `ChannelStats`, `Wav`):
  - the ISO 8601 `PT…H…M…S` duration parser and the short/regular split;
  - the hashtag extractor and the popularity score;
  - batching of video ids by 50;
  - the upload-interval statistics;
  - the channel power score and battle winner;
  - the 44-byte RIFF/WAVE header writer, modelled as a byte array written in place.
- **Coupon store** (`CouponCodes`, `SubscriptionService`):
  - codes of the form `XXXX-XXXX-XXXX`;
  - batch generation that keeps every code unique;
  - single-use redemption that turns a coupon's duration into an active subscription window.

  The store is a class whose field is the coupon list that `localStorage` holds in the app.
- **Entitlement and access gates** (`Auth`, `Guards`, `AppNav`, `CommentsApi`):
  - the mock authentication provider as a class;
  - the route guards `ProtectedRoute`, `LockCard`, `PrivateRoute` and the `ScriptGenerator` guard;
  - sidebar navigation, and the app's navigation and search state as a class;
  - the comment-analysis server handler with its PRO check.

  The lemmas make the differences between the gates explicit.
- **View helpers** (`KeywordVideoView`, `TrendingView`, `AdminDashboard`):
  - video filters, the sort, totals and chart points;
  - the duration and number formatters;
  - plan and duration labels, the admin delete guard, and the admin dashboard's state.

Supporting modules:

- `Wrappers` holds `Option` and `Result`.
- `Types` holds the record shapes.
- `Text` holds decimal digits: `String(n)` and `padStart(2, '0')`.
- `Views` lists the app's views and which are public.
- `Sorting` is an in-place insertion sort with a descending key, standing in for `Array.prototype.sort`. The method is proved equal to a functional insertion sort, which is proved stable (elements with equal keys keep their order) and to leave an already ordered sequence unchanged.

## Modelling decisions

**Numbers and time**

- Timestamps are integers (milliseconds).
- Float arithmetic (popularity score, day averages) is modelled with `real`, as exact quotients.
- The power score is computed exactly on integers: `round((v/100000 + s/1000)/2)` is `(v + 100·s + 100000) div 200000`. The lemma `RoundedBounds` justifies this.
- Calendar arithmetic is symbolic. A subscription's end date is "14 days after start" or "m months after start".

**Nondeterminism**

- `Math.random` in `generateRandomCode` is a nondeterministic choice of one alphabet character per step.
- The do-while retry loop in `generateCoupons` redraws while the code is taken. The model redraws by running through the code space in order, which is one possible sequence of random draws. It therefore ends whenever fewer than 36^12 codes are taken; the source would loop forever otherwise.

**Data shapes**

- Coupons have the shape `generateCoupons` and `redeemCoupon` write: `usedBy` is one optional email, and there is no `expiresAt`. `types.ts` declares more fields on the record (`expiresAt`, `discountPercent`) and declares `usedBy` as `string[]`.

**Where the code is followed over the design intent**

- `loadCoupons` sorts by `expiresAt`, which coupons do not have. Every comparison is `NaN`, which the sort treats as "equal", so the stable sort leaves the list as loaded. `AdminDashboard.SortCoupons` states exactly that.
- `api/comments.ts` takes `videoUrl.split("v=")[1]?.split("&")[0]`. The id therefore stops at a second `"v="` as well as at `"&"`; `CommentsApi.ExtractIdBeforeSecondPair` states this.
- The PRO check destructures the JSON response as an object. A response that is an array (the REST default) never yields `is_pro === true`, so it is never PRO.
- `TrendingView` `formatNumber` rounds to 만 (10 000) below 1 억 (100 000 000). So 99 999 999 prints as "10000만", not as 1.0억; `TrendingView.ManRange` states this.

**Asynchronous results and the server handler's fetches**

- The outcomes of asynchronous calls are parameters of the model. These are `analyzeChannelVideos`, `findChannel`, the AI report calls, the Supabase profile fetch, and the comment fetch with its sentiment analysis.
- The server handler takes two functions for them: `profileOf` and `sentimentOf`. Each returns either a value or "threw".

## Model

| member | source | states |
|---|---|---|
| YouTubeService.FirstPT | services/youtubeService.ts:200 | finds the first "PT" at or after a position, or says there is none: where the regex match starts |
| YouTubeService.ParseIso8601Duration | services/youtubeService.ts:199-206 | a text with no "PT" gives 0 seconds |
| YouTubeService.DurationTextValue | services/youtubeService.ts:199-206 | for any optional hours, minutes and seconds written as "PT[nH][nM][nS]", the parser returns 3600·H + 60·M + S, an absent field counting 0 |
| YouTubeService.DaysHidePT | services/youtubeService.ts:200-201 | "P1DT2H" parses to 0, because the day designator sits between "P" and "T" and there is no "PT" |
| YouTubeService.VideoTypeOf | services/youtubeService.ts:186 | a video is Short exactly when its duration is at most 60 seconds |
| YouTubeService.TagPrefix | services/youtubeService.ts:209 | the longest run of [A-Za-z0-9_] at the front of a text |
| YouTubeService.ExtractHashtags | services/youtubeService.ts:208-211 | every result is a non-empty [A-Za-z0-9_] run; a text without '#' gives []; at most one tag per two characters |
| YouTubeService.HashtagsRoundTrip | services/youtubeService.ts:208-211 | extracting from "#t1 #t2 …" gives back exactly t1, t2, … in order |
| YouTubeService.HashBeforeOtherChar | services/youtubeService.ts:209 | a '#' followed by a character outside [A-Za-z0-9_] (e.g. Hangul) contributes nothing |
| YouTubeService.PopularityScore | services/youtubeService.ts:167-169 | 0 for no views; otherwise score·views = 1000·(2·likes + 5·comments); never negative |
| YouTubeService.PopularityMonotone | services/youtubeService.ts:167-169 | more likes and comments at the same view count never lower the score |
| YouTubeService.AnalyzeItem | services/youtubeService.ts:162-190 | missing counts are 0; the score is PopularityScore of the three counts (0 without views); the duration is the parsed ISO text; Short iff ≤ 60 s; the hashtags are those of the description; id, title, description, publish time, tags (none as empty) and channel are copied; the medium thumbnail unless missing or empty, else the default one; country is always "KR" |
| YouTubeService.ChunkIds | services/youtubeService.ts:147-152 | the chunks concatenate back to the ids in order; each holds 1..50 ids and all but the last exactly 50; no ids gives no chunks; ⌈n/50⌉ chunks |
| YouTubeService.PowerScore | services/youtubeService.ts:742-746 | at most 1000, and within half a point of (views/100000 + subscribers/1000)/2 below the cap |
| YouTubeService.RoundedBounds | services/youtubeService.ts:745 | the integer quotient used for Math.round is the nearest integer to the real average |
| YouTubeService.PowerScoreMonotone | services/youtubeService.ts:742-746 | more views and subscribers never lower the power score |
| YouTubeService.BattleWinner | services/youtubeService.ts:768 | A iff scoreA > scoreB, B iff scoreA < scoreB, Tie iff equal |
| YouTubeService.WinnerSwap | services/youtubeService.ts:768 | swapping the channels mirrors the winner |
| YouTubeService.StatsFor | services/youtubeService.ts:748-766 | power score as above; the average views is absent exactly when there are no videos (division by zero), otherwise it is viewCount/videoCount rounded half up |
| YouTubeService.CompareChannels | services/youtubeService.ts:738-776 | the winner follows the two channels' power scores in all three cases |
| ChannelStats.Insert | services/youtubeService.ts:226 | inserting into an ascending list keeps it ascending and adds exactly one element |
| ChannelStats.SortAscending | services/youtubeService.ts:226 | the comparator `a - b` sort gives an ascending permutation |
| ChannelStats.PublishedTimes | services/youtubeService.ts:226-231 | the i-th time is the i-th video's publishedAt |
| ChannelStats.LastK | services/youtubeService.ts:236 | `slice(-6)`: the last min(6, n) elements |
| ChannelStats.Ratio | services/youtubeService.ts:234 | quotient·count = total, non-negative for a non-negative total |
| ChannelStats.ToDays | services/youtubeService.ts:246 | days·86 400 000 = milliseconds, non-negative for non-negative input |
| ChannelStats.MeanGapNonNegative | services/youtubeService.ts:234 | the mean gap of an ordered list is never negative |
| ChannelStats.SumOfGaps | services/youtubeService.ts:229-233 | the summed consecutive gaps equal last − first (0 for an empty list) |
| ChannelStats.FirstIsEarliest | services/youtubeService.ts:226-227 | the head of the sorted list is one of the times and no later than any of them |
| ChannelStats.StatsOfSortedProperties | services/youtubeService.ts:227-251 | firstVideoDate is the earliest publishedAt; both intervals are non-negative |
| ChannelStats.ExtraStatsOf | services/youtubeService.ts:223-252 | NoVideos exactly for no videos; otherwise the first date is one of the upload dates and no later than any, and both mean intervals are non-negative |
| ChannelStats.CalculateExtraChannelStats | services/youtubeService.ts:223-252 | the loops give the statistics ExtraStatsOf specifies: the mean gap over all videos and over the last six, the latter falling back to the former when it is 0 |
| Wav.U16LE | services/youtubeService.ts:952-957 | a 16-bit field is two bytes |
| Wav.U32LE | services/youtubeService.ts:946 | a 32-bit field is four bytes |
| Wav.U16RoundTrip | services/youtubeService.ts:952-957 | reading back two little-endian bytes gives the value mod 2^16 |
| Wav.U32RoundTrip | services/youtubeService.ts:946 | reading back four little-endian bytes gives the value mod 2^32 |
| Wav.Ascii | services/youtubeService.ts:938-942 | one byte per character, the character code mod 256 (setUint8) |
| Wav.RiffDescriptor | services/youtubeService.ts:945-947 | the RIFF descriptor is 12 bytes |
| Wav.FmtChunk | services/youtubeService.ts:950-957 | the fmt chunk is 24 bytes |
| Wav.DataChunkHeader | services/youtubeService.ts:960-961 | the data chunk header is 8 bytes |
| Wav.Header | services/youtubeService.ts:935-961 | the whole header is 44 bytes |
| Wav.DecodeWav | services/youtubeService.ts:934-966 | a decoded file is at least 44 bytes and its samples are everything from offset 44 |
| Wav.RiffRoundTrip | services/youtubeService.ts:945-947 | the descriptor reads back as "RIFF", 36 + n (mod 2^32), "WAVE" |
| Wav.FmtLayout | services/youtubeService.ts:950-957 | the fmt chunk holds "fmt ", 16, 1, channels, sample rate, rate·channels·2, channels·2 and 16 at their offsets, little-endian |
| Wav.FmtRoundTrip | services/youtubeService.ts:950-957 | the fmt chunk reads back as PCM format 1 with the given channels, rate, byte rate, block align and 16 bits |
| Wav.DataHeaderRoundTrip | services/youtubeService.ts:960-961 | the data header reads back as "data" and n |
| Wav.WavLayout | services/youtubeService.ts:934-966 | the file is 44 + n bytes: descriptor, fmt, data header, then the PCM bytes unchanged |
| Wav.WavRoundTrip | services/youtubeService.ts:934-966 | decoding the file gives back every header field and the PCM bytes |
| Wav.WriteString | services/youtubeService.ts:938-942 | writes the characters at the offset and leaves every other byte as it was |
| Wav.SetUint16 | services/youtubeService.ts:952-957 | `setUint16(…, true)`: two little-endian bytes at the offset, nothing else changed |
| Wav.SetUint32 | services/youtubeService.ts:946 | `setUint32(…, true)`: four little-endian bytes at the offset, nothing else changed |
| Wav.WriteRiffDescriptor | services/youtubeService.ts:945-947 | bytes 0-11 become the descriptor; the rest is unchanged |
| Wav.WriteFmtChunk | services/youtubeService.ts:950-957 | bytes 12-35 become the fmt chunk; the rest is unchanged |
| Wav.WriteDataChunkHeader | services/youtubeService.ts:960-961 | bytes 36-43 become the data header; the rest is unchanged |
| Wav.WriteHeader | services/youtubeService.ts:944-961 | bytes 0-43 become the header; the PCM area is unchanged |
| Wav.PcmToWav | services/youtubeService.ts:934-966 | the buffer written in place is exactly the WAV file of the PCM data |
| CouponCodes.AlphabetChar | services/subscriptionService.ts:115 | the i-th character of A-Z0-9, which maps back to i |
| CouponCodes.AlphabetIndexInverse | services/subscriptionService.ts:115 | every alphabet character is the character of its own index |
| CouponCodes.CouponCodeShape | services/subscriptionService.ts:114-122 | a default-length code is 14 characters, '-' at 4 and 9, A-Z0-9 elsewhere |
| CouponCodes.GenerateRandomCode | services/subscriptionService.ts:114-122 | whatever characters are drawn, the code has a '-' before every fourth character and alphabet characters elsewhere |
| CouponCodes.Base36 | services/subscriptionService.ts:115 | n characters, all from the alphabet |
| CouponCodes.Base36RoundTrip | services/subscriptionService.ts:115 | a number below 36^n written in n base-36 digits reads back as itself |
| CouponCodes.CodeOf | services/subscriptionService.ts:114-122 | the k-th code of the enumeration has the coupon-code shape |
| CouponCodes.CodeOfInjective | services/subscriptionService.ts:114-122 | different indices give different codes, so there are 36^12 possible codes |
| CouponCodes.EnumeratedCodes | services/subscriptionService.ts:114-122 | the set of the first k codes contains each of them |
| CouponCodes.EnumeratedCodesCount | services/subscriptionService.ts:114-122 | the first k codes are k different codes |
| CouponCodes.Pigeonhole | services/subscriptionService.ts:136-138 | if the first k codes are all taken, at least k codes are taken |
| CouponCodes.FreshCode | services/subscriptionService.ts:136-138 | the retry loop ends with a well-formed code that is not taken, whenever fewer than 36^12 codes are taken |
| SubscriptionService.FindPlan | services/subscriptionService.ts:54 | `find` by id: the returned plan is in the table with that id; none means no plan has it |
| SubscriptionService.DiscountIsRoundedSaving | services/subscriptionService.ts:21-43 | each advertised discount (12 %, 25 %) is the plan's saving against the one-month price for as many months, to the nearest percent |
| SubscriptionService.PlanFor | services/subscriptionService.ts:192-203 | `planMap` with the `|| 'trial'` fallback: 1, 3, 6 and 12 months map to their plan names; 0.5 and anything else map to "trial" |
| SubscriptionService.PlanForInjective | services/subscriptionService.ts:192-198 | the five issuable durations get five different plan names |
| SubscriptionService.SubscriptionFromCoupon | services/subscriptionService.ts:182-208 | active from now; ends 14 days later for 0.5 and the coupon's months later otherwise; plan from planMap |
| SubscriptionService.MarkUsed | services/subscriptionService.ts:172-179 | the redeemed coupon is used, by that email, at that time; its code, duration and creation time are kept |
| SubscriptionService.FindCode | services/subscriptionService.ts:158 | `findIndex`: none iff no coupon has the code, otherwise the first index that has it |
| SubscriptionService.CodesOf | services/subscriptionService.ts:138 | the set of codes in the store, no larger than the store |
| SubscriptionService.Redeem | services/subscriptionService.ts:154-212 | a failure leaves the store unchanged; the invalid-code error comes exactly when no coupon has the code; the store keeps its length |
| SubscriptionService.RedeemSucceedsIff | services/subscriptionService.ts:158-170 | success iff the first coupon with the code is unused |
| SubscriptionService.RedeemChangesOnlyMatched | services/subscriptionService.ts:172-208 | on success only the matched coupon changes (used, usedBy, usedAt), and the user gets that coupon's subscription |
| SubscriptionService.RedeemTwiceFails | services/subscriptionService.ts:165-170 | a second redemption of the same code, by anyone at any time, fails with the already-used error and changes nothing |
| SubscriptionService.RedeemUsesOneCoupon | services/subscriptionService.ts:172-179 | a success uses up exactly one unused coupon |
| SubscriptionService.RedeemKeepsCodes | services/subscriptionService.ts:172-179 | redemption changes no code, so unique codes stay unique |
| SubscriptionService.IssueCoupon | services/subscriptionService.ts:134-146 | a new unused coupon with the given duration and time, whose code is well formed and differs from every stored and every batch code |
| SubscriptionService.CouponStore.constructor | services/subscriptionService.ts:124-127 | an empty store reads as no coupons |
| SubscriptionService.CouponStore.GetCoupons | services/subscriptionService.ts:124-127 | returns the stored list |
| SubscriptionService.CouponStore.GenerateCoupons | services/subscriptionService.ts:129-152 | exactly count new unused coupons of that duration with pairwise different codes, none equal to a stored code; the store becomes the batch followed by the old list |
| SubscriptionService.CouponStore.RedeemCoupon | services/subscriptionService.ts:154-212 | the result and the new store are those of Redeem on the old store |
| Auth.MockUser | contexts/AuthContext.tsx:35-41 | the login record has the given email, is not an admin and has no subscription |
| Auth.Step | contexts/AuthContext.tsx:31-75 | login authenticates the mock user and ends loading; signout drops the user and the authentication and nothing else; the purchase operations set subscribed; the others change nothing; no step grants admin or clears a flag, and each keeps "authenticated iff there is a user" |
| Auth.RunKeepsInvariants | contexts/AuthContext.tsx:24-75 | every operation keeps "no admin" and "authenticated iff there is a user" |
| Auth.ReachableInvariants | contexts/AuthContext.tsx:24-75 | every reachable state has no admin and a consistent session |
| Auth.LoadingUntilLogin | contexts/AuthContext.tsx:29-43 | loading holds exactly until the first login |
| Auth.FlagsNeverCleared | contexts/AuthContext.tsx:50-66 | once set, subscribed and coupon-used stay set, signout included |
| Auth.AuthProvider.constructor | contexts/AuthContext.tsx:24-29 | no user, all flags false, loading |
| Auth.AuthProvider.Login | contexts/AuthContext.tsx:31-44 | authenticated, the mock user with the given email, not loading; other flags unchanged |
| Auth.AuthProvider.Signup | contexts/AuthContext.tsx:46-48 | changes nothing |
| Auth.AuthProvider.Signout | contexts/AuthContext.tsx:50-54 | not authenticated and no user; subscribed, coupon-used, admin and loading unchanged |
| Auth.AuthProvider.UpdateSubscriptionStatus | contexts/AuthContext.tsx:56-59 | sets subscribed and nothing else |
| Auth.AuthProvider.ApplyCoupon | contexts/AuthContext.tsx:61-66 | returns true for every code and sets subscribed and coupon-used and nothing else |
| Auth.AuthProvider.GetAllUsers | contexts/AuthContext.tsx:68-71 | always returns no users |
| Auth.AuthProvider.DeleteUser | contexts/AuthContext.tsx:73-75 | changes nothing |
| Guards.ProtectedRoute | components/ProtectedRoute.tsx:11-38 | loading first, then /login, then /not-allowed, then /pricing; children exactly when not loading, authenticated, and each required flag holds |
| Guards.LockCardIsLocked | components/Lockcard.tsx:20-26 | locked iff no user, or a non-admin missing a required subscription or coupon |
| Guards.LockCardClick | components/Lockcard.tsx:28-33 | a click goes to /paywall exactly when locked |
| Guards.LockCardDefaults | components/Lockcard.tsx:14-25 | with the default requirements only a missing user locks |
| Guards.PrivateRoute | components/PrivateRoute.tsx:11-37 | nothing while loading, /signin when not authenticated, the outlet exactly when authenticated and not loading |
| Guards.PrivateRouteIgnoresSubscription | components/PrivateRoute.tsx:13-36 | the result depends only on loading and authenticated |
| Guards.PrivateRouteAdmitsUnsubscribed | components/PrivateRoute.tsx:28-36 | an unsubscribed user passes PrivateRoute but not a subscription-requiring ProtectedRoute |
| Guards.ScriptGuard | components/ScriptGenerator.tsx:7-24 | checking while loading, login without a user, the paywall exactly for a present non-premium profile, the children otherwise |
| Guards.ScriptGuardFailsOpen | components/ScriptGenerator.tsx:19-24 | a logged-in user with no profile gets the children |
| Guards.AdminExemptOnlyInLockCard | components/Lockcard.tsx:22 | an unsubscribed admin is unlocked by LockCard but sent to /pricing by ProtectedRoute and locked by the sidebar |
| Guards.AdminRoutesUnreachable | components/ProtectedRoute.tsx:27-29 | no sequence of auth operations reaches an admin-only route, since no one is ever admin |
| Guards.GuardsLoadUntilLogin | components/ProtectedRoute.tsx:19 | before any login both route guards show their loading result |
| Guards.HandleProtectedNav | components/Sidebar.tsx:91-95 | login modal without a user, pricing modal when unsubscribed, the view change exactly for a subscribed user |
| Guards.HandleNormalNav | components/Sidebar.tsx:97-102 | the view changes iff there is a user or the view is home or notice; otherwise the login modal |
| Guards.SidebarIsLocked | components/Sidebar.tsx:104 | locked iff no user or not subscribed, ignoring admin status |
| Guards.SidebarLockMatchesProtectedNav | components/Sidebar.tsx:91-104 | the lock icon shows exactly when a protected click would not change the view |
| AppNav.ViewChange | App.tsx:98-109 | allowed views are shown with the keyword cleared; otherwise only the login modal opens |
| AppNav.NavigateWithData | App.tsx:111-124 | without a user only login opens; 'channel' shows the channel view and searches; 'keyword_analysis' sets the keyword and view |
| AppNav.TriggerChannelAnalysis | App.tsx:126-133 | without a user only login opens; otherwise the channel view and a search for the id |
| AppNav.OpenApiKeyModal | App.tsx:135-141 | login modal without a user, the API-key modal otherwise; the view is unchanged |
| AppNav.RedirectEffect | App.tsx:91-96 | after the effect the view may be shown; an allowed view is kept; a guest on a private view goes home |
| AppNav.RenderMainContent | App.tsx:335-360 | the login prompt exactly when the view may not be shown; otherwise the active view |
| AppNav.NavStepKeepsShowable | App.tsx:98-141 | every handler keeps the shown view one the user may see |
| AppNav.NavRunKeepsShowable | App.tsx:98-141 | any sequence of handlers keeps the view showable, so the login prompt never appears |
| AppNav.LogoutReturnsHome | App.tsx:91-96 | after logout the effect puts a guest on a public view, so the prompt is not left on screen |
| AppNav.AnyUserOpensAdmin | App.tsx:98-109 | the app's own gate lets any logged-in user open the admin view |
| AppNav.SearchErrorText | App.tsx:168 | `err.message \|\| default`: never empty, the message when it has one |
| AppNav.BeginSearch | App.tsx:146-150 | the query is set and loading starts; error, videos and channel are cleared; the previous statistics stay |
| AppNav.ClearReports | App.tsx:152-154 | the three reports are dropped; the modal, processing and error flags stay |
| AppNav.CompleteSearch | App.tsx:156-171 | loading ends; a throw or no videos sets the error and changes nothing else; found videos are shown with their stats and the channel or the lookup error |
| AppNav.ChannelSearch | App.tsx:144-172 | an empty query changes nothing; otherwise the query is shown, loading ends, videos are shown iff some were found, no error iff found and the lookup succeeded, and the three reports are cleared |
| AppNav.ChannelSearchKeepsStats | App.tsx:144-172 | a search keeps the shown stats describing the shown videos |
| AppNav.StaleStatsAfterEmptySearch | App.tsx:149-166 | a search that finds nothing leaves the previous channel's statistics in place |
| AppNav.GenerateReport | App.tsx:174-217 | no analysed videos means no change; otherwise the modal opens, processing ends, and that report or the error is set; the other reports and the search are untouched |
| AppNav.ReportsKeepSearch | App.tsx:174-217 | report requests never touch the search state |
| AppNav.StatsStayWithVideos | App.tsx:144-217 | searches and reports keep the shown stats describing the shown videos |
| AppNav.App.constructor | App.tsx:48-84 | the initial navigation, search and report state |
| AppNav.App.UserChanged | App.tsx:91-96 | a new user value, followed by the redirect effect |
| AppNav.App.RunRedirectEffect | App.tsx:91-96 | the fields change as RedirectEffect says; the search state is unchanged |
| AppNav.App.HandleViewChange | App.tsx:98-109 | the fields change as ViewChange says |
| AppNav.App.HandleNavigateWithData | App.tsx:111-124 | the fields change as NavigateWithData says, and then as the search does for 'channel' |
| AppNav.App.TriggerChannelAnalysisFor | App.tsx:126-133 | the fields change as TriggerChannelAnalysis says, followed by the search |
| AppNav.App.OpenApiKeyModalFor | App.tsx:135-141 | the modal flags change as OpenApiKeyModal says |
| AppNav.App.StartChannelSearch | App.tsx:146-154 | the synchronous prefix of a search: the query set, loading, and results and reports cleared |
| AppNav.App.ResetSearch | App.tsx:146-150 | the search fields are reset for the query |
| AppNav.App.ClearReportResults | App.tsx:152-154 | the three reports are cleared |
| AppNav.App.FinishChannelSearch | App.tsx:156-171 | the search fields change as CompleteSearch says |
| AppNav.App.ShowVideos | App.tsx:159-168 | videos and stats shown; the channel info or the lookup error set |
| AppNav.App.HandleChannelSearch | App.tsx:144-172 | the whole search, as ChannelSearch says |
| AppNav.App.StartReport | App.tsx:175-178 | the modal opens, processing starts, the error is cleared |
| AppNav.App.FinishReport | App.tsx:179-186 | the report or the error is set and processing ends |
| AppNav.App.HandleGenerateReport | App.tsx:174-217 | the whole report handler, as GenerateReport says |
| CommentsApi.IsProUser | api/comments.ts:16-47 | false on a non-ok response and on null or array data; true iff `is_pro === true` and there is no expiry or it is later than now |
| CommentsApi.ProOnlyLapses | api/comments.ts:41-44 | a user who is PRO at some time was PRO at every earlier time |
| CommentsApi.ProUntilExpiry | api/comments.ts:41-44 | with an expiry, PRO exactly before it; with none, PRO always; an unparsable date is never PRO |
| CommentsApi.FindPair | api/comments.ts:107 | the first position of "v=", or none |
| CommentsApi.BeforePair | api/comments.ts:107 | `split("v=")` piece: the prefix before which no "v=" starts, ending at the next "v=" or the end |
| CommentsApi.BeforeChar | api/comments.ts:107 | `split("&")[0]`: the prefix up to the first '&' |
| CommentsApi.ExtractVideoId | api/comments.ts:107-108 | none without "v="; an id is non-empty, contains neither '&' nor "v=", and is a prefix of what follows the first "v="; the id (empty for none) runs exactly to the first "&", "v=" or end after that "v=", so none there means an empty field |
| CommentsApi.FirstStopUnique | api/comments.ts:107 | the first stop after a position is unique |
| CommentsApi.ExtractVideoIdUnique | api/comments.ts:107-108 | a non-empty text that runs from the first "v=" to the first stop is the extracted id |
| CommentsApi.ExtractIdAtEnd | api/comments.ts:107-108 | `…v=ID` with the id at the end of the URL gives ID |
| CommentsApi.ExtractIdBeforeSecondPair | api/comments.ts:107-108 | `…v=IDv=rest` gives ID: a second "v=" ends the id |
| CommentsApi.ExtractWatchUrl | api/comments.ts:107 | for "…v=ID&rest" the id is ID |
| CommentsApi.NoIdCases | api/comments.ts:107-110 | a URL without "v=" and one with "v=&" both give no id |
| CommentsApi.AnalysisText | api/comments.ts:78 | never empty: the model's text, or "분석 실패" when there is none |
| CommentsApi.Handle | api/comments.ts:84-129 | a non-POST request gets 405 before the body is read; a POST whose body does not parse gets 500; the status is one of 200, 400, 403, 405 and 500; 200 exactly with a success body |
| CommentsApi.MissingFieldsRefused | api/comments.ts:96-98 | a missing videoUrl or userId gets 400 |
| CommentsApi.FetchThrowsGives500 | api/comments.ts:100-128 | a profile lookup that throws gives 500; for a PRO user whose URL gives an id, a comment or AI fetch that throws gives 500 |
| CommentsApi.BadUrlRefused | api/comments.ts:106-110 | a PRO user whose URL yields no video id gets 400 with the URL message |
| CommentsApi.ProCheckPrecedesUrl | api/comments.ts:101-104 | a non-PRO user gets 403 whatever the URL is |
| CommentsApi.SuccessIff | api/comments.ts:84-128 | 200 exactly when POST, both fields, the profile fetched and PRO, an id extracted and the analysis fetched; the body carries that analysis |
| CommentsApi.WatchUrlAnalysed | api/comments.ts:94-121 | a PRO user's request with a watch URL succeeds with the analysis of that id |
| KeywordVideoView.CountryFilterMeaning | components/KeywordVideoAnalysisView.tsx:199-200 | 'korea' keeps unset and "KR" videos; 'foreign' drops exactly the "KR" ones; 'all' keeps all |
| KeywordVideoView.TypeFilterMeaning | components/KeywordVideoAnalysisView.tsx:201-202 | 'short' and 'regular' keep only that type; 'all' keeps all |
| KeywordVideoView.PassesFilters | components/KeywordVideoAnalysisView.tsx:198-205 | a video passes exactly when it has at least minViews views, 'korea' finds it unset or "KR", 'foreign' finds it not "KR", and 'short' / 'regular' find that type |
| KeywordVideoView.Filter | components/KeywordVideoAnalysisView.tsx:198-205 | the kept videos are those passing all filters, each as often as in the input, including viewCount ≥ minViews |
| KeywordVideoView.ForeignFindsNothing | components/KeywordVideoAnalysisView.tsx:200 | since every analysed video is tagged "KR", 'foreign' finds nothing |
| KeywordVideoView.SortKey | components/KeywordVideoAnalysisView.tsx:207-209 | the key each comparator subtracts: popularity, views or publish time |
| KeywordVideoView.FilteredVideos | components/KeywordVideoAnalysisView.tsx:197-212 | a permutation of the passing videos, non-increasing in the chosen key; exactly the stable insertion sort of the filtered list, so videos with equal keys keep their order |
| KeywordVideoView.TotalStats | components/KeywordVideoAnalysisView.tsx:216-225 | zero for no videos; each total is at least every video's count; the view total is 0 exactly when every video has 0 views |
| KeywordVideoView.TotalStatsAppend | components/KeywordVideoAnalysisView.tsx:216-225 | the totals of a concatenation are the sums of the parts' totals |
| KeywordVideoView.FilteredTotalsAtMost | components/KeywordVideoAnalysisView.tsx:216-225 | the totals run over all videos; the filtered list never sums to more |
| KeywordVideoView.ShortName | components/KeywordVideoAnalysisView.tsx:236 | titles of up to 10 characters are kept; longer ones become their first 10 plus "..." |
| KeywordVideoView.ChartData | components/KeywordVideoAnalysisView.tsx:233-241 | min(n, 50) points, the i-th built from the i-th filtered video |
| Sorting.SortDescendingBy | components/KeywordVideoAnalysisView.tsx:207-209 | in place: the array becomes InsertionSort of its old contents, hence non-increasing in the key, a permutation, stable (for every key the elements with it keep their order), and unchanged when already ordered |
| Sorting.InsertionSortOrders | components/KeywordVideoAnalysisView.tsx:207-209 | the sorted sequence is non-increasing in the key |
| Sorting.InsertionSortPermutes | components/KeywordVideoAnalysisView.tsx:207-209 | the sorted sequence has the same elements, with multiplicity |
| Sorting.InsertionSortKeepsOrdered | components/KeywordVideoAnalysisView.tsx:207-209 | an already ordered sequence is returned unchanged |
| Sorting.SortIsStable | components/KeywordVideoAnalysisView.tsx:207-209 | stability: for every key value the elements with that key appear in the same order as before |
| Text.NatToString | components/TrendingView.tsx:89 | `String(n)`: non-empty decimal digits, one digit exactly below 10 |
| Text.NatToStringValue | components/TrendingView.tsx:89 | the digits read back as n |
| Text.NatToStringNoLeadingZero | components/TrendingView.tsx:89 | a positive number has no leading zero |
| Text.Pad2 | components/TrendingView.tsx:87-88 | `padStart(2, '0')` of n < 100: two digits reading back as n |
| TrendingView.ClockOf | components/TrendingView.tsx:84-86 | minutes and seconds below 60, and h·3600 + m·60 + s = t |
| TrendingView.FormatDuration | components/TrendingView.tsx:82-91 | "00:00" for a negative count; five characters "MM:SS" below an hour; at least seven characters with colons before the minutes and the seconds from an hour on |
| TrendingView.FormatDurationReadsBack | components/TrendingView.tsx:82-91 | "00:00" for negative input; "MM:SS" reading back as t below an hour; "H:MM:SS" without a leading zero reading back as t from an hour on |
| TrendingView.FormatNumber | components/TrendingView.tsx:76-80 | the 억 branch exactly from 10^8 (value·10^8 = n); the 만 branch exactly for 10^4 ≤ n < 10^8 with n/10^4 rounded half up; plain below 10^4 |
| TrendingView.ManRange | components/TrendingView.tsx:78 | the 만 count is 1..10000, and 99 999 999 gives 10000만 |
| AdminDashboard.FormatPlan | components/AdminDashboard.tsx:103-116 | "무료 회원" without a subscription; "만료됨" for expired; otherwise PRO, PREMIUM or FREE by plan |
| AdminDashboard.CouponSubscriptionsShowFree | components/AdminDashboard.tsx:108-115 | every subscription a coupon grants is labelled "FREE" |
| AdminDashboard.PlanLabelsDistinct | components/AdminDashboard.tsx:103-116 | equal labels mean the same absence, expiry and pro-ness |
| AdminDashboard.FormatDuration | components/AdminDashboard.tsx:84-85 | "2주(체험)" for 0.5; months as decimal digits followed by "개월" otherwise |
| AdminDashboard.FormatDurationInjective | components/AdminDashboard.tsx:84-85 | different durations get different labels |
| AdminDashboard.ForceDeleteTarget | components/AdminDashboard.tsx:95-100 | no deletion exactly for "admin@test.com"; otherwise that email |
| AdminDashboard.ConstantKeyOrdersEverything | components/AdminDashboard.tsx:36-39 | with every comparison equal, any order counts as sorted |
| AdminDashboard.SortedCopy | components/AdminDashboard.tsx:36-60 | a sorted permutation, stable for every key, unchanged when already ordered |
| AdminDashboard.SortMembers | components/AdminDashboard.tsx:55-61 | a permutation of the members ordered by joinedAt, newest first |
| AdminDashboard.SortCoupons | components/AdminDashboard.tsx:35-40 | the coupons keep their loaded order |
| AdminDashboard.Dashboard.constructor | components/AdminDashboard.tsx:30-50 | no coupons, no batch and no members shown |
| AdminDashboard.Dashboard.LoadCoupons | components/AdminDashboard.tsx:32-44 | the shown coupons are the store's, in store order |
| AdminDashboard.Dashboard.ShowMembers | components/AdminDashboard.tsx:55-61 | the shown members are the given ones, newest first |
| AdminDashboard.Dashboard.LoadMembers | components/AdminDashboard.tsx:52-65 | the mock provider has no users, so none are shown |
| AdminDashboard.Dashboard.HandleGenerate | components/AdminDashboard.tsx:78-82 | count fresh coupons are kept as the batch, prepended to the store, and shown |
| AdminDashboard.Dashboard.HandleForceDeleteMember | components/AdminDashboard.tsx:95-101 | the admin email changes nothing; any other reloads the (empty) member list; the auth state is unchanged |

## Left out

- Network calls: the YouTube Data API fetches (channel lookup, the id paging loop, keyword search retries, trending, categories, comments, the API-key test), the Supabase profile fetch and the comment fetch. Their results are parameters of the model.
- Gemini calls, prompts and `api/generate.ts`: wrappers over an SDK whose code is not part of this model.
- `parseJsonClean`, `JSON.parse` itself and request-body parsing in the server handler: foreign builtins. An unparsable body is one constructor of the request.
- The base64 "encryption" helpers and `base64ToUint8Array`: builtins with no logic of their own.
- `localStorage`: the coupon store is an in-memory field, with no persistence and no cross-tab atomicity.
- `requestPayment` and the PortOne widget: a foreign payment callback. Only its plan lookup is modelled (`SubscriptionService.FindPlan`).
- JS `Date`: ISO strings, `setMonth` overflow and `toLocaleDateString`. End dates are symbolic ("14 days after start", "m months after start").
- `toFixed(1)`, the "일" suffix and `Intl.NumberFormat`. Day averages are exact reals, and the 억 and plain branches of `formatNumber` give the branch and the value, not the printed text.
- The `Intl` compact `formatNumber` of the keyword video view: display formatting only.
- IEEE floating point: rounding error, `NaN` and `Infinity`. Reals stand in for floats.
- SubscriptionService.CouponStore.GenerateCoupons: the count is a `nat`. In the source it is a JS number read from a typed input (`Number(e.target.value)`, components/AdminDashboard.tsx:166; `min`/`max` do not clamp typed text). The loop `i < count` then issues ⌈count⌉ coupons for a fractional count and none for 0, a negative count or `NaN`; those counts are not modelled.
- AdminDashboard.Dashboard.HandleGenerate: takes the count as a `nat`, like `GenerateCoupons`. Fractional, negative and `NaN` counts from the input field are not modelled.
- YouTubeService.AnalyzeItem: when both the medium and the default thumbnail are missing, the source stores `undefined` and the model stores `""`.
- `Math.random`: a nondeterministic choice per character. The retry loop's redraws are modelled as one particular sequence of draws.
- The coupon `id` (`Date.now()` plus random text): unused by any model operation.
- `createdAt`/`usedAt`: one "now" per call.
- The one-second `setTimeout` in `redeemCoupon`, `Promise.all`, and interleavings of asynchronous handlers: each call is atomic.
- React rendering, effects scheduling, the admin tab switch effect, `copyToClipboard`, and the modal flags other than login, API key and the three report modals: UI only.
- The module-level hook call in `Lockcard.tsx` (line 4): it has no effect on the decision.
- The `profile`/`loading` values `ScriptGenerator.tsx` reads, which the auth provider does not supply: they are inputs of the guard.
- The `requiredPlan` prop that `KeywordVideoAnalysisView` passes to `ProtectedRoute`: it is ignored, which is the default-flags case of `Guards.ProtectedRoute`.
- A `videoUrl` or `userId` that is present but not a string: the handler would throw and answer 500. The model takes both as optional strings.
- UTF-16 strings: characters are Dafny `char`, with no surrogate pairs.
- The pure UI components (thumbnail clinic, image generation, guide, keyword analysis, shorts generation, paywall, coupon modal) and the type-only files: no logic to model.
- TrendingView.FormatDuration: `NaN` and fractional seconds are not modelled, because every duration the service produces is a whole number of seconds.
- YouTubeService.ExtractHashtags: the contract states the shape of each tag and the round trip from rendered tags, not an occurrence-by-occurrence description of arbitrary text.
- YouTubeService.StatsFor: `Math.round(x / 0)` is `NaN` or `Infinity` in the source; the model gives no value instead.
- Auth.AuthProvider.GetAllUsers: the mock returns no users, so the provider has no user list to model.

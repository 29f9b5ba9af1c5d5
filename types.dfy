/**
 * The record shapes the core passes around (users, subscriptions, coupons,
 * analysed videos, channels). Dates are integers: milliseconds since the epoch.
 */
module Types {
  import opened Wrappers

  type Timestamp = int

  /** A subscription's status string. */
  datatype SubscriptionStatus = Active | Expired | NoStatus

  /**
   * When a subscription ends, relative to its start. The calendar arithmetic
   * (`setDate`, `setMonth`) that turns this into a date is not modelled.
   */
  datatype EndDate = DaysAfterStart(days: nat) | MonthsAfterStart(months: nat)

  /** The plan is kept as the plan string the code stores ('pro', 'trial', '3months', ...). */
  datatype Subscription = Subscription(plan: string, status: SubscriptionStatus, startDate: Timestamp, endDate: EndDate)

  datatype User = User(
    id: string,
    email: string,
    name: string,
    joinedAt: Timestamp,
    isAdmin: bool,
    subscription: Option<Subscription>)

  /** A coupon's duration class: the half-month trial (0.5) or a number of months. */
  datatype Duration = HalfMonth | Months(count: nat)

  /** The duration classes the coupon generator accepts: 0.5, 1, 3, 6 and 12. */
  predicate IssuableDuration(d: Duration) {
    d == HalfMonth || d == Months(1) || d == Months(3) || d == Months(6) || d == Months(12)
  }

  /** A stored coupon, in the shape the coupon service writes it. */
  datatype Coupon = Coupon(
    code: string,
    durationMonths: Duration,
    isUsed: bool,
    createdAt: Timestamp,
    usedBy: Option<string>,
    usedAt: Option<Timestamp>)

  datatype VideoType = Short | Regular

  datatype AnalyzedVideo = AnalyzedVideo(
    id: string,
    title: string,
    description: string,
    publishedAt: Timestamp,
    thumbnailUrl: string,
    tags: seq<string>,
    hashtags: seq<string>,
    viewCount: nat,
    likeCount: nat,
    commentCount: nat,
    popularityScore: real,
    duration: nat,
    videoType: VideoType,
    channelId: string,
    channelTitle: string,
    country: string)

  datatype YouTubeChannel = YouTubeChannel(
    id: string,
    title: string,
    description: string,
    thumbnailUrl: string,
    uploadsPlaylistId: string,
    videoCount: nat,
    publishedAt: Timestamp,
    subscriberCount: nat,
    viewCount: nat)
}

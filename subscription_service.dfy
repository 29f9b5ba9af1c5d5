/**
 * The subscription plans table and the coupon store: batch issuance of
 * unique codes and single-use redemption, which turns a coupon's duration
 * class into an active subscription. The stored coupon list is a field of
 * `CouponStore`.
 */
module SubscriptionService {
  import opened Wrappers
  import opened Types
  import opened CouponCodes

  // ---------------------------------------------------------------------------
  // Plans
  // ---------------------------------------------------------------------------

  datatype SubscriptionPlan = SubscriptionPlan(id: string, price: nat, durationMonths: nat, discount: Option<nat>)

  const SubscriptionPlans: seq<SubscriptionPlan> := [
    SubscriptionPlan("event_launch", 9900, 1, None),
    SubscriptionPlan("1month", 18900, 1, None),
    SubscriptionPlan("3months", 49900, 3, Some(12)),
    SubscriptionPlan("12months", 169000, 12, Some(25))
  ]

  /** The plan with the given id, the first one when several match. */
  function FindPlan(id: string): (r: Option<SubscriptionPlan>)
    ensures r.Some? ==> r.value in SubscriptionPlans && r.value.id == id
    ensures r.None? ==> forall p :: p in SubscriptionPlans ==> p.id != id
  {
    if id == "event_launch" then Some(SubscriptionPlans[0])
    else if id == "1month" then Some(SubscriptionPlans[1])
    else if id == "3months" then Some(SubscriptionPlans[2])
    else if id == "12months" then Some(SubscriptionPlans[3])
    else None
  }

  /**
   * A plan's advertised discount is its saving against paying the regular
   * one-month price for each of its months, rounded to the nearest percent.
   */
  lemma DiscountIsRoundedSaving()
    ensures forall p :: p in SubscriptionPlans && p.discount.Some? ==>
              var full := SubscriptionPlans[1].price * p.durationMonths;
              var error := 100 * (full - p.price) - p.discount.value * full;
              2 * (if error < 0 then -error else error) <= full
  {
  }

  // ---------------------------------------------------------------------------
  // What a coupon grants
  // ---------------------------------------------------------------------------

  /** `planMap[durationMonths] || 'trial'`. */
  function PlanFor(d: Duration): (plan: string)
    ensures d == Months(1) ==> plan == "1month"
    ensures d == Months(3) ==> plan == "3months"
    ensures d == Months(6) ==> plan == "6months"
    ensures d == Months(12) ==> plan == "12months"
    ensures !IssuableDuration(d) || d == HalfMonth ==> plan == "trial"
  {
    match d
    case HalfMonth => "trial"
    case Months(n) =>
      if n == 1 then "1month" else if n == 3 then "3months" else if n == 6 then "6months"
      else if n == 12 then "12months" else "trial"
  }

  /** Different issuable duration classes lead to different plans. */
  lemma PlanForInjective(d1: Duration, d2: Duration)
    requires IssuableDuration(d1) && IssuableDuration(d2) && PlanFor(d1) == PlanFor(d2)
    ensures d1 == d2
  {
  }

  /**
   * An active subscription starting now: two weeks for the half-month class,
   * otherwise `durationMonths` calendar months.
   */
  function SubscriptionFromCoupon(d: Duration, now: Timestamp): (s: Subscription)
    ensures s.status == Active && s.startDate == now && s.plan == PlanFor(d)
    ensures d == HalfMonth ==> s.endDate == DaysAfterStart(14)
    ensures d.Months? ==> s.endDate == MonthsAfterStart(d.count)
  {
    Subscription(PlanFor(d), Active, now, if d == HalfMonth then DaysAfterStart(14) else MonthsAfterStart(d.count))
  }

  // ---------------------------------------------------------------------------
  // The coupon list
  // ---------------------------------------------------------------------------

  /** `findIndex(c => c.code === code)`: the first coupon with the code. */
  function FindCode(coupons: seq<Coupon>, code: string): (r: Option<nat>)
    ensures r.None? <==> forall i :: 0 <= i < |coupons| ==> coupons[i].code != code
    ensures r.Some? ==> r.value < |coupons| && coupons[r.value].code == code
    ensures r.Some? ==> forall i :: 0 <= i < r.value ==> coupons[i].code != code
  {
    if coupons == [] then None
    else if coupons[0].code == code then Some(0)
    else match FindCode(coupons[1..], code)
      case None => None
      case Some(i) => Some(i + 1)
  }

  function CodesOf(coupons: seq<Coupon>): (codes: set<string>)
    ensures |codes| <= |coupons|
    ensures forall i :: 0 <= i < |coupons| ==> coupons[i].code in codes
    ensures forall x :: x in codes ==> exists i :: 0 <= i < |coupons| && coupons[i].code == x
  {
    if coupons == [] then {} else {coupons[0].code} + CodesOf(coupons[1..])
  }

  predicate UniqueCodes(coupons: seq<Coupon>) {
    forall i, j :: 0 <= i < j < |coupons| ==> coupons[i].code != coupons[j].code
  }

  function UnusedCount(coupons: seq<Coupon>): nat {
    if coupons == [] then 0 else (if coupons[0].isUsed then 0 else 1) + UnusedCount(coupons[1..])
  }

  lemma {:induction false} UnusedCountUpdate(coupons: seq<Coupon>, i: nat, c: Coupon)
    requires i < |coupons| && !coupons[i].isUsed && c.isUsed
    ensures UnusedCount(coupons[i := c]) + 1 == UnusedCount(coupons)
  {
    if i > 0 {
      assert coupons[i := c][1..] == coupons[1..][i - 1 := c];
      UnusedCountUpdate(coupons[1..], i - 1, c);
    } else {
      assert coupons[i := c][1..] == coupons[1..];
    }
  }

  // ---------------------------------------------------------------------------
  // Redemption, as a function of the stored list
  // ---------------------------------------------------------------------------

  datatype RedeemError = InvalidCode | AlreadyUsed

  function ErrorMessage(e: RedeemError): string {
    match e
    case InvalidCode => "유효하지 않은 쿠폰 코드입니다."
    case AlreadyUsed => "이미 사용된 쿠폰입니다."
  }

  /** The coupon after it has been redeemed by `email` at `now`. */
  function MarkUsed(c: Coupon, email: string, now: Timestamp): (r: Coupon)
    ensures r.isUsed && r.usedBy == Some(email) && r.usedAt == Some(now)
    ensures r.code == c.code && r.durationMonths == c.durationMonths && r.createdAt == c.createdAt
  {
    c.(isUsed := true, usedBy := Some(email), usedAt := Some(now))
  }

  datatype RedeemOutcome = RedeemOutcome(result: Result<User, RedeemError>, coupons: seq<Coupon>)

  /**
   * `redeemCoupon(user, code)`: an unknown code fails with InvalidCode and
   * a used coupon with AlreadyUsed, both leaving the list as it was;
   * otherwise the first coupon with the code is marked used and the user
   * gets the subscription the coupon grants.
   */
  function Redeem(coupons: seq<Coupon>, user: User, code: string, now: Timestamp): (o: RedeemOutcome)
    ensures o.result.Failure? ==> o.coupons == coupons
    ensures o.result == Failure(InvalidCode) <==> forall i :: 0 <= i < |coupons| ==> coupons[i].code != code
    ensures |o.coupons| == |coupons|
  {
    match FindCode(coupons, code)
    case None => RedeemOutcome(Failure(InvalidCode), coupons)
    case Some(i) =>
      var coupon := coupons[i];
      if coupon.isUsed then RedeemOutcome(Failure(AlreadyUsed), coupons)
      else RedeemOutcome(
        Success(user.(subscription := Some(SubscriptionFromCoupon(coupon.durationMonths, now)))),
        coupons[i := MarkUsed(coupon, user.email, now)])
  }

  /** Redemption succeeds exactly when the first coupon with the code is unused. */
  lemma RedeemSucceedsIff(coupons: seq<Coupon>, user: User, code: string, now: Timestamp)
    ensures Redeem(coupons, user, code, now).result.Success?
        <==> exists i :: 0 <= i < |coupons| && coupons[i].code == code && !coupons[i].isUsed
                        && forall j :: 0 <= j < i ==> coupons[j].code != code
  {
    var r := FindCode(coupons, code);
    if r.Some? {
      var i := r.value;
      forall k | 0 <= k < |coupons| && coupons[k].code == code && forall j :: 0 <= j < k ==> coupons[j].code != code
        ensures k == i
      {
      }
    }
  }

  /**
   * A successful redemption changes only the matched coupon, which becomes
   * used by the user at `now`, and grants the coupon's subscription.
   */
  lemma RedeemChangesOnlyMatched(coupons: seq<Coupon>, user: User, code: string, now: Timestamp)
    requires Redeem(coupons, user, code, now).result.Success?
    ensures var o := Redeem(coupons, user, code, now);
            exists i :: 0 <= i < |coupons| && coupons[i].code == code && !coupons[i].isUsed
                        && o.coupons == coupons[i := MarkUsed(coupons[i], user.email, now)]
                        && o.result.value.subscription == Some(SubscriptionFromCoupon(coupons[i].durationMonths, now))
  {
    var i := FindCode(coupons, code).value;
    assert coupons[i].code == code;
  }

  /** A second redemption of a redeemed code fails with AlreadyUsed, whoever tries. */
  lemma RedeemTwiceFails(coupons: seq<Coupon>, user: User, other: User, code: string, now: Timestamp, later: Timestamp)
    requires Redeem(coupons, user, code, now).result.Success?
    ensures var after := Redeem(coupons, user, code, now).coupons;
            Redeem(after, other, code, later) == RedeemOutcome(Failure(AlreadyUsed), after)
  {
    var i := FindCode(coupons, code).value;
    var after := Redeem(coupons, user, code, now).coupons;
    assert after == coupons[i := MarkUsed(coupons[i], user.email, now)];
    assert FindCode(after, code) == Some(i) by {
      assert after[i].code == code;
    }
  }

  /** A successful redemption uses up exactly one unused coupon. */
  lemma RedeemUsesOneCoupon(coupons: seq<Coupon>, user: User, code: string, now: Timestamp)
    requires Redeem(coupons, user, code, now).result.Success?
    ensures UnusedCount(Redeem(coupons, user, code, now).coupons) + 1 == UnusedCount(coupons)
  {
    var i := FindCode(coupons, code).value;
    UnusedCountUpdate(coupons, i, MarkUsed(coupons[i], user.email, now));
  }

  /** Redemption never changes which codes exist, so it keeps them unique. */
  lemma RedeemKeepsCodes(coupons: seq<Coupon>, user: User, code: string, now: Timestamp)
    ensures var after := Redeem(coupons, user, code, now).coupons;
            forall i :: 0 <= i < |coupons| ==> after[i].code == coupons[i].code
    ensures UniqueCodes(coupons) ==> UniqueCodes(Redeem(coupons, user, code, now).coupons)
  {
  }

  /** One new unused coupon of class `d` whose code is neither stored nor already in the batch. */
  method IssueCoupon(stored: seq<Coupon>, batch: seq<Coupon>, d: Duration, now: Timestamp) returns (coupon: Coupon)
    requires |stored| + |batch| < CodeSpace
    ensures coupon.durationMonths == d && !coupon.isUsed && coupon.createdAt == now
    ensures coupon.usedBy.None? && coupon.usedAt.None? && IsCouponCode(coupon.code)
    ensures forall e :: e in stored ==> e.code != coupon.code
    ensures forall k :: 0 <= k < |batch| ==> batch[k].code != coupon.code
  {
    var taken := CodesOf(stored) + CodesOf(batch);
    var code := FreshCode(taken);
    coupon := Coupon(code, d, false, now, None, None);
    forall e | e in stored ensures e.code != code {
      var k :| 0 <= k < |stored| && stored[k] == e;
    }
  }

  // ---------------------------------------------------------------------------
  // The store
  // ---------------------------------------------------------------------------

  /** The stored coupon list, newest batch first. */
  class CouponStore {
    var coupons: seq<Coupon>

    constructor()
      ensures coupons == []
    {
      coupons := [];
    }

    /** `getCoupons()`. */
    method GetCoupons() returns (r: seq<Coupon>)
      ensures r == coupons
    {
      r := coupons;
    }

    /**
     * `generateCoupons(d, count)`: `count` new unused coupons of class `d`
     * with well-formed codes that are new to the store and to the batch,
     * stored in front of the existing ones. The code space has to have room
     * for them, or the retry loop would never end.
     */
    method GenerateCoupons(d: Duration, count: nat, now: Timestamp) returns (batch: seq<Coupon>)
      requires |coupons| + count <= CodeSpace
      modifies this
      ensures |batch| == count
      ensures forall c :: c in batch ==>
                && c.durationMonths == d && !c.isUsed && c.createdAt == now
                && c.usedBy.None? && c.usedAt.None? && IsCouponCode(c.code)
      ensures UniqueCodes(batch)
      ensures forall c, e :: c in batch && e in old(coupons) ==> c.code != e.code
      ensures coupons == batch + old(coupons)
      ensures UniqueCodes(old(coupons)) ==> UniqueCodes(coupons)
    {
      var current := coupons;
      var newCoupons: seq<Coupon> := [];
      var i := 0;
      while i < count
        invariant 0 <= i <= count && |newCoupons| == i
        invariant forall c :: c in newCoupons ==>
                    && c.durationMonths == d && !c.isUsed && c.createdAt == now
                    && c.usedBy.None? && c.usedAt.None? && IsCouponCode(c.code)
        invariant UniqueCodes(newCoupons)
        invariant forall c, e :: c in newCoupons && e in current ==> c.code != e.code
      {
        var coupon := IssueCoupon(current, newCoupons, d, now);
        newCoupons := newCoupons + [coupon];
        i := i + 1;
      }
      coupons := newCoupons + current;
      batch := newCoupons;
      if UniqueCodes(current) {
        forall a, b | 0 <= a < b < |coupons| ensures coupons[a].code != coupons[b].code {
          if a < |batch| && b >= |batch| {
            assert coupons[a] in batch && coupons[b] in current;
          }
        }
      }
    }

    /** `redeemCoupon(user, code)` on the stored list. */
    method RedeemCoupon(user: User, code: string, now: Timestamp) returns (r: Result<User, RedeemError>)
      modifies this
      ensures RedeemOutcome(r, coupons) == Redeem(old(coupons), user, code, now)
    {
      var couponIndex := FindCode(coupons, code);
      if couponIndex.None? {
        return Failure(InvalidCode);
      }
      var coupon := coupons[couponIndex.value];
      if coupon.isUsed {
        return Failure(AlreadyUsed);
      }
      coupons := coupons[couponIndex.value := MarkUsed(coupon, user.email, now)];
      r := Success(user.(subscription := Some(SubscriptionFromCoupon(coupon.durationMonths, now))));
    }
  }
}

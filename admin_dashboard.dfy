/**
 * The admin dashboard's coupon and member panels: the labels it prints for a
 * plan and a coupon duration, the guard that keeps the admin account from
 * being deleted, and the order in which coupons and members are listed.
 */
module AdminDashboard {
  import opened Wrappers
  import opened Types
  import opened Text
  import Sorting
  import CouponCodes
  import SubscriptionService
  import Auth

  // ---------------------------------------------------------------------------
  // Labels
  // ---------------------------------------------------------------------------

  const NoSubscriptionLabel := "무료 회원"
  const ExpiredLabel := "만료됨"
  const ProLabel := "PRO 멤버십"
  const PremiumLabel := "PREMIUM 멤버십"
  const FreeLabel := "FREE"

  /** The membership column of the member list. */
  function FormatPlan(info: Option<Subscription>): (text: string)
    ensures info.None? ==> text == NoSubscriptionLabel
    ensures info.Some? && info.value.status == Expired ==> text == ExpiredLabel
    ensures info.Some? && info.value.status != Expired ==>
              text == (if info.value.plan == "pro" then ProLabel
                       else if info.value.plan == "premium" then PremiumLabel
                       else FreeLabel)
  {
    match info
    case None => NoSubscriptionLabel
    case Some(s) =>
      if s.status == Expired then ExpiredLabel
      else if s.plan == "pro" then ProLabel
      else if s.plan == "premium" then PremiumLabel
      else FreeLabel
  }

  /**
   * Every subscription a coupon grants ('trial', '1month', ... '12months')
   * is listed as FREE: only the plan names 'pro' and 'premium', which no
   * coupon produces, get a membership label.
   */
  lemma CouponSubscriptionsShowFree(d: Duration, now: Timestamp)
    ensures FormatPlan(Some(SubscriptionService.SubscriptionFromCoupon(d, now))) == FreeLabel
  {
    var s := SubscriptionService.SubscriptionFromCoupon(d, now);
    assert s.plan != "pro" && s.plan != "premium" by {
      assert |"pro"| == 3 && |"premium"| == 7;
      assert s.plan[0] != 'p';
    }
  }

  /** The five labels are pairwise different, so the label tells the case apart. */
  lemma PlanLabelsDistinct(a: Option<Subscription>, b: Option<Subscription>)
    requires FormatPlan(a) == FormatPlan(b)
    ensures a.None? <==> b.None?
    ensures a.Some? && b.Some? ==> (a.value.status == Expired <==> b.value.status == Expired)
    ensures a.Some? && b.Some? && a.value.status != Expired && b.value.status != Expired ==>
              (a.value.plan == "pro" <==> b.value.plan == "pro")
  {
    var labels := [NoSubscriptionLabel, ExpiredLabel, ProLabel, PremiumLabel, FreeLabel];
    assert NoSubscriptionLabel[0] != ExpiredLabel[0];
    assert forall i, j :: 0 <= i < j < 5 ==> labels[i] != labels[j] by {
      assert NoSubscriptionLabel[0] == '무' && ExpiredLabel[0] == '만';
      assert ProLabel[1] == 'R' && PremiumLabel[1] == 'R' && ProLabel[2] == 'O' && PremiumLabel[2] == 'E';
      assert FreeLabel[0] == 'F';
    }
  }

  const TrialLabel := "2주(체험)"
  const MonthSuffix := "개월"

  /** The duration column of the coupon list: the half-month trial, or "n개월". */
  function FormatDuration(d: Duration): (text: string)
    ensures d == HalfMonth ==> text == TrialLabel
    ensures d.Months? ==> |text| > 2 && text[|text| - 2..] == MonthSuffix
                          && AllDigits(text[..|text| - 2]) && DigitsValue(text[..|text| - 2]) == d.count
  {
    match d
    case HalfMonth => TrialLabel
    case Months(n) =>
      var digits := NatToString(n);
      NatToStringValue(n);
      assert (digits + MonthSuffix)[..|digits|] == digits;
      digits + MonthSuffix
  }

  /** Different durations are printed differently. */
  lemma FormatDurationInjective(d1: Duration, d2: Duration)
    requires FormatDuration(d1) == FormatDuration(d2)
    ensures d1 == d2
  {
    var t := FormatDuration(d1);
    if d1.Months? && d2.Months? {
      assert DigitsValue(t[..|t| - 2]) == d1.count == d2.count;
    }
  }

  // ---------------------------------------------------------------------------
  // Member deletion
  // ---------------------------------------------------------------------------

  const ProtectedEmail := "admin@test.com"

  /** The account `handleForceDeleteMember` asks to delete, or None when it refuses. */
  function ForceDeleteTarget(email: string): (target: Option<string>)
    ensures target.None? <==> email == ProtectedEmail
    ensures target.Some? ==> target.value == email
  {
    if email == ProtectedEmail then None else Some(email)
  }

  // ---------------------------------------------------------------------------
  // List order
  // ---------------------------------------------------------------------------

  /** The member sort key: the join time, latest first. */
  function JoinedKey(u: User): real {
    u.joinedAt as real
  }

  /**
   * The coupon sort key. A coupon has no `expiresAt` field, so the
   * comparator subtracts two invalid dates and yields NaN for every pair,
   * which the array sort treats as "equal": the key is a constant.
   */
  function ExpiryKey(c: Coupon): real {
    0.0
  }

  lemma ConstantKeyOrdersEverything(s: seq<Coupon>)
    ensures Sorting.NonIncreasing(s, ExpiryKey)
  {
  }

  /** A copy of `s` sorted stably descending by `key`, keeping `s` when it is already ordered. */
  method SortedCopy<T>(s: seq<T>, key: T -> real) returns (r: seq<T>)
    ensures Sorting.NonIncreasing(r, key)
    ensures multiset(r) == multiset(s)
    ensures Sorting.NonIncreasing(s, key) ==> r == s
    ensures forall k :: Sorting.WithKey(r, key, k) == Sorting.WithKey(s, key, k)
  {
    var a := new T[|s|](i requires 0 <= i < |s| => s[i]);
    assert a[..] == s;
    Sorting.SortDescendingBy(a, key);
    r := a[..];
  }

  /** `loadMembers`' ordering: latest join first, the same members. */
  method SortMembers(users: seq<User>) returns (sorted: seq<User>)
    ensures multiset(sorted) == multiset(users)
    ensures forall i, j :: 0 <= i < j < |sorted| ==> sorted[i].joinedAt >= sorted[j].joinedAt
  {
    sorted := SortedCopy(users, JoinedKey);
    forall i, j | 0 <= i < j < |sorted| ensures sorted[i].joinedAt >= sorted[j].joinedAt {
      assert JoinedKey(sorted[i]) >= JoinedKey(sorted[j]);
    }
  }

  /** `loadCoupons`' ordering: the stored order, unchanged. */
  method SortCoupons(result: seq<Coupon>) returns (sorted: seq<Coupon>)
    ensures sorted == result
  {
    ConstantKeyOrdersEverything(result);
    sorted := SortedCopy(result, ExpiryKey);
  }

  /** The dashboard's coupon list, the batch it generated last and its member list. */
  class Dashboard {
    var coupons: seq<Coupon>
    var generatedCoupons: seq<Coupon>
    var registeredUsers: seq<User>

    constructor()
      ensures coupons == [] && generatedCoupons == [] && registeredUsers == []
    {
      coupons := [];
      generatedCoupons := [];
      registeredUsers := [];
    }

    /** `loadCoupons`: the stored coupons, in the store's order (newest batch first). */
    method LoadCoupons(store: SubscriptionService.CouponStore)
      modifies this`coupons
      ensures coupons == store.coupons
    {
      var result := store.GetCoupons();
      var sorted := SortCoupons(result);
      coupons := sorted;
    }

    /** The list `loadMembers` stores for fetched users: the same users, latest join first. */
    method ShowMembers(users: seq<User>)
      modifies this`registeredUsers
      ensures multiset(registeredUsers) == multiset(users)
      ensures forall i, j :: 0 <= i < j < |registeredUsers| ==>
                registeredUsers[i].joinedAt >= registeredUsers[j].joinedAt
    {
      var sorted := SortMembers(users);
      registeredUsers := sorted;
    }

    /** `loadMembers`: the user directory the provider hands back is always empty. */
    method LoadMembers(auth: Auth.AuthProvider)
      modifies this`registeredUsers
      ensures registeredUsers == []
    {
      var users := auth.GetAllUsers();
      ShowMembers(users);
    }

    /**
     * `handleGenerate`: issues `count` coupons of class `d`, shows the batch
     * and reloads the list, which then starts with that batch.
     */
    method HandleGenerate(store: SubscriptionService.CouponStore, d: Duration, count: nat, now: Timestamp)
      requires |store.coupons| + count <= CouponCodes.CodeSpace
      modifies this`coupons, this`generatedCoupons, store
      ensures |generatedCoupons| == count
      ensures forall c :: c in generatedCoupons ==> c.durationMonths == d && !c.isUsed
      ensures store.coupons == generatedCoupons + old(store.coupons)
      ensures coupons == store.coupons
    {
      var batch := store.GenerateCoupons(d, count, now);
      generatedCoupons := batch;
      LoadCoupons(store);
    }

    /**
     * `handleForceDeleteMember`: the admin account is never deleted and the
     * list is left alone; any other address is passed to `deleteUser`, and
     * the member list is reloaded afterwards.
     */
    method HandleForceDeleteMember(email: string, auth: Auth.AuthProvider)
      modifies this`registeredUsers, auth
      ensures email == ProtectedEmail ==> registeredUsers == old(registeredUsers)
      ensures email != ProtectedEmail ==> registeredUsers == []
      ensures auth.State() == old(auth.State())
    {
      match ForceDeleteTarget(email)
      case None =>
        return;
      case Some(target) =>
        auth.DeleteUser(target);
        LoadMembers(auth);
    }
  }
}

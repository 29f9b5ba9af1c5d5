/**
 * The mock authentication provider: six pieces of state and the operations
 * that set them. `AuthProvider` is the stateful object; `Step` is the same
 * transition on snapshots, over which reachable states are characterised.
 */
module Auth {
  import opened Wrappers
  import opened Types

  /** 2025-01-01T00:00:00Z in milliseconds, the mock user's join date. */
  const MockJoinedAt: Timestamp := 1735689600000

  /** The user record `login` creates. */
  function MockUser(email: string): (u: User)
    ensures u.email == email && !u.isAdmin && u.subscription.None?
  {
    User(id := "1", email := email, name := "Mock User", joinedAt := MockJoinedAt, isAdmin := false, subscription := None)
  }

  datatype AuthState = AuthState(
    user: Option<User>,
    isAuthenticated: bool,
    isSubscribed: bool,
    isCouponUsed: bool,
    isAdmin: bool,
    isLoading: bool)

  const Initial: AuthState := AuthState(None, false, false, false, false, true)

  datatype AuthOp =
    | Login(email: string)
    | Signup(email: string)
    | Signout
    | UpdateSubscriptionStatus
    | ApplyCoupon(couponCode: string)
    | GetAllUsers
    | DeleteUser(id: string)

  /**
   * The state after one operation. Login authenticates the mock user for
   * the email and ends loading; signout drops the user and the
   * authentication and nothing else; the two purchase operations set the
   * subscription flag; the rest change nothing. No operation grants administrator rights or clears a flag.
   */
  function Step(s: AuthState, op: AuthOp): (t: AuthState)
    ensures op.Login? ==> t.isAuthenticated && t.user == Some(MockUser(op.email)) && !t.isLoading
    ensures op.Signout? ==> !t.isAuthenticated && t.user.None? && t.isLoading == s.isLoading
    ensures op.Signout? ==> t.isSubscribed == s.isSubscribed && t.isCouponUsed == s.isCouponUsed
    ensures op.UpdateSubscriptionStatus? || op.ApplyCoupon? ==> t.isSubscribed && t.user == s.user
    ensures op.ApplyCoupon? ==> t.isCouponUsed
    ensures op.Signup? || op.GetAllUsers? || op.DeleteUser? ==> t == s
    ensures t.isAdmin == s.isAdmin
    ensures (s.isSubscribed ==> t.isSubscribed) && (s.isCouponUsed ==> t.isCouponUsed)
    ensures SessionConsistent(s) ==> SessionConsistent(t)
    ensures NoAdmin(s) ==> NoAdmin(t)
  {
    match op
    case Login(email) => s.(isAuthenticated := true, user := Some(MockUser(email)), isLoading := false)
    case Signup(_) => s
    case Signout => s.(isAuthenticated := false, user := None)
    case UpdateSubscriptionStatus => s.(isSubscribed := true)
    case ApplyCoupon(_) => s.(isSubscribed := true, isCouponUsed := true)
    case GetAllUsers => s
    case DeleteUser(_) => s
  }

  /** The state after a sequence of operations. */
  function Run(s: AuthState, ops: seq<AuthOp>): AuthState
    decreases |ops|
  {
    if ops == [] then s else Run(Step(s, ops[0]), ops[1..])
  }

  /** Nobody is ever an administrator, neither by the flag nor by the user record. */
  predicate NoAdmin(s: AuthState) {
    !s.isAdmin && (s.user.Some? ==> !s.user.value.isAdmin)
  }

  /** Authenticated exactly when there is a user. */
  predicate SessionConsistent(s: AuthState) {
    s.isAuthenticated <==> s.user.Some?
  }

  lemma {:induction false} RunKeepsInvariants(s: AuthState, ops: seq<AuthOp>)
    requires NoAdmin(s) && SessionConsistent(s)
    ensures NoAdmin(Run(s, ops)) && SessionConsistent(Run(s, ops))
    decreases |ops|
  {
    if ops != [] {
      RunKeepsInvariants(Step(s, ops[0]), ops[1..]);
    }
  }

  /** Every reachable state has no administrator and a consistent session. */
  lemma ReachableInvariants(ops: seq<AuthOp>)
    ensures NoAdmin(Run(Initial, ops)) && SessionConsistent(Run(Initial, ops))
  {
    RunKeepsInvariants(Initial, ops);
  }

  /** The provider stays loading until the first login, and never loads again after it. */
  lemma {:induction false} LoadingUntilLogin(s: AuthState, ops: seq<AuthOp>)
    ensures Run(s, ops).isLoading <==> s.isLoading && forall k :: 0 <= k < |ops| ==> !ops[k].Login?
    decreases |ops|
  {
    if ops != [] {
      LoadingUntilLogin(Step(s, ops[0]), ops[1..]);
      assert forall k :: 1 <= k < |ops| ==> ops[k] == ops[1..][k - 1];
    }
  }

  /** Subscription and coupon flags are never cleared, not even by signout. */
  lemma {:induction false} FlagsNeverCleared(s: AuthState, ops: seq<AuthOp>)
    ensures s.isSubscribed ==> Run(s, ops).isSubscribed
    ensures s.isCouponUsed ==> Run(s, ops).isCouponUsed
    decreases |ops|
  {
    if ops != [] {
      FlagsNeverCleared(Step(s, ops[0]), ops[1..]);
    }
  }

  /** The provider's state, updated in place by its operations. */
  class AuthProvider {
    var user: Option<User>
    var isAuthenticated: bool
    var isSubscribed: bool
    var isCouponUsed: bool
    var isAdmin: bool
    var isLoading: bool

    function State(): AuthState
      reads this
    {
      AuthState(user, isAuthenticated, isSubscribed, isCouponUsed, isAdmin, isLoading)
    }

    predicate Valid()
      reads this
    {
      NoAdmin(State()) && SessionConsistent(State())
    }

    /** No user, every flag false, and loading. */
    constructor()
      ensures State() == Initial && Valid()
    {
      user := None;
      isAuthenticated := false;
      isSubscribed := false;
      isCouponUsed := false;
      isAdmin := false;
      isLoading := true;
    }

    /** The password is ignored: any email logs in as a non-admin mock user. */
    method Login(email: string, password: string)
      requires Valid()
      modifies this
      ensures State() == Step(old(State()), AuthOp.Login(email)) && Valid()
      ensures isAuthenticated && !isLoading && user == Some(MockUser(email))
      ensures isSubscribed == old(isSubscribed) && isCouponUsed == old(isCouponUsed) && isAdmin == old(isAdmin)
    {
      isAuthenticated := true;
      user := Some(MockUser(email));
      isLoading := false;
    }

    method Signup(email: string, password: string)
      modifies this
      ensures State() == Step(old(State()), AuthOp.Signup(email)) == old(State())
    {
    }

    /** Clears the session but keeps the subscription and coupon flags. */
    method Signout()
      requires Valid()
      modifies this
      ensures State() == Step(old(State()), AuthOp.Signout) && Valid()
      ensures !isAuthenticated && user.None?
      ensures isSubscribed == old(isSubscribed) && isCouponUsed == old(isCouponUsed)
      ensures isAdmin == old(isAdmin) && isLoading == old(isLoading)
    {
      isAuthenticated := false;
      user := None;
    }

    method UpdateSubscriptionStatus()
      requires Valid()
      modifies this
      ensures State() == Step(old(State()), AuthOp.UpdateSubscriptionStatus) && Valid()
      ensures State() == old(State()).(isSubscribed := true)
    {
      isSubscribed := true;
    }

    /** Succeeds for every code, whatever it is. */
    method ApplyCoupon(couponCode: string) returns (ok: bool)
      requires Valid()
      modifies this
      ensures ok
      ensures State() == Step(old(State()), AuthOp.ApplyCoupon(couponCode)) && Valid()
      ensures State() == old(State()).(isSubscribed := true, isCouponUsed := true)
    {
      isSubscribed := true;
      isCouponUsed := true;
      ok := true;
    }

    method GetAllUsers() returns (users: seq<User>)
      ensures users == []
    {
      users := [];
    }

    method DeleteUser(id: string)
      modifies this
      ensures State() == Step(old(State()), AuthOp.DeleteUser(id)) == old(State())
    {
    }
  }
}

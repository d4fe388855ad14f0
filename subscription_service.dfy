/**
 * services/subscriptionService.js: reading a user's subscription (errors read as "none"),
 * the active test, plan-limit resolution with the free tier as the fallback, and the
 * payment-success upsert that validates a UUID-shaped plan id and grants 30 days.
 */
module SubscriptionService {
  import opened Wrappers
  import opened Tiers
  import opened Db
  import opened JsText

  const ONE_DAY_SECONDS: int := 86400
  const DURATION_DAYS: int := 30

  /** `getSubscription(userId)`: a fetch error is swallowed and returned as `null`. */
  function GetSubscription(subscriptions: map<UserId, SubRow>, user: UserId, error: Option<string>): (r: Option<SubRow>)
    ensures r.Some? <==> error.None? && user in subscriptions
    ensures r.Some? ==> r.value == subscriptions[user]
  {
    match SubscriptionOf(subscriptions, user, error)
    case Row(row) => Some(row)
    case _ => None
  }

  /** A failed fetch is indistinguishable from a user without a subscription. */
  lemma FetchErrorLooksLikeNone(subscriptions: map<UserId, SubRow>, user: UserId, error: string)
    ensures GetSubscription(subscriptions, user, Some(error)) == GetSubscription(subscriptions - {user}, user, None)
  {
  }

  /** `isActive(userId)`: a subscription with an expiry strictly after now. */
  function IsActive(subscriptions: map<UserId, SubRow>, user: UserId, nowSeconds: int, error: Option<string>): (r: bool)
    ensures nowSeconds >= 0 ==>
      (r <==> error.None? && user in subscriptions && subscriptions[user].expiresAt.Some?
                && subscriptions[user].expiresAt.value > nowSeconds)
  {
    var sub := GetSubscription(subscriptions, user, error);
    if sub.None? || sub.value.expiresAt.None? || sub.value.expiresAt.value == 0 then false
    else sub.value.expiresAt.value > nowSeconds
  }

  /** The rows of `plans` whose `id` is `id`, in table order. */
  function PlansWithId(plans: seq<PlanRow>, id: PlanId): (r: seq<PlanRow>)
    ensures forall i :: 0 <= i < |r| ==> r[i] in plans && r[i].id == id
    ensures forall p :: p in plans && p.id == id ==> p in r
  {
    if plans == [] then []
    else (if plans[0].id == id then [plans[0]] else []) + PlansWithId(plans[1..], id)
  }

  /** `TIERS[name.toLowerCase()] || TIERS.free`. */
  function TierForName(name: string): (r: Tier)
    ensures r in TIERS.Values
    ensures ToLower(name) in TIERS ==> r == TIERS[ToLower(name)]
    ensures ToLower(name) !in TIERS ==> r == FREE
  {
    var key := ToLower(name);
    assert TIERS["free"] == FREE;
    if key in TIERS then TIERS[key] else FREE
  }

  /** `getPlanLimits(userId)`; `planError` is an error of the `plans` query. */
  function GetPlanLimits(subscriptions: map<UserId, SubRow>, plans: seq<PlanRow>, user: UserId,
                         subError: Option<string>, planError: Option<string>): (r: Tier)
    ensures r in TIERS.Values
    ensures r != FREE ==>
      subError.None? && planError.None? && user in subscriptions && subscriptions[user].planId.Some?
    ensures r != FREE ==> var rows := PlansWithId(plans, subscriptions[user].planId.value);
      |rows| == 1 && r == TierForName(rows[0].name)
    ensures (&& subError.None? && planError.None? && user in subscriptions && Truthy(subscriptions[user].planId)
             && |PlansWithId(plans, subscriptions[user].planId.value)| == 1) ==>
      r == TierForName(PlansWithId(plans, subscriptions[user].planId.value)[0].name)
  {
    var sub := GetSubscription(subscriptions, user, subError);
    assert TIERS["free"] == FREE;
    if sub.None? || !Truthy(sub.value.planId) then FREE
    else
      var rows := PlansWithId(plans, sub.value.planId.value);
      if planError.Some? || |rows| != 1 then FREE
      else TierForName(rows[0].name)
  }

  /**
   * The four fallbacks to the free tier: no subscription, no plan id, no single plan row,
   * and a plan name that names no tier.
   */
  lemma FreeTierFallbacks(subscriptions: map<UserId, SubRow>, plans: seq<PlanRow>, user: UserId, planError: Option<string>)
    ensures user !in subscriptions ==> GetPlanLimits(subscriptions, plans, user, None, planError) == FREE
    ensures user in subscriptions && subscriptions[user].planId.None? ==>
      GetPlanLimits(subscriptions, plans, user, None, planError) == FREE
    ensures user in subscriptions && subscriptions[user].planId.Some? && planError.Some? ==>
      GetPlanLimits(subscriptions, plans, user, None, planError) == FREE
    ensures (&& user in subscriptions && Truthy(subscriptions[user].planId) && planError.None?
             && |PlansWithId(plans, subscriptions[user].planId.value)| == 1
             && ToLower(PlansWithId(plans, subscriptions[user].planId.value)[0].name) !in TIERS) ==>
      GetPlanLimits(subscriptions, plans, user, None, planError) == FREE
  {
  }

  lemma {:induction false} ToLowerIdempotent(s: string)
    ensures ToLower(ToLower(s)) == ToLower(s)
  {
    if s != [] {
      ToLowerIdempotent(s[1..]);
      assert ToLower(s) == [LowerChar(s[0])] + ToLower(s[1..]);
    }
  }

  /** Plan names resolve case-insensitively: "Pro", "PRO" and "pro" are the same tier. */
  lemma PlanNameCaseInsensitive(name: string)
    ensures TierForName(name) == TierForName(ToLower(name))
    ensures TierForName("Pro") == PRO && TierForName("PRO") == PRO && TierForName("pro") == PRO
  {
    ToLowerIdempotent(name);
    assert ToLower("Pro") == "pro" && ToLower("PRO") == "pro";
  }

  /** Plan limits do not consult the expiry: an expired pro subscription still resolves to pro. */
  lemma PlanLimitsIgnoreExpiry(subscriptions: map<UserId, SubRow>, plans: seq<PlanRow>, user: UserId,
                               expiresAt: Option<int>, subError: Option<string>, planError: Option<string>)
    requires user in subscriptions
    ensures GetPlanLimits(subscriptions[user := subscriptions[user].(expiresAt := expiresAt)], plans, user, subError, planError)
         == GetPlanLimits(subscriptions, plans, user, subError, planError)
  {
  }

  predicate IsUuidChar(c: char) {
    '0' <= c <= '9' || 'a' <= c <= 'f' || 'A' <= c <= 'F' || c == '-'
  }

  /** `/^[0-9a-fA-F-]{36}$/.test(s)`. */
  predicate IsUuidShaped(s: string) {
    |s| == 36 && forall i :: 0 <= i < |s| ==> IsUuidChar(s[i])
  }

  lemma UuidShapeExamples()
    ensures IsUuidShaped("123e4567-e89b-12d3-a456-426614174000")
    ensures !IsUuidShaped("pro") && !IsUuidShaped("")
  {
  }

  /** The columns the payment-success upsert writes. */
  function GrantPatch(planId: PlanId, nowSeconds: int): SubPatch {
    SubPatch(Some(planId), None, Some(nowSeconds + DURATION_DAYS * ONE_DAY_SECONDS), None)
  }

  /**
   * A grant leaves the user's single row with the plan and an expiry exactly 30 days
   * (2,592,000 seconds) after now; that row is active at the moment of the grant.
   */
  lemma GrantedRow(subscriptions: map<UserId, SubRow>, user: UserId, planId: PlanId, nowSeconds: int)
    requires nowSeconds >= 0
    ensures var after := Upsert(subscriptions, user, GrantPatch(planId, nowSeconds));
      && after[user].planId == Some(planId)
      && after[user].expiresAt == Some(nowSeconds + 2592000)
      && IsActive(after, user, nowSeconds, None)
  {
  }

  /** A second grant to the same user overwrites the first. */
  lemma SecondGrantOverwrites(subscriptions: map<UserId, SubRow>, user: UserId, a: PlanId, b: PlanId, t1: int, t2: int)
    ensures Upsert(Upsert(subscriptions, user, GrantPatch(a, t1)), user, GrantPatch(b, t2))
         == Upsert(subscriptions, user, GrantPatch(b, t2))
  {
    LaterGrantWins(subscriptions, user, GrantPatch(a, t1), GrantPatch(b, t2));
  }

  /** `upsertSubscription(userId, planId)`: returns the row, or `None` for `null`. */
  method UpsertSubscription(db: Store, user: UserId, planId: Option<string>, nowSeconds: int, writeError: bool)
    returns (r: Option<SubRow>)
    modifies db`subscriptions
    ensures !(Truthy(planId) && IsUuidShaped(planId.value)) ==> r.None? && db.subscriptions == old(db.subscriptions)
    ensures writeError ==> r.None? && db.subscriptions == old(db.subscriptions)
    ensures Truthy(planId) && IsUuidShaped(planId.value) && !writeError ==>
      && db.subscriptions == Upsert(old(db.subscriptions), user, GrantPatch(planId.value, nowSeconds))
      && r == Some(db.subscriptions[user])
  {
    if !Truthy(planId) || !IsUuidShaped(planId.value) {
      return None;
    }
    var expiresAt := nowSeconds + DURATION_DAYS * ONE_DAY_SECONDS;
    if writeError {
      return None;
    }
    db.subscriptions := Upsert(db.subscriptions, user, SubPatch(Some(planId.value), None, Some(expiresAt), None));
    r := Some(db.subscriptions[user]);
  }
}

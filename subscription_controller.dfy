/**
 * controllers/subscriptionController.js: the `GET` handler for the caller's subscription,
 * and the grant used by signup and the payment webhook: `durationDays` (default 30) days
 * from now, status `active`, upserted on `user_id`, errors propagated to the caller.
 */
module SubscriptionController {
  import opened Wrappers
  import opened Db
  import opened JsText

  const DEFAULT_DURATION_DAYS: int := 30

  /** A day of `setDate(getDate() + 1)`, taken as 86,400 seconds. */
  const SECONDS_PER_DAY: int := 86400

  /** The status code, message and subscription row of the `getSubscription` reply. */
  datatype SubscriptionReply = SubscriptionReply(status: nat, msg: string, subscription: Option<SubRow>)

  /** `getSubscription(req, res)`; `error` is an error of the select. */
  function GetSubscription(userId: Option<UserId>, subscriptions: map<UserId, SubRow>, error: Option<string>)
    : (r: SubscriptionReply)
    ensures !Truthy(userId) ==> r == SubscriptionReply(401, "Unauthorized: No user ID found", None)
    ensures Truthy(userId) && error.Some? ==> r == SubscriptionReply(500, "Failed to load subscription data", None)
    ensures Truthy(userId) && error.None? && userId.value !in subscriptions ==>
      r == SubscriptionReply(404, "No active subscription found for this user", None)
    ensures r.status == 200 <==> Truthy(userId) && error.None? && userId.value in subscriptions
    ensures r.status == 200 ==> r.subscription == Some(subscriptions[userId.value])
    ensures r.status != 200 ==> r.subscription.None?
    ensures r.status in {200, 401, 404, 500}
  {
    if !Truthy(userId) then SubscriptionReply(401, "Unauthorized: No user ID found", None)
    else match SubscriptionOf(subscriptions, userId.value, error)
      case FetchError(_) => SubscriptionReply(500, "Failed to load subscription data", None)
      case NoRow => SubscriptionReply(404, "No active subscription found for this user", None)
      case Row(row) => SubscriptionReply(200, "", Some(row))
  }

  /** `durationDays = 30`: the default applies only when the argument is left out. */
  function DurationOrDefault(durationDays: Option<int>): (d: int)
    ensures durationDays.None? ==> d == 30
    ensures durationDays.Some? ==> d == durationDays.value
  {
    if durationDays.Some? then durationDays.value else DEFAULT_DURATION_DAYS
  }

  /** The columns a grant writes. */
  function GrantPatch(planId: PlanId, durationDays: int, nowSeconds: int): SubPatch {
    SubPatch(Some(planId), None, Some(nowSeconds + durationDays * SECONDS_PER_DAY), Some("active"))
  }

  /** Every grant leaves the user's one row active with the granted plan and expiry. */
  lemma GrantSetsActive(subscriptions: map<UserId, SubRow>, user: UserId, planId: PlanId, durationDays: int, nowSeconds: int)
    ensures var row := Upsert(subscriptions, user, GrantPatch(planId, durationDays, nowSeconds))[user];
      && row.status == Some("active") && row.planId == Some(planId)
      && row.expiresAt == Some(nowSeconds + durationDays * 86400)
  {
  }

  /** Two grants to one user leave one row, carrying the later plan and expiry. */
  lemma LaterGrantWinsRow(subscriptions: map<UserId, SubRow>, user: UserId, a: PlanId, da: int, ta: int, b: PlanId, db: int, tb: int)
    ensures Upsert(Upsert(subscriptions, user, GrantPatch(a, da, ta)), user, GrantPatch(b, db, tb))
         == Upsert(subscriptions, user, GrantPatch(b, db, tb))
  {
    LaterGrantWins(subscriptions, user, GrantPatch(a, da, ta), GrantPatch(b, db, tb));
  }

  /** `upsertSubscription(userId, plan_id, durationDays)`: the written row, or the error rethrown. */
  method UpsertSubscription(db: Store, user: UserId, planId: PlanId, durationDays: Option<int>, nowSeconds: int,
                            writeError: Option<string>) returns (r: Result<SubRow>)
    modifies db`subscriptions
    ensures writeError.Some? ==> r == Err(writeError.value) && db.subscriptions == old(db.subscriptions)
    ensures writeError.None? ==>
      && db.subscriptions == Upsert(old(db.subscriptions), user, GrantPatch(planId, DurationOrDefault(durationDays), nowSeconds))
      && r == Ok(db.subscriptions[user])
  {
    var days := DurationOrDefault(durationDays);
    var expiresAt := nowSeconds + days * SECONDS_PER_DAY;
    if writeError.Some? {
      return Err(writeError.value);
    }
    db.subscriptions := Upsert(db.subscriptions, user, SubPatch(Some(planId), None, Some(expiresAt), Some("active")));
    r := Ok(db.subscriptions[user]);
  }
}

/**
 * middleware/subscriptionMiddleware.js: `requireSubscription` lets a request through only
 * when the user's latest subscription row with `expires_at` strictly in the future exists
 * (`.gt("expires_at", now).order("expires_at", desc).limit(1)`), and attaches that row.
 */
module SubscriptionMiddleware {
  import opened Wrappers
  import opened Db
  import opened JsText
  import opened Http
  import SubscriptionService

  /** `expires_at > now` as SQL evaluates it: a `null` expiry never qualifies. */
  predicate ActiveAt(row: SubRow, nowSeconds: int) {
    row.expiresAt.Some? && row.expiresAt.value > nowSeconds
  }

  /**
   * The first row of the filtered, descending query: an active row whose expiry no other
   * active row exceeds, or none when no row is active.
   */
  function LatestActive(rows: seq<SubRow>, nowSeconds: int): (r: Option<SubRow>)
    ensures r.Some? <==> exists i :: 0 <= i < |rows| && ActiveAt(rows[i], nowSeconds)
    ensures r.Some? ==> r.value in rows && ActiveAt(r.value, nowSeconds)
    ensures r.Some? ==> forall i :: 0 <= i < |rows| && ActiveAt(rows[i], nowSeconds) ==>
      rows[i].expiresAt.value <= r.value.expiresAt.value
    decreases |rows|
  {
    if |rows| == 0 then None
    else
      var rest := LatestActive(rows[1..], nowSeconds);
      if ActiveAt(rows[0], nowSeconds) && (rest.None? || rest.value.expiresAt.value <= rows[0].expiresAt.value)
      then Some(rows[0])
      else rest
  }

  /** The rows `.eq("user_id", userId)` selects: subscriptions are unique per user. */
  function RowsOf(subscriptions: map<UserId, SubRow>, user: UserId): (r: seq<SubRow>)
    ensures user in subscriptions ==> r == [subscriptions[user]]
    ensures user !in subscriptions <==> r == []
  {
    if user in subscriptions then [subscriptions[user]] else []
  }

  /** Either `next()` is called with `req.subscription` set, or the request is answered. */
  datatype Verdict = Next(subscription: SubRow) | Answer(response: Response)

  /** `requireSubscription(req, res, next)`; `error` is an error of the query. */
  function RequireSubscription(subscriptions: map<UserId, SubRow>, userId: Option<UserId>, nowSeconds: int,
                               error: Option<string>): (r: Verdict)
    ensures !Truthy(userId) ==> r == Answer(Response(401, "Unauthorized: Please log in first"))
    ensures Truthy(userId) && error.Some? ==> r == Answer(Response(500, "Subscription check failed"))
    ensures r.Next? <==> Truthy(userId) && error.None? && userId.value in subscriptions
                          && ActiveAt(subscriptions[userId.value], nowSeconds)
    ensures r.Next? ==> r.subscription == subscriptions[userId.value]
    ensures Truthy(userId) && error.None?
            && !(userId.value in subscriptions && ActiveAt(subscriptions[userId.value], nowSeconds)) ==>
      r == Answer(Response(403, "No active subscription. Please upgrade your plan to continue."))
    ensures r.Answer? ==> r.response.status in {401, 403, 500}
  {
    if !Truthy(userId) then Answer(Response(401, "Unauthorized: Please log in first"))
    else if error.Some? then Answer(Response(500, "Subscription check failed"))
    else match LatestActive(RowsOf(subscriptions, userId.value), nowSeconds)
      case None => Answer(Response(403, "No active subscription. Please upgrade your plan to continue."))
      case Some(row) => Next(row)
  }

  /** The middleware and the service's `isActive` agree on every readable store. */
  lemma AgreesWithIsActive(subscriptions: map<UserId, SubRow>, user: UserId, nowSeconds: int)
    requires user != "" && nowSeconds >= 0
    ensures RequireSubscription(subscriptions, Some(user), nowSeconds, None).Next?
        <==> SubscriptionService.IsActive(subscriptions, user, nowSeconds, None)
  {
  }

  /** A subscription expiring exactly now is already refused, one second later it is still admitted. */
  lemma ExpiryBoundary(subscriptions: map<UserId, SubRow>, user: UserId, nowSeconds: int)
    requires user != "" && user in subscriptions
    ensures subscriptions[user].expiresAt == Some(nowSeconds) ==>
      RequireSubscription(subscriptions, Some(user), nowSeconds, None).Answer?
    ensures subscriptions[user].expiresAt == Some(nowSeconds + 1) ==>
      RequireSubscription(subscriptions, Some(user), nowSeconds, None).Next?
  {
  }
}

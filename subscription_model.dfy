/**
 * models/subscriptionModel.js: the older subscription data layer. It writes the `plan`
 * column with an integer expiry `now() + durationDays * 24 * 3600`, and rethrows every
 * store error.
 */
module SubscriptionModel {
  import opened Wrappers
  import opened Db

  /** `getSubscriptionByUserId(userId)`: the row or `null`; an error is rethrown. */
  function GetSubscriptionByUserId(subscriptions: map<UserId, SubRow>, user: UserId, error: Option<string>)
    : (r: Result<Option<SubRow>>)
    ensures r.Err? <==> error.Some?
    ensures r.Ok? ==> (r.value.Some? <==> user in subscriptions)
    ensures r.Ok? && r.value.Some? ==> r.value.value == subscriptions[user]
  {
    match SubscriptionOf(subscriptions, user, error)
    case FetchError(code) => Err(code)
    case Row(row) => Ok(Some(row))
    case NoRow => Ok(None)
  }

  /** The columns this upsert writes. */
  function ModelPatch(plan: string, durationDays: int, nowSeconds: int): SubPatch {
    SubPatch(None, Some(plan), Some(nowSeconds + durationDays * 24 * 3600), None)
  }

  /** `upsertSubscription(userId, plan, durationDays)`: returns the written row. */
  method UpsertSubscription(db: Store, user: UserId, plan: string, durationDays: int, nowSeconds: int,
                            writeError: Option<string>) returns (r: Result<SubRow>)
    modifies db`subscriptions
    ensures writeError.Some? ==> r == Err(writeError.value) && db.subscriptions == old(db.subscriptions)
    ensures writeError.None? ==>
      && db.subscriptions == Upsert(old(db.subscriptions), user, ModelPatch(plan, durationDays, nowSeconds))
      && r == Ok(db.subscriptions[user])
  {
    var expiresAt := nowSeconds + durationDays * 24 * 3600;
    if writeError.Some? {
      return Err(writeError.value);
    }
    db.subscriptions := Upsert(db.subscriptions, user, SubPatch(None, Some(plan), Some(expiresAt), None));
    r := Ok(db.subscriptions[user]);
  }

  /** JavaScript's `>` reads a `null` expiry as 0. */
  function ExpiryNumber(expiresAt: Option<int>): int {
    if expiresAt.Some? then expiresAt.value else 0
  }

  /** `isSubscriptionActive(userId)`: `sub && sub.expires_at > now()`, with `null` read as false. */
  function IsSubscriptionActive(subscriptions: map<UserId, SubRow>, user: UserId, nowSeconds: int, error: Option<string>)
    : (r: Result<bool>)
    ensures error.Some? ==> r == Err(error.value)
    ensures error.None? && nowSeconds >= 0 ==>
      (r == Ok(true) <==> user in subscriptions && subscriptions[user].expiresAt.Some?
                            && subscriptions[user].expiresAt.value > nowSeconds)
    ensures error.None? ==> r.Ok?
  {
    match GetSubscriptionByUserId(subscriptions, user, error)
    case Err(message) => Err(message)
    case Ok(sub) => Ok(sub.Some? && ExpiryNumber(sub.value.expiresAt) > nowSeconds)
  }

  /**
   * With the same clock reading, a just-upserted subscription is active exactly when it was
   * granted for at least one day.
   */
  lemma JustUpsertedIsActive(subscriptions: map<UserId, SubRow>, user: UserId, plan: string, durationDays: int, nowSeconds: int)
    ensures IsSubscriptionActive(Upsert(subscriptions, user, ModelPatch(plan, durationDays, nowSeconds)), user, nowSeconds, None)
         == Ok(durationDays >= 1)
  {
    var after := Upsert(subscriptions, user, ModelPatch(plan, durationDays, nowSeconds));
    assert after[user].expiresAt == Some(nowSeconds + durationDays * 86400);
  }

  /** The upsert keeps one row per user, and the latest plan and expiry win. */
  lemma LatestUpsertWins(subscriptions: map<UserId, SubRow>, user: UserId, p1: string, d1: int, t1: int,
                         p2: string, d2: int, t2: int)
    ensures Upsert(Upsert(subscriptions, user, ModelPatch(p1, d1, t1)), user, ModelPatch(p2, d2, t2))
         == Upsert(subscriptions, user, ModelPatch(p2, d2, t2))
  {
    LaterGrantWins(subscriptions, user, ModelPatch(p1, d1, t1), ModelPatch(p2, d2, t2));
  }
}

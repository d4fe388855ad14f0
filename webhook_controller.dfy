/**
 * controllers/webhookController.js: the Flutterwave webhook. A request is trusted only when
 * its `verif-hash` header is present and equal to the configured secret; a completed,
 * successful charge whose metadata names a user and a plan grants that plan through the
 * subscription controller, for `meta.duration` days or 30.
 */
module WebhookController {
  import opened Wrappers
  import opened Db
  import opened JsText
  import opened Http
  import SubscriptionController

  datatype Meta = Meta(userId: Option<UserId>, planId: Option<PlanId>, duration: Option<int>)
  datatype ChargeData = ChargeData(status: Option<string>, meta: Option<Meta>)
  datatype Payload = Payload(event: Option<string>, data: Option<ChargeData>)

  /** What the webhook does with a request before touching the store. */
  datatype Action = Reply(response: Response) | Grant(user: UserId, planId: PlanId, days: int)

  /** `data.meta?.duration || 30`: a missing or zero duration means 30 days. */
  function DurationOrThirty(duration: Option<int>): (d: int)
    ensures duration.None? || duration.value == 0 ==> d == 30
    ensures duration.Some? && duration.value != 0 ==> d == duration.value
  {
    if duration.Some? && duration.value != 0 then duration.value else 30
  }

  /** Lines 43-71 of the handler: signature, event filter and metadata. */
  function Classify(secretHash: Option<string>, signature: Option<string>, payload: Payload): (r: Action)
    ensures !Truthy(signature) || signature != secretHash ==> r == Reply(Response(401, "Unauthorized"))
    ensures r.Grant? <==>
      && Truthy(signature) && signature == secretHash
      && payload.event == Some("charge.completed") && payload.data.Some?
      && payload.data.value.status == Some("successful") && payload.data.value.meta.Some?
      && Truthy(payload.data.value.meta.value.userId) && Truthy(payload.data.value.meta.value.planId)
    ensures r.Grant? ==> var meta := payload.data.value.meta.value;
      && r.user == meta.userId.value && r.planId == meta.planId.value
      && r.days == DurationOrThirty(meta.duration)
    ensures Truthy(signature) && signature == secretHash && payload.event == Some("charge.completed")
            && payload.data.None? ==>
      r == Reply(Response(500, "Internal Server Error"))
    ensures Truthy(signature) && signature == secretHash && payload.event == Some("charge.completed")
            && payload.data.Some? && payload.data.value.status == Some("successful")
            && !(payload.data.value.meta.Some? && Truthy(payload.data.value.meta.value.userId)
                 && Truthy(payload.data.value.meta.value.planId)) ==>
      r == Reply(Response(400, "Invalid metadata"))
    ensures r.Reply? ==> r.response.status in {200, 400, 401, 500}
  {
    if !Truthy(signature) || signature != secretHash then Reply(Response(401, "Unauthorized"))
    else if payload.event != Some("charge.completed") then Reply(Response(200, "Event ignored"))
    // `payload.data.status` on a missing `data` throws, and the handler answers 500.
    else if payload.data.None? then Reply(Response(500, "Internal Server Error"))
    else if payload.data.value.status != Some("successful") then Reply(Response(200, "Event ignored"))
    else
      var meta := if payload.data.value.meta.Some? then payload.data.value.meta.value else Meta(None, None, None);
      if !Truthy(meta.userId) || !Truthy(meta.planId) then Reply(Response(400, "Invalid metadata"))
      else Grant(meta.userId.value, meta.planId.value, DurationOrThirty(meta.duration))
  }

  /** Events other than a successful completed charge are acknowledged with 200 and never grant. */
  lemma OtherEventsIgnored(secretHash: Option<string>, payload: Payload)
    requires Truthy(secretHash)
    requires payload.event != Some("charge.completed")
      || (payload.data.Some? && payload.data.value.status != Some("successful"))
    ensures Classify(secretHash, secretHash, payload) == Reply(Response(200, "Event ignored"))
  {
  }

  /**
   * A replayed webhook does not stack: granting the same plan twice leaves the expiry of
   * the later delivery alone, `days` after it, not twice the duration.
   */
  lemma ReplayDoesNotStack(subscriptions: map<UserId, SubRow>, user: UserId, planId: PlanId, days: int, t1: int, t2: int)
    ensures var twice := Upsert(Upsert(subscriptions, user, SubscriptionController.GrantPatch(planId, days, t1)),
                                user, SubscriptionController.GrantPatch(planId, days, t2));
      twice[user].expiresAt == Some(t2 + days * 86400)
  {
    SubscriptionController.LaterGrantWinsRow(subscriptions, user, planId, days, t1, planId, days, t2);
  }

  /** `flutterwaveWebhook(req, res)`; `writeError` is an error thrown by the upsert. */
  method FlutterwaveWebhook(db: Store, secretHash: Option<string>, signature: Option<string>, payload: Payload,
                            nowSeconds: int, writeError: Option<string>) returns (response: Response)
    modifies db`subscriptions
    ensures Classify(secretHash, signature, payload).Reply? ==>
      response == Classify(secretHash, signature, payload).response && db.subscriptions == old(db.subscriptions)
    ensures Classify(secretHash, signature, payload).Grant? && writeError.Some? ==>
      response == Response(500, "Internal Server Error") && db.subscriptions == old(db.subscriptions)
    ensures Classify(secretHash, signature, payload).Grant? && writeError.None? ==>
      var g := Classify(secretHash, signature, payload);
      && response == Response(200, "Webhook Received")
      && db.subscriptions == Upsert(old(db.subscriptions), g.user, SubscriptionController.GrantPatch(g.planId, g.days, nowSeconds))
  {
    var action := Classify(secretHash, signature, payload);
    match action
    case Reply(reply) =>
      response := reply;
    case Grant(user, planId, days) =>
      var written := SubscriptionController.UpsertSubscription(db, user, planId, Some(days), nowSeconds, writeError);
      if written.Err? {
        response := Response(500, "Internal Server Error");
      } else {
        response := Response(200, "Webhook Received");
      }
  }
}

/**
 * controllers/paymentController.js: starting a Paystack payment (the amount in kobo with
 * the plan name and user id as metadata) and settling it when the user returns. A settled
 * payment grants the plan whose name matches exactly one `plans` row, through the
 * subscription service, and is recorded in `payments` whatever the grant did.
 */
module PaymentController {
  import opened Wrappers
  import opened Db
  import opened JsText
  import opened Http
  import SubscriptionService

  /** The `plans` rows carrying a name, in table order. */
  function PlansNamed(plans: seq<PlanRow>, name: string): (r: seq<PlanRow>)
    ensures forall p :: p in r <==> p in plans && p.name == name
    ensures |r| <= |plans|
  {
    if plans == [] then []
    else (if plans[0].name == name then [plans[0]] else []) + PlansNamed(plans[1..], name)
  }

  /**
   * `getPlanUuidByName(planName)`: the id of the one plan with exactly that name. A falsy
   * name, a query error, no row, or several rows (which `maybeSingle` reports as an error)
   * all give `null`.
   */
  function GetPlanUuidByName(plans: seq<PlanRow>, planName: Option<string>, error: Option<string>): (r: Option<PlanId>)
    ensures r.Some? <==> Truthy(planName) && error.None? && |PlansNamed(plans, planName.value)| == 1
    ensures r.Some? ==> exists p :: p in plans && p.name == planName.value && p.id == r.value
    ensures r.Some? ==> forall p :: p in plans && p.name == planName.value ==> p.id == r.value
  {
    if !Truthy(planName) || error.Some? then None
    else
      var rows := PlansNamed(plans, planName.value);
      if |rows| != 1 then None
      else
        assert rows[0] in rows;
        Some(rows[0].id)
  }

  /** The lookup is by exact name: a differently cased name finds nothing. */
  lemma PlanLookupIsCaseSensitive(id: PlanId)
    ensures GetPlanUuidByName([PlanRow(id, "pro")], Some("pro"), None) == Some(id)
    ensures GetPlanUuidByName([PlanRow(id, "pro")], Some("Pro"), None) == None
  {
    assert PlansNamed([PlanRow(id, "pro")], "Pro") == [];
  }

  /** Two plans sharing a name make the lookup fail, as `maybeSingle` refuses several rows. */
  lemma DuplicateNamesResolveToNothing(plans: seq<PlanRow>, name: string, i: nat, j: nat)
    requires i < j < |plans| && plans[i].name == name && plans[j].name == name
    ensures GetPlanUuidByName(plans, Some(name), None) == None
  {
    CountNamed(plans, name, i, j);
  }

  lemma {:induction false} CountNamed(plans: seq<PlanRow>, name: string, i: nat, j: nat)
    requires i < j < |plans| && plans[i].name == name && plans[j].name == name
    ensures |PlansNamed(plans, name)| >= 2
    decreases |plans|
  {
    var tail := PlansNamed(plans[1..], name);
    if i == 0 {
      assert plans[j] == plans[1..][j - 1];
      assert plans[j] in tail;
    } else {
      CountNamed(plans[1..], name, i - 1, j - 1);
    }
  }

  /** `a || b` on two optional amounts: `0` is falsy. */
  function OrAmount(a: Option<int>, b: Option<int>): (r: Option<int>)
    ensures a.Some? && a.value != 0 ==> r == a
    ensures !(a.Some? && a.value != 0) ==> r == b
    ensures r.Some? && r.value != 0 <==> (a.Some? && a.value != 0) || (b.Some? && b.value != 0)
  {
    if a.Some? && a.value != 0 then a else b
  }

  /** The body fields `initPayment` reads: `plan_id || planId` and `amount || price`. */
  datatype InitBody = InitBody(planIdField: Option<string>, planId: Option<string>, amount: Option<int>, price: Option<int>)

  /** The transaction sent to Paystack. */
  datatype Charge = Charge(amountKobo: int, email: string, planName: string, userId: UserId)

  /** The response, and the transaction sent to the gateway if one was. */
  datatype InitReply = InitReply(response: Response, charge: Option<Charge>)

  /**
   * `initPayment(req, res)`; `user` is the `users` lookup of the caller's e-mail and
   * `gateway` the outcome of `initializeTransaction`.
   */
  function InitPayment(sessionUserId: Option<UserId>, body: InitBody, user: Fetch<string>, gateway: Call): (r: InitReply)
    ensures !Truthy(sessionUserId) ==> r == InitReply(Response(401, "Unauthorized"), None)
    ensures r.charge.Some? <==>
      && Truthy(sessionUserId) && Truthy(Or(body.planIdField, body.planId))
      && OrAmount(body.amount, body.price).Some? && OrAmount(body.amount, body.price).value != 0
      && user.Row?
    ensures r.charge.Some? ==>
      && r.charge.value.amountKobo == OrAmount(body.amount, body.price).value * 100
      && r.charge.value.email == user.row
      && r.charge.value.planName == Or(body.planIdField, body.planId).value
      && r.charge.value.userId == sessionUserId.value
    ensures Truthy(sessionUserId)
            && !(Truthy(Or(body.planIdField, body.planId)) && OrAmount(body.amount, body.price).Some?
                 && OrAmount(body.amount, body.price).value != 0) ==>
      r == InitReply(Response(400, "plan_id (name) & amount required"), None)
    ensures Truthy(sessionUserId) && Truthy(Or(body.planIdField, body.planId))
            && OrAmount(body.amount, body.price).Some? && OrAmount(body.amount, body.price).value != 0
            && !user.Row? ==>
      r == InitReply(Response(500, "User not found"), None)
    ensures r.charge.Some? && gateway.Failed? ==> r.response == Response(500, "Payment init failed")
    ensures r.response.status == 200 <==> r.charge.Some? && gateway.Succeeded?
    ensures r.response.status in {200, 400, 401, 500}
  {
    if !Truthy(sessionUserId) then InitReply(Response(401, "Unauthorized"), None)
    else
      var planName := Or(body.planIdField, body.planId);
      var rawAmount := OrAmount(body.amount, body.price);
      if !Truthy(planName) || rawAmount.None? || rawAmount.value == 0 then
        InitReply(Response(400, "plan_id (name) & amount required"), None)
      else if !user.Row? then InitReply(Response(500, "User not found"), None)
      else
        var charge := Charge(rawAmount.value * 100, user.row, planName.value, sessionUserId.value);
        match gateway
        case Succeeded => InitReply(Response(200, ""), Some(charge))
        case Failed(_) => InitReply(Response(500, "Payment init failed"), Some(charge))
  }

  /** `plan_id` wins over `planId`, and a zero `amount` falls back to `price`. */
  lemma InitBodyFallbacks(user: UserId, email: string, a: string, b: string, price: int)
    requires user != "" && a != "" && price != 0
    ensures InitPayment(Some(user), InitBody(Some(a), Some(b), Some(0), Some(price)), Row(email), Succeeded).charge
         == Some(Charge(price * 100, email, a, user))
  {
  }

  /** The fields of Paystack's verify response that the handler uses. */
  datatype PayData = PayData(reference: string, status: string, planname: Option<string>, userid: Option<string>)

  /** `verifyTransaction(reference)`: it throws, or returns a body whose `data` may be missing. */
  datatype Verification = Threw(message: string) | Returned(data: Option<PayData>)

  /** `metadata.x ? String(metadata.x).trim() : null`. */
  function MetaField(v: Option<string>): (r: Option<string>)
    ensures r.Some? <==> Truthy(v)
    ensures r.Some? ==> r.value == Trim(v.value)
  {
    if Truthy(v) then Some(Trim(v.value)) else None
  }

  /** The condition under which a verified payment is settled: success, a user and a plan name. */
  predicate Settles(d: PayData) {
    d.status == "success" && Truthy(MetaField(d.userid)) && Truthy(MetaField(d.planname))
  }

  /** Metadata that is only white space counts as missing: such a payment never settles. */
  lemma BlankMetadataNeverSettles(d: PayData)
    requires d.planname.Some? && Blank(d.planname.value)
    ensures !Settles(d)
  {
    TrimEmptyIffBlank(d.planname.value);
  }

  /** The plan id a settled payment grants and records, `finalPlanId || null`. */
  function SettledPlan(plans: seq<PlanRow>, d: PayData, planError: Option<string>): (r: Option<PlanId>)
    ensures Truthy(r) ==> r == GetPlanUuidByName(plans, MetaField(d.planname), planError)
    ensures Truthy(GetPlanUuidByName(plans, MetaField(d.planname), planError)) ==>
      r == GetPlanUuidByName(plans, MetaField(d.planname), planError)
    ensures !Truthy(r) ==> r.None?
  {
    var found := GetPlanUuidByName(plans, MetaField(d.planname), planError);
    if Truthy(found) then found else None
  }

  /**
   * `verifyPayment(req, res)`. `planError` is an error of the plan lookup, `writeError`
   * one of the subscription upsert, `insertError` one of the payment insert; the last two
   * are logged and do not change the answer.
   */
  method VerifyPayment(db: Store, reference: Option<string>, verification: Verification, nowSeconds: int,
                       planError: Option<string>, writeError: bool, insertError: bool) returns (response: Response)
    modifies db`subscriptions, db`payments
    ensures !Truthy(reference) ==> response == Response(400, "reference required")
    ensures Truthy(reference) && verification.Threw? ==> response == Response(500, "Payment verify failed")
    ensures Truthy(reference) && verification == Returned(None) ==> response == Response(400, "Invalid Paystack response")
    ensures Truthy(reference) && verification.Returned? && verification.data.Some? && !Settles(verification.data.value) ==>
      response == Response(400, "Payment failed")
    ensures !(Truthy(reference) && verification.Returned? && verification.data.Some? && Settles(verification.data.value)) ==>
      db.subscriptions == old(db.subscriptions) && db.payments == old(db.payments)
    ensures Truthy(reference) && verification.Returned? && verification.data.Some? && Settles(verification.data.value) ==>
      var d := verification.data.value;
      var user := Trim(d.userid.value);
      var planId := SettledPlan(db.plans, d, planError);
      && response == Response(200, "ok")
      && db.payments == old(db.payments) + (if insertError then [] else [PaymentRow(d.reference, Some(user), planId, d.status)])
      && (planId.Some? && SubscriptionService.IsUuidShaped(planId.value) && !writeError ==>
            db.subscriptions == Upsert(old(db.subscriptions), user, SubscriptionService.GrantPatch(planId.value, nowSeconds)))
      && (!(planId.Some? && SubscriptionService.IsUuidShaped(planId.value) && !writeError) ==>
            db.subscriptions == old(db.subscriptions))
  {
    if !Truthy(reference) {
      return Response(400, "reference required");
    }
    if verification.Threw? {
      return Response(500, "Payment verify failed");
    }
    if verification.data.None? {
      return Response(400, "Invalid Paystack response");
    }
    var d := verification.data.value;
    var planName := MetaField(d.planname);
    var userId := MetaField(d.userid);
    if d.status == "success" && Truthy(userId) && Truthy(planName) {
      var finalPlanId := GetPlanUuidByName(db.plans, planName, planError);
      if Truthy(finalPlanId) {
        var _ := SubscriptionService.UpsertSubscription(db, userId.value, finalPlanId, nowSeconds, writeError);
      }
      if !insertError {
        var planColumn := if Truthy(finalPlanId) then finalPlanId else None;
        db.payments := db.payments + [PaymentRow(d.reference, Some(userId.value), planColumn, d.status)];
      }
      return Response(200, "ok");
    }
    response := Response(400, "Payment failed");
  }
}

/**
 * middleware/rateLimit.js: `rateLimit(mode)` builds an Express middleware that requires an
 * authenticated user and the body field the capability consumes, then asks `checkUsage`
 * for admission. Any refusal of `checkUsage` becomes a 429 carrying its message.
 */
module RateLimitMiddleware {
  import opened Wrappers
  import opened Db
  import opened JsText
  import opened Http
  import RateLimiter

  /** Either `next()` is called or the request is answered. */
  datatype Verdict = Next | Answer(response: Response)

  /** The body fields the middleware looks at. */
  datatype Body = Body(text: Option<string>, audioBase64: Option<string>)

  /** The body-field requirement of a mode: a 400 response, or `None` when the field is there. */
  function MissingField(mode: string, body: Body): (r: Option<Response>)
    ensures r.Some? ==> r.value.status == 400
    ensures r.None? <==>
      && ((mode == "tts" || mode == "s2s") ==> Truthy(body.text))
      && (mode == "stt" ==> Truthy(body.audioBase64))
  {
    if mode == "tts" || mode == "s2s" then
      if !Truthy(body.text) then Some(Response(400, "Text required")) else None
    else if mode == "stt" then
      if !Truthy(body.audioBase64) then Some(Response(400, "Audio required")) else None
    else None
  }

  /** The middleware returned by `rateLimit(mode)`, applied to one request. */
  function RateLimit(db: Store, mode: string, userId: Option<UserId>, body: Body, nowSeconds: int,
                     faults: RateLimiter.ReadFaults): (r: Verdict)
    reads db`subscriptions, db`usage
    ensures !Truthy(userId) ==> r == Answer(Response(401, "Unauthorized"))
    ensures r.Next? <==> Truthy(userId) && MissingField(mode, body).None?
                          && RateLimiter.CheckUsage(db, userId.value, mode, nowSeconds, faults).Pass?
    ensures Truthy(userId) && MissingField(mode, body).None?
            && RateLimiter.CheckUsage(db, userId.value, mode, nowSeconds, faults).Fail? ==>
      r == Answer(Response(429, RateLimiter.CheckUsage(db, userId.value, mode, nowSeconds, faults).message))
    ensures r.Answer? && r.response.status == 429 ==>
      RateLimiter.CheckUsage(db, userId.value, mode, nowSeconds, faults) == Fail(r.response.msg)
    ensures r.Answer? ==> r.response.status in {400, 401, 429}
  {
    if !Truthy(userId) then Answer(Response(401, "Unauthorized"))
    else match MissingField(mode, body)
      case Some(missing) => Answer(missing)
      case None =>
        match RateLimiter.CheckUsage(db, userId.value, mode, nowSeconds, faults)
        case Fail(message) => Answer(Response(429, message))
        case Pass => Next
  }

  /**
   * A request that passes the middleware is in quota: the mode is a known capability and
   * one more unit keeps its count within the limit of 10.
   */
  lemma NextMeansWithinQuota(db: Store, mode: string, userId: Option<UserId>, body: Body, nowSeconds: int)
    requires RateLimit(db, mode, userId, body, nowSeconds, RateLimiter.ReadFaults(None, None)).Next?
    ensures mode in RateLimiter.VALID_MODES
    ensures Used(db.usage, userId.value, RateLimiter.ParseMode(mode).value) + 1 <= 10
  {
  }

  /** A request missing its body field is refused with 400 before any quota read, whatever the store holds. */
  lemma FieldCheckPrecedesQuota(a: Store, b: Store, mode: string, user: UserId, body: Body, nowSeconds: int,
                                fa: RateLimiter.ReadFaults, fb: RateLimiter.ReadFaults)
    requires user != "" && MissingField(mode, body).Some?
    ensures RateLimit(a, mode, Some(user), body, nowSeconds, fa) == RateLimit(b, mode, Some(user), body, nowSeconds, fb)
    ensures RateLimit(a, mode, Some(user), body, nowSeconds, fa).response.status == 400
  {
  }

  /** `chat` needs no body field; an empty `text` is refused for `tts` and `s2s`, empty audio for `stt`. */
  lemma FieldRequirements(body: Body)
    ensures MissingField("chat", body).None?
    ensures !Truthy(body.text) ==> MissingField("tts", body) == Some(Response(400, "Text required"))
    ensures !Truthy(body.text) ==> MissingField("s2s", body) == Some(Response(400, "Text required"))
    ensures !Truthy(body.audioBase64) ==> MissingField("stt", body) == Some(Response(400, "Audio required"))
  {
  }
}

/**
 * controllers/translateController.js: `translateText` checks the caller, the text and the
 * target language, asks `checkUsage` for an "s2s" unit (translation is metered as speech
 * to speech), calls the completion model, commits the unit and only then reads the
 * translation out of the completion, so a completion without `choices[0].message` throws
 * after the unit was paid for.
 */
module TranslateController {
  import opened Wrappers
  import opened Db
  import opened JsText
  import opened Http
  import RateLimiter
  import Metering
  import Tiers

  const FALLBACK: string := "Translation failed"

  /**
   * The answer once the protocol has run. `hasMessage` says whether the completion carries
   * `choices[0].message`: reading it comes after `addUsage`, and without it the read throws
   * a TypeError whose text never says "limit reached", so the catch answers 500.
   */
  function Answer(run: Metering.Run, hasMessage: bool): (r: Response)
    ensures r.status == 200 <==> run.response.status == 200 && hasMessage
    ensures r.status != 200 && run.response.status == 200 ==> r == Response(500, FALLBACK)
    ensures run.response.status != 200 ==> r == run.response
  {
    if run.response.status == 200 && !hasMessage then Response(500, FALLBACK) else run.response
  }

  /**
   * For this handler "committed iff 200" holds only for a completion that carries its message:
   * a unit is paid for with a 500 exactly when the completion lacks `choices[0].message`.
   */
  lemma CommittedWithoutAnswer(user: UserId, check: Outcome, completion: Call, commitError: bool, hasMessage: bool)
    ensures var run := Metering.Protocol(user, "s2s", check, [Completion], [completion], commitError, FALLBACK, true);
      && (Answer(run, hasMessage).status == 200 ==> run.committed)
      && (run.committed && Answer(run, hasMessage).status != 200 <==> run.committed && !hasMessage)
  {
    Metering.CommitIffSuccess(user, "s2s", check, [Completion], [completion], commitError, FALLBACK, true);
  }

  /** An admitted request whose completion returns without a message commits one unit and answers 500. */
  lemma MessagelessCompletionStillCommits(user: UserId, completion: Call)
    requires completion.Succeeded?
    ensures var run := Metering.Protocol(user, "s2s", Pass, [Completion], [completion], false, FALLBACK, true);
      && run.committed && Answer(run, false) == Response(500, FALLBACK)
  {
    Metering.CommitIffSuccess(user, "s2s", Pass, [Completion], [completion], false, FALLBACK, true);
  }

  /**
   * `translateText(req, res)`; `completion` is the outcome of the model call and `hasMessage`
   * whether the completion it returned carries `choices[0].message`.
   */
  method TranslateText(db: Store, userId: Option<UserId>, text: Option<string>, targetLanguage: Option<string>,
                       nowSeconds: int, faults: RateLimiter.ReadFaults, completion: Call, hasMessage: bool,
                       commitError: bool)
    returns (response: Response)
    modifies db`usage, db`log
    ensures !Truthy(userId) ==>
      response == Response(401, "Unauthorized: Token missing or invalid") && db.usage == old(db.usage) && db.log == old(db.log)
    ensures Truthy(userId) && (!Truthy(text) || !Truthy(targetLanguage)) ==>
      response == Response(400, "Text and target language are required") && db.usage == old(db.usage) && db.log == old(db.log)
    ensures Truthy(userId) && Truthy(text) && Truthy(targetLanguage) ==>
      var run := Metering.Protocol(userId.value, "s2s", old(RateLimiter.CheckUsage(db, userId.value, "s2s", nowSeconds, faults)),
                                   [Completion], [completion], commitError, FALLBACK, true);
      && response == Answer(run, hasMessage) && db.log == old(db.log) + run.effects
      && db.usage == (if run.committed then Incremented(old(db.usage), userId.value, Tiers.S2s) else old(db.usage))
  {
    if !Truthy(userId) {
      return Response(401, "Unauthorized: Token missing or invalid");
    }
    if !Truthy(text) || !Truthy(targetLanguage) {
      return Response(400, "Text and target language are required");
    }
    response := Metering.Serve(db, userId.value, Tiers.S2s, nowSeconds, faults, [Completion], [completion], commitError, FALLBACK, true);
    if response.status == 200 && !hasMessage {
      response := Response(500, FALLBACK);
    }
  }
}

/**
 * controllers/sttController.js: `speechToText` takes the user from the session, checks the
 * audio, asks `checkUsage` for an "stt" unit, transcribes, commits the unit and answers with
 * the text. Its `catch` has no 429 branch: every error, the quota refusal included, is a 500.
 */
module SttController {
  import opened Wrappers
  import opened Db
  import opened JsText
  import opened Http
  import RateLimiter
  import Metering
  import Tiers

  const FALLBACK: string := "Speech-to-text failed"

  /**
   * `speechToText(req, res)`; `session` is `req.session` (reading `userId` of a missing
   * session throws), `transcription` the outcome of the provider call.
   */
  method SpeechToText(db: Store, session: Option<Session>, audioBase64: Option<string>, nowSeconds: int,
                      faults: RateLimiter.ReadFaults, transcription: Call, commitError: bool) returns (response: Response)
    modifies db`usage, db`log
    ensures session.None? ==> response == Response(500, FALLBACK) && db.usage == old(db.usage) && db.log == old(db.log)
    ensures session.Some? && session.value.userId == "" ==>
      response == Response(401, "Unauthorized") && db.usage == old(db.usage) && db.log == old(db.log)
    ensures session.Some? && session.value.userId != "" && !Truthy(audioBase64) ==>
      response == Response(400, "Audio required") && db.usage == old(db.usage) && db.log == old(db.log)
    ensures session.Some? && session.value.userId != "" && Truthy(audioBase64) ==>
      var user := session.value.userId;
      var run := Metering.Protocol(user, "stt", old(RateLimiter.CheckUsage(db, user, "stt", nowSeconds, faults)),
                                   [Transcription], [transcription], commitError, FALLBACK, false);
      && response == run.response && db.log == old(db.log) + run.effects
      && db.usage == (if run.committed then Incremented(old(db.usage), user, Tiers.Stt) else old(db.usage))
  {
    if session.None? {
      return Response(500, FALLBACK);
    }
    var user := session.value.userId;
    if user == "" {
      return Response(401, "Unauthorized");
    }
    if !Truthy(audioBase64) {
      return Response(400, "Audio required");
    }
    response := Metering.Serve(db, user, Tiers.Stt, nowSeconds, faults, [Transcription], [transcription], commitError, FALLBACK, false);
  }

  /** Even the quota refusal is answered with 500, never 429. */
  lemma QuotaRefusalIs500(user: UserId, transcription: Call, commitError: bool)
    ensures Metering.Protocol(user, "stt", Fail(Metering.QUOTA_MESSAGE), [Transcription], [transcription], commitError, FALLBACK, false).response
         == Response(500, FALLBACK)
  {
  }
}

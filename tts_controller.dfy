/**
 * controllers/ttsController.js: `generateTTS` checks the caller and the text, asks
 * `checkUsage` for a "tts" unit, calls the speech provider, commits the unit, and only
 * then sends the audio.
 */
module TtsController {
  import opened Wrappers
  import opened Db
  import opened JsText
  import opened Http
  import RateLimiter
  import Metering
  import Tiers

  const FALLBACK: string := "TTS backend error"

  /**
   * `generateTTS(req, res)`; `speech` is the outcome of the speech call together with the
   * buffer conversion, `commitError` whether `increment_usage` failed. A 200 carries the audio.
   */
  method GenerateTts(db: Store, userId: Option<UserId>, text: Option<string>, nowSeconds: int,
                     faults: RateLimiter.ReadFaults, speech: Call, commitError: bool) returns (response: Response)
    modifies db`usage, db`log
    ensures !Truthy(userId) ==>
      response == Response(401, "Unauthorized: Token missing") && db.usage == old(db.usage) && db.log == old(db.log)
    ensures Truthy(userId) && !Truthy(text) ==>
      response == Response(400, "Text is required") && db.usage == old(db.usage) && db.log == old(db.log)
    ensures Truthy(userId) && Truthy(text) ==>
      var run := Metering.Protocol(userId.value, "tts", old(RateLimiter.CheckUsage(db, userId.value, "tts", nowSeconds, faults)),
                                   [Speech], [speech], commitError, FALLBACK, true);
      && response == run.response && db.log == old(db.log) + run.effects
      && db.usage == (if run.committed then Incremented(old(db.usage), userId.value, Tiers.Tts) else old(db.usage))
  {
    if !Truthy(userId) {
      return Response(401, "Unauthorized: Token missing");
    }
    if !Truthy(text) {
      return Response(400, "Text is required");
    }
    response := Metering.Serve(db, userId.value, Tiers.Tts, nowSeconds, faults, [Speech], [speech], commitError, FALLBACK, true);
  }
}

/**
 * controllers/s2sController.js: `generateS2S` checks the caller and the audio, asks
 * `checkUsage` for an "s2s" unit, transcribes the audio, has the completion model answer
 * with audio, commits the unit, and only then sends the audio.
 */
module S2sController {
  import opened Wrappers
  import opened Db
  import opened JsText
  import opened Http
  import RateLimiter
  import Metering
  import Tiers

  const FALLBACK: string := "Server error during S2S processing"

  /**
   * `generateS2S(req, res)`; `transcription` and `completion` are the outcomes of the two
   * provider calls (the second including the audio decoding), `commitError` whether
   * `increment_usage` failed.
   */
  method GenerateS2s(db: Store, userId: Option<UserId>, audioBase64: Option<string>, nowSeconds: int,
                     faults: RateLimiter.ReadFaults, transcription: Call, completion: Call, commitError: bool)
    returns (response: Response)
    modifies db`usage, db`log
    ensures !Truthy(userId) ==>
      response == Response(401, "Unauthorized: No user ID found in token") && db.usage == old(db.usage) && db.log == old(db.log)
    ensures Truthy(userId) && !Truthy(audioBase64) ==>
      response == Response(400, "Audio data is required") && db.usage == old(db.usage) && db.log == old(db.log)
    ensures Truthy(userId) && Truthy(audioBase64) ==>
      var run := Metering.Protocol(userId.value, "s2s", old(RateLimiter.CheckUsage(db, userId.value, "s2s", nowSeconds, faults)),
                                   [Transcription, Completion], [transcription, completion], commitError, FALLBACK, true);
      && response == run.response && db.log == old(db.log) + run.effects
      && db.usage == (if run.committed then Incremented(old(db.usage), userId.value, Tiers.S2s) else old(db.usage))
  {
    if !Truthy(userId) {
      return Response(401, "Unauthorized: No user ID found in token");
    }
    if !Truthy(audioBase64) {
      return Response(400, "Audio data is required");
    }
    response := Metering.Serve(db, userId.value, Tiers.S2s, nowSeconds, faults, [Transcription, Completion],
                               [transcription, completion], commitError, FALLBACK, true);
  }
}

/**
 * The admit, operate, commit protocol the capability handlers (text to speech, speech to
 * speech, translation, speech to text) share: `checkUsage` first, then the provider calls in
 * order until one throws, then `addUsage` once. The handlers' `catch` blocks turn an error
 * into 429 when its message contains "limit reached" (speech to text never does) and into
 * 500 otherwise.
 */
module Metering {
  import opened Wrappers
  import opened Db
  import opened JsText
  import opened Http
  import RateLimiter
  import Tiers

  const LIMIT_PHRASE: string := "limit reached"
  const QUOTA_MESSAGE: string := "Usage limit reached for your plan"
  const COMMIT_MESSAGE: string := "Failed to update usage"

  /** `err.message.includes("limit reached")`. */
  predicate IsLimitMessage(message: string) {
    Contains(message, LIMIT_PHRASE)
  }

  /** A handler's `catch` block; `limitAware` is whether it has the 429 branch. */
  function Caught(message: string, fallback: string, limitAware: bool): (r: Response)
    ensures r.status == 429 <==> limitAware && IsLimitMessage(message)
    ensures r.status == 429 ==> r.msg == message
    ensures r.status != 429 ==> r == Response(500, fallback)
  {
    if limitAware && IsLimitMessage(message) then Response(429, message) else Response(500, fallback)
  }

  /** The quota refusal mentions a reached limit. */
  lemma QuotaMessageIsLimit()
    ensures IsLimitMessage(QUOTA_MESSAGE)
  {
    assert forall k :: 0 <= k < |LIMIT_PHRASE| ==> QUOTA_MESSAGE[6 + k] == LIMIT_PHRASE[k];
    assert WindowAt(QUOTA_MESSAGE, LIMIT_PHRASE, 6);
  }

  /** No other message `checkUsage` or `addUsage` fails with mentions a reached limit. */
  lemma OtherStoreMessagesNotLimit(message: string)
    requires message == "Invalid mode" || message == "Unable to verify subscription"
      || message == "Your subscription has expired" || message == "Unable to fetch usage" || message == COMMIT_MESSAGE
    ensures !IsLimitMessage(message)
  {
    if message == "Invalid mode" {
      NoLimitWithout(message, 't');
    } else {
      StoreRefusalNotLimit(message);
    }
  }

  /** The refusals of the subscription and usage stores hold no letter 'm', so no "limit". */
  lemma StoreRefusalNotLimit(message: string)
    requires message == "Unable to verify subscription" || message == "Your subscription has expired"
      || message == "Unable to fetch usage" || message == COMMIT_MESSAGE
    ensures !IsLimitMessage(message)
  {
    NoLimitWithout(message, 'm');
  }

  /** A message lacking one of the phrase's letters cannot contain the phrase. */
  lemma NoLimitWithout(message: string, c: char)
    requires c in LIMIT_PHRASE && forall k :: 0 <= k < |message| ==> message[k] != c
    ensures !IsLimitMessage(message)
  {
    if IsLimitMessage(message) {
      var j :| 0 <= j < |LIMIT_PHRASE| && LIMIT_PHRASE[j] == c;
      ContainsChars(message, LIMIT_PHRASE, j);
    }
  }

  /**
   * A refusal of `checkUsage` is answered with 429 exactly when it is the quota refusal;
   * an invalid mode or a store failure is a 500.
   */
  lemma CheckRefusalStatus(db: Store, user: UserId, mode: string, nowSeconds: int, faults: RateLimiter.ReadFaults, fallback: string)
    requires RateLimiter.CheckUsage(db, user, mode, nowSeconds, faults).Fail?
    ensures var message := RateLimiter.CheckUsage(db, user, mode, nowSeconds, faults).message;
      Caught(message, fallback, true).status == 429 <==> message == QUOTA_MESSAGE
  {
    var message := RateLimiter.CheckUsage(db, user, mode, nowSeconds, faults).message;
    if message == QUOTA_MESSAGE {
      QuotaMessageIsLimit();
    } else {
      OtherStoreMessagesNotLimit(message);
    }
  }

  /** The provider calls a handler made, in order, and the message of the one that threw. */
  datatype CallsRun = CallsRun(made: seq<Step>, failure: Option<string>)

  /** The provider calls run in order; the first that throws ends the sequence. */
  function RunCalls(steps: seq<Step>, outcomes: seq<Call>): CallsRun
    requires |steps| == |outcomes|
    decreases |steps|
  {
    if steps == [] then CallsRun([], None)
    else match outcomes[0]
      case Failed(message) => CallsRun([steps[0]], Some(message))
      case Succeeded =>
        var rest := RunCalls(steps[1..], outcomes[1..]);
        CallsRun([steps[0]] + rest.made, rest.failure)
  }

  /**
   * The calls made are a prefix of the planned ones; none failed exactly when all were made
   * and all returned; otherwise the last call made is the one that threw, with its message.
   */
  lemma {:induction false} RunCallsStopsAtFailure(steps: seq<Step>, outcomes: seq<Call>)
    requires |steps| == |outcomes|
    ensures var r := RunCalls(steps, outcomes);
      && |r.made| <= |steps| && r.made == steps[..|r.made|]
      && (r.failure.None? <==> forall i :: 0 <= i < |outcomes| ==> outcomes[i].Succeeded?)
      && (r.failure.None? ==> r.made == steps)
      && (r.failure.Some? ==>
            && 1 <= |r.made| && outcomes[|r.made| - 1] == Failed(r.failure.value)
            && forall i :: 0 <= i < |r.made| - 1 ==> outcomes[i].Succeeded?)
    decreases |steps|
  {
    if steps != [] && outcomes[0].Succeeded? {
      RunCallsStopsAtFailure(steps[1..], outcomes[1..]);
      var rest := RunCalls(steps[1..], outcomes[1..]);
      assert forall i :: 1 <= i < |outcomes| ==> outcomes[i] == outcomes[1..][i - 1];
      if rest.failure.None? {
        assert forall i :: 0 <= i < |outcomes| ==> outcomes[i].Succeeded? by {
          forall i | 0 <= i < |outcomes| ensures outcomes[i].Succeeded? {
            if i > 0 {
              assert outcomes[1..][i - 1].Succeeded?;
            }
          }
        }
      }
    }
  }

  /** The log entries of the provider calls made. */
  function Called(steps: seq<Step>): seq<Effect> {
    if steps == [] then [] else [ProviderCalled(steps[0])] + Called(steps[1..])
  }

  /** One `ProviderCalled` entry per call, in the order of the calls, and nothing else. */
  lemma {:induction false} CalledEntries(steps: seq<Step>)
    ensures |Called(steps)| == |steps|
    ensures forall i :: 0 <= i < |steps| ==> Called(steps)[i] == ProviderCalled(steps[i])
  {
    if steps != [] {
      CalledEntries(steps[1..]);
    }
  }

  /** The provider-call entries hold nothing but provider calls. */
  lemma {:induction false} OnlyProviderCalls(steps: seq<Step>)
    ensures forall e :: e in Called(steps) ==> e.ProviderCalled?
  {
    if steps != [] {
      OnlyProviderCalls(steps[1..]);
    }
  }

  /** What one admitted-or-refused request does: its response, its logged effects, and whether one unit was committed. */
  datatype Run = Run(response: Response, effects: seq<Effect>, committed: bool)

  /**
   * The protocol after a handler's own input checks: `check` is the outcome of
   * `checkUsage(user, mode)`, `outcomes` those of the provider calls `steps`, and
   * `commitError` whether `increment_usage` failed.
   */
  function Protocol(user: UserId, mode: string, check: Outcome, steps: seq<Step>, outcomes: seq<Call>,
                    commitError: bool, fallback: string, limitAware: bool): (r: Run)
    requires |steps| == |outcomes|
  {
    if check.Fail? then Run(Caught(check.message, fallback, limitAware), [UsageChecked(user, mode)], false)
    else
      var calls := RunCalls(steps, outcomes);
      var provider := [UsageChecked(user, mode)] + Called(calls.made);
      if calls.failure.Some? then Run(Caught(calls.failure.value, fallback, limitAware), provider, false)
      else if commitError then Run(Caught(COMMIT_MESSAGE, fallback, limitAware), provider + [UsageCommitted(user, mode)], false)
      else Run(Response(200, ""), provider + [UsageCommitted(user, mode)], true)
  }

  /**
   * The protocol as the handlers run it against the store: `checkUsage` for the unit `m`,
   * the provider calls in order until one throws, `addUsage` once they all returned, and
   * the `catch` block for whichever step failed.
   */
  method Serve(db: Store, user: UserId, m: Tiers.Mode, nowSeconds: int, faults: RateLimiter.ReadFaults,
               steps: seq<Step>, outcomes: seq<Call>, commitError: bool, fallback: string, limitAware: bool)
    returns (response: Response)
    requires |steps| == |outcomes|
    modifies db`usage, db`log
    ensures var mode := RateLimiter.ModeName(m);
      var run := Protocol(user, mode, old(RateLimiter.CheckUsage(db, user, mode, nowSeconds, faults)),
                          steps, outcomes, commitError, fallback, limitAware);
      && response == run.response && db.log == old(db.log) + run.effects
      && db.usage == (if run.committed then Incremented(old(db.usage), user, m) else old(db.usage))
  {
    var mode := RateLimiter.ModeName(m);
    var check := RateLimiter.Check(db, user, mode, nowSeconds, faults);
    if check.Fail? {
      return Caught(check.message, fallback, limitAware);
    }
    var calls := RunCalls(steps, outcomes);
    db.log := db.log + Called(calls.made);
    if calls.failure.Some? {
      return Caught(calls.failure.value, fallback, limitAware);
    }
    RateLimiter.ParseModeName(m);
    var committed := RateLimiter.AddUsage(db, user, mode, commitError);
    if committed.Fail? {
      return Caught(committed.message, fallback, limitAware);
    }
    response := Response(200, "");
  }

  /** A unit is committed exactly when the request succeeds: every 200 is paid for, nothing else is. */
  lemma CommitIffSuccess(user: UserId, mode: string, check: Outcome, steps: seq<Step>, outcomes: seq<Call>,
                         commitError: bool, fallback: string, limitAware: bool)
    requires |steps| == |outcomes|
    ensures var r := Protocol(user, mode, check, steps, outcomes, commitError, fallback, limitAware);
      r.committed <==> r.response.status == 200
    ensures var r := Protocol(user, mode, check, steps, outcomes, commitError, fallback, limitAware);
      r.committed <==> check.Pass? && (forall i :: 0 <= i < |outcomes| ==> outcomes[i].Succeeded?) && !commitError
  {
    RunCallsStopsAtFailure(steps, outcomes);
  }

  /**
   * The order the handlers promise: the quota check comes first; the commit is attempted only
   * after every provider call returned, and at most once.
   */
  lemma CommitFollowsCalls(user: UserId, mode: string, check: Outcome, steps: seq<Step>, outcomes: seq<Call>,
                           commitError: bool, fallback: string, limitAware: bool)
    requires |steps| == |outcomes|
    ensures var r := Protocol(user, mode, check, steps, outcomes, commitError, fallback, limitAware);
      && r.effects[0] == UsageChecked(user, mode)
      && (UsageCommitted(user, mode) in r.effects <==>
            check.Pass? && forall i :: 0 <= i < |outcomes| ==> outcomes[i].Succeeded?)
      && (UsageCommitted(user, mode) in r.effects ==>
            r.effects == [UsageChecked(user, mode)] + Called(steps) + [UsageCommitted(user, mode)])
  {
    if check.Pass? {
      var calls := RunCalls(steps, outcomes);
      RunCallsStopsAtFailure(steps, outcomes);
      OnlyProviderCalls(calls.made);
      assert UsageCommitted(user, mode) !in [UsageChecked(user, mode)] + Called(calls.made);
    }
  }


  /** A refused request logs only its check and answers without any provider call. */
  lemma RefusalCallsNothing(user: UserId, mode: string, message: string, steps: seq<Step>, outcomes: seq<Call>,
                            commitError: bool, fallback: string, limitAware: bool)
    requires |steps| == |outcomes|
    ensures var r := Protocol(user, mode, Fail(message), steps, outcomes, commitError, fallback, limitAware);
      r.effects == [UsageChecked(user, mode)] && !r.committed && r.response == Caught(message, fallback, limitAware)
  {
  }
}

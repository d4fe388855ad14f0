/**
 * The quota guard of utils/rateLimiter.js. `CheckUsage` is the read-only admission decision:
 * validate the mode, fetch the subscription and reject an expired one, fetch the usage count
 * (missing means 0) and admit when one more request stays within the free limit. `AddUsage`
 * is the commit: the `increment_usage` procedure adds exactly one unit.
 */
module RateLimiter {
  import opened Wrappers
  import opened Tiers
  import opened Db

  const VALID_MODES: seq<string> := ["tts", "stt", "s2s", "chat"]
  const ONE_REQUEST: int := 1

  /** The PostgREST code a `maybeSingle` usage query may fail with without failing `checkUsage`. */
  const NO_SINGLE_ROW: string := "PGRST116"

  function ModeName(m: Mode): string {
    match m
    case Tts => "tts"
    case Stt => "stt"
    case S2s => "s2s"
    case Chat => "chat"
  }

  /** `VALID_MODES.includes(mode)`, returning the capability it names. */
  function ParseMode(mode: string): (r: Option<Mode>)
    ensures r.Some? <==> mode in VALID_MODES
    ensures r.Some? ==> ModeName(r.value) == mode
  {
    if mode == "tts" then Some(Tts)
    else if mode == "stt" then Some(Stt)
    else if mode == "s2s" then Some(S2s)
    else if mode == "chat" then Some(Chat)
    else None
  }

  lemma ParseModeName(m: Mode)
    ensures ParseMode(ModeName(m)) == Some(m)
  {
  }

  /** `FREE_LIMITS[mode]`. */
  function FreeLimit(m: Mode): nat {
    match m
    case Tts => 10
    case Stt => 10
    case S2s => 10
    case Chat => 10
  }

  /** Error codes the two reads of `checkUsage` fail with, if they fail. */
  datatype ReadFaults = ReadFaults(subscription: Option<string>, usage: Option<string>)

  /** `sub.expires_at && sub.expires_at < now()`: a present, non-zero expiry in the past. */
  predicate Expired(expiresAt: Option<int>, nowSeconds: int) {
    expiresAt.Some? && expiresAt.value != 0 && expiresAt.value < nowSeconds
  }

  /** The usage query `.eq("user_id", user).eq("type", mode).maybeSingle()`. */
  function UsageOf(usage: map<(UserId, Mode), int>, user: UserId, m: Mode, error: Option<string>): (r: Fetch<int>)
    ensures r.FetchError? <==> error.Some?
    ensures r.Row? <==> error.None? && (user, m) in usage
    ensures r.Row? ==> r.row == usage[(user, m)]
  {
    if error.Some? then FetchError(error.value)
    else if (user, m) in usage then Row(usage[(user, m)])
    else NoRow
  }

  /** The errors `checkUsage` throws once the mode is valid. */
  const STORE_REFUSALS: set<string> := {
    "Unable to verify subscription", "Your subscription has expired", "Unable to fetch usage",
    "Usage limit reached for your plan"}

  /** `usage?.used ?? 0`. */
  function UsedOrZero(usage: Fetch<int>): int {
    if usage.Row? then usage.row else 0
  }

  /** Steps 2 to 6 of `checkUsage`, once the mode is known to be valid. */
  function Decide(m: Mode, sub: Fetch<SubRow>, usage: Fetch<int>, nowSeconds: int): (r: Outcome)
    ensures r.Pass? ==> !sub.FetchError? && !(sub.Row? && Expired(sub.row.expiresAt, nowSeconds))
    ensures r.Pass? ==> !(usage.FetchError? && usage.code != NO_SINGLE_ROW)
    ensures r.Pass? ==> UsedOrZero(usage) + ONE_REQUEST <= FreeLimit(m)
    ensures r.Fail? ==> r.message in STORE_REFUSALS
  {
    if sub.FetchError? then Fail("Unable to verify subscription")
    else if sub.Row? && Expired(sub.row.expiresAt, nowSeconds) then Fail("Your subscription has expired")
    else if usage.FetchError? && usage.code != NO_SINGLE_ROW then Fail("Unable to fetch usage")
    else if UsedOrZero(usage) + ONE_REQUEST > FreeLimit(m) then Fail("Usage limit reached for your plan")
    else Pass
  }

  /** `checkUsage(userId, mode)`: `Pass` for `return true`, `Fail` for the error it throws. */
  function CheckUsage(db: Store, user: UserId, mode: string, nowSeconds: int, faults: ReadFaults): (r: Outcome)
    reads db`subscriptions, db`usage
    ensures mode !in VALID_MODES ==> r == Fail("Invalid mode")
    ensures r.Pass? ==> mode in VALID_MODES && faults.subscription.None?
    ensures r.Pass? && faults.usage.None? ==> Used(db.usage, user, ParseMode(mode).value) + ONE_REQUEST <= 10
    ensures r.Fail? ==> r.message == "Invalid mode" || r.message in STORE_REFUSALS
  {
    match ParseMode(mode)
    case None => Fail("Invalid mode")
    case Some(m) =>
      Decide(m, SubscriptionOf(db.subscriptions, user, faults.subscription),
             UsageOf(db.usage, user, m, faults.usage), nowSeconds)
  }

  /**
   * The admission boundary: with a readable, unexpired (or absent) subscription and a
   * readable usage row, a request is admitted exactly when one more unit stays within 10.
   */
  lemma AdmitIffBelowLimit(m: Mode, sub: Fetch<SubRow>, used: int, nowSeconds: int)
    requires !sub.FetchError? && !(sub.Row? && Expired(sub.row.expiresAt, nowSeconds))
    ensures Decide(m, sub, Row(used), nowSeconds).Pass? <==> used + 1 <= 10
    ensures used + 1 > 10 ==> Decide(m, sub, Row(used), nowSeconds) == Fail("Usage limit reached for your plan")
  {
  }

  /** With nine units recorded a request is admitted; with ten it is refused. */
  lemma NineAdmitsTenRejects(m: Mode, nowSeconds: int)
    ensures Decide(m, NoRow, Row(9), nowSeconds) == Pass
    ensures Decide(m, NoRow, Row(10), nowSeconds) == Fail("Usage limit reached for your plan")
  {
  }

  /** A missing usage row, or the no-single-row error, reads as zero units used. */
  lemma MissingUsageIsZero(m: Mode, sub: Fetch<SubRow>, nowSeconds: int)
    ensures Decide(m, sub, NoRow, nowSeconds) == Decide(m, sub, Row(0), nowSeconds)
    ensures Decide(m, sub, FetchError(NO_SINGLE_ROW), nowSeconds) == Decide(m, sub, Row(0), nowSeconds)
  {
  }

  /** The plan never matters: two subscriptions with the same expiry decide alike. */
  lemma LimitIgnoresPlan(m: Mode, a: SubRow, b: SubRow, usage: Fetch<int>, nowSeconds: int)
    requires a.expiresAt == b.expiresAt
    ensures Decide(m, Row(a), usage, nowSeconds) == Decide(m, Row(b), usage, nowSeconds)
  {
  }

  /**
   * Only a present expiry strictly before now rejects: no subscription and a null expiry
   * behave alike, and an expiry equal to now is still valid.
   */
  lemma ExpiryRejection(m: Mode, row: SubRow, usage: Fetch<int>, nowSeconds: int)
    ensures row.expiresAt.None? ==> Decide(m, Row(row), usage, nowSeconds) == Decide(m, NoRow, usage, nowSeconds)
    ensures row.expiresAt == Some(nowSeconds) && nowSeconds != 0 ==>
      Decide(m, Row(row), usage, nowSeconds) == Decide(m, NoRow, usage, nowSeconds)
    ensures row.expiresAt.Some? && row.expiresAt.value != 0 && row.expiresAt.value < nowSeconds ==>
      Decide(m, Row(row), usage, nowSeconds) == Fail("Your subscription has expired")
  {
  }

  /** Store failures fail closed: never an admission. */
  lemma FailsClosed(db: Store, user: UserId, mode: string, nowSeconds: int, faults: ReadFaults)
    requires faults.subscription.Some? || (faults.usage.Some? && faults.usage.value != NO_SINGLE_ROW)
    ensures CheckUsage(db, user, mode, nowSeconds, faults).Fail?
  {
  }

  /** `n` successful commits in a row. */
  function Commits(usage: map<(UserId, Mode), int>, user: UserId, m: Mode, n: nat): map<(UserId, Mode), int>
    decreases n
  {
    if n == 0 then usage else Incremented(Commits(usage, user, m, n - 1), user, m)
  }

  /** No lost and no phantom commits: `n` commits raise the count by exactly `n`. */
  lemma {:induction false} CommitsAddUp(usage: map<(UserId, Mode), int>, user: UserId, m: Mode, n: nat)
    ensures Used(Commits(usage, user, m, n), user, m) == Used(usage, user, m) + n
    decreases n
  {
    if n > 0 {
      CommitsAddUp(usage, user, m, n - 1);
    }
  }

  /**
   * For a user with no usage row and no subscription, after `n` committed requests the
   * next check admits exactly when `n < 10`: the tenth request is admitted, the eleventh refused.
   */
  lemma FreshUserQuota(usage: map<(UserId, Mode), int>, user: UserId, m: Mode, n: nat, nowSeconds: int)
    requires (user, m) !in usage
    ensures Decide(m, NoRow, UsageOf(Commits(usage, user, m, n), user, m, None), nowSeconds).Pass? <==> n < 10
  {
    CommitsAddUp(usage, user, m, n);
  }

  /** `checkUsage` as a handler calls it: the call is logged and nothing else changes. */
  method Check(db: Store, user: UserId, mode: string, nowSeconds: int, faults: ReadFaults) returns (r: Outcome)
    modifies db`log
    ensures r == old(CheckUsage(db, user, mode, nowSeconds, faults))
    ensures db.log == old(db.log) + [UsageChecked(user, mode)]
  {
    db.log := db.log + [UsageChecked(user, mode)];
    r := CheckUsage(db, user, mode, nowSeconds, faults);
  }

  /** `addUsage(userId, mode)`; `rpcError` is an error returned by `increment_usage`. */
  method AddUsage(db: Store, user: UserId, mode: string, rpcError: bool) returns (r: Outcome)
    modifies db`usage, db`log
    ensures db.log == old(db.log) + [UsageCommitted(user, mode)]
    ensures mode !in VALID_MODES ==> r == Fail("Invalid mode") && db.usage == old(db.usage)
    ensures mode in VALID_MODES && rpcError ==> r == Fail("Failed to update usage") && db.usage == old(db.usage)
    ensures mode in VALID_MODES && !rpcError ==>
      r == Pass && db.usage == Incremented(old(db.usage), user, ParseMode(mode).value)
  {
    db.log := db.log + [UsageCommitted(user, mode)];
    var m := ParseMode(mode);
    if m.None? {
      return Fail("Invalid mode");
    }
    if rpcError {
      return Fail("Failed to update usage");
    }
    db.usage := Incremented(db.usage, user, m.value);
    r := Pass;
  }
}

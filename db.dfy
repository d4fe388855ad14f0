/**
 * The Supabase tables the core reads and writes, held by one `Store` object, together with
 * the row-level semantics of the queries the core issues (`maybeSingle`, upsert on
 * `user_id`). A ghost log records the effects whose order the request handlers promise.
 */
module Db {
  import opened Wrappers
  import opened Tiers

  type UserId = string
  type PlanId = string
  type ChatId = string

  /** A `subscriptions` row; `null` columns are `None`, `expires_at` is in Unix seconds. */
  datatype SubRow = SubRow(planId: Option<PlanId>, plan: Option<string>, expiresAt: Option<int>, status: Option<string>)

  /** The columns one upsert writes (`Some`); columns it does not name are `None`. */
  datatype SubPatch = SubPatch(planId: Option<PlanId>, plan: Option<string>, expiresAt: Option<int>, status: Option<string>)

  /** A `plans` row. */
  datatype PlanRow = PlanRow(id: PlanId, name: string)

  /** A per-user row of the usage table as usageTracker.js sees it, one column per capability. */
  datatype UsageRow = UsageRow(ttsUsed: int, sttUsed: int, s2sUsed: int, chatUsed: int)

  datatype ChatRow = ChatRow(userId: UserId, model: string, title: string)
  datatype MessageRow = MessageRow(chatId: ChatId, userRole: string, content: string)
  datatype PaymentRow = PaymentRow(reference: string, userId: Option<UserId>, planId: Option<PlanId>, status: string)

  /** The result of a `maybeSingle()` query: one row, no row, or an error with its code. */
  datatype Fetch<T> = Row(row: T) | NoRow | FetchError(code: string)

  /** The external calls a handler makes after admission. */
  datatype Step = Speech | Transcription | Completion | ChatCompletion

  /** Effects whose order the handlers promise: quota checks, provider calls, usage commits. */
  datatype Effect =
    | UsageChecked(user: UserId, mode: string)
    | ProviderCalled(step: Step)
    | UsageCommitted(user: UserId, mode: string)

  class Store {
    var subscriptions: map<UserId, SubRow>
    /** The rate limiter's usage rows: `used` per (`user_id`, `type`). */
    var usage: map<(UserId, Mode), int>
    /** The usage tracker's rows: one per `user_id`. */
    var usageRows: map<UserId, UsageRow>
    var plans: seq<PlanRow>
    var chats: map<ChatId, ChatRow>
    /** Messages in `created_at` order. */
    var messages: seq<MessageRow>
    var payments: seq<PaymentRow>
    ghost var log: seq<Effect>

    constructor ()
      ensures subscriptions == map[] && usage == map[] && usageRows == map[] && plans == []
      ensures chats == map[] && messages == [] && payments == [] && log == []
    {
      subscriptions, usage, usageRows, plans := map[], map[], map[], [];
      chats, messages, payments, log := map[], [], [], [];
    }
  }

  /** The user's subscription row as `.eq("user_id", userId).maybeSingle()` returns it. */
  function SubscriptionOf(subscriptions: map<UserId, SubRow>, user: UserId, error: Option<string>): (r: Fetch<SubRow>)
    ensures r.FetchError? <==> error.Some?
    ensures r.Row? <==> error.None? && user in subscriptions
    ensures r.Row? ==> r.row == subscriptions[user]
  {
    if error.Some? then FetchError(error.value)
    else if user in subscriptions then Row(subscriptions[user])
    else NoRow
  }

  function Patched<T>(written: Option<T>, previous: Option<T>): Option<T> {
    if written.Some? then written else previous
  }

  /** `INSERT ... ON CONFLICT (user_id) DO UPDATE` of the patch's columns. */
  function Upsert(subscriptions: map<UserId, SubRow>, user: UserId, p: SubPatch): (r: map<UserId, SubRow>)
    ensures r.Keys == subscriptions.Keys + {user}
    ensures forall other :: other in subscriptions && other != user ==> r[other] == subscriptions[other]
  {
    var prior := if user in subscriptions then subscriptions[user] else SubRow(None, None, None, None);
    subscriptions[user := SubRow(
      Patched(p.planId, prior.planId), Patched(p.plan, prior.plan),
      Patched(p.expiresAt, prior.expiresAt), Patched(p.status, prior.status))]
  }

  /** The patch's columns land in the user's single row; unnamed columns keep their value. */
  lemma UpsertWritesPatch(subscriptions: map<UserId, SubRow>, user: UserId, p: SubPatch)
    ensures var row := Upsert(subscriptions, user, p)[user];
      && (p.planId.Some? ==> row.planId == p.planId)
      && (p.plan.Some? ==> row.plan == p.plan)
      && (p.expiresAt.Some? ==> row.expiresAt == p.expiresAt)
      && (p.status.Some? ==> row.status == p.status)
      && (p.planId.None? && user in subscriptions ==> row.planId == subscriptions[user].planId)
      && (p.plan.None? && user in subscriptions ==> row.plan == subscriptions[user].plan)
      && (p.expiresAt.None? && user in subscriptions ==> row.expiresAt == subscriptions[user].expiresAt)
      && (p.status.None? && user in subscriptions ==> row.status == subscriptions[user].status)
  {
  }

  /** Every column of `p` is also written by `q`. */
  predicate Covers(q: SubPatch, p: SubPatch) {
    && (p.planId.Some? ==> q.planId.Some?) && (p.plan.Some? ==> q.plan.Some?)
    && (p.expiresAt.Some? ==> q.expiresAt.Some?) && (p.status.Some? ==> q.status.Some?)
  }

  /** A second grant that writes the same columns erases every trace of the first. */
  lemma LaterGrantWins(subscriptions: map<UserId, SubRow>, user: UserId, first: SubPatch, second: SubPatch)
    requires Covers(second, first)
    ensures Upsert(Upsert(subscriptions, user, first), user, second) == Upsert(subscriptions, user, second)
  {
  }

  /** The usage count of a (user, capability) pair; a missing row counts as 0. */
  function Used(usage: map<(UserId, Mode), int>, user: UserId, m: Mode): int {
    if (user, m) in usage then usage[(user, m)] else 0
  }

  /** The `increment_usage` procedure: one more unit for exactly one (user, capability) pair. */
  function Incremented(usage: map<(UserId, Mode), int>, user: UserId, m: Mode): (r: map<(UserId, Mode), int>)
    ensures Used(r, user, m) == Used(usage, user, m) + 1
    ensures forall u, m' :: (u, m') != (user, m) ==> Used(r, u, m') == Used(usage, u, m')
    ensures r.Keys == usage.Keys + {(user, m)}
  {
    usage[(user, m) := Used(usage, user, m) + 1]
  }
}

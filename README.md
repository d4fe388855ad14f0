# vetaorigin usage metering and subscription entitlement, modelled in Dafny

This project models the usage-quota and subscription-entitlement logic of the vetaorigin
backend, an Express server backed by Supabase. The model covers:

- the quota guard: `checkUsage` admits or refuses one unit of a capability (tts, stt, s2s,
  chat), and `addUsage` commits it;
- the tier table and plan-limit resolution;
- the three subscription writers and readers (service, model, controller);
- the per-user usage-tracker table;
- the time helpers;
- the request gates: the quota middleware, the active-subscription middleware, the
  Flutterwave webhook and the Paystack payment handlers;
- the admit, operate, commit protocol of the capability handlers: text to speech, speech
  to speech, translation, speech to text and chat.

The Supabase tables are the fields of one `Db.Store` object. Handlers that write are methods
with `modifies` clauses over exactly the fields they touch. A ghost `log` field records:

- the quota checks;
- the provider calls, which stand for OpenAI;
- the usage commits.

The log lets the handler contracts state the order of these effects. Several things become
parameters rather than being modelled:

- store failures;
- the outcomes of the provider and gateway calls;
- the id of a newly inserted chat;
- the clock, as `nowSeconds` in Unix seconds (`Date.now()` in milliseconds for `Helper.Now`).

Decisions that are plain value computations are functions: the admission decision, plan
resolution, the middleware verdicts and the webhook classification. Each state-changing
handler is a method. Its contract ties the response and the new store to those functions,
and lemmas prove the properties the code promises about them.

Where the repository's design notes and its code disagree, the model follows the code:

- `checkUsage` always uses the free limit of 10 per capability. It never reads the user's
  plan (`utils/rateLimiter.js:133-138`, `:169`), so no plan, enterprise included, raises the
  ceiling.
- An expired subscription is refused with "Your subscription has expired". It is not
  degraded to the free tier (`utils/rateLimiter.js:163-166`).
- Usage is a single counter per (user, capability), with no rolling window.
- A chat turn commits one unit even when the model call failed and the fallback text was
  stored (`controllers/chatController.js:146-172`).
- A translation commits its unit before the translated text is read from the completion,
  so a completion without a message is paid for and answered with 500
  (`controllers/translateController.js:84-86`).

## Model

| member | source | states |
|---|---|---|
| Tiers.ExactlyFourTiers | backend/src/utils/tiers.js:3-35 | `TIERS` has exactly the keys free, basic, pro and enterprise, and each record's name equals its key |
| Tiers.LimitsUniformWithinTier | backend/src/utils/tiers.js:4-34 | within each of the four tiers, the tts, stt, s2s and chat limits are equal |
| Tiers.LimitsStrictlyIncrease | backend/src/utils/tiers.js:6-33 | for every capability, free (10) < basic (300) < pro (3000) < enterprise |
| Tiers.EnterpriseNeverExceeded | backend/src/utils/tiers.js:28-34 | no usage count, however large, exceeds an enterprise limit (`Infinity`) |
| Tiers.FiniteBelowEnterprise | backend/src/utils/tiers.js:6-26 | every tier but enterprise has a finite limit for every capability, and that limit plus one exceeds it |
| RateLimiter.ParseMode | backend/src/utils/rateLimiter.js:129 | a mode is recognised exactly when it is one of tts, stt, s2s, chat, and the capability it yields has that name |
| RateLimiter.ParseModeName | backend/src/utils/rateLimiter.js:129 | every capability's name parses back to that capability |
| RateLimiter.UsageOf | backend/src/utils/rateLimiter.js:172-177 | the usage read fails exactly when the query errs, and finds a row exactly when the (user, capability) counter exists, that counter's value |
| RateLimiter.Decide | backend/src/utils/rateLimiter.js:150-204 | an admission implies: a readable, unexpired subscription; a usage read that failed at most with PGRST116; one more unit within the free limit. Every refusal is one of the four store refusals |
| RateLimiter.CheckUsage | backend/src/utils/rateLimiter.js:140-205 | an unknown mode is refused with "Invalid mode" before any read. An admission implies a known mode and a readable subscription, and with a readable counter used + 1 <= 10. Every refusal message is one the function throws |
| RateLimiter.AdmitIffBelowLimit | backend/src/utils/rateLimiter.js:184-197 | with a readable, unexpired or absent subscription, a request is admitted iff used + 1 <= 10, and is otherwise refused with "Usage limit reached for your plan" |
| RateLimiter.NineAdmitsTenRejects | backend/src/utils/rateLimiter.js:184-197 | 9 recorded units admit, 10 are refused with the quota message |
| RateLimiter.MissingUsageIsZero | backend/src/utils/rateLimiter.js:179-186 | no usage row, and the PGRST116 error, decide exactly like a counter of 0 |
| RateLimiter.LimitIgnoresPlan | backend/src/utils/rateLimiter.js:133-138 | two subscriptions that differ only in plan decide alike: the limit is always `FREE_LIMITS[mode]` |
| RateLimiter.ExpiryRejection | backend/src/utils/rateLimiter.js:163-166 | a null expiry behaves like no subscription, and an expiry equal to now is still valid. A present expiry strictly before now is refused as expired |
| RateLimiter.FailsClosed | backend/src/utils/rateLimiter.js:157-160 | a subscription read error, or a usage read error other than PGRST116, never admits |
| RateLimiter.CommitsAddUp | backend/src/utils/rateLimiter.js:215-224 | n successful commits raise the counter by exactly n: no lost and no phantom commits |
| RateLimiter.FreshUserQuota | backend/src/utils/rateLimiter.js:140-205 | for a fresh user after n commits, the next check admits iff n < 10: the 10th request is admitted, the 11th refused |
| RateLimiter.Check | backend/src/utils/rateLimiter.js:140-205 | `checkUsage` as called: the outcome is the decision on the store as it was, only the quota check is logged, and no counter changes |
| RateLimiter.AddUsage | backend/src/utils/rateLimiter.js:207-231 | an unknown mode gives "Invalid mode" and an RPC error gives "Failed to update usage", both leaving the counters unchanged. Otherwise exactly the (user, capability) counter goes up by one |
| Db.SubscriptionOf | backend/src/services/subscriptionService.js:20-24 | `maybeSingle` on `user_id`: an error, the user's single row, or no row when the user has none |
| Db.Upsert | backend/src/services/subscriptionService.js:107-119 | an upsert on `user_id` leaves one row per user, adds the user's key if absent, and leaves every other user's row unchanged |
| Db.UpsertWritesPatch | backend/src/controllers/subscriptionController.js:70-82 | the written columns land in the user's row, and each unnamed column (plan, plan id, expiry, status) keeps its previous value |
| Db.LaterGrantWins | backend/src/controllers/subscriptionController.js:70-82 | a second upsert writing the same columns erases every trace of the first |
| Db.Incremented | backend/src/utils/rateLimiter.js:215-219 | `increment_usage` adds one unit to exactly one (user, capability) counter and leaves all others unchanged |
| UsageTracker.WithColumn | backend/src/subscription/usageTracker.js:34-39 | writing the `${type}_used` column changes that column only |
| UsageTracker.UsageValue | backend/src/subscription/usageTracker.js:10-24 | a user without a row has 0 units, and a user with a row has that row's `<type>_used` column |
| UsageTracker.Added | backend/src/subscription/usageTracker.js:29-51 | after an addition the user's row exists, its column is the previous value plus the amount, its other columns and all other users' rows are unchanged |
| UsageTracker.AddsCompose | backend/src/subscription/usageTracker.js:31-41 | two sequential additions of a and b equal one addition of a + b |
| UsageTracker.Reset | backend/src/subscription/usageTracker.js:56-69 | a reset zeroes tts, stt and s2s, keeps chat, never creates a row, and touches no other user |
| UsageTracker.ResetIdempotent | backend/src/subscription/usageTracker.js:58-61 | resetting twice equals resetting once |
| UsageTracker.GetUsage | backend/src/subscription/usageTracker.js:10-24 | a read error is rethrown, never read as 0. Otherwise the result is the column, or 0 without a row |
| UsageTracker.AddUsage | backend/src/subscription/usageTracker.js:29-51 | either error is rethrown with the table unchanged. Otherwise the table becomes `Added(old, user, type, amount)` and the written row is returned |
| UsageTracker.ResetUsage | backend/src/subscription/usageTracker.js:56-69 | an error is rethrown with the table unchanged. Otherwise the table becomes `Reset(old, user)` |
| Helper.Now | backend/src/utils/helper.js:8-10 | `now*1000 <= ms < now*1000 + 1000` |
| Helper.ExpiryIsStrict | backend/src/utils/helper.js:17-19 | a timestamp equal to now has not expired, one a second earlier has |
| Helper.JsRem | backend/src/utils/helper.js:28-29 | JavaScript `%` keeps the sign of the dividend, with magnitude below the divisor, and agrees with the mathematical remainder on a non-negative dividend |
| Helper.JsRemOdd | backend/src/utils/helper.js:28-29 | negating the dividend negates the remainder, which pins the value for a negative dividend |
| Helper.NatToString | backend/src/utils/helper.js:30 | the decimal numeral is non-empty and all digits |
| Helper.DecimalRoundTrip | backend/src/utils/helper.js:30 | reading the printed numeral back gives the number |
| Helper.TimePartsRecombine | backend/src/utils/helper.js:26-31 | for seconds >= 0, h*3600 + m*60 + s == seconds, with m and s in [0, 59] and h >= 0 |
| Helper.FormatTimeComponents | backend/src/utils/helper.js:26-31 | the output is `"<h>h <m>m <s>s"`, and each component reads back as itself |
| Helper.HandleError | backend/src/utils/helper.js:38-41 | never a normal return: always the error carrying the given message |
| JsText.Or | backend/src/controllers/paymentController.js:42 | `a \|\| b` is truthy iff either operand is, is the first operand when that one is truthy, and the second one otherwise |
| JsText.TrimEmptyIffBlank | backend/src/controllers/paymentController.js:108-109 | `trim()` yields "" exactly when every character is JavaScript whitespace |
| JsText.ToLower | backend/src/services/subscriptionService.js:78 | lower-casing keeps the length and lower-cases each letter in place |
| JsText.Prefix | backend/src/controllers/chatController.js:109 | `substring(0, n)` is a prefix of length min(n, length) |
| SubscriptionService.GetSubscription | backend/src/services/subscriptionService.js:17-37 | a row is returned exactly when the read succeeds and the user has one. An error is returned as `null` |
| SubscriptionService.FetchErrorLooksLikeNone | backend/src/services/subscriptionService.js:26-36 | a failed read is indistinguishable from a user without a subscription |
| SubscriptionService.IsActive | backend/src/services/subscriptionService.js:42-58 | active iff the read succeeds, the user has a row, its expiry is non-null, and the expiry is strictly after now |
| SubscriptionService.PlansWithId | backend/src/services/subscriptionService.js:70-74 | the plan rows selected are exactly those with the given id |
| SubscriptionService.TierForName | backend/src/services/subscriptionService.js:78-79 | the result is one of the four tiers: the tier keyed by the lower-cased name when that is a key, and free otherwise |
| SubscriptionService.GetPlanLimits | backend/src/services/subscriptionService.js:63-85 | the result is always a tier. A non-free result needs a readable subscription with a plan id, a readable plan query, and a single plan row. Conversely, with all of those the result is the tier of that row's name |
| SubscriptionService.FreeTierFallbacks | backend/src/services/subscriptionService.js:67-84 | free in four cases: no subscription, no plan id, a plan query error, or a plan name naming no tier |
| SubscriptionService.PlanNameCaseInsensitive | backend/src/services/subscriptionService.js:78-79 | a name and its lower-cased form resolve alike: "Pro", "PRO" and "pro" are all pro |
| SubscriptionService.PlanLimitsIgnoreExpiry | backend/src/services/subscriptionService.js:63-85 | changing the expiry never changes the resolved tier: an expired pro subscription still resolves to pro |
| SubscriptionService.UuidShapeExamples | backend/src/services/subscriptionService.js:95 | a canonical UUID matches `^[0-9a-fA-F-]{36}$`, while "pro" and "" do not |
| SubscriptionService.GrantedRow | backend/src/services/subscriptionService.js:102-119 | after a grant, the user's row carries the plan and an expiry exactly now + 2,592,000 seconds, and is active at that moment |
| SubscriptionService.SecondGrantOverwrites | backend/src/services/subscriptionService.js:107-119 | a second grant to the same user overwrites the first |
| SubscriptionService.UpsertSubscription | backend/src/services/subscriptionService.js:90-133 | an empty or non-UUID plan id, or a write error, gives `null` and writes nothing. Otherwise the user's row is upserted with the plan and a 30-day expiry, and returned |
| SubscriptionModel.GetSubscriptionByUserId | backend/src/models/subscriptionModel.js:11-29 | a read error is rethrown. Otherwise the result is the user's row, or `null` when there is none |
| SubscriptionModel.UpsertSubscription | backend/src/models/subscriptionModel.js:34-57 | a write error is rethrown with nothing written. Otherwise the row is upserted with `plan` and expiry now + durationDays*24*3600, and returned |
| SubscriptionModel.IsSubscriptionActive | backend/src/models/subscriptionModel.js:62-65 | a read error is rethrown. Otherwise the result is true iff a row exists and its expiry is strictly after now |
| SubscriptionModel.JustUpsertedIsActive | backend/src/models/subscriptionModel.js:36 | at the same clock reading, a just-upserted subscription is active iff durationDays >= 1 |
| SubscriptionModel.LatestUpsertWins | backend/src/models/subscriptionModel.js:38-45 | two upserts leave one row, holding the later plan and expiry |
| SubscriptionController.GetSubscription | backend/src/controllers/subscriptionController.js:10-56 | 401 "Unauthorized: No user ID found" without a user id, 500 "Failed to load subscription data" on a read error, 404 "No active subscription found for this user" without a row. 200 with the row exactly when the read finds one |
| SubscriptionController.DurationOrDefault | backend/src/controllers/subscriptionController.js:62 | `durationDays` defaults to 30 only when it is left out |
| SubscriptionController.GrantSetsActive | backend/src/controllers/subscriptionController.js:64-78 | every grant leaves the user's row with status 'active', the plan, and an expiry durationDays days after now |
| SubscriptionController.LaterGrantWinsRow | backend/src/controllers/subscriptionController.js:70-82 | two grants leave one row, holding the later plan and expiry |
| SubscriptionController.UpsertSubscription | backend/src/controllers/subscriptionController.js:62-92 | an upsert error propagates with nothing written. Otherwise the grant is upserted and the row returned |
| RateLimitMiddleware.MissingField | backend/src/middleware/rateLimit.js:61-70 | 400 exactly when tts or s2s lacks `text`, or stt lacks `audioBase64` |
| RateLimitMiddleware.RateLimit | backend/src/middleware/rateLimit.js:49-80 | 401 without a user. `next()` iff there is a user, the body field is present, and `checkUsage` admits. A refusal of `checkUsage` is answered with 429 and exactly its message, and every 429 is such a refusal. Only 400, 401 and 429 are answered |
| RateLimitMiddleware.NextMeansWithinQuota | backend/src/middleware/rateLimit.js:73-74 | a request passing the middleware has a known mode and a count with used + 1 <= 10 |
| RateLimitMiddleware.FieldCheckPrecedesQuota | backend/src/middleware/rateLimit.js:62-73 | a missing body field gives 400 whatever the store holds, so the quota is never consulted |
| RateLimitMiddleware.FieldRequirements | backend/src/middleware/rateLimit.js:61-69 | chat needs no field. tts and s2s with a falsy text (absent or empty), and stt with a falsy audio, are refused with 400 |
| SubscriptionMiddleware.LatestActive | backend/src/middleware/subscriptionMiddleware.js:74-81 | a row is found iff some row expires strictly after now. The row found is such a row, and no other active row expires later |
| SubscriptionMiddleware.RowsOf | backend/src/middleware/subscriptionMiddleware.js:74-77 | the user's rows are the user's single subscription row, or none |
| SubscriptionMiddleware.RequireSubscription | backend/src/middleware/subscriptionMiddleware.js:60-109 | 401 without a user and 500 on a read error. `next()` with the row attached iff the user's row expires strictly after now. Otherwise 403 with "No active subscription. Please upgrade your plan to continue." |
| SubscriptionMiddleware.AgreesWithIsActive | backend/src/middleware/subscriptionMiddleware.js:74-104 | on every readable store the middleware admits exactly when the service's `isActive` holds |
| SubscriptionMiddleware.ExpiryBoundary | backend/src/middleware/subscriptionMiddleware.js:78 | an expiry equal to now is refused, one a second later is admitted |
| WebhookController.DurationOrThirty | backend/src/controllers/webhookController.js:66 | `meta.duration` when truthy, else 30 |
| WebhookController.Classify | backend/src/controllers/webhookController.js:43-71 | 401 unless the signature is present and equals the secret. A grant iff the event is `charge.completed` with status `successful` and the metadata names a user and a plan, granting those for `DurationOrThirty` days. A completed charge without `data` gives 500; a successful one whose metadata lacks the user or the plan gives 400 "Invalid metadata". Otherwise only 200, 400 or 500 |
| WebhookController.OtherEventsIgnored | backend/src/controllers/webhookController.js:56-58 | a signed event other than a successful completed charge gets 200 "Event ignored" and never grants |
| WebhookController.ReplayDoesNotStack | backend/src/controllers/webhookController.js:74 | a replayed grant sets the expiry from the later delivery, and the durations do not add |
| WebhookController.FlutterwaveWebhook | backend/src/controllers/webhookController.js:39-86 | a reply writes nothing. A grant upserts exactly once with (user, plan, days) and answers 200, or answers 500 with nothing written when the upsert throws |
| PaymentController.PlansNamed | backend/src/controllers/paymentController.js:15-19 | the selected plan rows are exactly those with the name |
| PaymentController.GetPlanUuidByName | backend/src/controllers/paymentController.js:12-30 | an id is found iff the name is truthy, the query succeeds, and exactly one plan has that name. The id found is that plan's |
| PaymentController.PlanLookupIsCaseSensitive | backend/src/controllers/paymentController.js:18 | "pro" finds the pro plan, while "Pro" finds nothing |
| PaymentController.DuplicateNamesResolveToNothing | backend/src/controllers/paymentController.js:19-24 | two plans sharing a name make the lookup return `null` |
| PaymentController.OrAmount | backend/src/controllers/paymentController.js:43 | `amount \|\| price`: a present non-zero amount is kept; an absent or zero amount falls back to price, whatever price is |
| PaymentController.InitPayment | backend/src/controllers/paymentController.js:36-87 | 401 without a session user. A charge is sent iff there is a user, a plan name, a non-zero amount and the user's e-mail, carrying amount*100 kobo, that e-mail, the plan name and the user. A missing plan name or amount gives 400, a missing user row 500 "User not found", a failed gateway call 500. 200 iff that charge was sent and accepted |
| PaymentController.InitBodyFallbacks | backend/src/controllers/paymentController.js:42-43 | `plan_id` wins over `planId`, and a zero `amount` falls back to `price` |
| PaymentController.MetaField | backend/src/controllers/paymentController.js:108-109 | absent or empty metadata is `null`. Otherwise the field is trimmed |
| PaymentController.BlankMetadataNeverSettles | backend/src/controllers/paymentController.js:108-116 | a plan name made only of whitespace counts as missing, so the payment never settles |
| PaymentController.SettledPlan | backend/src/controllers/paymentController.js:119-144 | the plan recorded is the looked-up id whenever the lookup finds one, and `null` otherwise |
| PaymentController.VerifyPayment | backend/src/controllers/paymentController.js:93-165 | 400 without a reference, 500 when verification throws, 400 without data, and 400 "Payment failed" when the payment does not settle, each writing nothing. A settled payment answers ok and appends the payment row unless its insert fails. It grants the subscription iff a UUID-shaped plan id was found and the upsert succeeded |
| Metering.Caught | backend/src/controllers/ttsController.js:97-107 | 429 with the message iff the handler has the 429 branch and the message contains "limit reached". Otherwise 500 with the handler's text |
| Metering.QuotaMessageIsLimit | backend/src/utils/rateLimiter.js:196 | the quota refusal contains "limit reached" |
| Metering.OtherStoreMessagesNotLimit | backend/src/utils/rateLimiter.js:146-224 | no other message of `checkUsage` or `addUsage` contains "limit reached" |
| Metering.CheckRefusalStatus | backend/src/controllers/ttsController.js:73-107 | a refused check is answered 429 exactly when it is the quota refusal. Invalid mode and store failures give 500 |
| Metering.RunCallsStopsAtFailure | backend/src/controllers/s2sController.js:74-101 | the provider calls made are a prefix of those planned. No call failed iff all were made and returned. Otherwise the last call made is the one that threw |
| Metering.CalledEntries | backend/src/controllers/s2sController.js:74-101 | one log entry per provider call made, in order |
| Metering.Serve | backend/src/controllers/ttsController.js:73-107 | the shared protocol against the store: the response and the appended log are those of `Protocol`, and the counter goes up by one exactly when `Protocol` commits |
| Metering.CommitIffSuccess | backend/src/controllers/ttsController.js:73-93 | in the shared protocol, a unit is committed iff its response is 200, iff the quota check admits, every provider call returns, and the commit succeeds |
| Metering.CommitFollowsCalls | backend/src/controllers/s2sController.js:74-105 | the quota check is logged first. A commit is attempted iff the quota check admits and every provider call returns, and then exactly once, after all of them |
| Metering.RefusalCallsNothing | backend/src/controllers/ttsController.js:73-100 | a refused quota check logs only that check, calls no provider and commits nothing |
| TtsController.GenerateTts | backend/src/controllers/ttsController.js:57-109 | 401 without a user, then 400 without text, both before any check. Otherwise the protocol with mode "tts" and one speech call |
| S2sController.GenerateS2s | backend/src/controllers/s2sController.js:59-117 | 401 without a user, then 400 without audio, both before any check. Otherwise the protocol with mode "s2s", transcription then completion |
| TranslateController.TranslateText | backend/src/controllers/translateController.js:44-100 | 401 without a user, then 400 without text or target language. Otherwise the protocol metered as "s2s" with one completion, after which a completion without `choices[0].message` turns the 200 into 500 "Translation failed" with the unit already committed |
| TranslateController.Answer | backend/src/controllers/translateController.js:84-99 | the answer is 200 iff the protocol succeeded and the completion carries its message; a protocol success without the message is 500 "Translation failed"; any other protocol answer is kept |
| TranslateController.CommittedWithoutAnswer | backend/src/controllers/translateController.js:84-99 | every 200 is paid for, and a unit is paid for without a 200 exactly when the completion lacks its message |
| TranslateController.MessagelessCompletionStillCommits | backend/src/controllers/translateController.js:84-99 | an admitted request whose completion has no message commits one unit and answers 500 |
| SttController.SpeechToText | backend/src/controllers/sttController.js:8-34 | a missing session throws (500), no user gives 401, no audio gives 400. Otherwise the protocol with mode "stt", one transcription and no 429 branch |
| SttController.QuotaRefusalIs500 | backend/src/controllers/sttController.js:30-33 | even the quota refusal is answered with 500 |
| ChatController.Title | backend/src/controllers/chatController.js:109 | a new chat's title is the first 50 characters of the message, or the whole message when shorter |
| ChatController.RoleFor | backend/src/controllers/chatController.js:140 | a role is "user" iff `user_role` is "user", and "assistant" otherwise |
| ChatController.ToContext | backend/src/controllers/chatController.js:139-142 | the history rows map one by one, in order, to role and content |
| ChatController.HistoryMembers | backend/src/controllers/chatController.js:130-134 | the history holds exactly the chat's messages |
| ChatController.HistoryAppend | backend/src/controllers/chatController.js:121-134 | appending a message of the chat appends it to the chat's history |
| ChatController.OldestWindow | backend/src/controllers/chatController.js:134-135 | the window the code takes is a prefix of the history, of length min(20, n) |
| ChatController.LatestWindow | backend/src/controllers/chatController.js:130-135 | the corrected window is the last min(20, n) messages of the history |
| ChatController.WindowsAgreeOnShortChats | backend/src/controllers/chatController.js:130-135 | up to 20 messages, both windows are the whole history |
| ChatController.LatestWindowHoldsNewMessage | backend/src/controllers/chatController.js:130-135 | the corrected window always ends with the message just posted |
| ChatController.OldestWindowDropsNewMessage | backend/src/controllers/chatController.js:130-135 | with 20 earlier messages, the window the code takes leaves out the message just posted |
| ChatController.AssistantText | backend/src/controllers/chatController.js:146-158 | the reply text is never empty: the model's content, "I couldn't generate a response." for empty content, or the unavailable text when the call threw. Each case is pinned |
| ChatController.Admit | backend/src/controllers/chatController.js:74-104 | the admission steps in order: 401, then 400 for a blank message, then 429 with the refusal message. Continuing with an existing chat iff it exists and is the caller's. A read error or a missing chat gives 404 "Chat not found", another user's chat 403. A new chat iff no chat id was given |
| ChatController.OpeningOf | backend/src/controllers/chatController.js:92-117 | a refusal stays a refusal. An existing chat opens iff it is present, else 404. A new chat opens with the fresh id unless its insert fails, which gives 500 |
| ChatController.OpenChat | backend/src/controllers/chatController.js:74-117 | the opening is decided on the store as it was, and `checkUsage` is logged iff there is a user and a non-blank message. Only a newly created chat is written, with owner, model and 50-character title |
| ChatController.PostMessage | backend/src/controllers/chatController.js:121-143 | the user's message is appended, and the context is the oldest 20 messages of the chat including it, as the code reads them (empty when the read fails) |
| ChatController.StoreReply | backend/src/controllers/chatController.js:161-165 | the assistant's reply is appended unless its insert fails |
| ChatController.Context | backend/src/controllers/chatController.js:130-143 | the history read right after posting is the chat's earlier messages followed by the one posted, cut to the oldest 20 |
| ChatController.CorrectedContext | backend/src/controllers/chatController.js:130-143 | with the corrected window the history has 1 to 20 entries, the chat's latest, and ends with the message just posted |
| ChatController.RecordChatUnit | backend/src/controllers/chatController.js:167-172 | one chat unit is committed unless the commit fails, which changes nothing else |
| ChatController.Converse | backend/src/controllers/chatController.js:120-182 | the user message fails with 500, writing nothing. Otherwise: the message is stored; the model sees the oldest 20 messages of the chat; the reply or fallback is answered with 200 and stored unless that insert fails; one chat unit is committed whatever the model did; the log holds the model call, then the commit |
| ChatController.SendMessage | backend/src/controllers/chatController.js:71-188 | a refusal writes no table and logs the quota check only when it was made. An opened chat proceeds as `Converse`, after exactly one quota check, with only a new chat added to the chats |
| ChatController.ContextWindowAsWritten | backend/src/controllers/chatController.js:130-143 | the history the code sends has at most 20 entries, and holds the message just posted (one entry past the earlier ones) iff the chat had fewer than 20 earlier messages. Below 20 earlier messages it is all of them followed by the one just posted. From 20 on it is the first 20 earlier ones only |
| ChatController.GetChat | backend/src/controllers/chatController.js:196-227 | the chat is returned iff it exists and is the caller's, with its title and each message's stored role and content in order. No user gives 500 "Server error", a read error 500 "Database error", and a missing or foreign chat 404 "Chat not found" |
| ChatController.PageNumber | backend/src/controllers/chatController.js:257 | `parseInt(page) \|\| 1`: NaN and 0 mean page 1, and any other number is kept |
| ChatController.PageRange | backend/src/controllers/chatController.js:258-267 | a page spans 20 rows, page 1 being rows 0 to 19 |
| ChatController.PagesAdjacent | backend/src/controllers/chatController.js:259-267 | consecutive pages neither overlap nor leave a gap |
| ChatController.RowOnExactlyOnePage | backend/src/controllers/chatController.js:259-267 | row i lies on page i / 20 + 1 and on no other page |
| ChatController.ChatsOf | backend/src/controllers/chatController.js:265-266 | the listed ids are chats of the user, taken from the store's newest-first order |
| ChatController.ChatsOfComplete | backend/src/controllers/chatController.js:265-266 | every chat of the user's in the store's order is listed |
| ChatController.ListChats | backend/src/controllers/chatController.js:254-275 | no user or a query error gives 500 "Could not fetch chats". Otherwise the page number is echoed and the page is the caller's chats, newest first, from the page's first row on: min(20, what remains) of them, each at its position |
| ChatController.Renamed | backend/src/controllers/chatController.js:286-290 | only the row whose id and owner both match gets the title. No row is added or removed |
| ChatController.Deleted | backend/src/controllers/chatController.js:307-311 | exactly the row whose id and owner both match is removed. The rest are unchanged |
| ChatController.ForeignChatUntouched | backend/src/controllers/chatController.js:286-311 | renaming or deleting another user's chat changes nothing |
| ChatController.RenameChat | backend/src/controllers/chatController.js:280-297 | 400 on an error with nothing changed. Otherwise "Success" and the owner-scoped rename, even when no row matched |
| ChatController.DeleteChat | backend/src/controllers/chatController.js:302-318 | 400 on an error with nothing changed. Otherwise "Deleted" and the owner-scoped delete |

## Left out

- HTTP wiring (`index.js`, `routes/*.js`) is not part of this model. The routes visibly
  import handlers that do not exist, and the chat and s2s routers are never mounted; the
  handlers are modelled as written.
- Supabase internals are not modelled. Every query is modelled by its row-level meaning
  (`maybeSingle`, upsert on `user_id`, update and delete with equality filters), and its
  failure is a parameter. The `increment_usage` procedure is an atomic +1 on one counter.
- OpenAI and the payment gateways are external calls. Their outcome is a parameter
  (`Call`, `LlmReply`, `Verification`). A provider call is recorded only as a `ProviderCalled`
  log entry. The audio, transcription and translation payloads are not modelled, so a
  successful capability response is modelled as a plain 200.
- The persona and system prompt text of the chat handler are not modelled: the context is
  the mapped history without the fixed persona entry in front of it.
- Concurrency is not modelled: every execution is sequential, so racing checks and the
  read-then-write race of the usage tracker are out of scope.
- The clock is an integer-seconds parameter, and `expires_at` is an integer. The model does
  not capture:
  - ISO 8601 timestamp strings;
  - the JavaScript comparison between an ISO string and a number in `checkUsage`;
  - `setDate` calendar days, which are taken as 86,400 seconds.
- Floating-point values are not modelled:
  - the duration estimates `text.length / 5` and `audioBase64.length / 10000`, which
    `checkUsage` ignores because it takes two parameters;
  - the naira-to-kobo amount, taken as an integer times 100;
  - the `amount / 100` stored with a payment.
- Payment rows keep the reference, user, plan and status. The amount, currency and raw
  response are not modelled, and neither is the `updated_at` column of the subscription
  upsert.
- The `plans` join of the subscription `GET` handler is not modelled: the reply carries the
  subscription row.
- `toLowerCase` is modelled on ASCII letters only.
- Deleting a chat does not cascade to its messages. The cascade is a database rule that
  this model does not capture.
- Request body fields are strings or absent, except `amount` and `price` of
  `initPayment`, which are numbers or absent. A non-string `text` or message, and a string
  `amount` or `price` (where "0" would be truthy and give a 0-kobo charge), are not
  modelled.
- WebhookController.Classify: `meta.duration` is a number or absent. A string duration,
  which `setDate` would concatenate rather than add, is not modelled.
- ChatController.Title: counts Unicode scalar values, where `substring(0, 50)` counts UTF-16
  code units. The two differ on characters outside the Basic Multilingual Plane.
- JsText.Prefix: the same difference: `n` counts Unicode scalar values, not UTF-16 code units.
- SubscriptionService.TierForName: `TIERS` is a map with exactly the four keys. The source
  indexes a plain object, so a plan named after an `Object.prototype` property such as
  "constructor" would yield that property rather than the free tier.
- ChatController.ListChats: `newestFirst` stands for the store's `created_at`-descending
  order and is a parameter, so the ordering itself is not checked. A negative page answers
  an empty page; what the store does with the negative range it is sent is not modelled.
- The usage table is read with two layouts in the source. The rate limiter reads one row per
  (user, type) with a `used` column. The usage tracker reads one row per user with a column
  per capability. They are modelled as two separate fields of the store.
- SubscriptionModel.IsSubscriptionActive: returns a boolean, where the source returns `null`
  for a user without a row. Both are falsy. For `nowSeconds < 0` the null-expiry case is not
  characterised by its contract.
- SubscriptionService.IsActive: its contract characterises the result only for a
  non-negative clock. The source reads a zero `expires_at` as absent, which differs from the
  strict comparison only at the epoch.
- Metering.Serve: the four capability handlers share it. It runs their provider calls in
  sequence, modelling the handler bodies rather than reproducing each one line by line.

## Findings

| source | as written | input that shows it | evidently intended | confidence | as-written member | corrected member |
|---|---|---|---|---|---|---|
| backend/src/controllers/chatController.js:130-135 | the history is read in ascending `created_at` order with `limit(20)`, which keeps the OLDEST 20 messages of the chat | a chat holding 20 earlier messages, then a new user message: the message just stored is the 21st and is not sent to the model | the latest 20 messages, oldest first, ending with the one just posted | not executed | ChatController.OldestWindowDropsNewMessage | ChatController.CorrectedContext |

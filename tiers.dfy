/**
 * The plan tier table of utils/tiers.js: four named tiers, each with a request limit
 * for every capability; the enterprise limits are JavaScript's `Infinity`.
 */
module Tiers {

  /** The four metered capabilities. */
  datatype Mode = Tts | Stt | S2s | Chat

  /** A limit is a finite count or the unlimited sentinel standing for `Infinity`. */
  datatype Limit = Finite(n: nat) | Unlimited

  /** `count <= limit`, where every number is at most `Infinity`. */
  predicate Within(count: int, limit: Limit) {
    limit.Unlimited? || count <= limit.n
  }

  datatype Tier = Tier(name: string, ttsLimit: Limit, sttLimit: Limit, s2sLimit: Limit, chatLimit: Limit)

  function LimitOf(t: Tier, m: Mode): Limit {
    match m
    case Tts => t.ttsLimit
    case Stt => t.sttLimit
    case S2s => t.s2sLimit
    case Chat => t.chatLimit
  }

  const FREE: Tier := Tier("free", Finite(10), Finite(10), Finite(10), Finite(10))
  const BASIC: Tier := Tier("basic", Finite(300), Finite(300), Finite(300), Finite(300))
  const PRO: Tier := Tier("pro", Finite(3000), Finite(3000), Finite(3000), Finite(3000))
  const ENTERPRISE: Tier := Tier("enterprise", Unlimited, Unlimited, Unlimited, Unlimited)

  /** `TIERS`, keyed by tier name. */
  const TIERS: map<string, Tier> :=
    map["free" := FREE, "basic" := BASIC, "pro" := PRO, "enterprise" := ENTERPRISE]

  /** `a` is a strictly smaller ceiling than `b`. */
  predicate Below(a: Limit, b: Limit) {
    a.Finite? && (b.Unlimited? || a.n < b.n)
  }

  lemma ExactlyFourTiers()
    ensures TIERS.Keys == {"free", "basic", "pro", "enterprise"}
    ensures forall key :: key in TIERS ==> TIERS[key].name == key
  {
  }

  lemma LimitsUniformWithinTier(t: Tier, m: Mode)
    requires t in TIERS.Values
    ensures LimitOf(t, m) == t.ttsLimit
  {
  }

  lemma LimitsStrictlyIncrease(m: Mode)
    ensures Below(LimitOf(FREE, m), LimitOf(BASIC, m))
    ensures Below(LimitOf(BASIC, m), LimitOf(PRO, m))
    ensures Below(LimitOf(PRO, m), LimitOf(ENTERPRISE, m))
  {
  }

  /** No usage count, however large, exceeds an enterprise limit. */
  lemma EnterpriseNeverExceeded(m: Mode, count: int)
    ensures Within(count, LimitOf(ENTERPRISE, m))
  {
  }

  /** Every tier except enterprise has finite limits only. */
  lemma FiniteBelowEnterprise(t: Tier, m: Mode)
    requires t in TIERS.Values && t != ENTERPRISE
    ensures LimitOf(t, m).Finite? && !Within(LimitOf(t, m).n + 1, LimitOf(t, m))
  {
  }
}

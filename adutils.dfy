/** `canRetryAd` and `MAX_ATTEMPTS_PER_AD` of server/utils/Adutils.js. */
module AdUtils {
  import opened Common
  import opened AdAttemptModel

  /** A numeric limit as JavaScript compares with it: NaN compares false with everything. */
  datatype Limit = Finite(n: int) | NaN

  /** `process.env.MAX_ATTEMPTS_PER_AD ? parseInt(...) : 3`. */
  function MaxAttemptsPerAd(env: EnvInt): (l: Limit)
    ensures env == Unset ==> l == Finite(3)
    ensures env == NotANumber ==> l == NaN
    ensures env.Parsed? ==> l == Finite(env.n)
  {
    match env
    case Unset => Finite(3)
    case NotANumber => NaN
    case Parsed(n) => Finite(n)
  }

  /** `count < limit` in JavaScript. */
  predicate Below(count: int, limit: Limit)
  {
    limit.Finite? && count < limit.n
  }

  /** No record yet: always allowed; otherwise allowed while its total count is below the limit. */
  function CanRetryAd(doc: Option<AdAttempt>, limit: Limit): (ok: bool)
    ensures doc.None? ==> ok
    ensures doc.Some? ==> (ok <==> Below(doc.value.attemptCount, limit))
  {
    if doc.None? then true else Below(doc.value.attemptCount, limit)
  }

  /** Only the total count of the record matters. */
  lemma CanRetryDependsOnlyOnCount(a: AdAttempt, b: AdAttempt, limit: Limit)
    requires a.attemptCount == b.attemptCount
    ensures CanRetryAd(Some(a), limit) == CanRetryAd(Some(b), limit)
  {
  }

  /** With the default limit, an existing record may be retried at counts 1 and 2 only. */
  lemma DefaultLimitAllowsTwoRetries(a: AdAttempt)
    requires a.attemptCount >= 1
    ensures CanRetryAd(Some(a), MaxAttemptsPerAd(Unset)) <==> a.attemptCount <= 2
  {
  }
}

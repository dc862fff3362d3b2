/** `src/exceptions/billing_exception.ts`: the error codes and which of them a retry may cure. */
module BillingErrors {
  datatype ErrorCode =
    | PeerMissing | ConfigMissing | TestInProduction | LiveKeyOutsideProduction
    | InvalidSignature | WebhookBodyUnreadable
    | CustomerNotFound | TenantNotResolvable | PlanUnmapped | InvalidPrice | SubscriptionNotFound
    | CardDeclined | RateLimited | ApiError | NetworkError | MeteringFailed
    | IdempotencyConflict | QueueUnavailable | AuthenticationFailed | InvalidStripeRequest | PermissionDenied

  /** What an attempt throws: a BillingException or anything else. */
  datatype Failure = Billing(code: ErrorCode) | Unhandled

  predicate IsRetryable(code: ErrorCode) {
    match code
    case TenantNotResolvable => true
    case CustomerNotFound => true
    case RateLimited => true
    case ApiError => true
    case NetworkError => true
    case MeteringFailed => true
    case QueueUnavailable => true
    case _ => false
  }

  /** Errors that mark the ledger row failed without a retry. */
  predicate IsFatal(f: Failure) {
    f.Billing? && !IsRetryable(f.code)
  }
}

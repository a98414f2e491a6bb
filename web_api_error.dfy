/**
 * The error object the Spotify Web API client rejects with: a Node.js error
 * `code` (`ETIMEDOUT`, `ECONNRESET`, ...), the HTTP `statusCode` when there was a
 * response, and the `retry-after` response header read as whole seconds.
 */
module WebApiError {
  import opened Wrappers

  datatype ApiError = ApiError(code: string, statusCode: Option<int>, retryAfterSeconds: int)

  /** What a `catch` block does with an error: sleep for `ms` and retry, or rethrow. */
  datatype Recovery = RetryAfter(ms: int) | Rethrow

  /** The wait before retrying a rate-limited (429) request: `retry-after` seconds, in milliseconds. */
  function RateLimitWaitMs(e: ApiError): int {
    e.retryAfterSeconds * 1000
  }

  /** The fixed wait before retrying after any other transient error. */
  const TransientWaitMs: int := 30 * 1000
}

// The token bucket of RateLimitedQueue: refill on every tick, spend one per job.
module Bucket {
  function Refill(tokens: int, burst: int): int {
    if tokens < burst then tokens + 1 else tokens
  }
}

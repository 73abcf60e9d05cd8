/**
 * The integer clock of the polling loops. Both deployers poll with the guard
 * `time.time() - start_time < limit` and sleep 10 seconds between requests; requests
 * themselves take no modelled time, so request `k` (counting from 0) is issued at second
 * `10 * k`.
 */
module Clock {

  /** The fixed pause between two status requests. */
  const PollInterval: nat := 10

  /** How many requests a loop with deadline `limit` issues when none of them ends it. */
  function PollBudget(limit: int): (n: nat)
    ensures forall k: nat :: PollInterval * k < limit <==> k < n
  {
    if limit <= 0 then 0 else (limit + 9) / 10
  }
}

/** The score under which a notification waits in the sorted set. */
module Scores {
  const SHIFT := 1_000_000_000_000

  function Score(priority: nat, ms: nat): nat {
    priority * SHIFT + ms
  }
}

/** How a restart tells whether an interrupted rename happened: the fingerprint first, then the tag. */
module RecoveryRule {
  import opened Wrappers
  import opened Media

  datatype Verdict = Unknown | SourceIntact | Promoted

  /** What the restart could read of the library file: its fingerprint, and the policy its tags name. */
  datatype Sight = Sight(fingerprint: Option<int>, probed: bool, policy: Option<int>)

  /** recorded is the fingerprint analysis stored, if any; policy is the current policy's. */
  function Decide(recorded: Option<int>, sight: Sight, policy: int): Verdict {
    if recorded.Some? && sight.fingerprint.None? then Unknown
    else if recorded.Some? && sight.fingerprint == recorded then SourceIntact
    else if !sight.probed then Unknown
    else if sight.policy == Some(policy) then Promoted
    else Unknown
  }

  /** The tag half of the rule: the file carries both the marker and the current policy's hash. */
  predicate TaggedWith(tags: map<TagKey, string>, policy: string) {
    CodarrTag in tags && CodarrPolicy in tags && tags[CodarrPolicy] == policy
  }

  const MAX_AUTO_ATTEMPTS: nat := 3

  datatype Requeue = Requeued(attempt: nat) | CapReached

  /** An interrupted job goes back to the queue until the cap on automatic restarts is reached. */
  function RequeueOrFail(attempt: nat): Requeue {
    if attempt >= MAX_AUTO_ATTEMPTS then CapReached else Requeued(attempt + 1)
  }
}

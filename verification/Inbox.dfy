/** The processed-messages table: who may work on a message, and whether it is done. */
module Inbox {
  import opened Prelude

  const SECOND: nat := 1000
  const CLAIM_TTL: nat := 120 * SECOND
  const HOUR: int := 3600 * SECOND
  const KEEP_COMPLETED: int := 3 * 24 * HOUR
  const KEEP_CLAIMED: int := 24 * HOUR

  datatype Marker = Claimed(at: Time) | Completed(at: Time)

  type Markers = map<string, Marker>

  predicate CanClaim(m: Markers, mid: string, now: Time) {
    mid in m ==> m[mid].Claimed? && m[mid].at <= now - CLAIM_TTL
  }

  /** claim_slot: insert, or take over a stale claim; the flag says Process rather than Skip. */
  function ClaimSlot(m: Markers, mid: string, now: Time): (Markers, bool) {
    if CanClaim(m, mid, now) then (m[mid := Claimed(now)], true) else (m, false)
  }

  predicate IsCompleted(m: Markers, mid: string) {
    mid in m && m[mid].Completed?
  }

  /** The closing upsert of a flush: it refuses only a message that is already completed. */
  function Complete(m: Markers, mid: string, now: Time): Option<Markers> {
    if IsCompleted(m, mid) then None else Some(m[mid := Completed(now)])
  }

  predicate Reapable(k: Marker, now: Time) {
    match k
    case Completed(at) => at < now - KEEP_COMPLETED
    case Claimed(at) => at < now - KEEP_CLAIMED
  }

  /** reap_processed_messages */
  function Reap(m: Markers, now: Time): Markers {
    map mid | mid in m && !Reapable(m[mid], now) :: m[mid]
  }

  /** A message that is not done can be claimed exactly when it has no claim younger than two minutes. */
  lemma ClaimableIff(m: Markers, mid: string, now: Time)
    ensures ClaimSlot(m, mid, now).1
            <==> !IsCompleted(m, mid) && !(mid in m && m[mid].Claimed? && now - m[mid].at < CLAIM_TTL)
    ensures ClaimSlot(m, mid, now).1 ==> forall later :: now <= later < now + CLAIM_TTL ==>
              !ClaimSlot(ClaimSlot(m, mid, now).0, mid, later).1
  {
  }
}

/** Messages take effect once: what the processed-messages table guarantees over whole runs. */
module ExactlyOnce {
  import opened Prelude
  import opened Service
  import opened Protocol
  import opened Effects
  import opened Safety
  import Flush
  import Inbox

  // ---------------------------------------------------------------- the invariant

  /** Commits are accounted for: each is a completed row, or one that was reaped. */
  ghost predicate Accounted(s: Sys) {
    forall mid :: s.history.commits[mid]
                  == s.history.reapedDone[mid] + if Inbox.IsCompleted(s.db.claims, mid) then 1 else 0
  }

  /** A completed row remembers the last commit; without one, the last commit is more than three days old. */
  ghost predicate Dated(s: Sys) {
    && (forall mid :: mid in s.db.claims ==> s.db.claims[mid].at <= s.now)
    && (forall mid :: Inbox.IsCompleted(s.db.claims, mid) ==> s.history.commits[mid] > 0)
    && (forall mid :: s.history.commits[mid] > 0 ==>
          && mid in s.history.lastCommit
          && (if Inbox.IsCompleted(s.db.claims, mid) then s.db.claims[mid].at == s.history.lastCommit[mid]
              else s.history.lastCommit[mid] < s.now - Inbox.KEEP_COMPLETED))
  }

  lemma StepAccounts(s: Sys, e: Event, u: Sys)
    requires Accounted(s) && InboxMoves(s, e, u)
    ensures Accounted(u)
  {
  }

  lemma StepDates(s: Sys, e: Event, u: Sys)
    requires Dated(s) && InboxMoves(s, e, u)
    ensures Dated(u)
  {
  }

  /** The exactly-once equation, for every interleaving of workers, crashes, takeovers and reaps. */
  lemma {:induction false} CommitsAreAccounted(configured: Option<Centavos>, es: seq<Event>)
    ensures Accounted(Run(configured, es)) && Dated(Run(configured, es))
  {
    hide Next, InboxMoves, Inv, NoteMoves, WorkersMove, BookMoves, QueueMoves, LedgerMoves;
    if es != [] {
      hide Accounted, Dated;
      var init, e := es[..|es| - 1], es[|es| - 1];
      CommitsAreAccounted(configured, init);
      EveryReachableStateIsSafe(configured, init);
      NextMoves(Run(configured, init), e);
      StepAccounts(Run(configured, init), e, Run(configured, es));
      StepDates(Run(configured, init), e, Run(configured, es));
    }
  }

  // ---------------------------------------------------------------- how far apart commits are

  /** The `i`-th event commits the message. */
  predicate CommitsAt(ss: seq<Sys>, i: nat, mid: string) {
    i + 1 < |ss| && ss[i + 1].note.Flushed? && ss[i + 1].note.mid == mid
  }

  predicate LongerApart(ss: seq<Sys>, i: nat, j: nat, ms: int) {
    i < |ss| && j < |ss| && ss[j].now - ss[i].now > ms
  }

  lemma {:induction false} LastCommitGrows(es: seq<Event>, ss: seq<Sys>, i: nat, j: nat, mid: string)
    requires |ss| == |es| + 1 && forall k :: 0 <= k < |es| ==> InboxMoves(ss[k], es[k], ss[k + 1])
    requires i < j <= |es| && CommitsAt(ss, i, mid)
    ensures ss[j].history.commits[mid] > 0 && mid in ss[j].history.lastCommit
    ensures ss[i].now <= ss[j].history.lastCommit[mid] <= ss[j].now
  {
    assert InboxMoves(ss[j - 1], es[j - 1], ss[j - 1 + 1]);
    if j - 1 > i {
      LastCommitGrows(es, ss, i, j - 1, mid);
    }
  }

  /** Two commits of one message are more than three days apart: the second needs the first reaped. */
  lemma CommitsAreDaysApart(configured: Option<Centavos>, es: seq<Event>, i: nat, j: nat, mid: string)
    requires i < j && CommitsAt(States(configured, es), i, mid) && CommitsAt(States(configured, es), j, mid)
    ensures LongerApart(States(configured, es), i, j, Inbox.KEEP_COMPLETED)
  {
    hide Run, Accounted, NoteMoves, WorkersMove, BookMoves, QueueMoves, Inv, Init;
    var ss := States(configured, es);
    StatesMove(configured, es);
    LastCommitGrows(es, ss, i, j, mid);
    CommitsAreAccounted(configured, es[..j]);
    assert InboxMoves(ss[j], es[j], ss[j + 1]);
  }

  /** Until something is reaped, a message commits at most once, and exactly when its row is completed. */
  lemma AtMostOnceUntilReaped(configured: Option<Centavos>, es: seq<Event>, mid: string)
    requires Run(configured, es).history.reapedDone[mid] == 0
    ensures Run(configured, es).history.commits[mid] <= 1
    ensures Run(configured, es).history.commits[mid] == 1 <==> Inbox.IsCompleted(Run(configured, es).db.claims, mid)
  {
    hide Run, Dated, Inbox.IsCompleted;
    CommitsAreAccounted(configured, es);
  }

  // ---------------------------------------------------------------- nothing is stuck

  /** The message is not done, and nobody claimed it within the last two minutes. */
  predicate Free(claims: Inbox.Markers, mid: string, now: Time) {
    !Inbox.IsCompleted(claims, mid) && !(mid in claims && claims[mid].Claimed? && now - claims[mid].at < Inbox.CLAIM_TTL)
  }

  /** A worker that has just arrived gets the message exactly when it is free, and stops otherwise. */
  lemma ClaimSucceedsIff(s: Sys, worker: Id, input: Input)
    requires IsAt(s, worker, Worker(input, Received))
    ensures IsAt(Next(s, Step(worker, Claim)), worker,
                 Worker(input, if Free(s.db.claims, input.dedupId, s.now) then Routing else Finished))
  {
    hide ThinkTo, RouteTo, Remember, Outside, Flush.FlushWrites;
    Inbox.ClaimableIff(s.db.claims, input.dedupId, s.now);
  }

  /** Whatever happened before, a message that is not done can be picked up two minutes later. */
  lemma NothingIsStuck(configured: Option<Centavos>, es: seq<Event>, worker: Id, input: Input)
    requires Allowed(input) && worker !in Run(configured, es).workers
    requires !Inbox.IsCompleted(Run(configured, es).db.claims, input.dedupId)
    ensures IsAt(Run(configured, es + [Tick(Inbox.CLAIM_TTL)] + [Arrive(worker, input)] + [Step(worker, Claim)]), worker,
                 Worker(input, Routing))
  {
    hide Run, Act, Accounted;
    var e1 := es + [Tick(Inbox.CLAIM_TTL)];
    var e2 := e1 + [Arrive(worker, input)];
    CommitsAreAccounted(configured, es);
    RunMore(configured, es, Tick(Inbox.CLAIM_TTL));
    RunMore(configured, e1, Arrive(worker, input));
    RunMore(configured, e2, Step(worker, Claim));
    ClaimSucceedsIff(Run(configured, e2), worker, input);
  }
}

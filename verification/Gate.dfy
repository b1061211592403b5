/** The confirmation gate over whole runs: nothing is removed, and nothing large is written, without a
    yes to a question that was still open. */
module Gate {
  import opened Prelude
  import opened Ledger
  import opened Evolution
  import opened Park
  import opened Protocol
  import opened Effects
  import opened Safety
  import Applications
  import Confirmations
  import Flush
  import Policy

  /** The event committed a batch that consumes the confirmation. */
  predicate Consumes(u: Sys, id: Id) {
    u.note.Flushed? && Used(u.note.batch) == Some(id)
  }

  /** The event committed a batch that consumes none. */
  predicate ConsumesNothing(u: Sys) {
    u.note.Flushed? && Used(u.note.batch).None?
  }

  /** The yes an event acts on: the confirmation its batch consumes, open until this very step. */
  predicate Confirmed(s: Sys, e: Event, u: Sys) {
    && IsWorkersStep(s, e) && u.note.Flushed? && Used(u.note.batch).Some?
    && Confirmations.CanConsume(s.db.confirmations, Used(u.note.batch).value, s.workers[e.worker].input.user)
  }

  /** The committed batch holds at most five ledger writes, its counted amounts add up to less than the
      threshold, and it removes nothing. */
  ghost predicate SmallFlush(s: Sys, u: Sys, threshold: int) {
    && u.note.Flushed?
    && var batch := u.note.batch;
       && |LedgerPart(batch)| <= Policy.MAX_WRITES && Policy.Sum(Policy.AmountWeight, batch) < threshold
       && (forall w :: w in batch ==> !IsDestructive(w))
       && KeepsRows(s.db.ledger, u.db.ledger)
  }

  lemma QuietKeepsRows(s: Sys, e: Event, u: Sys)
    requires LedgerMoves(s, e, u) && !u.note.Flushed?
    ensures KeepsRows(s.db.ledger, u.db.ledger)
  {
    hide Flush.FlushWrites;
  }

  lemma SmallAndSafe(s: Sys, e: Event, u: Sys)
    requires s.threshold > 0 && Bounded(s.db.ledger) && NoteMoves(s, e, u) && LedgerMoves(s, e, u) && ConsumesNothing(u)
    ensures SmallFlush(s, u, s.threshold)
  {
    hide Shaped, Policy.Classify, ApplyAll, Flush.ConsumeAll, Flush.EnqueueAll, Flush.FlushWrites, PutOf;
    var batch, mid := u.note.batch, u.note.mid;
    ShapedEffects(s.db.confirmations, s.db.outbox, batch, s.workers[e.worker].input, s.threshold, s.now);
    Flush.FlushOutcomes(s.db, mid, batch, s.now);
    Policy.SafeIff(batch, s.threshold);
    BatchKeepsRows(s.db.ledger, Carry(None, Some(mid)), batch);
  }

  lemma LedgerIsBounded(s: Sys)
    requires Inv(s)
    ensures s.threshold > 0 && Bounded(s.db.ledger)
  {
  }

  lemma {:induction false} ThresholdIsFixed(configured: Option<Centavos>, es: seq<Event>)
    ensures Run(configured, es).threshold == Policy.Threshold(configured)
  {
    hide Act;
    if es != [] {
      ThresholdIsFixed(configured, es[..|es| - 1]);
    }
  }

  /** A flush that consumes nothing removes nothing, holds at most five ledger writes, and its counted
      amounts add up to less than the threshold. */
  lemma UnconfirmedFlushIsSmall(configured: Option<Centavos>, es: seq<Event>, e: Event)
    requires ConsumesNothing(Run(configured, es + [e]))
    ensures SmallFlush(Run(configured, es), Run(configured, es + [e]), Policy.Threshold(configured))
  {
    hide Run, Inv, WorkersMove, NoteMoves, InboxMoves, BookMoves, QueueMoves, LedgerMoves, SmallFlush, ConsumesNothing,
         Policy.Threshold;
    RunMoves(configured, es, e);
    LedgerIsBounded(Run(configured, es));
    ThresholdIsFixed(configured, es);
    SmallAndSafe(Run(configured, es), e, Run(configured, es + [e]));
  }

  /** In every run, a row disappears from transactions, goals, budgets, recurring items or memories
      only in a flush that consumes a confirmation still open at that moment. */
  lemma RowsLeaveOnlyByConsent(configured: Option<Centavos>, es: seq<Event>, e: Event)
    requires !KeepsRows(Run(configured, es).db.ledger, Run(configured, es + [e]).db.ledger)
    ensures Confirmed(Run(configured, es), e, Run(configured, es + [e]))
  {
    hide Run, Inv, WorkersMove, NoteMoves, InboxMoves, BookMoves, QueueMoves, LedgerMoves, KeepsRows, Confirmed;
    var s, u := Run(configured, es), Run(configured, es + [e]);
    RunMoves(configured, es, e);
    if !u.note.Flushed? {
      QuietKeepsRows(s, e, u);
    } else if ConsumesNothing(u) {
      LedgerIsBounded(s);
      SmallAndSafe(s, e, u);
    } else {
      ConsumesWhatWasOpen(s, e, u);
    }
  }

  lemma ConsumesWhatWasOpen(s: Sys, e: Event, u: Sys)
    requires NoteMoves(s, e, u) && BookMoves(s, BookMoveOf(s, e, u.note), u) && u.note.Flushed? && !ConsumesNothing(u)
    ensures Confirmed(s, e, u)
  {
    hide Shaped, Applications.StepBook, Applications.StepTally, PutOf;
  }

  /** The expiry is checked when the answer is read and never again: whether a confirming flush commits
      does not depend on when it runs. */
  lemma FlushIgnoresTheExpiry(s: Sys, worker: Id, later: Time)
    ensures Next(s.(now := later), Step(worker, FlushBatch)).note == Next(s, Step(worker, FlushBatch)).note
  {
    hide RouteTo, ThinkTo, Remember, Outside, Flush.FlushWrites, Flush.ConsumeAll, Flush.EnqueueAll, ApplyAll;
    if worker in s.workers && s.workers[worker].phase.Ready? {
      var w := s.workers[worker];
      Flush.FlushOutcomes(s.db, w.input.dedupId, w.phase.batch, s.now);
      Flush.FlushOutcomes(s.db, w.input.dedupId, w.phase.batch, later);
    }
  }

  /** In any book, an open question is offered to a yes exactly while it has not expired and no newer live
      one hides it; and it can be consumed whether or not it has expired. */
  lemma ExpiryHidesTheQuestion(book: Confirmations.Book, id: Id, user: Id, now: Time)
    requires Confirmations.Valid(book) && Confirmations.CanConsume(book, id, user)
    ensures Confirmations.Latest(book, user, now) == Some(id)
            <==> && now < book.rows[id].expiresAt
                 && forall j :: id < j && j in book.rows ==> !Confirmations.Actionable(book.rows[j], user, now)
    ensures Confirmations.Consume(book, id, user).Some?
  {
  }
}

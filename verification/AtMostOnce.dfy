/** Parked batches in every run: each is applied at most once, never after it was cancelled or reaped,
    and what is applied is exactly what was parked. */
module AtMostOnce {
  import opened Prelude
  import opened Ledger
  import opened Service
  import opened Applications
  import opened Protocol
  import opened Effects
  import opened Safety
  import opened Gate
  import Confirmations
  import opened Park

  /** In every reachable state each parked batch was applied at most once, and applications per source
      message are its reaped consumed rows plus one if a consumed row of it is still stored. */
  lemma {:induction false} ApplicationsAreAccounted(configured: Option<Centavos>, es: seq<Event>)
    ensures Accounted(Run(configured, es).db.confirmations, Run(configured, es).history.tally)
  {
    hide Next, Inv, WorkersMove, NoteMoves, InboxMoves, QueueMoves, LedgerMoves, BookMoveOf, StepBook, StepTally;
    if es != [] {
      hide Accounted;
      var init, e := es[..|es| - 1], es[|es| - 1];
      var s := Run(configured, init);
      ApplicationsAreAccounted(configured, init);
      EveryReachableStateIsSafe(configured, init);
      NextMoves(s, e);
      MovesAccount(s.db.confirmations, s.history.tally, BookMoveOf(s, e, Run(configured, es).note));
    }
  }

  predicate OnceEach(t: Tally, id: Id, source: string) {
    t.applied[id] <= 1 && t.appliedFrom[source] <= 1 + t.reapedConsumed[source]
  }

  /** Double yeses, races and retries included: per source at most one application more than reaped rows. */
  lemma AppliedAtMostOnce(configured: Option<Centavos>, es: seq<Event>, id: Id, source: string)
    ensures OnceEach(Run(configured, es).history.tally, id, source)
  {
    hide Run, ConsumedSources;
    ApplicationsAreAccounted(configured, es);
  }

  /** After a no, a first yes or a reap, nothing in any later run applies the batch (again). */
  lemma {:induction false} NeverAppliedOnceDead(configured: Option<Centavos>, es: seq<Event>, more: seq<Event>, id: Id)
    requires Dead(Run(configured, es).db.confirmations, id)
    ensures Dead(Run(configured, es + more).db.confirmations, id)
    ensures Run(configured, es + more).history.tally.applied[id] == Run(configured, es).history.tally.applied[id]
    decreases |more|
  {
    hide Run, Inv, Dead, WorkersMove, NoteMoves, InboxMoves, QueueMoves, LedgerMoves, BookMoveOf, StepBook, StepTally;
    if more == [] {
      assert es + more == es;
    } else {
      var init, e := more[..|more| - 1], more[|more| - 1];
      assert es + more == es + init + [e];
      NeverAppliedOnceDead(configured, es, init, id);
      var s := Run(configured, es + init);
      RunMoves(configured, es + init, e);
      DeadStaysDead(s.db.confirmations, s.history.tally, BookMoveOf(s, e, Run(configured, es + more).note), id);
    }
  }

  // ---------------------------------------------------------------- what is applied is what was parked

  /** A worker about to confirm holds the stored row's own writes, for as long as the row exists; one about
      to park holds a batch of its own that confirms nothing. */
  predicate Honest(book: Confirmations.Book, w: Worker) {
    && (w.phase.Parking? ==> Used(w.phase.next).None?)
    && (w.phase.Ready? && Used(w.phase.batch).Some? ==>
          var id := Used(w.phase.batch).value;
          id < book.nextId && (id in book.rows ==> w.phase.batch == ConfirmBatchOf(book, w.input, id)))
  }

  ghost predicate AllHonest(s: Sys) {
    Confirmations.Valid(s.db.confirmations) && forall w :: w in s.workers ==> Honest(s.db.confirmations, s.workers[w])
  }

  lemma HonestIsStable(book: Confirmations.Book, m: BookMove, w: Worker)
    requires Confirmations.Valid(book) && Honest(book, w)
    ensures Honest(StepBook(book, m), w)
  {
    RequestsNeverChange(book, m);
    hide ConfirmBatch, StepBook;
  }

  lemma StepIsHonest(s: Sys, e: Event, u: Sys)
    requires AllHonest(s) && Confirmations.Valid(u.db.confirmations)
    requires WorkersMove(s, e, u) && BookMoves(s, BookMoveOf(s, e, u.note), u)
    ensures AllHonest(u)
  {
    hide BookMoveOf, StepBook, StepTally, ConfirmBatchOf, Confirmations.Latest;
    forall x | x in u.workers
      ensures Honest(u.db.confirmations, u.workers[x])
    {
      if IsWorkersStep(s, e) && x == e.worker {
        var w, v := s.workers[x], u.workers[x];
        if v.phase.Ready? && Used(v.phase.batch).Some? {
          LatestIsStored(s.db.confirmations, w.input.user, s.now);
        }
        HonestIsStable(s.db.confirmations, BookMoveOf(s, e, u.note), v);
      } else if x in s.workers {
        HonestIsStable(s.db.confirmations, BookMoveOf(s, e, u.note), s.workers[x]);
      }
    }
  }

  lemma LatestIsStored(book: Confirmations.Book, user: Id, now: Time)
    requires Confirmations.Valid(book)
    ensures var id := Confirmations.Latest(book, user, now); id.Some? ==> id.value < book.nextId && id.value in book.rows
  {
  }

  lemma {:induction false} EveryWorkerIsHonest(configured: Option<Centavos>, es: seq<Event>)
    ensures AllHonest(Run(configured, es))
  {
    hide Next, Inv, WorkersMove, NoteMoves, InboxMoves, BookMoves, QueueMoves, LedgerMoves, StepBook, StepTally;
    if es != [] {
      hide AllHonest;
      var init, e := es[..|es| - 1], es[|es| - 1];
      EveryWorkerIsHonest(configured, init);
      EveryReachableStateIsSafe(configured, init);
      ApplicationsAreAccounted(configured, es);
      NextMoves(Run(configured, init), e);
      StepIsHonest(Run(configured, init), e, Run(configured, es));
    }
  }

  /** The committed batch is the stored row's own: its writes, and the consume and reply around them. */
  predicate AppliesParked(s: Sys, e: Event, u: Sys, id: Id) {
    && IsWorkersStep(s, e) && u.note.Flushed? && id in s.db.confirmations.rows
    && var row := s.db.confirmations.rows[id];
       && row.status == Confirmations.Pending && LedgerPart(u.note.batch) == row.payload
       && u.note.batch == ConfirmBatch(s.workers[e.worker].input, id, row.payload, row.summary)
  }

  /** A yes applies exactly the writes that were parked under the confirmation it consumes. */
  lemma WhatIsAppliedWasParked(configured: Option<Centavos>, es: seq<Event>, e: Event, id: Id)
    requires Consumes(Run(configured, es + [e]), id)
    ensures AppliesParked(Run(configured, es), e, Run(configured, es + [e]), id)
  {
    hide Run, Inv, WorkersMove, NoteMoves, InboxMoves, BookMoves, QueueMoves, LedgerMoves, AllHonest, Consumes, AppliesParked;
    RunMoves(configured, es, e);
    EveryWorkerIsHonest(configured, es);
    WasParked(Run(configured, es), e, Run(configured, es + [e]), id);
  }

  lemma WasParked(s: Sys, e: Event, u: Sys, id: Id)
    requires Inv(s) && AllHonest(s) && Consumes(u, id) && NoteMoves(s, e, u) && BookMoves(s, BookMoveOf(s, e, u.note), u)
    ensures AppliesParked(s, e, u, id)
  {
    hide Shaped, ConfirmBatch, StepBook, StepTally, PutOf, LedgerPart, Inv;
    var w, row := s.workers[e.worker], s.db.confirmations.rows[id];
    assert Honest(s.db.confirmations, w);
    StoredIsLedger(s, id);
    ConfirmBatchEffects(s.db.confirmations, s.db.outbox, w.input, id, row.payload, row.summary, s.now);
  }

  lemma StoredIsLedger(s: Sys, id: Id)
    requires Inv(s) && id in s.db.confirmations.rows
    ensures var row := s.db.confirmations.rows[id];
            Own(row.payload, row.user) && forall w :: w in row.payload ==> !IsBookkeeping(w)
  {
    hide Admissible, Kept, PhaseOk;
    var row := s.db.confirmations.rows[id];
    assert Admissible(s.db.ledger, row.user, row.payload);
    AdmissibleIsLedger(s.db.ledger, row.user, row.payload);
  }
}

/** What holds of the ledger in every reachable state of the protocol. */
module Safety {
  import opened Prelude
  import opened Text
  import opened Domain
  import opened Ledger
  import opened Evolution
  import opened Goals
  import opened Categories
  import opened Audit
  import opened SameTurn
  import opened Park
  import opened Service
  import opened Protocol
  import Confirmations
  import Flush
  import Memory
  import Outbox
  import Policy
  import Tools

  // ---------------------------------------------------------------- stored facts

  ghost predicate FactsDistinct(t: Tables) {
    Memory.Distinct(Memory.Store(t.memories, t.nextId))
  }

  lemma ApplyKeepsFacts(t: Tables, c: Carry, w: WriteIntent)
    requires Bounded(t) && FactsDistinct(t)
    ensures var r := Apply(t, c, w); r.Ok? ==> FactsDistinct(r.Or(t))
  {
    hide Apply;
    var s := Memory.Store(t.memories, t.nextId);
    if w.SaveMemory? {
      MemoryWriteStores(t, c, w);
      Memory.SaveKeepsDistinct(s, w.user, w.content, w.memoryKind);
    } else if w.ForgetMemory? {
      MemoryWriteStores(t, c, w);
      Memory.ForgetKeepsDistinct(s, w.user, w.query);
    } else {
      OthersKeepMemories(t, c, w);
      if Apply(t, c, w).Ok? {
        FactsStayDistinct(t, Apply(t, c, w).value);
      }
    }
  }

  lemma FactsStayDistinct(t: Tables, u: Tables)
    requires FactsDistinct(t) && u.memories == t.memories && t.nextId <= u.nextId
    ensures FactsDistinct(u)
  {
  }

  lemma MemoryWriteStores(t: Tables, c: Carry, w: WriteIntent)
    requires w.SaveMemory? || w.ForgetMemory?
    ensures var s := Memory.Store(t.memories, t.nextId);
            Apply(t, c, w) == Ok(WithMemories(t, if w.SaveMemory? then s.Save(w.user, w.content, w.memoryKind)
                                                 else s.Forget(w.user, w.query)))
  {
  }

  lemma {:induction false} BatchKeepsFacts(t: Tables, c: Carry, ws: seq<WriteIntent>)
    requires Bounded(t) && FactsDistinct(t)
    ensures var r := ApplyAll(t, c, ws); r.Ok? ==> FactsDistinct(r.Or((t, c)).0)
    decreases |ws|
  {
    if ws != [] {
      ApplyKeepsFacts(t, c, ws[0]);
      ApplyEvolves(t, c, ws[0]);
      hide Apply, FactsDistinct;
      var r := Apply(t, c, ws[0]);
      if r.Ok? {
        BatchKeepsFacts(r.value, Advance(t, c, ws[0]), ws[1..]);
      }
    }
  }

  // ---------------------------------------------------------------- the ledger between steps

  /** Balances conserved, categories lawful, the trail exact, facts distinct. */
  ghost predicate Kept(t: Tables) {
    Good(t) && Audited(t) && FactsDistinct(t)
  }

  /** The tools could have built this batch for this user from a snapshot the ledger still honours. */
  ghost predicate Admissible(t: Tables, user: Id, tool: seq<WriteIntent>) {
    exists s :: SnapshotFits(t, user, s) && Tools.ToolBuilt(user, s, tool)
  }

  lemma AdmissibleIsStable(t: Tables, u: Tables, user: Id, tool: seq<WriteIntent>)
    requires Admissible(t, user, tool) && Evolves(t, u)
    ensures Admissible(u, user, tool)
  {
    var s :| SnapshotFits(t, user, s) && Tools.ToolBuilt(user, s, tool);
    SnapshotFitsIsStable(t, u, user, s);
  }

  lemma NothingIsAdmissible(t: Tables, user: Id)
    ensures Admissible(t, user, [])
  {
    var s := Tools.Snapshot(None, [], []);
    assert SnapshotFits(t, user, s) && Tools.ToolBuilt(user, s, []);
  }

  /** A flush of admissible writes, bookkeeping around them or not, keeps the ledger. */
  lemma BatchKeepsLedger(t: Tables, src: Option<string>, user: Id, batch: seq<WriteIntent>)
    requires Kept(t) && Admissible(t, user, LedgerPart(batch)) && ApplyAll(t, Carry(None, src), batch).Ok?
    ensures var u := ApplyAll(t, Carry(None, src), batch).Or((t, Carry(None, src))).0; Kept(u) && Evolves(t, u)
  {
    var c, tool := Carry(None, src), LedgerPart(batch);
    var s :| SnapshotFits(t, user, s) && Tools.ToolBuilt(user, s, tool);
    BookkeepingIsInvisible(t, c, batch);
    hide ApplyAll, LedgerPart, Tools.ToolBuilt, SnapshotFits;
    ToolBatchKeepsGood(t, src, user, s, tool);
    BatchIsAudited(t, c, tool);
    BatchKeepsFacts(t, c, tool);
    BatchEvolves(t, c, tool);
  }

  // ---------------------------------------------------------------- workers

  /** Every batch about to be flushed: a plain one the gate calls safe, or a confirming one. */
  predicate Shaped(batch: seq<WriteIntent>, input: Input, threshold: int) {
    || (EndsWithReply(batch, input) && Policy.Classify(batch, threshold) == Policy.Safe)
    || (batch != [] && batch[0].ConsumeConfirmation? && batch[0].user == input.user && EndsWithReply(batch[1..], input))
  }

  ghost predicate BatchOk(t: Tables, threshold: int, input: Input, batch: seq<WriteIntent>) {
    Admissible(t, input.user, LedgerPart(batch)) && Shaped(batch, input, threshold)
  }

  /** What a worker has read so far, as a snapshot. */
  function ReadSoFar(phase: Phase): Tools.Snapshot
    requires phase.Reading?
  {
    Tools.Snapshot(Or(phase.last, None), Or(phase.goals, []), Or(phase.labels, []))
  }

  ghost predicate PhaseOk(t: Tables, threshold: int, input: Input, phase: Phase) {
    match phase
    case Reading(_, _, _) => SnapshotFits(t, input.user, ReadSoFar(phase))
    case Parking(stored, _, next) => Admissible(t, input.user, stored) && BatchOk(t, threshold, input, next)
    case Ready(batch) => BatchOk(t, threshold, input, batch)
    case _ => true
  }

  ghost predicate PayloadsOk(t: Tables, book: Confirmations.Book) {
    forall i :: i in book.rows ==> Admissible(t, book.rows[i].user, book.rows[i].payload)
  }

  ghost predicate DbOk(db: Flush.Db) {
    Kept(db.ledger) && PayloadsOk(db.ledger, db.confirmations)
  }

  ghost predicate WorkerOk(t: Tables, threshold: int, w: Worker) {
    Allowed(w.input) && PhaseOk(t, threshold, w.input, w.phase)
  }

  ghost predicate Inv(s: Sys) {
    && s.threshold > 0 && DbOk(s.db)
    && (forall w :: w in s.workers ==> WorkerOk(s.db.ledger, s.threshold, s.workers[w]))
  }

  lemma PhaseIsStable(t: Tables, u: Tables, threshold: int, input: Input, phase: Phase)
    requires PhaseOk(t, threshold, input, phase) && Evolves(t, u)
    ensures PhaseOk(u, threshold, input, phase)
  {
    hide Admissible, Shaped, LedgerPart;
    match phase
    case Reading(_, _, _) => SnapshotFitsIsStable(t, u, input.user, ReadSoFar(phase));
    case Parking(stored, _, next) =>
      AdmissibleIsStable(t, u, input.user, stored);
      AdmissibleIsStable(t, u, input.user, LedgerPart(next));
    case Ready(batch) => AdmissibleIsStable(t, u, input.user, LedgerPart(batch));
    case _ =>
  }

  lemma PayloadsAreStable(t: Tables, u: Tables, book: Confirmations.Book)
    requires PayloadsOk(t, book) && Evolves(t, u)
    ensures PayloadsOk(u, book)
  {
    forall i | i in book.rows
      ensures Admissible(u, book.rows[i].user, book.rows[i].payload)
    {
      AdmissibleIsStable(t, u, book.rows[i].user, book.rows[i].payload);
    }
  }

  // ---------------------------------------------------------------- reads give snapshots that fit

  /** The last row read is described truly: an income category means an income row. */
  lemma LoadLastFits(t: Tables, user: Id, s: Tools.Snapshot)
    requires Kept(t) && SnapshotFits(t, user, s)
    ensures SnapshotFits(t, user, s.(last := ReadLast(t, user)))
  {
    var id := NewestTx(t.txs, user, t.nextId);
    if id.Some? {
      assert Categorised(t.txs[id.value]);
    }
  }

  lemma LoadGoalsFits(t: Tables, user: Id, s: Tools.Snapshot)
    requires SnapshotFits(t, user, s)
    ensures SnapshotFits(t, user, s.(goals := GoalsBelow(t.goals, user, t.nextId)))
  {
  }

  // ---------------------------------------------------------------- steps of a worker

  lemma RouteIsOk(db: Flush.Db, now: Time, threshold: int, input: Input)
    requires DbOk(db)
    ensures PhaseOk(db.ledger, threshold, input, RouteTo(db, now, input))
  {
    var id := Confirmations.Latest(db.confirmations, input.user, now);
    assert SnapshotFits(db.ledger, input.user, ReadSoFar(Reading(None, None, None)));
    if id.Some? {
      var row := db.confirmations.rows[id.value];
      assert Admissible(db.ledger, input.user, row.payload);
      ConfirmBatchIsOk(db.ledger, threshold, input, id.value, row.payload, row.summary);
    }
    hide Policy.ConfirmReply;
  }

  lemma AdmissibleIsLedger(t: Tables, user: Id, tool: seq<WriteIntent>)
    requires Admissible(t, user, tool)
    ensures Own(tool, user) && forall w :: w in tool ==> !IsBookkeeping(w)
  {
    var s :| SnapshotFits(t, user, s) && Tools.ToolBuilt(user, s, tool);
    forall w | w in tool
      ensures w.user == user && !IsBookkeeping(w)
    {
      assert Tools.WriteOk(user, s, w);
    }
  }

  lemma ConfirmBatchIsOk(t: Tables, threshold: int, input: Input, id: Id, stored: seq<WriteIntent>, summary: string)
    requires Admissible(t, input.user, stored)
    ensures BatchOk(t, threshold, input, ConfirmBatch(input, id, stored, summary))
  {
    AdmissibleIsLedger(t, input.user, stored);
    var head, tail := [ConsumeConfirmation(input.user, id)], stored + [Reply(input, DoneText(summary))];
    var batch := ConfirmBatch(input, id, stored, summary);
    assert batch == head + tail && batch[1..] == tail;
    DoneIsVisible(summary);
    SafeBatch(stored, input, DoneText(summary), 1);
    ConfirmBatchEffects(Confirmations.EMPTY, Outbox.EMPTY, input, id, stored, summary, 0);
  }

  lemma CancelBatchIsOk(t: Tables, threshold: Centavos, input: Input)
    requires threshold > 0
    ensures BatchOk(t, threshold, input, CancelBatch(input))
  {
    FixedTextsAreVisible();
    hide Blank;
    SafeBatch([], input, CANCELLED, threshold);
    assert [] + [Reply(input, CANCELLED)] == CancelBatch(input);
    assert LedgerPart([]) == [];
    assert Policy.Classify([], threshold) == Policy.Safe;
    NothingIsAdmissible(t, input.user);
  }

  lemma PlanIsOk(t: Tables, threshold: Centavos, input: Input, tool: seq<WriteIntent>, reply: string, reaction: string)
    requires threshold > 0 && !Blank(reply) && Admissible(t, input.user, tool)
    ensures var plan := PlanFor(tool, input, reply, reaction, threshold);
            && BatchOk(t, threshold, input, plan.batch)
            && (plan.ParkThenCommit? ==> Admissible(t, input.user, plan.stored))
  {
    AdmissibleIsLedger(t, input.user, tool);
    NothingIsAdmissible(t, input.user);
    PlanMeaning(tool, input, reply, reaction, threshold);
    hide PlanFor, Blank, LedgerPart, EndsWithReply, Policy.Classify, Admissible;
  }

  lemma ThinkIsOk(t: Tables, threshold: Centavos, input: Input, phase: Phase, m: Move)
    requires threshold > 0 && PhaseOk(t, threshold, input, phase)
    ensures PhaseOk(t, threshold, input, ThinkTo(threshold, input, phase, m))
  {
    hide Tools.Buffer, Trim, Blank, PlanFor, BatchOk, SnapshotFits, Tools.ToolBuilt;
    if phase.Reading? && phase.last.Some? && phase.goals.Some? && phase.labels.Some? && m.Think? {
      TrimIsEmptyIff(m.reply);
      if !Blank(m.reply) {
        var snapshot := ReadSoFar(phase);
        var ctx := Tools.Context(input.user, snapshot, m.coerce, m.wide, m.durable);
        var tool := Tools.Buffer(ctx, m.calls);
        Tools.BufferIsToolBuilt(ctx, m.calls);
        assert Admissible(t, input.user, tool);
        hide Admissible;
        PlanIsOk(t, threshold, input, tool, m.reply, m.reaction);
      }
    }
  }

  lemma CancelIsOk(t: Tables, book: Confirmations.Book, user: Id)
    requires PayloadsOk(t, book)
    ensures PayloadsOk(t, Confirmations.Cancel(book, user))
  {
    hide Admissible;
  }

  lemma SaveIsOk(t: Tables, book: Confirmations.Book, input: Input, stored: seq<WriteIntent>, summary: string, expiry: Time)
    requires PayloadsOk(t, book) && Admissible(t, input.user, stored)
    ensures PayloadsOk(t, Confirmations.Save(book, input.user, input.phone, SourceOf(input), summary, stored, expiry))
  {
    hide Admissible;
  }

  lemma {:induction false} ConsumesKeepPayloads(t: Tables, book: Confirmations.Book, ws: seq<WriteIntent>)
    requires PayloadsOk(t, book)
    ensures var r := Flush.ConsumeAll(book, ws); r.Some? ==> PayloadsOk(t, r.value)
    decreases |ws|
  {
    hide Admissible;
    if ws != [] {
      if ws[0].ConsumeConfirmation? {
        var b1 := Confirmations.Consume(book, ws[0].confirmation, ws[0].user);
        if b1.Some? {
          ConsumesKeepPayloads(t, b1.value, ws[1..]);
        }
      } else {
        ConsumesKeepPayloads(t, book, ws[1..]);
      }
    }
  }

  lemma FlushIsOk(db: Flush.Db, now: Time, threshold: int, input: Input, batch: seq<WriteIntent>)
    requires DbOk(db) && BatchOk(db.ledger, threshold, input, batch)
    ensures var r := Flush.FlushWrites(db, Some(input.dedupId), batch, now);
            DbOk(r.0) && Evolves(db.ledger, r.0.ledger)
  {
    Flush.FlushOutcomes(db, input.dedupId, batch, now);
    hide Flush.FlushWrites, Kept, PayloadsOk, Evolves;
    var r := Flush.FlushWrites(db, Some(input.dedupId), batch, now);
    if r.1 == Flush.Committed {
      BatchKeepsLedger(db.ledger, Some(input.dedupId), input.user, batch);
      ConsumesKeepPayloads(db.ledger, db.confirmations, batch);
      PayloadsAreStable(db.ledger, r.0.ledger, r.0.confirmations);
    } else {
      NothingEvolves(db.ledger);
    }
  }

  lemma NothingEvolves(t: Tables)
    ensures Evolves(t, t)
  {
  }

  /** The database is sound, it evolved from this ledger, and the worker is ready for its next step. */
  ghost predicate StepOk(t: Tables, threshold: int, input: Input, r: (Flush.Db, Phase, Note)) {
    DbOk(r.0) && Evolves(t, r.0.ledger) && PhaseOk(r.0.ledger, threshold, input, r.1)
  }

  lemma ActIsOk(db: Flush.Db, now: Time, threshold: Centavos, input: Input, phase: Phase, m: Move)
    requires threshold > 0 && DbOk(db) && PhaseOk(db.ledger, threshold, input, phase)
    ensures StepOk(db.ledger, threshold, input, Act(db, now, threshold, input, phase, m))
  {
    NothingEvolves(db.ledger);
    hide RouteTo, ThinkTo, Flush.FlushWrites, Confirmations.Save, Confirmations.Cancel, Kept, BatchOk, Admissible, Evolves,
         ReadLast, GoalsBelow, LabelsBelow, PayloadsOk;
    match (phase, m)
    case (Routing, Route) => RouteIsOk(db, now, threshold, input);
    case (Reading(_, _, _), LoadLast) => LoadLastFits(db.ledger, input.user, ReadSoFar(phase));
    case (Reading(_, _, _), LoadGoals) => LoadGoalsFits(db.ledger, input.user, ReadSoFar(phase));
    case (Reading(Some(_), Some(_), Some(_)), Think(_, _, _, _, _, _)) => ThinkIsOk(db.ledger, threshold, input, phase, m);
    case (Parking(stored, summary, _), Park) =>
      SaveIsOk(db.ledger, db.confirmations, input, stored, summary, now + Confirmations.TTL);
    case (Cancelling, Cancel) =>
      CancelIsOk(db.ledger, db.confirmations, input.user);
      CancelBatchIsOk(db.ledger, threshold, input);
    case (Ready(batch), FlushBatch) => FlushIsOk(db, now, threshold, input, batch);
    case _ =>
  }

  // ---------------------------------------------------------------- every event

  lemma ReconcileIsIdle(t: Tables, user: Id)
    requires Kept(t)
    ensures Reconcile(t, user) == Ok((t, 0))
  {
    ReconcileIdleOnConserved(t, user);
  }

  lemma RemindKeeps(t: Tables, item: Id, user: Id, today: Day)
    requires Kept(t)
    ensures Kept(ClaimReminder(t, item, user, today)) && Evolves(t, ClaimReminder(t, item, user, today))
  {
    var u := ClaimReminder(t, item, user, today);
    FrameKeepsSound(t, u);
    Same(t, u);
  }

  /** When the ledger evolved and every worker is one it was, or is ready for its next step. */
  lemma MoveKeepsInv(s: Sys, u: Sys)
    requires Inv(s) && DbOk(u.db) && Evolves(s.db.ledger, u.db.ledger) && u.threshold == s.threshold
    requires forall x :: x in u.workers ==>
               (x in s.workers && u.workers[x] == s.workers[x]) || WorkerOk(u.db.ledger, u.threshold, u.workers[x])
    ensures Inv(u)
  {
    hide PhaseOk, DbOk, Evolves, Allowed;
    forall x | x in u.workers
      ensures WorkerOk(u.db.ledger, u.threshold, u.workers[x])
    {
      if x in s.workers && u.workers[x] == s.workers[x] {
        PhaseIsStable(s.db.ledger, u.db.ledger, s.threshold, s.workers[x].input, s.workers[x].phase);
      }
    }
  }

  lemma NextKeepsInv(s: Sys, e: Event)
    requires Inv(s)
    ensures Inv(Next(s, e))
  {
    hide DbOk, Evolves, Act, Remember, Outside, PhaseOk;
    if IsWorkersStep(s, e) {
      var w, u := s.workers[e.worker], Next(s, e);
      ActIsOk(s.db, s.now, s.threshold, w.input, w.phase, e.move);
      assert WorkerOk(u.db.ledger, u.threshold, u.workers[e.worker]);
      MoveKeepsInv(s, u);
    } else {
      OutsideKeepsInv(s, e);
    }
  }

  lemma OutsideKeepsInv(s: Sys, e: Event)
    requires Inv(s)
    ensures Inv(Outside(s, e))
  {
    hide Kept, Evolves, Admissible, BatchOk, SnapshotFits, Allowed, Outbox.Step, Reconcile, ClaimReminder;
    var u := Outside(s, e);
    NothingEvolves(s.db.ledger);
    match e
    case ReconcileGoals(user) => ReconcileIsIdle(s.db.ledger, user);
    case Remind(item, user, today) =>
      RemindKeeps(s.db.ledger, item, user, today);
      PayloadsAreStable(s.db.ledger, u.db.ledger, u.db.confirmations);
      MoveKeepsInv(s, u);
    case ReapQuestions(at) =>
      assert PayloadsOk(u.db.ledger, u.db.confirmations);
    case _ =>
  }

  lemma EmptyIsKept()
    ensures Kept(EMPTY)
  {
    assert Live(EMPTY) == map[];
  }

  /** The main result: in every reachable state, under any interleaving, every goal's balance is the
      sum of its transactions, every stored row is lawfully categorised, the audit trail replays to
      the live transactions, and no user holds the same fact twice. */
  lemma {:induction false} EveryReachableStateIsSafe(configured: Option<Centavos>, es: seq<Event>)
    ensures Inv(Run(configured, es))
  {
    hide Next, Kept;
    if es == [] {
      EmptyIsKept();
    } else {
      hide Inv;
      EveryReachableStateIsSafe(configured, es[..|es| - 1]);
      NextKeepsInv(Run(configured, es[..|es| - 1]), es[|es| - 1]);
    }
  }

  /** So no flush in any run can fail on a goal's balance CHECK, and the nightly repair never has work. */
  lemma BalancesNeverNeedRepair(configured: Option<Centavos>, es: seq<Event>, user: Id, id: Id, source: Option<string>)
    ensures var t := Run(configured, es).db.ledger;
            Reconcile(t, user) == Ok((t, 0)) && DeleteTx(t, user, id, source).Ok?
  {
    hide Run, Reconcile, DeleteTx;
    EveryReachableStateIsSafe(configured, es);
    var t := Run(configured, es).db.ledger;
    ReconcileIsIdle(t, user);
    DeleteKeepsSound(t, user, id, source);
  }
}

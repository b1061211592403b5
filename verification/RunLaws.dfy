/** Two more laws of every run: the tables' constraints always hold, and no step of a worker touches
    anybody else's rows. */
module RunLaws {
  import opened Prelude
  import opened Domain
  import opened Ledger
  import opened Service
  import opened Protocol
  import opened Effects
  import opened Safety
  import opened Gate
  import Constraints
  import Isolation
  import AtMostOnce
  import Replies
  import Applications
  import Confirmations
  import Evolution
  import Flush
  import Goals
  import Outbox
  import Park
  import Policy
  import SameTurn
  import Text
  import Tools

  // ---------------------------------------------------------------- constraints

  lemma StepKeepsConstraints(s: Sys, e: Event, u: Sys)
    requires Evolution.Bounded(s.db.ledger) && LedgerMoves(s, e, u) && Constraints.Hold(s.db.ledger)
    ensures Constraints.Hold(u.db.ledger)
  {
    hide Constraints.Hold, Flush.FlushWrites, ApplyAll, Flush.ConsumeAll, Flush.EnqueueAll, ClaimReminder;
    if u.note.Flushed? {
      Flush.FlushOutcomes(s.db, u.note.mid, u.note.batch, s.now);
      Constraints.BatchKeepsConstraints(s.db.ledger, Carry(None, Some(u.note.mid)), u.note.batch);
    } else if e.Remind? {
      RemindKeepsConstraints(s.db.ledger, e.item, e.user, e.today);
    }
  }

  lemma RemindKeepsConstraints(t: Tables, item: Id, user: Id, today: Day)
    requires Constraints.Hold(t)
    ensures Constraints.Hold(ClaimReminder(t, item, user, today))
  {
  }

  lemma NothingStoredHolds()
    ensures Constraints.Hold(EMPTY) && Confirmations.AllFit(Confirmations.EMPTY)
  {
  }

  /** Every CHECK, length limit and unique index of the ledger and of the parked batches. */
  ghost predicate TablesHold(s: Sys) {
    Constraints.Hold(s.db.ledger) && Confirmations.AllFit(s.db.confirmations)
  }

  lemma {:induction false} TablesAlwaysHold(configured: Option<Centavos>, es: seq<Event>)
    ensures TablesHold(Run(configured, es))
  {
    hide Next, Inv, Constraints.Hold, Confirmations.AllFit, WorkersMove, NoteMoves, InboxMoves, QueueMoves, LedgerMoves,
         BookMoveOf, Applications.StepBook, Applications.StepTally;
    if es == [] {
      NothingStoredHolds();
    } else {
      var init, e := es[..|es| - 1], es[|es| - 1];
      var s := Run(configured, init);
      TablesAlwaysHold(configured, init);
      EveryReachableStateIsSafe(configured, init);
      LedgerIsBounded(s);
      NextMoves(s, e);
      StepKeepsConstraints(s, e, Run(configured, es));
      Applications.MovesKeepFit(s.db.confirmations, BookMoveOf(s, e, Run(configured, es).note));
    }
  }

  /** Every CHECK, length limit and unique index of the tables of the model holds in every reachable
      state: the ledger's, the parked batches' and the reply queue's. */
  lemma ConstraintsAlwaysHold(configured: Option<Centavos>, es: seq<Event>)
    ensures TablesHold(Run(configured, es)) && Confirmations.Valid(Run(configured, es).db.confirmations)
    ensures Outbox.AllFit(Run(configured, es).db.outbox) && Outbox.KeysDistinct(Run(configured, es).db.outbox)
  {
    hide Run, TablesHold, Outbox.AllFit, Outbox.Run;
    TablesAlwaysHold(configured, es);
    AtMostOnce.ApplicationsAreAccounted(configured, es);
    Replies.QueueLawsApply(configured, es);
    Outbox.RunFits(Run(configured, es).history.queueOps);
    Outbox.RunIsBounded(Run(configured, es).history.queueOps);
  }

  // ---------------------------------------------------------------- users

  lemma AdmissibleIsOwn(t: Tables, user: Id, tool: seq<WriteIntent>)
    requires Admissible(t, user, tool)
    ensures forall w :: w in tool ==> w.user == user && Goals.OwnGoal(t, w)
  {
    var s :| SameTurn.SnapshotFits(t, user, s) && Tools.ToolBuilt(user, s, tool);
    SameTurn.ToolBuiltContributesToOwnGoals(t, user, s, tool);
    forall w | w in tool
      ensures w.user == user
    {
      assert Tools.WriteOk(user, s, w);
    }
  }

  lemma BatchIsOwn(t: Tables, src: Option<string>, user: Id, batch: seq<WriteIntent>, other: Id)
    requires Kept(t) && Admissible(t, user, Park.LedgerPart(batch)) && user != other
    requires ApplyAll(t, Carry(None, src), batch).Ok?
    ensures Isolation.Untouched(t, ApplyAll(t, Carry(None, src), batch).Or((t, Carry(None, src))).0, other)
  {
    AdmissibleIsOwn(t, user, Park.LedgerPart(batch));
    Park.BookkeepingIsInvisible(t, Carry(None, src), batch);
    hide ApplyAll, Park.LedgerPart, Admissible, Isolation.Untouched;
    Isolation.BatchTouchesOwn(t, Carry(None, src), Park.LedgerPart(batch), user, other);
  }

  lemma NothingTouched(t: Tables, user: Id)
    ensures Isolation.Untouched(t, t, user)
  {
  }

  // ---------------------------------------------------------------- turns and questions

  function TurnsOf(turns: seq<Flush.Turn>, user: Id): seq<Flush.Turn> {
    if turns == [] then []
    else TurnsOf(turns[..|turns| - 1], user) + if turns[|turns| - 1].user == user then [turns[|turns| - 1]] else []
  }

  ghost predicate SameQuestions(a: Confirmations.Book, b: Confirmations.Book, user: Id) {
    && (forall i :: i in a.rows && a.rows[i].user == user ==> i in b.rows && b.rows[i] == a.rows[i])
    && (forall i :: i in b.rows && b.rows[i].user == user ==> i in a.rows && a.rows[i].user == user)
  }

  /** Everything of a user but the reply queue: ledger, conversation, parked batches. */
  ghost predicate Untouched(a: Flush.Db, b: Flush.Db, user: Id) {
    && Isolation.Untouched(a.ledger, b.ledger, user) && TurnsOf(b.turns, user) == TurnsOf(a.turns, user)
    && SameQuestions(a.confirmations, b.confirmations, user)
  }

  lemma {:induction false} OwnWritesLeaveTurns(db: Flush.Db, c: Carry, ws: seq<WriteIntent>, now: Time, user: Id, other: Id)
    requires Own(ws, user) && user != other && Flush.PerformAll(db, c, ws, now).Going?
    ensures TurnsOf(Flush.PerformAll(db, c, ws, now).db.turns, other) == TurnsOf(db.turns, other)
    decreases |ws|
  {
    if ws != [] {
      assert ws[0] in ws && forall w :: w in ws[1..] ==> w in ws;
      OneWriteLeavesTurns(db, c, ws[0], now, other);
      hide Flush.Perform, TurnsOf;
      var p := Flush.Perform(db, c, ws[0], now);
      OwnWritesLeaveTurns(p.db, p.carry, ws[1..], now, user, other);
    }
  }

  lemma OneWriteLeavesTurns(db: Flush.Db, c: Carry, w: WriteIntent, now: Time, other: Id)
    requires w.user != other
    ensures var p := Flush.Perform(db, c, w, now); p.Going? ==> TurnsOf(p.db.turns, other) == TurnsOf(db.turns, other)
  {
    hide Apply, Advance, Outbox.Enqueue, Confirmations.Consume;
    if w.SaveTurn? {
      var p := Flush.Perform(db, c, w, now);
      assert p.db.turns[..|p.db.turns| - 1] == db.turns;
    }
  }

  /** Whose move it is; a sweep is nobody's. */
  predicate MovedBy(m: Applications.BookMove, user: Id) {
    match m
    case Still => true
    case Save(u, _, _, _, _, _) => u == user
    case Spend(_, u) => u == user
    case Withdraw(u) => u == user
    case Sweep(_) => false
  }

  lemma MovesLeaveOthers(book: Confirmations.Book, m: Applications.BookMove, user: Id, other: Id)
    requires Confirmations.Valid(book) && MovedBy(m, user) && user != other && Applications.Possible(book, m)
    ensures SameQuestions(book, Applications.StepBook(book, m), other)
  {
    hide Text.Trim, Text.Truncate;
  }

  lemma ShapedIsOwn(batch: seq<WriteIntent>, input: Input, threshold: int)
    requires Shaped(batch, input, threshold)
    ensures Own(batch, input.user)
  {
    hide Policy.Classify, Text.Blank;
    forall w | w in batch
      ensures w.user == input.user
    {
      if !EndsWithReply(batch, input) {
        assert w == batch[0] || w in batch[1..];
      }
    }
  }

  lemma CommitLeavesOthers(s: Sys, worker: Id, move: Move, u: Sys, other: Id)
    requires Inv(s) && NoteMoves(s, Step(worker, move), u) && LedgerMoves(s, Step(worker, move), u) && u.note.Flushed?
    requires WorksForAnother(s, worker, other)
    ensures Isolation.Untouched(s.db.ledger, u.db.ledger, other) && TurnsOf(u.db.turns, other) == TurnsOf(s.db.turns, other)
  {
    hide Inv, Shaped, PutOf, Flush.FlushWrites, Flush.ConsumeAll, Flush.EnqueueAll, ApplyAll, Isolation.Untouched, Kept,
         Admissible, TurnsOf;
    var batch, mid, input := u.note.batch, u.note.mid, s.workers[worker].input;
    HoldsBatch(s, worker, input, batch);
    ShapedIsOwn(batch, input, s.threshold);
    Flush.FlushOutcomes(s.db, mid, batch, s.now);
    BatchIsOwn(s.db.ledger, Some(mid), input.user, batch, other);
    FlushLeavesTurns(s.db, mid, batch, s.now, input.user, other);
  }

  lemma FlushLeavesTurns(db: Flush.Db, mid: string, ws: seq<WriteIntent>, now: Time, user: Id, other: Id)
    requires Own(ws, user) && user != other
    ensures TurnsOf(Flush.FlushWrites(db, Some(mid), ws, now).0.turns, other) == TurnsOf(db.turns, other)
  {
    hide Flush.PerformAll, TurnsOf;
    if Flush.PerformAll(db, Carry(None, Some(mid)), ws, now).Going? {
      OwnWritesLeaveTurns(db, Carry(None, Some(mid)), ws, now, user, other);
    }
  }

  predicate WorksForAnother(s: Sys, worker: Id, user: Id) {
    worker in s.workers && s.workers[worker].input.user != user
  }

  lemma StepLeavesQuestions(s: Sys, worker: Id, move: Move, u: Sys, other: Id)
    requires NoteMoves(s, Step(worker, move), u) && BookMoves(s, BookMoveOf(s, Step(worker, move), u.note), u)
    requires Confirmations.Valid(s.db.confirmations) && WorksForAnother(s, worker, other)
    ensures SameQuestions(s.db.confirmations, u.db.confirmations, other)
  {
    hide Shaped, PutOf, Applications.StepBook, Applications.StepTally, SameQuestions;
    var user := s.workers[worker].input.user;
    MovesLeaveOthers(s.db.confirmations, BookMoveOf(s, Step(worker, move), u.note), user, other);
  }

  lemma StepLeavesOthers(s: Sys, worker: Id, move: Move, u: Sys, other: Id)
    requires Inv(s) && Confirmations.Valid(s.db.confirmations) && WorksForAnother(s, worker, other)
    requires Moves(s, Step(worker, move), u) && LedgerMoves(s, Step(worker, move), u)
    ensures Untouched(s.db, u.db, other)
  {
    hide Inv, NoteMoves, WorkersMove, InboxMoves, BookMoves, QueueMoves, OpsOf, BookMoveOf, Isolation.Untouched, TurnsOf,
         SameQuestions, Flush.FlushWrites;
    StepLeavesQuestions(s, worker, move, u, other);
    if u.note.Flushed? {
      CommitLeavesOthers(s, worker, move, u, other);
    } else {
      NothingTouched(s.db.ledger, other);
    }
  }

  /** In every run, a step of a worker for one user leaves the ledger, the conversation and the parked
      batches of every other user as they were. */
  lemma StepsTouchOnlyTheirUser(configured: Option<Centavos>, es: seq<Event>, worker: Id, move: Move, other: Id)
    requires WorksForAnother(Run(configured, es), worker, other)
    ensures Untouched(Run(configured, es).db, Run(configured, es + [Step(worker, move)]).db, other)
  {
    hide Run, Inv, Moves, LedgerMoves, Untouched;
    RunMoves(configured, es, Step(worker, move));
    AtMostOnce.ApplicationsAreAccounted(configured, es);
    StepLeavesOthers(Run(configured, es), worker, move, Run(configured, es + [Step(worker, move)]), other);
  }

  // ---------------------------------------------------------------- the reply queue

  /** The step works on the row: it commits under the row's key, or delivers it while it can be claimed. */
  predicate WorksOnReply(s: Sys, worker: Id, move: Move, committed: bool, row: Outbox.OutRow)
    requires worker in s.workers
  {
    var w := s.workers[worker];
    row.dedupKey == Replies.Key(w.input.dedupId)
    && (committed || (w.phase.Delivering? && move.Deliver? && Outbox.Claimable(row, s.now)))
  }

  /** The step touches the row exactly when it works on it, and otherwise leaves it as it was. */
  predicate TouchesIffItWorks(s: Sys, worker: Id, move: Move, u: Sys, row: Id) {
    && worker in s.workers && row in s.db.outbox.rows && row in u.db.outbox.rows
    && var ops := OpsOf(s, Step(worker, move), u.note);
       var works := WorksOnReply(s, worker, move, u.note.Flushed?, s.db.outbox.rows[row]);
       && ((ops != [] && Outbox.TouchOf(s.db.outbox, ops[0], row) != Outbox.Untouched) <==> works)
       && (!works ==> u.db.outbox.rows[row] == s.db.outbox.rows[row])
  }

  lemma KeyedTouch(q: Outbox.Queue, op: Outbox.Op, id: Id, mid: string)
    requires Outbox.Bounded(q) && Outbox.KeysDistinct(q) && id in q.rows
    requires op.Put? ==> Outbox.Sendable(op.phone, op.content) && op.dedupKey == Some(ReplyKey(mid))
    requires op.Put? || (op.ClaimKey? && op.key == ReplyKey(mid))
    ensures Outbox.TouchOf(q, op, id) != Outbox.Untouched
            <==> q.rows[id].dedupKey == Replies.Key(mid) && (op.Put? || Outbox.Claimable(q.rows[id], op.now))
  {
    Replies.KeyForm(mid);
    hide Outbox.NormalKey, Outbox.Sendable;
  }

  lemma StepTouchesIff(s: Sys, worker: Id, move: Move, u: Sys, row: Id)
    requires NoteMoves(s, Step(worker, move), u) && QueueMoves(s, OpsOf(s, Step(worker, move), u.note), u)
    requires Outbox.Bounded(s.db.outbox) && Outbox.KeysDistinct(s.db.outbox)
    requires worker in s.workers && row in s.db.outbox.rows
    ensures TouchesIffItWorks(s, worker, move, u, row)
  {
    hide Outbox.TouchOf, Outbox.Step, Replies.Key, Shaped, PutOf;
    var ops := OpsOf(s, Step(worker, move), u.note);
    if ops != [] {
      KeyedTouch(s.db.outbox, ops[0], row, s.workers[worker].input.dedupId);
      Outbox.RowSteps(s.db.outbox, ops[0], row);
    }
  }

  /** In every run, a step touches a stored reply, its own user's or not, exactly when it commits under
      the key the row carries or delivers that key while it can be claimed. */
  lemma StepsTouchRepliesIff(configured: Option<Centavos>, es: seq<Event>, worker: Id, move: Move, row: Id)
    requires worker in Run(configured, es).workers && row in Run(configured, es).db.outbox.rows
    ensures TouchesIffItWorks(Run(configured, es), worker, move, Run(configured, es + [Step(worker, move)]), row)
  {
    hide Run, Inv, NoteMoves, WorkersMove, InboxMoves, BookMoves, QueueMoves, OpsOf, LedgerMoves, TouchesIffItWorks, Outbox.Run;
    RunMoves(configured, es, Step(worker, move));
    Replies.QueueLawsApply(configured, es);
    Outbox.RunIsBounded(Run(configured, es).history.queueOps);
    StepTouchesIff(Run(configured, es), worker, move, Run(configured, es + [Step(worker, move)]), row);
  }
}

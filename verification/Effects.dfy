/** What one event of a run does, table by table: everything the theorems about whole runs need of a step. */
module Effects {
  import opened Prelude
  import opened Text
  import opened Domain
  import opened Ledger
  import opened Service
  import opened Applications
  import opened Protocol
  import opened Safety
  import Confirmations
  import Flush
  import Goals
  import Inbox
  import Outbox
  import Park
  import Policy
  import Tools

  // ---------------------------------------------------------------- what a shaped batch does to the other tables

  /** What a committed batch does to the parked batches. */
  function SpendOf(batch: seq<WriteIntent>): BookMove {
    match Used(batch)
    case Some(id) => Spend(id, batch[0].user)
    case None => Still
  }

  /** A shaped batch consumes at most its one confirmation, and queues exactly its reply. */
  lemma ShapedEffects(book: Confirmations.Book, q: Outbox.Queue, batch: seq<WriteIntent>, input: Input, threshold: int,
                      now: Time)
    requires Shaped(batch, input, threshold)
    ensures Flush.ConsumeAll(book, batch) == match Used(batch)
                                             case None => Some(book)
                                             case Some(id) => Confirmations.Consume(book, id, input.user)
    ensures |PutOf(batch, now)| == 1 && Flush.EnqueueAll(q, batch, now) == Outbox.Step(q, PutOf(batch, now)[0])
    ensures var op := PutOf(batch, now)[0];
            && op.Put? && op.now == now && op.phone == input.phone && !Blank(op.content)
            && op.dedupKey == Some(ReplyKey(input.dedupId))
    ensures Used(batch).None? ==> Policy.Classify(batch, threshold) == Policy.Safe
    ensures batch[0].user == input.user
  {
    hide Policy.Classify, Blank, Outbox.Enqueue, Confirmations.Consume;
    if EndsWithReply(batch, input) {
      assert Used(batch).None?;
      assert batch[0] in batch;
      PlainBatchEffects(book, q, batch, input, now);
    } else {
      var tail := batch[1..];
      var id := batch[0].confirmation;
      assert batch == [ConsumeConfirmation(input.user, id)] + tail;
      ConfirmingEffects(book, q, tail, input, id, now);
      assert tail[|tail| - 1] == batch[|batch| - 1];
    }
  }

  // ---------------------------------------------------------------- the tables, one by one

  /** What a step that commits nothing does to the parked batches. */
  function QuietMove(now: Time, input: Input, phase: Phase, m: Move): BookMove {
    match (phase, m)
    case (Parking(stored, summary, _), Park) =>
      Save(input.user, input.phone, SourceOf(input), summary, stored, now + Confirmations.TTL)
    case (Cancelling, Cancel) => Withdraw(input.user)
    case _ => Still
  }

  /** What one event does to the parked batches. */
  function BookMoveOf(s: Sys, e: Event, note: Note): BookMove {
    if note.Flushed? then SpendOf(note.batch)
    else if e.ReapQuestions? && e.at <= s.now then Sweep(e.at)
    else if IsWorkersStep(s, e) then QuietMove(s.now, s.workers[e.worker].input, s.workers[e.worker].phase, e.move)
    else Still
  }

  /** The event's move was possible, and took the book and the tally where it says. */
  predicate BookMoves(s: Sys, m: BookMove, u: Sys) {
    && Possible(s.db.confirmations, m) && u.db.confirmations == StepBook(s.db.confirmations, m)
    && u.history.tally == StepTally(s.db.confirmations, s.history.tally, m)
  }

  /** What one event does to the markers and to the history of commits. */
  ghost predicate InboxMoves(s: Sys, e: Event, u: Sys) {
    var a, b := s.db.claims, u.db.claims;
    && u.now == s.now + (if e.Tick? then e.ms else 0)
    && match u.note
       case Flushed(mid, _) =>
         && !Inbox.IsCompleted(a, mid) && b == a[mid := Inbox.Completed(s.now)]
         && u.history.commits == s.history.commits + multiset{mid}
         && u.history.lastCommit == s.history.lastCommit[mid := s.now] && u.history.reapedDone == s.history.reapedDone
       case _ =>
         && u.history.commits == s.history.commits && u.history.lastCommit == s.history.lastCommit
         && (if e.ReapInbox? && e.at <= s.now then
               b == Inbox.Reap(a, e.at) && u.history.reapedDone == s.history.reapedDone + Once(DoneIds(a, e.at))
             else
               && u.history.reapedDone == s.history.reapedDone
               && (b == a || exists mid :: Inbox.CanClaim(a, mid, s.now) && b == a[mid := Inbox.Claimed(s.now)]))
  }

  /** The queue operations of an event: the reply of a commit, a claim, a mark, or none. */
  function OpsOf(s: Sys, e: Event, note: Note): seq<Outbox.Op> {
    match e
    case Step(_, _) =>
      (match note
       case Quiet => []
       case Took(op) => [op]
       case Flushed(_, batch) => PutOf(batch, s.now))
    case ClaimDueReplies(at, limit) => if at <= s.now then [Outbox.ClaimDue(at, limit, s.now)] else []
    case SettleReply(row, delivered, retryable) =>
      [if delivered then Outbox.MarkSent(row, s.now) else Outbox.MarkFailed(row, retryable, s.now)]
    case _ => []
  }

  predicate OpOk(s: Sys, op: Outbox.Op) {
    && op.now == s.now && (op.ClaimDue? ==> op.at <= s.now)
    && (op.Put? ==> Outbox.Sendable(op.phone, op.content) && op.dedupKey.Some?)
  }

  /** At most one operation, applied to the queue and recorded. */
  predicate QueueMoves(s: Sys, ops: seq<Outbox.Op>, u: Sys) {
    && |ops| <= 1 && u.history.queueOps == s.history.queueOps + ops && s.now <= u.now
    && u.db.outbox == (if ops == [] then s.db.outbox else Outbox.Step(s.db.outbox, ops[0]))
    && (ops != [] ==> OpOk(s, ops[0]))
  }

  /** How a worker comes by its next phase: what it parks or commits on the model's word consumes nothing,
      and a batch that confirms it holds already, had set aside, or has just routed a live yes to. */
  predicate PhaseMoves(db: Flush.Db, now: Time, input: Input, phase: Phase, m: Move, next: Phase) {
    && (next.Parking? && next != phase ==> Used(next.next).None?)
    && (next.Ready? && Used(next.batch).Some? && next != phase ==>
          || (phase.Parking? && next.batch == phase.next)
          || (phase.Routing? && m.Route? && IsYesTo(db, now, input, Used(next.batch).value)
              && next.batch == ConfirmBatchOf(db.confirmations, input, Used(next.batch).value)))
  }

  /** The message is a bare yes, and this is the newest live question of its sender. */
  predicate IsYesTo(db: Flush.Db, now: Time, input: Input, id: Id) {
    && Policy.ConfirmReply(input.text) == Some(Policy.Yes)
    && Confirmations.Latest(db.confirmations, input.user, now) == Some(id)
  }

  /** The batch that carries out a stored row. */
  function ConfirmBatchOf(book: Confirmations.Book, input: Input, id: Id): seq<WriteIntent> {
    if id in book.rows then ConfirmBatch(input, id, book.rows[id].payload, book.rows[id].summary) else []
  }

  /** What one event does to the workers. */
  ghost predicate WorkersMove(s: Sys, e: Event, u: Sys) {
    if IsWorkersStep(s, e) then
      var w := s.workers[e.worker];
      && e.worker in u.workers && u.workers[e.worker].input == w.input
      && u.workers == s.workers[e.worker := u.workers[e.worker]]
      && PhaseMoves(s.db, s.now, w.input, w.phase, e.move, u.workers[e.worker].phase)
    else
      forall x :: x in u.workers ==> if x in s.workers then u.workers[x] == s.workers[x] else u.workers[x].phase.Received?
  }

  /** What a worker noted: a commit is the flush of the batch it held, for its own message. */
  predicate NoteMoves(s: Sys, e: Event, u: Sys) {
    if IsWorkersStep(s, e) then
      var w := s.workers[e.worker];
      match u.note
      case Flushed(mid, batch) =>
        && e.move.FlushBatch? && w.phase == Ready(batch) && mid == w.input.dedupId && Shaped(batch, w.input, s.threshold)
        && |PutOf(batch, s.now)| == 1 && PutOf(batch, s.now)[0].Put? && batch[0].user == w.input.user
        && PutOf(batch, s.now)[0].dedupKey == Some(ReplyKey(mid))
      case Took(op) => w.phase.Delivering? && e.move.Deliver? && op == Outbox.ClaimKey(ReplyKey(w.input.dedupId), s.now)
      case Quiet => !(w.phase.Delivering? && e.move.Deliver?)
    else
      u.note.Quiet?
  }

  /** Everything but the ledger and the conversation. */
  ghost predicate Moves(s: Sys, e: Event, u: Sys) {
    && s.threshold == u.threshold && NoteMoves(s, e, u) && WorkersMove(s, e, u) && InboxMoves(s, e, u)
    && BookMoves(s, BookMoveOf(s, e, u.note), u) && QueueMoves(s, OpsOf(s, e, u.note), u)
  }

  /** The ledger and the conversation move only by commits, but for the date of a reminder. */
  predicate LedgerMoves(s: Sys, e: Event, u: Sys) {
    if u.note.Flushed? then Flush.FlushWrites(s.db, Some(u.note.mid), u.note.batch, s.now) == (u.db, Flush.Committed)
    else
      && u.db.turns == s.db.turns
      && u.db.ledger == if e.Remind? then ClaimReminder(s.db.ledger, e.item, e.user, e.today) else s.db.ledger
  }

  // ---------------------------------------------------------------- one step of a worker

  /** What a step does to the tables, whatever the state: a commit is a flush, and nothing else touches the ledger. */
  predicate ActMoves(db: Flush.Db, now: Time, input: Input, phase: Phase, m: Move, r: (Flush.Db, Phase, Note)) {
    if r.2.Flushed? then
      && phase == Ready(r.2.batch) && m.FlushBatch? && r.2.mid == input.dedupId && r.1 == Delivering
      && Flush.FlushWrites(db, Some(input.dedupId), r.2.batch, now) == (r.0, Flush.Committed)
    else
      && r.0.ledger == db.ledger && r.0.turns == db.turns
      && r.0.confirmations == StepBook(db.confirmations, QuietMove(now, input, phase, m))
      && (|| r.0.claims == db.claims
          || (Inbox.CanClaim(db.claims, input.dedupId, now) && r.0.claims == db.claims[input.dedupId := Inbox.Claimed(now)]))
      && (if phase.Delivering? && m.Deliver? then
            var op := Outbox.ClaimKey(ReplyKey(input.dedupId), now);
            r.2 == Took(op) && r.0.outbox == Outbox.Step(db.outbox, op)
          else r.2 == Quiet && r.0.outbox == db.outbox)
  }

  lemma ActMovesTables(db: Flush.Db, now: Time, threshold: Centavos, input: Input, phase: Phase, m: Move)
    ensures ActMoves(db, now, input, phase, m, Act(db, now, threshold, input, phase, m))
  {
    hide RouteTo, ThinkTo, ReadLast, GoalsBelow, LabelsBelow, Outbox.Step, Flush.FlushWrites, Confirmations.Save,
         Confirmations.Cancel;
    match (phase, m)
    case (Ready(batch), FlushBatch) => Flush.FlushOutcomes(db, input.dedupId, batch, now);
    case _ =>
  }

  predicate ConfirmsNothing(phase: Phase) {
    (phase.Parking? ==> Used(phase.next).None?) && (phase.Ready? ==> Used(phase.batch).None?)
  }

  /** What the model's answer leads to consumes no confirmation. */
  lemma ThinkUsesNothing(t: Tables, threshold: Centavos, input: Input, phase: Phase, m: Move)
    requires threshold > 0 && PhaseOk(t, threshold, input, phase) && phase.Reading?
    ensures ConfirmsNothing(ThinkTo(threshold, input, phase, m))
  {
    hide Tools.Buffer, Trim, Blank, PlanFor, PhaseOk, Tools.ToolBuilt;
    if phase.last.Some? && phase.goals.Some? && phase.labels.Some? && m.Think? {
      TrimIsEmptyIff(m.reply);
      if !Blank(m.reply) {
        var snapshot := ReadSoFar(phase);
        var ctx := Tools.Context(input.user, snapshot, m.coerce, m.wide, m.durable);
        var tool := Tools.Buffer(ctx, m.calls);
        Tools.BufferIsToolBuilt(ctx, m.calls);
        BufferIsLedger(input.user, snapshot, tool);
        PlanMeaning(tool, input, m.reply, m.reaction, threshold);
      }
    }
  }

  lemma BufferIsLedger(user: Id, s: Tools.Snapshot, tool: seq<WriteIntent>)
    requires Tools.ToolBuilt(user, s, tool)
    ensures Own(tool, user) && forall w :: w in tool ==> !IsBookkeeping(w)
  {
    forall w | w in tool
      ensures w.user == user && !IsBookkeeping(w)
    {
      assert Tools.WriteOk(user, s, w);
    }
  }

  lemma RouteMoves(db: Flush.Db, now: Time, input: Input)
    ensures PhaseMoves(db, now, input, Routing, Route, RouteTo(db, now, input))
  {
    hide Policy.ConfirmReply, DoneText;
  }

  lemma ActMovesPhase(db: Flush.Db, now: Time, threshold: Centavos, input: Input, phase: Phase, m: Move)
    requires threshold > 0 && PhaseOk(db.ledger, threshold, input, phase)
    ensures PhaseMoves(db, now, input, phase, m, Act(db, now, threshold, input, phase, m).1)
  {
    hide Flush.FlushWrites, Confirmations.Save, Confirmations.Cancel, ReadLast, GoalsBelow, LabelsBelow, Outbox.Step,
         RouteTo, ThinkTo, PhaseOk, Inbox.ClaimSlot, ConfirmBatchOf, IsYesTo;
    match (phase, m)
    case (Routing, Route) => RouteMoves(db, now, input);
    case (Reading(Some(_), Some(_), Some(_)), Think(_, _, _, _, _, _)) => ThinkUsesNothing(db.ledger, threshold, input, phase, m);
    case _ =>
  }

  // ---------------------------------------------------------------- one event of a run

  /** What a worker's step does, before the invariant is used. */
  ghost predicate Steps(s: Sys, e: Event, u: Sys) {
    && IsWorkersStep(s, e) && e.worker in u.workers
    && var w, v := s.workers[e.worker], u.workers[e.worker];
       && u.now == s.now && u.threshold == s.threshold && u.workers == s.workers[e.worker := Worker(w.input, v.phase)]
       && u.history == Remember(s.history, s.now, s.db.confirmations, u.note)
       && ActMoves(s.db, s.now, w.input, w.phase, e.move, (u.db, v.phase, u.note))
  }

  lemma StillTally(book: Confirmations.Book, t: Tally)
    ensures StepTally(book, t, Still) == t && StepBook(book, Still) == book
  {
  }

  lemma QuietTally(book: Confirmations.Book, t: Tally, now: Time, input: Input, phase: Phase, m: Move)
    ensures StepTally(book, t, QuietMove(now, input, phase, m)) == t && Possible(book, QuietMove(now, input, phase, m))
  {
    hide ConsumedSources;
  }

  lemma QuietStepMoves(s: Sys, e: Event, u: Sys)
    requires Steps(s, e, u) && !u.note.Flushed?
    ensures NoteMoves(s, e, u) && InboxMoves(s, e, u) && BookMoves(s, BookMoveOf(s, e, u.note), u)
    ensures QueueMoves(s, OpsOf(s, e, u.note), u) && LedgerMoves(s, e, u)
  {
    var w := s.workers[e.worker];
    QuietTally(s.db.confirmations, s.history.tally, s.now, w.input, w.phase, e.move);
    hide Outbox.Step, StepBook, StepTally, QuietMove, Inbox.Reap, Shaped, PutOf, Possible, Flush.FlushWrites, ClaimReminder;
  }

  /** What the invariant knows of a worker that holds a batch. */
  lemma HoldsBatch(s: Sys, worker: Id, input: Input, batch: seq<WriteIntent>)
    requires Inv(s) && IsAt(s, worker, Worker(input, Ready(batch)))
    ensures Shaped(batch, input, s.threshold) && !Blank(input.phone)
    ensures Kept(s.db.ledger) && Admissible(s.db.ledger, input.user, Park.LedgerPart(batch))
  {
    hide Shaped, Kept, Admissible, PayloadsOk, Park.LedgerPart, Allowed, Blank;
    AllowedIsVisible(input);
  }

  lemma AllowedIsVisible(input: Input)
    requires Allowed(input)
    ensures !Blank(input.phone)
  {
  }

  lemma CommitStepMoves(s: Sys, e: Event, u: Sys)
    requires Inv(s) && Steps(s, e, u) && u.note.Flushed?
    ensures NoteMoves(s, e, u) && InboxMoves(s, e, u) && BookMoves(s, BookMoveOf(s, e, u.note), u)
    ensures QueueMoves(s, OpsOf(s, e, u.note), u) && LedgerMoves(s, e, u)
  {
    hide Outbox.Step, StepTally, Shaped, PutOf, Inv, Flush.FlushWrites, ClaimReminder, Flush.ConsumeAll, Flush.EnqueueAll,
         ApplyAll, Blank;
    var w, batch := s.workers[e.worker], u.note.batch;
    HoldsBatch(s, e.worker, w.input, batch);
    ShapedEffects(s.db.confirmations, s.db.outbox, batch, w.input, s.threshold, s.now);
    Flush.FlushOutcomes(s.db, w.input.dedupId, batch, s.now);
    StillTally(s.db.confirmations, s.history.tally);
  }

  lemma OutsideInbox(s: Sys, e: Event)
    requires !IsWorkersStep(s, e)
    ensures InboxMoves(s, e, Outside(s, e).(note := Quiet))
  {
    hide Outbox.Step, Goals.Reconcile, StepTally, Confirmations.Reap, Inbox.Reap, ClaimReminder, DoneIds, Inbox.CanClaim, Allowed;
  }

  lemma OutsideTables(s: Sys, e: Event)
    requires !IsWorkersStep(s, e)
    ensures BookMoves(s, BookMoveOf(s, e, Quiet), Outside(s, e).(note := Quiet))
    ensures QueueMoves(s, OpsOf(s, e, Quiet), Outside(s, e).(note := Quiet))
  {
    hide Outbox.Step, Goals.Reconcile, StepTally, StepBook, Confirmations.Reap, Inbox.Reap, ClaimReminder,
         PutOf, QuietMove, DoneIds, Allowed, Used;
    StillTally(s.db.confirmations, s.history.tally);
    SweepMoves(s, e);
  }

  lemma OutsideMoves(s: Sys, e: Event)
    requires Inv(s) && !IsWorkersStep(s, e)
    ensures Moves(s, e, Outside(s, e).(note := Quiet)) && LedgerMoves(s, e, Outside(s, e).(note := Quiet))
  {
    hide Outbox.Step, Goals.Reconcile, StepTally, StepBook, Confirmations.Reap, Inbox.Reap, ClaimReminder, Inv, PhaseMoves,
         Shaped, PutOf, DoneIds, Flush.FlushWrites, Allowed, InboxMoves, BookMoves, QueueMoves, BookMoveOf, OpsOf;
    OutsideInbox(s, e);
    OutsideTables(s, e);
    if e.ReconcileGoals? {
      RepairIsIdle(s, e.user);
    }
  }

  lemma SweepMoves(s: Sys, e: Event)
    ensures e.ReapQuestions? ==> StepBook(s.db.confirmations, Sweep(e.at)) == Confirmations.Reap(s.db.confirmations, e.at)
  {
  }

  lemma RepairIsIdle(s: Sys, user: Id)
    requires Inv(s)
    ensures Goals.Reconcile(s.db.ledger, user) == Ok((s.db.ledger, 0))
  {
    hide Kept, Goals.Reconcile;
    ReconcileIsIdle(s.db.ledger, user);
  }

  /** In every run an event moves the tables as said. */
  lemma NextMoves(s: Sys, e: Event)
    requires Inv(s)
    ensures Moves(s, e, Next(s, e)) && LedgerMoves(s, e, Next(s, e))
  {
    hide Act, Outside, ActMoves, PhaseMoves, PhaseOk, Remember, DbOk, NoteMoves, InboxMoves, BookMoves, BookMoveOf, QueueMoves,
         OpsOf, LedgerMoves;
    var u := Next(s, e);
    if IsWorkersStep(s, e) {
      var w := s.workers[e.worker];
      ActMovesTables(s.db, s.now, s.threshold, w.input, w.phase, e.move);
      ActMovesPhase(s.db, s.now, s.threshold, w.input, w.phase, e.move);
      assert Steps(s, e, u);
      if u.note.Flushed? {
        CommitStepMoves(s, e, u);
      } else {
        QuietStepMoves(s, e, u);
      }
    } else {
      OutsideMoves(s, e);
    }
  }

  /** The states of a run and the events between them. */
  ghost predicate Trace(configured: Option<Centavos>, es: seq<Event>, ss: seq<Sys>) {
    && |ss| == |es| + 1 && ss[0] == Init(configured) && (forall i :: 0 <= i <= |es| ==> Inv(ss[i]))
    && forall i :: 0 <= i < |es| ==> Moves(ss[i], es[i], ss[i + 1])
  }

  lemma StatesMove(configured: Option<Centavos>, es: seq<Event>)
    ensures Trace(configured, es, States(configured, es))
  {
    hide Run, Next, Inv, Moves, LedgerMoves;
    var ss := States(configured, es);
    StatesRun(configured, es);
    forall i | 0 <= i <= |es|
      ensures Inv(ss[i])
    {
      EveryReachableStateIsSafe(configured, es[..i]);
    }
    forall i | 0 <= i < |es|
      ensures Moves(ss[i], es[i], ss[i + 1])
    {
      NextMoves(ss[i], es[i]);
    }
  }

  /** The last event of a run. */
  lemma RunMoves(configured: Option<Centavos>, es: seq<Event>, e: Event)
    ensures Inv(Run(configured, es)) && Inv(Run(configured, es + [e]))
    ensures Moves(Run(configured, es), e, Run(configured, es + [e]))
    ensures LedgerMoves(Run(configured, es), e, Run(configured, es + [e]))
  {
    hide Run, Next, Inv, Moves, LedgerMoves;
    EveryReachableStateIsSafe(configured, es);
    EveryReachableStateIsSafe(configured, es + [e]);
    RunMore(configured, es, e);
    NextMoves(Run(configured, es), e);
  }
}

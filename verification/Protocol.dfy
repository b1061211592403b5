/** The message-to-ledger protocol as a state machine: any number of workers, each statement and each
    flush one step, interleaved in any order with crashes, the cron jobs and the clock. */
module Protocol {
  import opened Prelude
  import opened Text
  import opened Domain
  import opened Ledger
  import opened Service
  import opened Applications
  import Goals
  import Inbox
  import Confirmations
  import Outbox
  import Flush
  import Memory
  import Policy
  import Tools

  // ---------------------------------------------------------------- reads

  /** last_transaction: the user's newest row below `n`. */
  function NewestTx(txs: map<Id, TxRow>, user: Id, n: Id): (r: Option<Id>)
    ensures r.Some? ==> r.value < n && r.value in txs && txs[r.value].user == user
  {
    if n == 0 then None
    else if n - 1 in txs && txs[n - 1].user == user then Some(n - 1)
    else NewestTx(txs, user, n - 1)
  }

  function ReadLast(t: Tables, user: Id): Option<Tools.LastTx> {
    match NewestTx(t.txs, user, t.nextId)
    case Some(id) => Some(Tools.LastTx(id, t.txs[id].category, t.txs[id].note, t.txs[id].goal.Some?))
    case None => None
  }

  /** list_goals, oldest first. */
  function GoalsBelow(goals: map<Id, GoalRow>, user: Id, n: Id): (r: seq<Tools.GoalName>)
    ensures forall g :: g in r ==> g.id < n && g.id in goals && goals[g.id].user == user
  {
    if n == 0 then []
    else
      GoalsBelow(goals, user, n - 1)
      + if n - 1 in goals && goals[n - 1].user == user then [Tools.GoalName(n - 1, goals[n - 1].name)] else []
  }

  /** list_recurring, oldest first. */
  function LabelsBelow(recurring: map<Id, RecurringRow>, user: Id, n: Id): seq<string> {
    if n == 0 then []
    else
      LabelsBelow(recurring, user, n - 1)
      + if n - 1 in recurring && recurring[n - 1].user == user then [recurring[n - 1].labelText] else []
  }

  // ---------------------------------------------------------------- workers

  datatype Phase =
    | Received
    | Routing
    | Reading(last: Option<Option<Tools.LastTx>>, goals: Option<seq<Tools.GoalName>>, labels: Option<seq<string>>)
    | Cancelling
    | Parking(stored: seq<WriteIntent>, summary: string, next: seq<WriteIntent>)
    | Ready(batch: seq<WriteIntent>)
    | Delivering
    | Finished

  datatype Worker = Worker(input: Input, phase: Phase)

  /** One step of a worker. What the model answered is a free choice of the environment: any tool
      calls, any keyword tables and decimal library, any reply, any budget reaction. */
  datatype Move =
    | Claim
    | Route
    | LoadLast
    | LoadGoals
    | LoadLabels
    | Think(calls: seq<Tools.ToolCall>, coerce: string -> Category, wide: (string, nat) -> Option<Centavos>,
            durable: (string, Memory.MemoryKind) -> bool, reply: string, reaction: string)
    | Fail
    | Park
    | Cancel
    | FlushBatch
    | Deliver

  /** What a step leaves in the history. */
  datatype Note = Quiet | Flushed(mid: string, batch: seq<WriteIntent>) | Took(op: Outbox.Op)

  /** The confirmation a batch consumes first. */
  function Used(batch: seq<WriteIntent>): Option<Id> {
    if batch != [] && batch[0].ConsumeConfirmation? then Some(batch[0].confirmation) else None
  }

  /** The reply a batch queues last. */
  function PutOf(batch: seq<WriteIntent>, now: Time): seq<Outbox.Op> {
    if batch == [] || !batch[|batch| - 1].OutboundReply? then []
    else
      var reply := batch[|batch| - 1];
      [Outbox.Put(reply.user, reply.phone, reply.content, reply.dedupKey, now)]
  }

  /** Where a claimed message goes: a bare yes or no answers the newest live question, if there is one. */
  function RouteTo(db: Flush.Db, now: Time, input: Input): Phase {
    var start := Reading(None, None, None);
    match Policy.ConfirmReply(input.text)
    case None => start
    case Some(answer) =>
      match Confirmations.Latest(db.confirmations, input.user, now)
      case None => start
      case Some(id) =>
        if answer == Policy.No then Cancelling
        else
          var row := db.confirmations.rows[id];
          Ready(ConfirmBatch(input, id, row.payload, row.summary))
  }

  /** The agent's turn and the gate's verdict on it. */
  function ThinkTo(threshold: Centavos, input: Input, phase: Phase, m: Move): Phase {
    match (phase, m)
    case (Reading(Some(last), Some(goals), Some(labels)), Think(calls, coerce, wide, durable, reply, reaction)) =>
      if Trim(reply) == "" then Finished
      else
        var tool := Tools.Buffer(Tools.Context(input.user, Tools.Snapshot(last, goals, labels), coerce, wide, durable), calls);
        (match PlanFor(tool, input, reply, reaction, threshold)
         case Commit(batch) => Ready(batch)
         case ParkThenCommit(stored, summary, batch) => Parking(stored, summary, batch))
    case _ => phase
  }

  function Act(db: Flush.Db, now: Time, threshold: Centavos, input: Input, phase: Phase, m: Move): (Flush.Db, Phase, Note) {
    match (phase, m)
    case (Received, Claim) =>
      var r := Inbox.ClaimSlot(db.claims, input.dedupId, now);
      (db.(claims := r.0), if r.1 then Routing else Finished, Quiet)
    case (Routing, Route) => (db, RouteTo(db, now, input), Quiet)
    case (Reading(_, goals, labels), LoadLast) =>
      (db, Reading(Some(ReadLast(db.ledger, input.user)), goals, labels), Quiet)
    case (Reading(last, _, labels), LoadGoals) =>
      (db, Reading(last, Some(GoalsBelow(db.ledger.goals, input.user, db.ledger.nextId)), labels), Quiet)
    case (Reading(last, goals, _), LoadLabels) =>
      (db, Reading(last, goals, Some(LabelsBelow(db.ledger.recurring, input.user, db.ledger.nextId))), Quiet)
    case (Reading(Some(_), Some(_), Some(_)), Think(_, _, _, _, _, _)) =>
      (db, ThinkTo(threshold, input, phase, m), Quiet)
    case (Reading(_, _, _), Fail) => (db, Finished, Quiet)
    case (Parking(stored, summary, batch), Park) =>
      (db.(confirmations := Confirmations.Save(db.confirmations, input.user, input.phone, SourceOf(input), summary, stored,
                                               now + Confirmations.TTL)),
       Ready(batch), Quiet)
    case (Cancelling, Cancel) =>
      (db.(confirmations := Confirmations.Cancel(db.confirmations, input.user)), Ready(CancelBatch(input)), Quiet)
    case (Ready(batch), FlushBatch) =>
      var r := Flush.FlushWrites(db, Some(input.dedupId), batch, now);
      if r.1 == Flush.Committed then (r.0, Delivering, Flushed(input.dedupId, batch)) else (r.0, Finished, Quiet)
    case (Delivering, Deliver) =>
      var op := Outbox.ClaimKey(ReplyKey(input.dedupId), now);
      (db.(outbox := Outbox.Step(db.outbox, op)), Finished, Took(op))
    case _ => (db, phase, Quiet)
  }

  // ---------------------------------------------------------------- the system

  /** What has happened so far, kept only to state the theorems. */
  datatype History = History(
    commits: multiset<string>,          // message ids, once per committed flush
    lastCommit: map<string, Time>,
    reapedDone: multiset<string>,       // message ids, once per completed row reaped
    tally: Tally,                       // what became of the parked batches
    queueOps: seq<Outbox.Op>)           // everything done to the outbound queue

  const NO_HISTORY: History := History(multiset{}, map[], multiset{}, NO_TALLY, [])

  /** `note` is what the last event noted. */
  datatype Sys = Sys(db: Flush.Db, workers: map<Id, Worker>, now: Time, threshold: Centavos, history: History, note: Note)

  datatype Event =
    | Tick(ms: nat)
    | Arrive(worker: Id, input: Input)
    | Step(worker: Id, move: Move)
    | Crash(worker: Id)
    | ReapInbox(at: Time)
    | ReapQuestions(at: Time)
    | ReconcileGoals(user: Id)
    | Remind(item: Id, user: Id, today: Day)
    | ClaimDueReplies(at: Time, limit: int)
    | SettleReply(row: Id, delivered: bool, retryable: bool)

  function Remember(h: History, now: Time, book: Confirmations.Book, note: Note): History {
    match note
    case Quiet => h
    case Took(op) => h.(queueOps := h.queueOps + [op])
    case Flushed(mid, batch) =>
      var h1 := h.(commits := h.commits + multiset{mid}, lastCommit := h.lastCommit[mid := now],
                   queueOps := h.queueOps + PutOf(batch, now));
      match Used(batch)
      case None => h1
      case Some(id) => h1.(tally := StepTally(book, h.tally, Spend(id, batch[0].user)))
  }

  function Once(ids: set<string>): multiset<string> {
    multiset(ids)
  }

  function DoneIds(claims: Inbox.Markers, at: Time): set<string> {
    set mid | mid in claims && claims[mid].Completed? && Inbox.Reapable(claims[mid], at)
  }

  function QueueStep(s: Sys, op: Outbox.Op): Sys {
    s.(db := s.db.(outbox := Outbox.Step(s.db.outbox, op)), history := s.history.(queueOps := s.history.queueOps + [op]))
  }

  /** claim_reminder */
  function ClaimReminder(t: Tables, item: Id, user: Id, today: Day): Tables {
    if item in t.recurring && t.recurring[item].user == user && t.recurring[item].lastReminded != Some(today)
    then t.(recurring := t.recurring[item := t.recurring[item].(lastReminded := Some(today))])
    else t
  }

  /** An event that is no worker's step. */
  function Outside(s: Sys, e: Event): Sys {
    match e
    case Tick(ms) => s.(now := s.now + ms)
    case Arrive(worker, input) =>
      if worker in s.workers || !Allowed(input) then s else s.(workers := s.workers[worker := Worker(input, Received)])
    case Crash(worker) => s.(workers := s.workers - {worker})
    case Step(_, _) => s
    case ReapInbox(at) =>
      if at > s.now then s
      else
        s.(db := s.db.(claims := Inbox.Reap(s.db.claims, at)),
           history := s.history.(reapedDone := s.history.reapedDone + Once(DoneIds(s.db.claims, at))))
    case ReapQuestions(at) =>
      if at > s.now then s
      else
        s.(db := s.db.(confirmations := Confirmations.Reap(s.db.confirmations, at)),
           history := s.history.(tally := StepTally(s.db.confirmations, s.history.tally, Sweep(at))))
    case ReconcileGoals(user) =>
      (match Goals.Reconcile(s.db.ledger, user)
       case Ok(r) => s.(db := s.db.(ledger := r.0))
       case Err(_) => s)
    case Remind(item, user, today) => s.(db := s.db.(ledger := ClaimReminder(s.db.ledger, item, user, today)))
    case ClaimDueReplies(at, limit) => if at > s.now then s else QueueStep(s, Outbox.ClaimDue(at, limit, s.now))
    case SettleReply(row, delivered, retryable) =>
      QueueStep(s, if delivered then Outbox.MarkSent(row, s.now) else Outbox.MarkFailed(row, retryable, s.now))
  }

  predicate IsWorkersStep(s: Sys, e: Event) {
    e.Step? && e.worker in s.workers
  }

  predicate IsAt(s: Sys, worker: Id, w: Worker) {
    worker in s.workers && s.workers[worker] == w
  }

  function Next(s: Sys, e: Event): Sys {
    if IsWorkersStep(s, e) then
      var w := s.workers[e.worker];
      var r := Act(s.db, s.now, s.threshold, w.input, w.phase, e.move);
      Sys(r.0, s.workers[e.worker := w.(phase := r.1)], s.now, s.threshold,
          Remember(s.history, s.now, s.db.confirmations, r.2), r.2)
    else
      Outside(s, e).(note := Quiet)
  }

  function Init(configured: Option<Centavos>): Sys {
    Sys(Flush.FRESH, map[], 0, Policy.Threshold(configured), NO_HISTORY, Quiet)
  }

  // ---------------------------------------------------------------- runs

  /** Every run of the system: any events in any order from an empty database. */
  function Run(configured: Option<Centavos>, es: seq<Event>): Sys {
    if es == [] then Init(configured) else Next(Run(configured, es[..|es| - 1]), es[|es| - 1])
  }

  /** The states a run passes through, the first and the last included. */
  function States(configured: Option<Centavos>, es: seq<Event>): (ss: seq<Sys>)
    ensures |ss| == |es| + 1
  {
    seq(|es| + 1, i requires 0 <= i <= |es| => Run(configured, es[..i]))
  }

  lemma RunMore(configured: Option<Centavos>, es: seq<Event>, e: Event)
    ensures Run(configured, es + [e]) == Next(Run(configured, es), e)
  {
    hide Next;
    assert (es + [e])[..|es|] == es;
  }

  /** Each state leads to the next by its event, and the last one is where the run ends. */
  lemma StatesRun(configured: Option<Centavos>, es: seq<Event>)
    ensures States(configured, es)[0] == Init(configured) && States(configured, es)[|es|] == Run(configured, es)
    ensures forall i :: 0 <= i < |es| ==> States(configured, es)[i + 1] == Next(States(configured, es)[i], es[i])
  {
    hide Next;
    assert es[..|es|] == es;
    forall i | 0 <= i < |es|
      ensures States(configured, es)[i + 1] == Next(States(configured, es)[i], es[i])
    {
      assert es[..i + 1] == es[..i] + [es[i]];
      RunMore(configured, es[..i], es[i]);
    }
  }
}

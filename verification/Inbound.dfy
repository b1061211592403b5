/** The service's own procedure for one message, and the cron's jobs, as methods over the database: run
    alone, they do exactly what the protocol's steps do one after another. */
module Inbound {
  import opened Prelude
  import opened Text
  import opened Domain
  import opened Service
  import opened Protocol
  import Database
  import Applications
  import Confirmations
  import Flush
  import Goals
  import Inbox
  import Ledger
  import Outbox
  import Park
  import Policy
  import RateLimit
  import Reminders
  import Tools

  // ---------------------------------------------------------------- the protocol's steps, one worker alone

  /** The step a worker takes next; `answer` is what the agent will do when asked. */
  function NextMove(phase: Phase, answer: Move): Move {
    match phase
    case Received => Claim
    case Routing => Route
    case Reading(last, goals, labels) =>
      if last.None? then LoadLast else if goals.None? then LoadGoals else if labels.None? then LoadLabels else answer
    case Parking(_, _, _) => Move.Park
    case Cancelling => Cancel
    case Ready(_) => FlushBatch
    case _ => Deliver
  }

  predicate Stopped(phase: Phase) {
    phase.Delivering? || phase.Finished?
  }

  const STEPS: nat := 8

  /** At most `n` steps of one undisturbed worker, up to its commit or its end. */
  function Drive(db: Flush.Db, now: Time, threshold: Centavos, input: Input, phase: Phase, answer: Move, n: int)
    : (Flush.Db, Phase)
    decreases n
  {
    if n <= 0 || Stopped(phase) then (db, phase)
    else
      var r := Act(db, now, threshold, input, phase, NextMove(phase, answer));
      Drive(r.0, now, threshold, input, r.1, answer, n - 1)
  }

  /** Claim the reply under the key and settle it with the provider's answer. */
  function Delivered(db: Flush.Db, key: string, now: Time, delivered: bool, retryable: bool): Flush.Db {
    match Outbox.KeyTarget(db.outbox, key, now)
    case None => db
    case Some(id) =>
      var sending := Outbox.Step(db.outbox, Outbox.ClaimKey(key, now));
      db.(outbox := Outbox.Step(sending, if delivered then Outbox.MarkSent(id, now) else Outbox.MarkFailed(id, retryable, now)))
  }

  function Finish(r: (Flush.Db, Phase), input: Input, now: Time, delivered: bool, retryable: bool): Flush.Db {
    if r.1.Delivering? then Delivered(r.0, ReplyKey(input.dedupId), now, delivered, retryable) else r.0
  }

  // ---------------------------------------------------------------- what such a worker does, path by path

  function FlushedAlone(db: Flush.Db, now: Time, input: Input, batch: seq<WriteIntent>): (Flush.Db, Phase) {
    var r := Flush.FlushWrites(db, Some(input.dedupId), batch, now);
    (r.0, if r.1 == Flush.Committed then Delivering else Finished)
  }

  /** From a decision on: cancel or park if that is due, then flush. */
  function CarriedOut(db: Flush.Db, now: Time, input: Input, phase: Phase): (Flush.Db, Phase) {
    match phase
    case Ready(batch) => FlushedAlone(db, now, input, batch)
    case Cancelling =>
      FlushedAlone(db.(confirmations := Confirmations.Cancel(db.confirmations, input.user)), now, input, CancelBatch(input))
    case Parking(stored, summary, batch) =>
      var book := Confirmations.Save(db.confirmations, input.user, input.phone, SourceOf(input), summary, stored,
                                     now + Confirmations.TTL);
      FlushedAlone(db.(confirmations := book), now, input, batch)
    case _ => (db, phase)
  }

  /** Everything a worker reads before it thinks. */
  function ReadAll(db: Flush.Db, user: Id): Phase {
    Reading(Some(ReadLast(db.ledger, user)), Some(GoalsBelow(db.ledger.goals, user, db.ledger.nextId)),
            Some(LabelsBelow(db.ledger.recurring, user, db.ledger.nextId)))
  }

  /** A turn of the agent: read, think, carry out. */
  function Answered(db: Flush.Db, now: Time, threshold: Centavos, input: Input, answer: Move): (Flush.Db, Phase) {
    if answer.Think? then CarriedOut(db, now, input, ThinkTo(threshold, input, ReadAll(db, input.user), answer))
    else (db, Finished)
  }

  /** The whole message: claim, route, and one of the two. */
  function Alone(db: Flush.Db, now: Time, threshold: Centavos, input: Input, answer: Move): (Flush.Db, Phase) {
    var r := Inbox.ClaimSlot(db.claims, input.dedupId, now);
    var claimed := db.(claims := r.0);
    if !r.1 then (claimed, Finished)
    else
      var phase := RouteTo(claimed, now, input);
      if phase.Reading? then Answered(claimed, now, threshold, input, answer) else CarriedOut(claimed, now, input, phase)
  }

  /** ... and then the delivery of what it committed. */
  function HandledAlone(db: Flush.Db, now: Time, threshold: Centavos, input: Input, answer: Move, delivered: bool,
                        retryable: bool): Flush.Db {
    Finish(Alone(db, now, threshold, input, answer), input, now, delivered, retryable)
  }

  lemma DriveCarriesOut(db: Flush.Db, now: Time, threshold: Centavos, input: Input, phase: Phase, answer: Move, n: int)
    requires phase.Ready? || phase.Finished? || ((phase.Cancelling? || phase.Parking?) && n >= 2)
    requires n >= 1
    ensures Drive(db, now, threshold, input, phase, answer, n) == CarriedOut(db, now, input, phase)
    decreases n
  {
    hide RouteTo, ThinkTo, Flush.FlushWrites, Confirmations.Cancel, Confirmations.Save, CancelBatch;
    if phase.Cancelling? || phase.Parking? {
      var r := Act(db, now, threshold, input, phase, NextMove(phase, answer));
      DriveCarriesOut(r.0, now, threshold, input, r.1, answer, n - 1);
    } else if phase.Ready? {
      var r := Act(db, now, threshold, input, phase, FlushBatch);
      assert Drive(r.0, now, threshold, input, r.1, answer, n - 1) == (r.0, r.1);
    }
  }

  /** The three reads, in the order the procedure makes them. */
  lemma DriveReads(db: Flush.Db, now: Time, threshold: Centavos, input: Input, answer: Move, n: int)
    requires n >= 3
    ensures Drive(db, now, threshold, input, Reading(None, None, None), answer, n)
            == Drive(db, now, threshold, input, ReadAll(db, input.user), answer, n - 3)
  {
    hide RouteTo, ThinkTo, ReadLast, GoalsBelow, LabelsBelow, Flush.FlushWrites, Confirmations.Save, Confirmations.Cancel;
    var last, goals := Some(ReadLast(db.ledger, input.user)), Some(GoalsBelow(db.ledger.goals, input.user, db.ledger.nextId));
    assert Drive(db, now, threshold, input, Reading(None, None, None), answer, n)
        == Drive(db, now, threshold, input, Reading(last, None, None), answer, n - 1);
    assert Drive(db, now, threshold, input, Reading(last, None, None), answer, n - 1)
        == Drive(db, now, threshold, input, Reading(last, goals, None), answer, n - 2);
  }

  lemma DriveThinks(db: Flush.Db, now: Time, threshold: Centavos, input: Input, answer: Move, n: int)
    requires (answer.Think? || answer.Fail?) && n > 0
    ensures Drive(db, now, threshold, input, ReadAll(db, input.user), answer, n)
            == Drive(db, now, threshold, input,
                     if answer.Think? then ThinkTo(threshold, input, ReadAll(db, input.user), answer) else Finished, answer,
                     n - 1)
  {
    hide RouteTo, ThinkTo, ReadLast, GoalsBelow, LabelsBelow, Flush.FlushWrites, Confirmations.Save, Confirmations.Cancel;
  }

  lemma DriveAnswers(db: Flush.Db, now: Time, threshold: Centavos, input: Input, answer: Move, n: int)
    requires (answer.Think? || answer.Fail?) && n >= 6
    ensures Drive(db, now, threshold, input, Reading(None, None, None), answer, n) == Answered(db, now, threshold, input, answer)
  {
    hide Drive, ThinkTo, ReadLast, GoalsBelow, LabelsBelow, FlushedAlone;
    DriveReads(db, now, threshold, input, answer, n);
    DriveThinks(db, now, threshold, input, answer, n - 3);
    if answer.Think? {
      ThinkDecides(threshold, input, db, answer);
      DriveCarriesOut(db, now, threshold, input, ThinkTo(threshold, input, ReadAll(db, input.user), answer), answer, n - 4);
    } else {
      DriveCarriesOut(db, now, threshold, input, Finished, answer, n - 4);
    }
  }

  lemma ThinkDecides(threshold: Centavos, input: Input, db: Flush.Db, m: Move)
    requires m.Think?
    ensures var next := ThinkTo(threshold, input, ReadAll(db, input.user), m); next.Ready? || next.Finished? || next.Parking?
  {
    hide PlanFor, Tools.Buffer, Trim, ReadLast, GoalsBelow, LabelsBelow;
  }

  lemma RouteDecides(db: Flush.Db, now: Time, input: Input)
    ensures RouteTo(db, now, input) == Reading(None, None, None) || RouteTo(db, now, input).Ready?
            || RouteTo(db, now, input).Cancelling?
  {
    hide Policy.ConfirmReply, ConfirmBatch;
  }

  /** The first two steps: the claim, and the route if there is a message to work on. */
  lemma DriveRoutes(db: Flush.Db, now: Time, threshold: Centavos, input: Input, answer: Move, n: int)
    requires n >= 2 && Inbox.CanClaim(db.claims, input.dedupId, now)
    ensures var claimed := db.(claims := db.claims[input.dedupId := Inbox.Claimed(now)]);
            Drive(db, now, threshold, input, Received, answer, n)
            == Drive(claimed, now, threshold, input, RouteTo(claimed, now, input), answer, n - 2)
  {
    hide RouteTo, ThinkTo;
    var claimed := db.(claims := db.claims[input.dedupId := Inbox.Claimed(now)]);
    assert Drive(db, now, threshold, input, Received, answer, n) == Drive(claimed, now, threshold, input, Routing, answer, n - 1);
  }

  /** An undisturbed worker does exactly that. */
  lemma DriveIsAlone(db: Flush.Db, now: Time, threshold: Centavos, input: Input, answer: Move)
    requires answer.Think? || answer.Fail?
    ensures Drive(db, now, threshold, input, Received, answer, STEPS) == Alone(db, now, threshold, input, answer)
  {
    hide RouteTo, ThinkTo, Answered, CarriedOut;
    if Inbox.CanClaim(db.claims, input.dedupId, now) {
      var claimed := db.(claims := db.claims[input.dedupId := Inbox.Claimed(now)]);
      DriveRoutes(db, now, threshold, input, answer, STEPS);
      RouteDecides(claimed, now, input);
      var phase := RouteTo(claimed, now, input);
      if phase.Reading? {
        DriveAnswers(claimed, now, threshold, input, answer, STEPS - 2);
      } else {
        DriveCarriesOut(claimed, now, threshold, input, phase, answer, STEPS - 2);
      }
    }
  }

  // ---------------------------------------------------------------- the procedure

  /** deliver_outbound_message: send, then mark. */
  method Settle(db: Database.Database, row: Id, now: Time, delivered: bool, retryable: bool)
    modifies db
    ensures db.View() == old(db.View()).(outbox := Outbox.Step(old(db.View()).outbox,
              if delivered then Outbox.MarkSent(row, now) else Outbox.MarkFailed(row, retryable, now)))
  {
    if delivered {
      db.MarkReplySent(row, now);
    } else {
      db.MarkReplyFailed(row, retryable, now);
    }
  }

  /** commit_and_reply_writes: flush, and unless superseded deliver the queued reply. */
  method CommitAndReply(db: Database.Database, input: Input, batch: seq<WriteIntent>, now: Time, delivered: bool,
                        retryable: bool)
    modifies db
    ensures db.View() == Finish(FlushedAlone(old(db.View()), now, input, batch), input, now, delivered, retryable)
  {
    hide Flush.FlushWrites, Outbox.KeyTarget, Outbox.Step;
    var outcome := db.FlushWrites(Some(input.dedupId), batch, now);
    if outcome != Flush.Committed {
      return;
    }
    var before := db.View();
    var claimed := db.ClaimReplyByKey(ReplyKey(input.dedupId), now);
    if claimed.Some? {
      Settle(db, claimed.value, now, delivered, retryable);
    } else {
      NothingClaimed(before.outbox, ReplyKey(input.dedupId), now);
    }
  }

  lemma NothingClaimed(q: Outbox.Queue, key: string, now: Time)
    requires Outbox.KeyTarget(q, key, now).None?
    ensures Outbox.Step(q, Outbox.ClaimKey(key, now)) == q
  {
    assert Outbox.ClaimRows(q.rows, [], now) == q.rows;
  }

  /** resolve_pending_confirmation: true when the answer was used up. */
  method ResolvePending(db: Database.Database, input: Input, now: Time, reply: Policy.Answer, delivered: bool,
                        retryable: bool) returns (handled: bool)
    requires Policy.ConfirmReply(input.text) == Some(reply)
    modifies db
    ensures var phase := RouteTo(old(db.View()), now, input);
            && (handled <==> !phase.Reading?)
            && (!handled ==> phase == Reading(None, None, None) && db.View() == old(db.View()))
            && (handled ==> db.View() == Finish(CarriedOut(old(db.View()), now, input, phase), input, now, delivered, retryable))
  {
    hide Policy.ConfirmReply, Finish, FlushedAlone, ConfirmBatch, Confirmations.Cancel;
    var before := db.View();
    var pending := Confirmations.Latest(before.confirmations, input.user, now);
    if pending.None? {
      return false;
    }
    if reply == Policy.No {
      db.CancelPendingConfirmations(input.user);
      CommitAndReply(db, input, CancelBatch(input), now, delivered, retryable);
    } else {
      var row := db.confirmations[pending.value];
      CommitAndReply(db, input, ConfirmBatch(input, pending.value, row.payload, row.summary), now, delivered, retryable);
    }
    handled := true;
  }

  /** Rewriting the parked turns happens in a mutable slice. */
  method WithRewrittenTurns(turns: seq<WriteIntent>, input: Input, sent: string) returns (batch: seq<WriteIntent>)
    ensures batch == Rewritten(turns, sent) + [Reply(input, sent)]
  {
    var slice := new WriteIntent[|turns|](i requires 0 <= i < |turns| => turns[i]);
    assert slice[..] == turns;
    RewriteAssistantTurns(slice, sent);
    batch := slice[..] + [Reply(input, sent)];
  }

  /** The gate and the three things that can follow it. */
  method GateAndCommit(db: Database.Database, input: Input, tool: seq<WriteIntent>, reply: string, reaction: string,
                       threshold: Centavos, now: Time, delivered: bool, retryable: bool)
    modifies db
    ensures var phase := match PlanFor(tool, input, reply, reaction, threshold)
                         case Commit(batch) => Ready(batch)
                         case ParkThenCommit(stored, summary, batch) => Parking(stored, summary, batch);
            db.View() == Finish(CarriedOut(old(db.View()), now, input, phase), input, now, delivered, retryable)
  {
    hide Finish, FlushedAlone, Policy.Classify, Rewritten, Park.Parked, Park.Turns, Policy.Summarize, Question,
         Confirmations.Save;
    var writes := WithTurns(tool, input, reply);
    match Policy.Classify(writes, threshold)
    case Safe =>
      CommitAndReply(db, input, writes + [Reply(input, reply + reaction)], now, delivered, retryable);
    case Reject =>
      var _, turns := PartitionTurns(writes);
      var batch := WithRewrittenTurns(turns, input, REFUSAL);
      CommitAndReply(db, input, batch, now, delivered, retryable);
    case NeedsConfirmation(reason) =>
      var ledger, turns := PartitionTurns(writes);
      var summary := Policy.Summarize(writes);
      db.SavePendingConfirmation(input.user, input.phone, SourceOf(input), summary, ledger, now + Confirmations.TTL);
      var batch := WithRewrittenTurns(turns, input, Question(reason, summary));
      CommitAndReply(db, input, batch, now, delivered, retryable);
  }

  /** A new turn: read, ask the agent, gate, commit. */
  method StartTurn(db: Database.Database, input: Input, threshold: Centavos, now: Time, answer: Move, delivered: bool,
                   retryable: bool)
    requires answer.Think? || answer.Fail?
    modifies db
    ensures db.View() == Finish(Answered(old(db.View()), now, threshold, input, answer), input, now, delivered, retryable)
  {
    hide PlanFor, Tools.Buffer, Trim, FlushedAlone;
    if answer.Fail? || Trim(answer.reply) == "" {
      return;
    }
    hide Finish, CarriedOut;
    var t := db.Tables();
    var snapshot := Tools.Snapshot(ReadLast(t, input.user), GoalsBelow(t.goals, input.user, t.nextId),
                                   LabelsBelow(t.recurring, input.user, t.nextId));
    hide ReadLast, GoalsBelow, LabelsBelow;
    var ctx := Tools.Context(input.user, snapshot, answer.coerce, answer.wide, answer.durable);
    var buffer := new Tools.WriteBuffer();
    buffer.ExecuteAll(ctx, answer.calls);
    GateAndCommit(db, input, buffer.writes, answer.reply, answer.reaction, threshold, now, delivered, retryable);
  }

  /** handle: one allowed message end to end, on whichever of the five paths it takes. */
  method Handle(db: Database.Database, input: Input, threshold: Centavos, now: Time, answer: Move, delivered: bool,
                retryable: bool)
    requires answer.Think? || answer.Fail?
    modifies db
    ensures db.View() == HandledAlone(old(db.View()), now, threshold, input, answer, delivered, retryable)
    ensures db.View() == Finish(Drive(old(db.View()), now, threshold, input, Received, answer, STEPS), input, now, delivered,
                                retryable)
  {
    hide Drive, Inbox.ClaimSlot, Policy.ConfirmReply, Answered, CarriedOut, Delivered;
    DriveIsAlone(db.View(), now, threshold, input, answer);
    var process := db.ClaimSlot(input.dedupId, now);
    if !process {
      return;
    }
    hide Finish;
    RouteDecides(db.View(), now, input);
    var reply := Policy.ConfirmReply(input.text);
    if reply.Some? {
      var handled := ResolvePending(db, input, now, reply.value, delivered, retryable);
      if handled {
        return;
      }
    }
    StartTurn(db, input, threshold, now, answer, delivered, retryable);
  }

  // ---------------------------------------------------------------- the cron's delivery loop

  /** The queue after settling these rows in turn; `sends` is what the provider answers for each row. */
  function SettleAll(q: Outbox.Queue, rows: seq<Id>, sends: Id -> (bool, bool), now: Time): Outbox.Queue {
    if rows == [] then q
    else
      var row := rows[|rows| - 1];
      Outbox.Step(SettleAll(q, rows[..|rows| - 1], sends, now),
                  if sends(row).0 then Outbox.MarkSent(row, now) else Outbox.MarkFailed(row, sends(row).1, now))
  }

  function CountSent(rows: seq<Id>, sends: Id -> (bool, bool)): nat {
    if rows == [] then 0 else CountSent(rows[..|rows| - 1], sends) + if sends(rows[|rows| - 1]).0 then 1 else 0
  }

  /** deliver_due_outbound: claim the due rows, then send and settle each; the two counters cover them all. */
  method DeliverDue(db: Database.Database, at: Time, limit: int, now: Time, sends: Id -> (bool, bool))
    returns (sent: nat, failed: nat)
    modifies db
    ensures var due := Outbox.DueTargets(old(db.View()).outbox, at, limit);
            && sent == CountSent(due, sends) && sent + failed == |due|
            && db.View() == old(db.View()).(outbox :=
                 SettleAll(Outbox.Step(old(db.View()).outbox, Outbox.ClaimDue(at, limit, now)), due, sends, now))
  {
    hide Outbox.Step, Outbox.DueTargets;
    sent, failed := 0, 0;
    var messages := db.ClaimDueReplies(at, limit, now);
    var claimed := db.View();
    for k := 0 to |messages|
      invariant sent == CountSent(messages[..k], sends) && sent + failed == k
      invariant db.View() == claimed.(outbox := SettleAll(claimed.outbox, messages[..k], sends, now))
    {
      assert messages[..k + 1][..k] == messages[..k];
      var row := messages[k];
      Settle(db, row, now, sends(row).0, sends(row).1);
      if sends(row).0 {
        sent := sent + 1;
      } else {
        failed := failed + 1;
      }
    }
    assert messages[..|messages|] == messages;
  }

  // ---------------------------------------------------------------- the cron's hygiene and reminders

  /** run_daily_hygiene on the tables of the model: old markers, balances, spent questions. */
  function Tidied(db: Flush.Db, user: Id, now: Time): Flush.Db {
    var reaped := db.(claims := Inbox.Reap(db.claims, now));
    var repaired := match Goals.Reconcile(reaped.ledger, user)
                    case Ok(r) => reaped.(ledger := r.0)
                    case Err(_) => reaped;
    repaired.(confirmations := Confirmations.Reap(repaired.confirmations, now))
  }

  /** A step that fails is skipped, and the rate limiter's old windows go last. */
  method DailyHygiene(db: Database.Database, limiter: RateLimit.RateLimiter, user: Id, now: Time)
    modifies db, limiter
    ensures db.View() == Tidied(old(db.View()), user, now)
    ensures limiter.counts == RateLimit.Reap(old(limiter.counts), now, RateLimit.DAY_SECONDS)
  {
    hide Goals.Reconcile, Inbox.Reap, Confirmations.Reap, RateLimit.Reap;
    db.ReapProcessedMessages(now);
    var fixed := db.ReconcileGoalBalances(user);
    db.ReapPendingConfirmations(now);
    limiter.ReapOld(now, RateLimit.DAY_SECONDS);
  }

  /** It is three events of the protocol one after the other. */
  lemma HygieneIsThreeEvents(s: Sys, user: Id)
    ensures Next(Next(Next(s, ReapInbox(s.now)), ReconcileGoals(user)), ReapQuestions(s.now)).db == Tidied(s.db, user, s.now)
  {
    hide Act, Goals.Reconcile, Inbox.Reap, Confirmations.Reap, DoneIds, Applications.StepTally;
  }

  /** The user's due items, oldest first. */
  function DueItems(m: map<Id, Ledger.RecurringRow>, user: Id, today: nat, n: Id): (r: seq<Id>)
    ensures forall i :: i in r <==> i < n && i in m && m[i].user == user && Reminders.IsDue(m[i], today)
    ensures forall j, k :: 0 <= j < k < |r| ==> r[j] < r[k]
  {
    if n == 0 then []
    else
      var older := DueItems(m, user, today, n - 1);
      assert forall j :: 0 <= j < |older| ==> older[j] in older;
      older + if n - 1 in m && m[n - 1].user == user && Reminders.IsDue(m[n - 1], today) then [n - 1] else []
  }

  /** The items after these have been reminded. */
  function Reminded(m: map<Id, Ledger.RecurringRow>, items: seq<Id>, today: Day): map<Id, Ledger.RecurringRow> {
    map i | i in m :: if i in items then m[i].(lastReminded := Some(today)) else m[i]
  }

  /** run_recurring_reminders: every due item is claimed and reminded once, nothing else changes. */
  method SendReminders(db: Database.Database, user: Id, today: nat) returns (reminders: nat)
    modifies db
    ensures var before := old(db.View());
            var due := DueItems(before.ledger.recurring, user, today, before.ledger.nextId);
            && reminders == |due|
            && db.View() == before.(ledger := before.ledger.(recurring := Reminded(before.ledger.recurring, due, today)))
  {
    hide Reminders.IsDue, DueItems;
    reminders := 0;
    var before := db.View();
    var due := DueItems(db.recurring, user, today, db.nextId);
    DueAreUnreminded(db.recurring, user, today, db.nextId);
    assert Reminded(before.ledger.recurring, due[..0], today) == before.ledger.recurring;
    for k := 0 to |due|
      invariant reminders == k
      invariant db.View() == before.(ledger := before.ledger.(recurring := Reminded(before.ledger.recurring, due[..k], today)))
    {
      assert due[k] in due;
      RemindOneMore(before.ledger.recurring, due, k, today);
      var claimed := db.ClaimReminder(due[k], user, today);
      if claimed {
        reminders := reminders + 1;
      }
    }
    assert due[..|due|] == due;
  }

  lemma DueAreUnreminded(m: map<Id, Ledger.RecurringRow>, user: Id, today: nat, n: Id)
    ensures var due := DueItems(m, user, today, n);
            && (forall i :: i in due ==> i in m && m[i].user == user && m[i].lastReminded != Some(today))
            && (forall j, k :: 0 <= j < k < |due| ==> due[j] < due[k])
  {
    hide Reminders.DueOn;
  }

  lemma RemindOneMore(m: map<Id, Ledger.RecurringRow>, items: seq<Id>, k: nat, today: Day)
    requires k < |items| && items[k] in m && forall i, j :: 0 <= i < j < |items| ==> items[i] < items[j]
    ensures var some := Reminded(m, items[..k], today);
            && some[items[k]] == m[items[k]]
            && Reminded(m, items[..k + 1], today) == some[items[k] := m[items[k]].(lastReminded := Some(today))]
  {
    assert items[..k + 1] == items[..k] + [items[k]];
    assert items[k] !in items[..k];
  }

  /** So a second run on the same day finds nothing due. */
  lemma SecondRunIsSilent(m: map<Id, Ledger.RecurringRow>, user: Id, today: nat, n: Id)
    ensures forall i :: i !in DueItems(Reminded(m, DueItems(m, user, today, n), today), user, today, n)
  {
    hide Reminders.DueOn;
  }
}

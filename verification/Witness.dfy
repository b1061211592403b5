/** Runs of the whole system that show where its comments promise more than it does: a parked batch
    applied after its question expired, a reply claimed more often than its attempt budget, and one
    user's words in another user's reply. */
module Witness {
  import opened Prelude
  import opened Text
  import opened Domain
  import opened Ledger
  import opened Park
  import opened Service
  import opened Protocol
  import opened Inbound
  import opened Gate
  import opened Stepping
  import Bills
  import Confirmations
  import Effects
  import Flush
  import Inbox
  import Memory
  import Money
  import Outbox
  import Policy
  import Replies
  import Tools

  const T: Centavos := Policy.DEFAULT_THRESHOLD

  /** A model that makes these calls and says this. */
  function Ask(calls: seq<Tools.ToolCall>, reply: string): Move {
    Think(calls, (text: string) => Food, (text: string, scale: nat) => None, (fact: string, kind: Memory.MemoryKind) => true,
          reply, "")
  }

  predicate NoAnswer(input: Input) {
    Allowed(input) && Policy.ConfirmReply(input.text) == None
  }

  lemma NothingIsSafe()
    ensures Policy.Classify([], T) == Policy.Safe && LedgerPart([]) == []
  {
  }

  // ---------------------------------------------------------------- a large amount nobody asks about

  /** "Rent is fifty thousand pesos from now on." */
  const RAISE_CALL: Tools.ToolCall := Tools.ChangeBill("Rent", Some("₱50,000.00"), None, None, None, None)

  function RaiseWrite(user: Id): WriteIntent {
    EditRecurring(user, "Rent", Some(T), None, None, None, None)
  }

  lemma FiftyThousandDigits()
    ensures Money.ToDigits(50_000) == "50000"
  {
    assert Money.ToDigits(5) == "5";
    assert Money.ToDigits(50) == Money.ToDigits(5) + "0" == "50";
    assert Money.ToDigits(500) == Money.ToDigits(50) + "0" == "500";
    assert Money.ToDigits(5_000) == Money.ToDigits(500) + "0" == "5000";
  }

  lemma FiftyThousandGrouped()
    ensures Money.Group("50000") == "50,000"
  {
    assert Money.Group("0000") == "0," + Money.Group("000") == "0,000";
    assert "50000"[1..] == "0000";
  }

  lemma FiftyThousand(wide: (string, nat) -> Option<Centavos>)
    ensures Money.Parse("₱50,000.00", wide) == Money.Amount(T)
  {
    hide Money.Parse, Money.ToDigits, Money.Group;
    FiftyThousandDigits();
    FiftyThousandGrouped();
    assert T / 100 == 50_000 && T % 100 == 0;
    assert Money.TwoDigits(0) == "00";
    assert Money.FormatPhp(T) == "₱" + "50,000" + "." + "00" == "₱50,000.00";
    Money.ParseFormat(T, wide);
  }

  /** The tools accept it for any user with that one recurring item, and buffer exactly the edit. */
  lemma RaiseIsBuffered(ctx: Tools.Context)
    requires ctx.snapshot.recurring == ["Rent"]
    ensures Tools.Buffer(ctx, [RAISE_CALL]) == [RaiseWrite(ctx.user)]
  {
    hide Money.Parse, Tools.FindOne;
    FiftyThousand(ctx.wide);
    Bills.RentIsFound();
    assert [RAISE_CALL][..0] == [] && Tools.Buffer(ctx, []) == [];
    assert [] + [RaiseWrite(ctx.user)] == [RaiseWrite(ctx.user)];
  }

  /** Its amount is the whole threshold, and the gate commits it without a question. */
  lemma ALargeRentIsNotHeld(ctx: Tools.Context, input: Input, reply: string, reaction: string)
    requires ctx.snapshot.recurring == ["Rent"]
    ensures Policy.StatedAmount(RaiseWrite(ctx.user)) == Some(T)
    ensures Policy.Classify(WithTurns(Tools.Buffer(ctx, [RAISE_CALL]), input, reply), T) == Policy.Safe
    ensures PlanFor(Tools.Buffer(ctx, [RAISE_CALL]), input, reply, reaction, T)
            == Commit(WithTurns([RaiseWrite(ctx.user)], input, reply) + [Reply(input, reply + reaction)])
  {
    hide Tools.Buffer, Policy.Classify, LedgerPart, WithTurns;
    RaiseIsBuffered(ctx);
    RaiseIsSafe(RaiseWrite(ctx.user));
    SplitTurn([RaiseWrite(ctx.user)], input, reply, T);
  }

  lemma RaiseIsSafe(w: WriteIntent)
    requires w.EditRecurring?
    ensures Policy.Classify([w], T) == Policy.Safe
  {
    hide Policy.Classify;
    Policy.SafeIff([w], T);
    assert [w][1..] == [] && LedgerPart([w]) == [w];
    assert Policy.Sum(Policy.AmountWeight, [w]) == Policy.AmountWeight(w);
  }

  // ---------------------------------------------------------------- a message that is only talk

  function TalkBatch(input: Input, reply: string): seq<WriteIntent> {
    ConversationTurns(input, reply) + [Reply(input, reply)]
  }

  /** The gate lets a turn without calls through as it is. */
  lemma TalkIsPlanned(input: Input, reply: string)
    requires !Blank(reply)
    ensures PlanFor([], input, reply, "", T) == Commit(TalkBatch(input, reply))
    ensures EndsWithReply(TalkBatch(input, reply), input) && LedgerPart(TalkBatch(input, reply)) == []
  {
    hide Policy.Classify, EndsWithReply, Blank, LedgerPart;
    var turns := ConversationTurns(input, reply);
    NothingIsSafe();
    assert [] + turns == turns && reply + "" == reply;
    Policy.VerdictIgnoresBookkeeping(turns, T);
    LedgerPartOfBookkeeping(turns);
    SafeBatch(turns, input, reply, T);
  }

  /** What a message without calls leaves behind: its marker, its turns and its reply. */
  predicate Talked(db: Flush.Db, now: Time, input: Input, reply: string, r: (Flush.Db, Phase)) {
    && r.1.Delivering? && r.0.ledger == db.ledger && r.0.confirmations == db.confirmations
    && r.0.claims == db.claims[input.dedupId := Inbox.Claimed(now)][input.dedupId := Inbox.Completed(now)]
    && r.0.outbox == Outbox.Enqueue(db.outbox, input.user, input.phone, reply, Some(ReplyKey(input.dedupId)), now)
  }

  /** A flush that changes no ledger row and answers no question commits. */
  lemma TalkCommits(db: Flush.Db, now: Time, input: Input, batch: seq<WriteIntent>)
    requires EndsWithReply(batch, input) && LedgerPart(batch) == [] && !Inbox.IsCompleted(db.claims, input.dedupId)
    ensures var r := Flush.FlushWrites(db, Some(input.dedupId), batch, now);
            && r.1 == Flush.Committed && r.0.ledger == db.ledger && r.0.confirmations == db.confirmations
            && r.0.claims == db.claims[input.dedupId := Inbox.Completed(now)]
            && r.0.outbox == Outbox.Enqueue(db.outbox, input.user, input.phone, batch[|batch| - 1].content,
                                            Some(ReplyKey(input.dedupId)), now)
  {
    hide EndsWithReply, LedgerPart, Flush.FlushWrites, Flush.ConsumeAll, Flush.EnqueueAll, Outbox.Enqueue;
    Flush.FlushOutcomes(db, input.dedupId, batch, now);
    BookkeepingIsInvisible(db.ledger, Carry(None, Some(input.dedupId)), batch);
    PlainBatchEffects(db.confirmations, db.outbox, batch, input, now);
  }

  lemma TalkIsThought(db: Flush.Db, input: Input, reply: string)
    requires !Blank(reply)
    ensures ThinkTo(T, input, ReadAll(db, input.user), Ask([], reply)) == Ready(TalkBatch(input, reply))
  {
    hide Trim, Blank, PlanFor, TalkBatch, ReadLast, GoalsBelow, LabelsBelow;
    TrimIsEmptyIff(reply);
    TalkIsPlanned(input, reply);
  }

  lemma RouteToStart(db: Flush.Db, now: Time, input: Input)
    requires NoAnswer(input)
    ensures RouteTo(db, now, input) == Reading(None, None, None)
  {
    hide Policy.ConfirmReply;
  }

  /** After any run in which nobody has claimed it, such a message is handled in further events. */
  lemma TalkIsARun(es: seq<Event>, w: Id, input: Input, reply: string) returns (more: seq<Event>)
    requires NoAnswer(input) && !Blank(reply) && w !in Run(None, es).workers && Run(None, es).threshold == T
    requires input.dedupId !in Run(None, es).db.claims
    ensures var s := Run(None, es);
            var r := Alone(s.db, s.now, T, input, Ask([], reply));
            Plays(s, w, input, r, Run(None, es + more)) && Talked(s.db, s.now, input, reply, r)
  {
    hide Run, NoAnswer, Blank, Drive, Plays, RouteTo, ThinkTo, EndsWithReply, LedgerPart, Flush.FlushWrites, Outbox.Enqueue,
         ReadAll;
    var s := Run(None, es);
    NoAnswerIsAllowed(input);
    more := ArrivalIsARun(None, es, w, input, Ask([], reply), STEPS);
    DriveIsAlone(s.db, s.now, T, input, Ask([], reply));
    var claimed := s.db.(claims := s.db.claims[input.dedupId := Inbox.Claimed(s.now)]);
    RouteToStart(claimed, s.now, input);
    TalkIsThought(claimed, input, reply);
    TalkIsPlanned(input, reply);
    TalkCommits(claimed, s.now, input, TalkBatch(input, reply));
  }

  lemma NoAnswerIsAllowed(input: Input)
    requires NoAnswer(input)
    ensures Allowed(input)
  {
  }

  lemma RunOfNothing()
    ensures Run(None, []) == Sys(Flush.FRESH, map[], 0, T, NO_HISTORY, Quiet)
  {
    hide Next;
  }

  // ---------------------------------------------------------------- a reply nobody manages to settle

  predicate Taken(s: Sys, n: int) {
    && Outbox.Count(s.history.queueOps, 0, {Outbox.Requeued}) == 0
    && s.now == n * Outbox.LEASE && s.db.outbox.nextId == 1 && s.db.outbox.rows.Keys == {0}
    && s.db.outbox.rows[0].attempts == n && Outbox.Claimable(s.db.outbox.rows[0], (n + 1) * Outbox.LEASE)
  }

  lemma FirstReply(input: Input, content: string)
    requires Allowed(input) && !Blank(content)
    ensures var q := Outbox.Enqueue(Outbox.EMPTY, input.user, input.phone, content, Some(ReplyKey(input.dedupId)), 0);
            && q.nextId == 1 && q.rows.Keys == {0} && q.rows[0].attempts == 0 && q.rows[0].status == Outbox.Queued
            && q.rows[0].nextAttemptAt == 0
  {
    hide Trim, Truncate, Outbox.NormalKey;
    assert forall key :: Outbox.FindKey(Outbox.EMPTY.rows, key, 0).None?;
  }

  lemma FirstReplyIsQueued(input: Input) returns (es: seq<Event>)
    requires NoAnswer(input)
    ensures Taken(Run(None, es), 0)
  {
    hide Run, Policy.ConfirmReply, Outbox.Enqueue, Outbox.Count, Alone;
    RunOfNothing();
    assert "sure thing"[0] == 's';
    es := TalkIsARun([], 0, input, "sure thing");
    assert [] + es == es;
    FirstReply(input, "sure thing");
    OneOpRequeuesNothing(Run(None, es).history.queueOps);
  }

  lemma OneOpRequeuesNothing(ops: seq<Outbox.Op>)
    requires |ops| <= 1
    ensures Outbox.Count(ops, 0, {Outbox.Requeued}) == 0
  {
    if |ops| == 1 {
      assert ops[..0] == [];
    }
  }

  lemma ClaimRequeuesNothing(ops: seq<Outbox.Op>, op: Outbox.Op)
    requires op.ClaimDue? && Outbox.Count(ops, 0, {Outbox.Requeued}) == 0
    ensures Outbox.Count(ops + [op], 0, {Outbox.Requeued}) == 0
  {
    hide Outbox.Count, Outbox.Run, Outbox.Targets;
    Outbox.CountStep(ops + [op], 0, {Outbox.Requeued});
    assert (ops + [op])[..|ops|] == ops;
  }

  /** The daily job's `n`-th look at the queue. */
  function DailyClaim(n: nat): Event {
    ClaimDueReplies(n * Outbox.LEASE, Outbox.CRON_LIMIT)
  }

  predicate TakenAt(s: Sys, u: Sys, at: int) {
    && at >= 0 && u.now == at && u.db.outbox == Outbox.Step(s.db.outbox, Outbox.ClaimDue(at, Outbox.CRON_LIMIT, at))
    && u.history.queueOps == s.history.queueOps + [Outbox.ClaimDue(at, Outbox.CRON_LIMIT, at)]
  }

  lemma TakenAgain(s: Sys, u: Sys, n: nat)
    requires n > 0 && Taken(s, n - 1) && TakenAt(s, u, n * Outbox.LEASE)
    ensures Taken(u, n)
  {
    hide Outbox.Count, Outbox.Step, Outbox.Targets, Outbox.Run;
    assert Outbox.LEASE == 900_000;
    var at := n * Outbox.LEASE;
    Outbox.OnlyRowIsClaimed(s.db.outbox, at, at);
    assert u.db.outbox == Outbox.Queue(map[0 := Outbox.ClaimRow(s.db.outbox.rows[0], at)], 1);
    ClaimRequeuesNothing(s.history.queueOps, Outbox.ClaimDue(at, Outbox.CRON_LIMIT, at));
  }

  /** A lease later the daily job comes by. */
  lemma DailyJobRuns(es: seq<Event>, n: nat)
    requires n > 0 && Taken(Run(None, es), n - 1)
    ensures TakenAt(Run(None, es), Run(None, es + [Tick(Outbox.LEASE)] + [DailyClaim(n)]), n * Outbox.LEASE)
  {
    hide Run, Outbox.Count, Outbox.Step, Act, Outbox.Claimable;
    RunMore(None, es, Tick(Outbox.LEASE));
    RunMore(None, es + [Tick(Outbox.LEASE)], DailyClaim(n));
  }

  /** For every `n` a run of the whole system, with one commit and no re-enqueue, in which the daily job
      takes one reply `n` times: dying before settling costs no attempt that would stop the next. */
  lemma {:induction false} RepliesAreTakenWithoutLimit(input: Input, n: nat) returns (es: seq<Event>)
    requires NoAnswer(input)
    ensures Taken(Run(None, es), n)
  {
    hide Run, Taken, TakenAt, NoAnswer;
    if n == 0 {
      es := FirstReplyIsQueued(input);
    } else {
      es := RepliesAreTakenWithoutLimit(input, n - 1);
      var next := es + [Tick(Outbox.LEASE)] + [DailyClaim(n)];
      DailyJobRuns(es, n);
      TakenAgain(Run(None, es), Run(None, next), n);
      es := next;
    }
  }

  // ---------------------------------------------------------------- one user's words in another user's reply

  /** The first row is this user's, and says this to that phone. */
  predicate FirstRowSays(q: Outbox.Queue, user: Id, phone: string, content: string) {
    && q.rows.Keys == {0} && q.rows[0].user == user
    && q.rows[0].phone == Truncate(Trim(phone), Outbox.PHONE_MAX)
    && q.rows[0].content == Truncate(Trim(content), Outbox.CONTENT_MAX)
  }

  lemma SecondOverwrites(a: Input, b: Input, x: string, y: string, at: Time, now: Time)
    requires !Blank(a.phone) && !Blank(b.phone) && !Blank(x) && !Blank(y)
    requires Replies.Key(a.dedupId) == Replies.Key(b.dedupId)
    ensures var q := Outbox.Enqueue(Outbox.EMPTY, a.user, a.phone, x, Some(ReplyKey(a.dedupId)), at);
            var r := Outbox.Enqueue(q, b.user, b.phone, y, Some(ReplyKey(b.dedupId)), now);
            FirstRowSays(q, a.user, a.phone, x) && FirstRowSays(r, a.user, b.phone, y)
  {
    Replies.KeyForm(a.dedupId);
    hide Trim, Truncate, Outbox.NormalKey;
    assert forall key :: Outbox.FindKey(Outbox.EMPTY.rows, key, 0).None?;
    var key := Replies.Key(a.dedupId).value;
    var q := Outbox.Enqueue(Outbox.EMPTY, a.user, a.phone, x, Some(ReplyKey(a.dedupId)), at);
    assert Outbox.FindKey(q.rows, key, 1) == Some(0);
  }

  /** Keys carry no user: where two users' messages get one key, the system runs into a state whose only
      reply is the first user's, and then on into one where that row holds the second user's words and
      phone, both messages committed. */
  lemma CollidingKeysCross(a: Input, b: Input, x: string, y: string) returns (es: seq<Event>, more: seq<Event>)
    requires NoAnswer(a) && NoAnswer(b) && !Blank(x) && !Blank(y)
    requires a.dedupId != b.dedupId && Replies.Key(a.dedupId) == Replies.Key(b.dedupId)
    ensures FirstRowSays(Run(None, es).db.outbox, a.user, a.phone, x)
    ensures FirstRowSays(Run(None, es + more).db.outbox, a.user, b.phone, y)
    ensures Inbox.IsCompleted(Run(None, es + more).db.claims, a.dedupId)
    ensures Inbox.IsCompleted(Run(None, es + more).db.claims, b.dedupId)
  {
    hide Run, Policy.ConfirmReply, Outbox.Enqueue, Blank, Alone, FirstRowSays, Replies.Key;
    RunOfNothing();
    es := TalkIsARun([], 0, a, x);
    assert [] + es == es;
    more := TalkIsARun(es, 1, b, y);
    Effects.AllowedIsVisible(a);
    Effects.AllowedIsVisible(b);
    SecondOverwrites(a, b, x, y, 0, 0);
  }

  const FIRST: Input := Input(1, "+1", "drop it", Replies.LongId("1"), true)
  const SECOND: Input := Input(2, "+2", "drop it", Replies.LongId("2"), true)

  lemma BothAsk()
    ensures NoAnswer(FIRST) && NoAnswer(SECOND)
  {
    hide Policy.ConfirmReply, Replies.LongId;
    TheWordsAreRead();
    assert "+1"[1] == '1' && "+2"[1] == '2';
  }

  /** Concretely: user 1 is told "hi"; then user 2's message makes user 1's row say "yo", to user 2's phone. */
  lemma CollidingKeyCrossesUsers() returns (es: seq<Event>, more: seq<Event>)
    ensures FirstRowSays(Run(None, es).db.outbox, FIRST.user, FIRST.phone, "hi")
    ensures FirstRowSays(Run(None, es + more).db.outbox, FIRST.user, SECOND.phone, "yo")
    ensures Inbox.IsCompleted(Run(None, es + more).db.claims, SECOND.dedupId)
  {
    hide Run, NoAnswer, FirstRowSays, Replies.Key, Replies.LongId, Trim;
    Replies.LongIdsCollide();
    BothAsk();
    assert "hi"[0] == 'h' && "yo"[0] == 'y';
    es, more := CollidingKeysCross(FIRST, SECOND, "hi", "yo");
  }

  // ---------------------------------------------------------------- a second answer nobody gets

  predicate FirstRowIsSent(q: Outbox.Queue) {
    0 in q.rows && q.rows[0].status == Outbox.Sent
  }

  /** The provider took the first reply. */
  lemma FirstReplyIsSent(db: Flush.Db, input: Input, content: string, now: Time)
    requires Allowed(input) && !Blank(content)
    requires db.outbox == Outbox.Enqueue(Outbox.EMPTY, input.user, input.phone, content, Some(ReplyKey(input.dedupId)), now)
    ensures var r := Delivered(db, ReplyKey(input.dedupId), now, true, true);
            && r == db.(outbox := r.outbox) && r.outbox.nextId == 1 && FirstRowIsSent(r.outbox)
            && FirstRowSays(r.outbox, input.user, input.phone, content)
            && r.outbox.rows[0].dedupKey == Replies.Key(input.dedupId)
  {
    Replies.KeyForm(input.dedupId);
    hide Trim, Truncate, Outbox.NormalKey;
    assert forall key :: Outbox.FindKey(Outbox.EMPTY.rows, key, 0).None?;
    assert Outbox.FindKey(db.outbox.rows, Replies.Key(input.dedupId).value, 1) == Some(0);
    assert Outbox.ClaimRows(db.outbox.rows, [0], now) == db.outbox.rows[0 := Outbox.ClaimRow(db.outbox.rows[0], now)];
  }

  /** Another answer under the key of a sent row changes its words and nothing else. */
  lemma SentRowIsReworded(q: Outbox.Queue, input: Input, content: string, now: Time)
    requires !Blank(input.phone) && !Blank(content) && q.nextId == 1 && q.rows.Keys == {0} && FirstRowIsSent(q)
    requires q.rows[0].dedupKey == Replies.Key(input.dedupId)
    ensures var r := Outbox.Enqueue(q, input.user, input.phone, content, Some(ReplyKey(input.dedupId)), now);
            FirstRowIsSent(r) && FirstRowSays(r, q.rows[0].user, input.phone, content)
  {
    Replies.KeyForm(input.dedupId);
    hide Trim, Truncate, Outbox.NormalKey;
    assert Outbox.FindKey(q.rows, Replies.Key(input.dedupId).value, 1) == Some(0);
  }

  /** Until the reap forgets what was completed at time 0. */
  function LongWait(): Event {
    Tick(Inbox.KEEP_COMPLETED + 1)
  }

  lemma MarkerIsReaped(s: Sys, mid: string)
    requires s.db.claims == map[][mid := Inbox.Claimed(0)][mid := Inbox.Completed(0)] && s.now == 0
    ensures var u := Next(Next(s, LongWait()), ReapInbox(Inbox.KEEP_COMPLETED + 1));
            && u.db == s.db.(claims := map[]) && SameButDb(s.(now := Inbox.KEEP_COMPLETED + 1), u)
  {
    hide Act;
    assert Inbox.Reap(s.db.claims, Inbox.KEEP_COMPLETED + 1) == map[];
  }

  /** For any message without calls: a run delivers its first answer and forgets its marker; handled again,
      the message commits again, and its second answer only rewords the row that is already sent. */
  lemma ASecondAnswerIsNeverSent(input: Input, x: string, y: string) returns (es: seq<Event>, more: seq<Event>)
    requires NoAnswer(input) && !Blank(x) && !Blank(y)
    ensures FirstRowSays(Run(None, es).db.outbox, input.user, input.phone, x) && FirstRowIsSent(Run(None, es).db.outbox)
    ensures input.dedupId !in Run(None, es).db.claims
    ensures Inbox.IsCompleted(Run(None, es + more).db.claims, input.dedupId)
    ensures FirstRowSays(Run(None, es + more).db.outbox, input.user, input.phone, y)
    ensures FirstRowIsSent(Run(None, es + more).db.outbox)
  {
    hide Run, Next, NoAnswer, Outbox.Enqueue, Blank, Alone, FirstRowIsSent, Delivered, Trim, Truncate;
    NoAnswerIsAllowed(input);
    Effects.AllowedIsVisible(input);
    RunOfNothing();
    var first := TalkIsARun([], 0, input, x);
    assert [] + first == first;
    var sent := DeliveryIsARun(None, first, 0, input, true, true);
    FirstReplyIsSent(Run(None, first).db, input, x, 0);
    var e0 := first + sent;
    var reap := ReapInbox(Inbox.KEEP_COMPLETED + 1);
    RunMore(None, e0, LongWait());
    RunMore(None, e0 + [LongWait()], reap);
    MarkerIsReaped(Run(None, e0), input.dedupId);
    es := e0 + [LongWait()] + [reap];
    more := TalkIsARun(es, 1, input, y);
    SentRowIsReworded(Run(None, es).db.outbox, input, y, Run(None, es).now);
  }

  // ---------------------------------------------------------------- a yes applied after the question expired

  const DROP_CALL: Tools.ToolCall := Tools.BudgetOff("food")

  function DropWrite(input: Input): seq<WriteIntent> {
    [RemoveBudget(input.user, Food)]
  }

  lemma DropIsBuffered(snapshot: Tools.Snapshot, input: Input)
    ensures var m := Ask([DROP_CALL], "sure thing");
            Tools.Buffer(Tools.Context(input.user, snapshot, m.coerce, m.wide, m.durable), [DROP_CALL]) == DropWrite(input)
  {
    var m := Ask([DROP_CALL], "sure thing");
    var ctx := Tools.Context(input.user, snapshot, m.coerce, m.wide, m.durable);
    assert [DROP_CALL][..0] == [];
    assert Tools.Buffer(ctx, []) == [];
    assert [] + [RemoveBudget(input.user, Food)] == DropWrite(input);
  }

  lemma DropIsHeld(input: Input)
    ensures Policy.Classify(DropWrite(input), T).NeedsConfirmation?
    ensures LedgerPart(DropWrite(input)) == DropWrite(input)
  {
    var ws := DropWrite(input);
    assert ws[1..] == [];
    assert LedgerPart(ws) == ws;
    assert ws[0] in ws;
    hide Policy.LooksLikeOneOff;
  }

  /** Taking a budget away is held for confirmation: the worker is about to park exactly that write. */
  lemma DropIsParked(input: Input, phase: Phase)
    requires phase.Reading? && phase.last.Some? && phase.goals.Some? && phase.labels.Some?
    ensures var next := ThinkTo(T, input, phase, Ask([DROP_CALL], "sure thing"));
            && next.Parking? && next.stored == DropWrite(input)
            && EndsWithReply(next.next, input) && LedgerPart(next.next) == []
  {
    hide EndsWithReply, LedgerPart, Policy.Classify, PlanFor, Tools.Buffer, Trim;
    TrimIsEmptyIff("sure thing");
    assert "sure thing"[0] == 's';
    DropIsBuffered(Tools.Snapshot(phase.last.value, phase.goals.value, phase.labels.value), input);
    DropIsHeld(input);
    PlanMeaning(DropWrite(input), input, "sure thing", "", T);
  }

  /** The message is done, and its question is the only one, open for an hour. */
  predicate AsksToDrop(db: Flush.Db, input: Input) {
    && db.ledger == EMPTY && db.claims.Keys == {input.dedupId}
    && 0 in db.confirmations.rows && db.confirmations.nextId == 1
    && var row := db.confirmations.rows[0];
       row.user == input.user && row.payload == DropWrite(input) && row.status == Confirmations.Pending
       && row.expiresAt == Confirmations.TTL
  }

  lemma ParkedQuestion(a: Input, summary: string)
    ensures var book := Confirmations.Save(Confirmations.EMPTY, a.user, a.phone, SourceOf(a), summary, DropWrite(a),
                                           Confirmations.TTL);
            && 0 in book.rows && book.nextId == 1
            && var row := book.rows[0];
               row.user == a.user && row.payload == DropWrite(a) && row.status == Confirmations.Pending
               && row.expiresAt == Confirmations.TTL
  {
    hide Trim, Truncate;
  }

  lemma DropIsAsked(a: Input)
    requires NoAnswer(a)
    ensures var r := Alone(Flush.FRESH, 0, T, a, Ask([DROP_CALL], "sure thing")); r.1.Delivering? && AsksToDrop(r.0, a)
  {
    hide NoAnswer, RouteTo, ThinkTo, EndsWithReply, LedgerPart, Flush.FlushWrites, Outbox.Enqueue, Confirmations.Save, ReadLast,
         GoalsBelow, LabelsBelow;
    var claimed := Flush.FRESH.(claims := map[a.dedupId := Inbox.Claimed(0)]);
    assert map[][a.dedupId := Inbox.Claimed(0)] == map[a.dedupId := Inbox.Claimed(0)];
    RouteToStart(claimed, 0, a);
    DropIsParked(a, ReadAll(claimed, a.user));
    var phase := ThinkTo(T, a, ReadAll(claimed, a.user), Ask([DROP_CALL], "sure thing"));
    ParkedQuestion(a, phase.summary);
    var book := Confirmations.Save(Confirmations.EMPTY, a.user, a.phone, SourceOf(a), phase.summary, DropWrite(a),
                                   Confirmations.TTL);
    TalkCommits(claimed.(confirmations := book), 0, a, phase.next);
  }

  predicate Confirms(a: Input, b: Input) {
    && NoAnswer(a) && Allowed(b) && Policy.ConfirmReply(b.text) == Some(Policy.Yes)
    && a.user == b.user && a.dedupId != b.dedupId
  }

  const START: Time := 0
  const ANSWERER: Id := 1
  const ROUTED: nat := 2

  /** Until after the question's expiry. */
  function Wait(late: nat): Event {
    Tick(Confirmations.TTL + late)
  }

  function ClaimedToo(db: Flush.Db, b: Input): Flush.Db {
    db.(claims := db.claims[b.dedupId := Inbox.Claimed(0)])
  }

  /** The batch that a yes to the question runs. */
  function DropBatch(db: Flush.Db, a: Input, b: Input): seq<WriteIntent> {
    ConfirmBatch(b, 0, DropWrite(a), if 0 in db.confirmations.rows then db.confirmations.rows[0].summary else "")
  }

  lemma YesIsRouted(db: Flush.Db, a: Input, b: Input)
    requires Confirms(a, b) && AsksToDrop(db, a)
    ensures Drive(db, START, T, b, Received, Fail, ROUTED) == (ClaimedToo(db, b), Ready(DropBatch(db, a, b)))
  {
    hide Act, Policy.ConfirmReply, ConfirmBatch;
    DriveRoutes(db, START, T, b, Fail, ROUTED);
    assert Confirmations.LatestBelow(db.confirmations.rows, b.user, 0, 1) == Some(0);
  }

  /** The confirming flush goes through however late it is. */
  lemma ConfirmCommits(db: Flush.Db, a: Input, b: Input, now: Time)
    requires a.user == b.user && a.dedupId != b.dedupId && AsksToDrop(db, a)
    ensures Flush.FlushWrites(ClaimedToo(db, b), Some(b.dedupId), DropBatch(db, a, b), now).1 == Flush.Committed
    ensures Used(DropBatch(db, a, b)) == Some(0)
  {
    hide Flush.FlushWrites, Flush.ConsumeAll, Flush.EnqueueAll, LedgerPart, Outbox.Enqueue, DoneText;
    var d, batch := ClaimedToo(db, b), DropBatch(db, a, b);
    Flush.FlushOutcomes(d, b.dedupId, batch, now);
    ConfirmBatchEffects(d.confirmations, d.outbox, b, 0, DropWrite(a), db.confirmations.rows[0].summary, now);
    BookkeepingIsInvisible(d.ledger, Carry(None, Some(b.dedupId)), batch);
    DropApplies(d.ledger, Carry(None, Some(b.dedupId)), a);
  }

  lemma DropApplies(t: Tables, c: Carry, a: Input)
    ensures ApplyAll(t, c, DropWrite(a)).Ok?
  {
    var ws := DropWrite(a);
    assert Apply(t, c, ws[0]).Ok? && ws[1..] == [];
    assert ApplyAll(Apply(t, c, ws[0]).value, Advance(t, c, ws[0]), []).Ok?;
  }

  lemma FlushIsNoted(db: Flush.Db, now: Time, input: Input, batch: seq<WriteIntent>)
    requires Flush.FlushWrites(db, Some(input.dedupId), batch, now).1 == Flush.Committed
    ensures Act(db, now, T, input, Ready(batch), FlushBatch).2 == Flushed(input.dedupId, batch)
  {
    hide RouteTo, ThinkTo, Flush.FlushWrites;
  }

  /** The yes has been read while question 0 was open: its worker holds the batch that consumes it. */
  predicate ReadInTime(s: Sys, b: Input) {
    && 0 in s.db.confirmations.rows && s.now < s.db.confirmations.rows[0].expiresAt
    && ANSWERER in s.workers
    && var w := s.workers[ANSWERER]; w.input == b && w.phase.Ready? && Used(w.phase.batch) == Some(0)
  }

  /** The event committed the message, and consumed question 0 so long after its expiry. */
  predicate CommitsLate(s: Sys, u: Sys, mid: string, late: nat) {
    && 0 in s.db.confirmations.rows && s.now == s.db.confirmations.rows[0].expiresAt + late
    && Consumes(u, 0) && u.note.mid == mid
  }

  /** For any delay: a run that parks a batch, has the yes routed before the question expires, and then
      commits it after the expiry. */
  lemma LateYesCommits(a: Input, b: Input, late: nat) returns (es: seq<Event>)
    requires Confirms(a, b)
    ensures ReadInTime(Run(None, es), b)
    ensures CommitsLate(Run(None, es + [Wait(late)]), Run(None, es + [Wait(late)] + [Step(ANSWERER, FlushBatch)]), b.dedupId,
                        late)
  {
    hide Run, Act, Policy.ConfirmReply, Drive, Alone, AsksToDrop, DropBatch, Remember, Outside;
    RunOfNothing();
    var ask := ArrivalIsARun(None, [], 0, a, Ask([DROP_CALL], "sure thing"), STEPS);
    assert [] + ask == ask;
    DriveIsAlone(Flush.FRESH, 0, T, a, Ask([DROP_CALL], "sure thing"));
    DropIsAsked(a);
    var db := Run(None, ask).db;
    var read := ArrivalIsARun(None, ask, ANSWERER, b, Fail, ROUTED);
    YesIsRouted(db, a, b);
    es := ask + read;
    YesIsOpen(db, a, b);
    var now := Confirmations.TTL + late;
    ConfirmCommits(db, a, b, now);
    FlushIsNoted(ClaimedToo(db, b), now, b, DropBatch(db, a, b));
    TickMoves(Run(None, es), now);
    RunMore(None, es, Wait(late));
    RunMore(None, es + [Wait(late)], Step(ANSWERER, FlushBatch));
  }

  /** The question is stored and expires after an hour. */
  lemma YesIsOpen(db: Flush.Db, a: Input, b: Input)
    requires AsksToDrop(db, a)
    ensures 0 in ClaimedToo(db, b).confirmations.rows && ClaimedToo(db, b).confirmations.rows[0].expiresAt == Confirmations.TTL
  {
  }

  lemma TickMoves(s: Sys, ms: nat)
    ensures Next(s, Tick(ms)) == s.(now := s.now + ms, note := Quiet)
  {
    hide Act;
  }

  // ---------------------------------------------------------------- the two messages

  const DROP: Input := Input(1, "+1", "drop it", "m1", true)
  const YES: Input := Input(1, "+1", "yes", "m2", true)

  lemma PlainWord(s: string)
    requires s != "" && forall i :: 0 <= i < |s| ==> 'a' <= s[i] <= 'z' || (s[i] == ' ' && 0 < i < |s| - 1)
    ensures Policy.DropTrailingMarks(Policy.DropLeadingMarks(Lower(Trim(s)))) == s
  {
    TrimKeeps(s);
    assert Lower(s) == s;
  }

  lemma TheWordsAreRead()
    ensures Policy.ConfirmReply("yes") == Some(Policy.Yes) && Policy.ConfirmReply("drop it") == None
  {
    hide Policy.DropTrailingMarks, Policy.DropLeadingMarks, Trim, Lower;
    PlainWord("yes");
    PlainWord("drop it");
    assert Policy.YES_WORDS[0] == "yes" && "proceed"[0] == 'p';
    assert "drop it" !in Policy.YES_WORDS && "drop it" !in Policy.NO_WORDS;
  }

  /** Concretely: "drop it" is parked, "yes" is read at once, and the batch is applied an hour and any
      time later, when its question is long expired. */
  lemma ALateYesIsApplied(late: nat) returns (es: seq<Event>)
    ensures ReadInTime(Run(None, es), YES)
    ensures CommitsLate(Run(None, es + [Wait(late)]),
                        Run(None, es + [Wait(late)] + [Step(ANSWERER, FlushBatch)]), "m2", late)
  {
    hide Run, Policy.ConfirmReply, ReadInTime, CommitsLate;
    TheWordsAreRead();
    assert "+1"[1] == '1' && "m1"[1] == '1' && "m2"[1] == '2';
    es := LateYesCommits(DROP, YES, late);
  }

  /** And concretely for the queue. */
  lemma ADeadReplyIsTakenForEver(n: nat) returns (es: seq<Event>)
    ensures Taken(Run(None, es), n)
  {
    hide Run, Taken, Policy.ConfirmReply;
    TheWordsAreRead();
    assert "+1"[1] == '1';
    es := RepliesAreTakenWithoutLimit(DROP, n);
  }
}

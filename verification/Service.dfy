/** What one inbound message turns into: the batches the service flushes on its five paths. */
module Service {
  import opened Prelude
  import opened Text
  import opened Domain
  import opened Ledger
  import opened Park
  import Money
  import Policy
  import Flush

  /** An allowed inbound text. `dedupId` is the provider's message id or, when it has none, a hash of
      the content; only the former is recorded as the source of a parked batch. */
  datatype Input = Input(user: Id, phone: string, text: string, dedupId: string, hasMessageId: bool)

  /** The phone filter lets through only numbers with a digit in them. */
  predicate Allowed(input: Input) {
    exists i :: 0 <= i < |input.phone| && IsDigit(input.phone[i])
  }

  function SourceOf(input: Input): Option<string> {
    if input.hasMessageId then Some(input.dedupId) else None
  }

  const KEY_PREFIX: string := "inbound-reply:"

  function ReplyKey(mid: string): string {
    KEY_PREFIX + mid
  }

  function Reply(input: Input, content: string): WriteIntent {
    OutboundReply(input.user, input.phone, content, Some(ReplyKey(input.dedupId)))
  }

  // ---------------------------------------------------------------- conversation turns

  /** with_turn_writes: the turn's two conversation rows go after everything the tools buffered. */
  function WithTurns(tool: seq<WriteIntent>, input: Input, reply: string): seq<WriteIntent> {
    tool + ConversationTurns(input, reply)
  }

  function ConversationTurns(input: Input, reply: string): seq<WriteIntent> {
    [SaveTurn(input.user, MessageRole.User, input.text), SaveTurn(input.user, Assistant, reply)]
  }

  predicate IsAssistantTurn(w: WriteIntent) {
    w.SaveTurn? && w.role == Assistant
  }

  function RewriteOne(w: WriteIntent, sent: string): WriteIntent {
    if IsAssistantTurn(w) then SaveTurn(w.user, w.role, sent) else w
  }

  function Rewritten(turns: seq<WriteIntent>, sent: string): seq<WriteIntent> {
    seq(|turns|, i requires 0 <= i < |turns| => RewriteOne(turns[i], sent))
  }

  /** rewrite_assistant_turn, in place: every assistant turn now says what was sent, and the user's
      words stay as they are. */
  method RewriteAssistantTurns(turns: array<WriteIntent>, sent: string)
    modifies turns
    ensures turns[..] == Rewritten(old(turns[..]), sent)
  {
    for i := 0 to turns.Length
      invariant forall k :: 0 <= k < i ==> turns[k] == RewriteOne(old(turns[k]), sent)
      invariant forall k :: i <= k < turns.Length ==> turns[k] == old(turns[k])
    {
      if turns[i].SaveTurn? && turns[i].role == Assistant {
        turns[i] := SaveTurn(turns[i].user, turns[i].role, sent);
      }
    }
  }

  /** `partition` on is_conversation_turn, one push at a time. */
  method PartitionTurns(writes: seq<WriteIntent>) returns (ledger: seq<WriteIntent>, turns: seq<WriteIntent>)
    ensures ledger == Parked(writes) && turns == Turns(writes)
  {
    ledger, turns := [], [];
    for i := 0 to |writes|
      invariant ledger + Parked(writes[i..]) == Parked(writes)
      invariant turns + Turns(writes[i..]) == Turns(writes)
    {
      assert writes[i..][0] == writes[i] && writes[i..][1..] == writes[i + 1..];
      if writes[i].SaveTurn? {
        turns := turns + [writes[i]];
      } else {
        ledger := ledger + [writes[i]];
      }
    }
  }

  lemma RewrittenTurns(turns: seq<WriteIntent>, sent: string, user: Id)
    requires Own(turns, user) && forall w :: w in turns ==> w.SaveTurn?
    ensures Own(Rewritten(turns, sent), user)
    ensures forall w :: w in Rewritten(turns, sent) ==> w.SaveTurn? && (w.role == Assistant ==> w.content == sent)
  {
    forall w | w in Rewritten(turns, sent)
      ensures w.user == user && w.SaveTurn? && (w.role == Assistant ==> w.content == sent)
    {
      var i :| 0 <= i < |turns| && w == RewriteOne(turns[i], sent);
      assert turns[i] in turns;
    }
  }

  // ---------------------------------------------------------------- texts

  function ReasonText(r: Policy.Reason): string {
    match r
    case RemovesAndChanges => "this turn both removes and changes records"
    case RemovesData => "this removes saved data"
    case TooMany(n) => Money.ToDigits(n) + " changes in one message"
    case LargeAmount => "that's a large amount"
    case LargeTotal => "that's a large total"
  }

  const REFUSAL: string := "i can't do that — " + "refusing to store a one-off transaction as durable memory" + "."
  const CANCELLED: string := "okay, " + "cancelled — nothing changed."

  function Question(r: Policy.Reason, summary: string): string {
    "before i do that — " + ReasonText(r) + ". confirm? (" + summary + "). reply yes or no."
  }

  function DoneText(summary: string): string {
    "done — " + summary + "."
  }

  // ---------------------------------------------------------------- the gate's three outcomes

  /** What the service does next with a classified turn. */
  datatype Plan =
    | Commit(batch: seq<WriteIntent>)
    | ParkThenCommit(stored: seq<WriteIntent>, summary: string, batch: seq<WriteIntent>)

  /** `reply` is the agent's answer and `reaction` what the budget check appended to it. */
  function PlanFor(tool: seq<WriteIntent>, input: Input, reply: string, reaction: string, threshold: int): Plan {
    var writes := WithTurns(tool, input, reply);
    match Policy.Classify(writes, threshold)
    case Safe => Commit(writes + [Reply(input, reply + reaction)])
    case Reject => Commit(Rewritten(Turns(writes), REFUSAL) + [Reply(input, REFUSAL)])
    case NeedsConfirmation(reason) =>
      var summary := Policy.Summarize(writes);
      var ask := Question(reason, summary);
      ParkThenCommit(Parked(writes), summary, Rewritten(Turns(writes), ask) + [Reply(input, ask)])
  }

  function CancelBatch(input: Input): seq<WriteIntent> {
    [Reply(input, CANCELLED)]
  }

  function ConfirmBatch(input: Input, confirmation: Id, stored: seq<WriteIntent>, summary: string): seq<WriteIntent> {
    Replay(confirmation, input.user, stored, Reply(input, DoneText(summary)))
  }

  // ---------------------------------------------------------------- the shape every flushed batch has

  /** All the writes are this user's. */
  predicate Own(ws: seq<WriteIntent>, user: Id) {
    forall w :: w in ws ==> w.user == user
  }

  /** Ledger writes and turns of the sender, then one visible reply under the message's key. */
  predicate EndsWithReply(batch: seq<WriteIntent>, input: Input) {
    && |batch| > 0 && Own(batch, input.user)
    && (forall i :: 0 <= i < |batch| - 1 ==> !batch[i].OutboundReply? && !batch[i].ConsumeConfirmation?)
    && var last := batch[|batch| - 1];
       && last.OutboundReply? && last.phone == input.phone && !Blank(last.content)
       && last.dedupKey == Some(ReplyKey(input.dedupId))
  }

  lemma {:induction false} SplitTurns(tool: seq<WriteIntent>, more: seq<WriteIntent>)
    requires forall w :: w in tool ==> !w.SaveTurn?
    requires forall w :: w in more ==> w.SaveTurn?
    ensures Parked(tool + more) == tool && Turns(tool + more) == more
    decreases |tool|
  {
    if tool == [] {
      assert tool + more == more;
      OnlyTurns(more);
    } else {
      assert tool[0] in tool;
      assert (tool + more)[1..] == tool[1..] + more;
      SplitTurns(tool[1..], more);
    }
  }

  lemma {:induction false} OnlyTurns(ws: seq<WriteIntent>)
    requires forall w :: w in ws ==> w.SaveTurn?
    ensures Parked(ws) == [] && Turns(ws) == ws
  {
    if ws != [] {
      assert ws[0] in ws;
      OnlyTurns(ws[1..]);
    }
  }

  /** What the tools buffered and the two turns come apart again, and only the former is judged. */
  lemma SplitTurn(tool: seq<WriteIntent>, input: Input, reply: string, threshold: int)
    requires forall w :: w in tool ==> !IsBookkeeping(w)
    ensures var writes := WithTurns(tool, input, reply);
            && Parked(writes) == tool && Turns(writes) == ConversationTurns(input, reply) && LedgerPart(writes) == tool
            && Policy.Classify(writes, threshold) == Policy.Classify(tool, threshold)
            && (forall w :: w in writes ==> !w.OutboundReply? && !w.ConsumeConfirmation?)
    ensures forall w :: w in ConversationTurns(input, reply) ==> w.SaveTurn?
  {
    var writes, turns := WithTurns(tool, input, reply), ConversationTurns(input, reply);
    SplitTurns(tool, turns);
    LedgerPartConcat(tool, turns);
    LedgerPartOfLedger(tool);
    LedgerPartOfBookkeeping(turns);
    Policy.VerdictIgnoresBookkeeping(writes, threshold);
    hide Policy.Classify, LedgerPart, Parked, Turns;
  }

  /** Every plan: parking stores exactly what the tools buffered; a batch flushed without a question
      either is that buffer, judged safe, or changes the ledger not at all. */
  lemma PlanMeaning(tool: seq<WriteIntent>, input: Input, reply: string, reaction: string, threshold: Centavos)
    requires threshold > 0 && !Blank(reply)
    requires Own(tool, input.user) && forall w :: w in tool ==> !IsBookkeeping(w)
    ensures var plan := PlanFor(tool, input, reply, reaction, threshold);
            && EndsWithReply(plan.batch, input)
            && Policy.Classify(plan.batch, threshold) == Policy.Safe
            && LedgerPart(plan.batch) == (if Policy.Classify(tool, threshold) == Policy.Safe then tool else [])
            && (plan.ParkThenCommit? <==> Policy.Classify(tool, threshold).NeedsConfirmation?)
            && (plan.ParkThenCommit? ==> plan.stored == tool)
  {
    hide Policy.Classify, LedgerPart, Parked, Turns, Blank, Policy.Summarize, Question, EndsWithReply, Rewritten, Reply;
    var writes, turns := WithTurns(tool, input, reply), ConversationTurns(input, reply);
    SplitTurn(tool, input, reply, threshold);
    match Policy.Classify(writes, threshold)
    case Safe =>
      AppendedIsVisible(reply, reaction);
      SafeBatch(writes, input, reply + reaction, threshold);
    case Reject =>
      FixedTextsAreVisible();
      TurnsBatch(turns, REFUSAL, input, threshold);
    case NeedsConfirmation(reason) =>
      var ask := Question(reason, Policy.Summarize(writes));
      QuestionIsVisible(reason, Policy.Summarize(writes));
      TurnsBatch(turns, ask, input, threshold);
  }

  lemma AppendedIsVisible(s: string, rest: string)
    requires !Blank(s)
    ensures !Blank(s + rest)
  {
    assert forall i :: 0 <= i < |s| ==> (s + rest)[i] == s[i];
  }

  lemma QuestionIsVisible(r: Policy.Reason, summary: string)
    ensures !Blank(Question(r, summary))
  {
    hide ReasonText;
    assert Question(r, summary)[0] == 'b';
  }

  lemma FixedTextsAreVisible()
    ensures !Blank(REFUSAL) && !Blank(CANCELLED)
  {
    assert REFUSAL[0] == 'i' && CANCELLED[0] == 'o';
  }

  /** A turn closed by its reply. */
  lemma SafeBatch(writes: seq<WriteIntent>, input: Input, content: string, threshold: Centavos)
    requires !Blank(content) && Own(writes, input.user)
    requires forall w :: w in writes ==> !w.OutboundReply? && !w.ConsumeConfirmation?
    ensures var batch := writes + [Reply(input, content)];
            && EndsWithReply(batch, input) && LedgerPart(batch) == LedgerPart(writes)
            && Policy.Classify(batch, threshold) == Policy.Classify(writes, threshold)
  {
    hide LedgerPart, Policy.Classify, Blank;
    var reply := Reply(input, content);
    LedgerPartConcat(writes, [reply]);
    LedgerPartOfBookkeeping([reply]);
    Policy.VerdictIgnoresBookkeeping(writes, threshold);
    Policy.VerdictIgnoresBookkeeping(writes + [reply], threshold);
    assert forall i :: 0 <= i < |writes| ==> (writes + [reply])[i] in writes;
  }

  lemma TurnsBatch(turns: seq<WriteIntent>, sent: string, input: Input, threshold: Centavos)
    requires threshold > 0 && !Blank(sent) && Own(turns, input.user) && forall w :: w in turns ==> w.SaveTurn?
    ensures var batch := Rewritten(turns, sent) + [Reply(input, sent)];
            EndsWithReply(batch, input) && LedgerPart(batch) == [] && Policy.Classify(batch, threshold) == Policy.Safe
  {
    hide Rewritten, Blank, LedgerPart, Policy.Classify, Reply, EndsWithReply;
    RewrittenTurns(turns, sent, input.user);
    LedgerPartOfBookkeeping(Rewritten(turns, sent));
    SafeBatch(Rewritten(turns, sent), input, sent, threshold);
    NothingIsSafe(threshold);
    Policy.VerdictIgnoresBookkeeping(Rewritten(turns, sent), threshold);
  }

  lemma NothingIsSafe(threshold: Centavos)
    requires threshold > 0
    ensures Policy.Classify([], threshold) == Policy.Safe && LedgerPart([]) == []
  {
  }

  // ---------------------------------------------------------------- what such a batch does outside the ledger

  /** Outside the ledger a batch that ends with its reply only enqueues that reply. */
  lemma {:induction false} PlainBatchEffects(b: Flush.Confirmations.Book, q: Flush.Outbox.Queue, batch: seq<WriteIntent>,
                                             input: Input, now: Time)
    requires EndsWithReply(batch, input)
    ensures Flush.ConsumeAll(b, batch) == Some(b)
    ensures Flush.EnqueueAll(q, batch, now)
            == Flush.Outbox.Enqueue(q, input.user, input.phone, batch[|batch| - 1].content, Some(ReplyKey(input.dedupId)), now)
    decreases |batch|
  {
    hide Flush.Outbox.Enqueue, Flush.Confirmations.Consume, Blank;
    if |batch| == 1 {
      assert batch[1..] == [];
    } else {
      assert forall w :: w in batch[1..] ==> w in batch;
      PlainBatchEffects(b, q, batch[1..], input, now);
    }
  }

  /** A confirming batch consumes its one confirmation first, then is a plain batch. */
  lemma ConfirmBatchEffects(b: Flush.Confirmations.Book, q: Flush.Outbox.Queue, input: Input, confirmation: Id,
                            stored: seq<WriteIntent>, summary: string, now: Time)
    requires Own(stored, input.user) && forall w :: w in stored ==> !IsBookkeeping(w)
    ensures var batch := ConfirmBatch(input, confirmation, stored, summary);
            && Flush.ConsumeAll(b, batch) == Flush.Confirmations.Consume(b, confirmation, input.user)
            && Flush.EnqueueAll(q, batch, now)
               == Flush.Outbox.Enqueue(q, input.user, input.phone, DoneText(summary), Some(ReplyKey(input.dedupId)), now)
            && LedgerPart(batch) == stored
  {
    hide EndsWithReply, DoneText, Blank, Flush.Outbox.Enqueue, Flush.Confirmations.Consume, LedgerPart, Policy.Classify;
    var tail := stored + [Reply(input, DoneText(summary))];
    var head := [ConsumeConfirmation(input.user, confirmation)];
    assert ConfirmBatch(input, confirmation, stored, summary) == head + tail && (head + tail)[1..] == tail;
    DoneIsVisible(summary);
    SafeBatch(stored, input, DoneText(summary), 1);
    ConfirmingEffects(b, q, tail, input, confirmation, now);
    LedgerPartConcat(head, tail);
    LedgerPartOfBookkeeping(head);
    LedgerPartOfLedger(stored);
  }

  lemma DoneIsVisible(summary: string)
    ensures !Blank(DoneText(summary))
  {
    assert DoneText(summary)[0] == 'd';
  }

  /** A consume in front of a plain batch. */
  lemma ConfirmingEffects(b: Flush.Confirmations.Book, q: Flush.Outbox.Queue, tail: seq<WriteIntent>, input: Input,
                          confirmation: Id, now: Time)
    requires EndsWithReply(tail, input)
    ensures var batch := [ConsumeConfirmation(input.user, confirmation)] + tail;
            && Flush.ConsumeAll(b, batch) == Flush.Confirmations.Consume(b, confirmation, input.user)
            && Flush.EnqueueAll(q, batch, now)
               == Flush.Outbox.Enqueue(q, input.user, input.phone, tail[|tail| - 1].content, Some(ReplyKey(input.dedupId)), now)
  {
    hide EndsWithReply, Flush.Confirmations.Consume, Flush.Outbox.Enqueue;
    assert ([ConsumeConfirmation(input.user, confirmation)] + tail)[1..] == tail;
    PlainBatchEffects(Or(Flush.Confirmations.Consume(b, confirmation, input.user), b), q, tail, input, now);
  }
}

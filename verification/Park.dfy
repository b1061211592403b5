/** Parking a batch and replaying it later does to the ledger what flushing it at once would do. */
module Park {
  import opened Prelude
  import opened Domain
  import opened Ledger

  // ---------------------------------------------------------------- bookkeeping is invisible to the ledger

  /** The writes of a batch that can change the ledger, in order. */
  function LedgerPart(ws: seq<WriteIntent>): seq<WriteIntent> {
    if ws == [] then []
    else (if IsBookkeeping(ws[0]) then [] else [ws[0]]) + LedgerPart(ws[1..])
  }

  lemma {:induction false} BookkeepingIsInvisible(t: Tables, c: Carry, ws: seq<WriteIntent>)
    ensures ApplyAll(t, c, ws) == ApplyAll(t, c, LedgerPart(ws))
    decreases |ws|
  {
    if ws != [] {
      var w, rest := ws[0], LedgerPart(ws[1..]);
      if IsBookkeeping(w) {
        assert Apply(t, c, w) == Ok(t) && Advance(t, c, w) == c;
        assert [] + rest == rest;
        BookkeepingIsInvisible(t, c, ws[1..]);
      } else {
        assert ([w] + rest)[1..] == rest;
        hide Apply;
        var r := Apply(t, c, w);
        if r.Ok? {
          BookkeepingIsInvisible(r.value, Advance(t, c, w), ws[1..]);
        }
      }
    }
  }

  lemma {:induction false} LedgerPartConcat(a: seq<WriteIntent>, b: seq<WriteIntent>)
    ensures LedgerPart(a + b) == LedgerPart(a) + LedgerPart(b)
    decreases |a|
  {
    if a == [] {
      assert a + b == b;
    } else {
      assert (a + b)[1..] == a[1..] + b;
      LedgerPartConcat(a[1..], b);
    }
  }

  lemma {:induction false} LedgerPartOfLedger(ws: seq<WriteIntent>)
    requires forall w :: w in ws ==> !IsBookkeeping(w)
    ensures LedgerPart(ws) == ws
  {
    if ws != [] {
      assert ws[0] in ws;
      LedgerPartOfLedger(ws[1..]);
    }
  }

  lemma {:induction false} LedgerPartOfBookkeeping(ws: seq<WriteIntent>)
    requires forall w :: w in ws ==> IsBookkeeping(w)
    ensures LedgerPart(ws) == []
  {
    if ws != [] {
      assert ws[0] in ws;
      LedgerPartOfBookkeeping(ws[1..]);
    }
  }

  // ---------------------------------------------------------------- the stable partition around conversation turns

  predicate IsTurn(w: WriteIntent) {
    w.SaveTurn?
  }

  function Turns(ws: seq<WriteIntent>): seq<WriteIntent> {
    if ws == [] then [] else (if IsTurn(ws[0]) then [ws[0]] else []) + Turns(ws[1..])
  }

  function Parked(ws: seq<WriteIntent>): seq<WriteIntent> {
    if ws == [] then [] else (if IsTurn(ws[0]) then [] else [ws[0]]) + Parked(ws[1..])
  }

  /** The two halves together are the batch: nothing is lost, duplicated or added. */
  lemma {:induction false} PartitionConserves(ws: seq<WriteIntent>)
    ensures multiset(Parked(ws)) + multiset(Turns(ws)) == multiset(ws)
    ensures forall w :: w in Parked(ws) ==> !IsTurn(w)
    ensures forall w :: w in Turns(ws) ==> IsTurn(w)
  {
    if ws != [] {
      PartitionConserves(ws[1..]);
      assert ws == [ws[0]] + ws[1..];
    }
  }

  /** Taking the turns out leaves exactly the ledger part, in order, when the agent's batch holds no
      other bookkeeping. */
  lemma {:induction false} ParkedIsLedgerPart(ws: seq<WriteIntent>)
    requires forall w :: w in ws && IsBookkeeping(w) ==> IsTurn(w)
    ensures Parked(ws) == LedgerPart(ws)
  {
    if ws != [] {
      assert ws[0] in ws;
      ParkedIsLedgerPart(ws[1..]);
    }
  }

  // ---------------------------------------------------------------- the source message is only a label

  const NO_SOURCE: Option<string> := None

  function ForgetRow(row: TxRow): TxRow {
    row.(source := NO_SOURCE)
  }

  function ForgetTransfer(row: TransferRow): TransferRow {
    row.(source := NO_SOURCE)
  }

  function ForgetEvent(e: LedgerEvent): LedgerEvent {
    e.(source := NO_SOURCE)
  }

  function ForgetEvents(es: seq<LedgerEvent>): seq<LedgerEvent> {
    seq(|es|, i requires 0 <= i < |es| => ForgetEvent(es[i]))
  }

  function ForgetTransfers(rows: seq<TransferRow>): seq<TransferRow> {
    seq(|rows|, i requires 0 <= i < |rows| => ForgetTransfer(rows[i]))
  }

  /** The tables with every `source_message_id` blanked. */
  function Forget(t: Tables): Tables {
    t.(txs := map i | i in t.txs :: ForgetRow(t.txs[i]), transfers := ForgetTransfers(t.transfers),
       events := ForgetEvents(t.events))
  }

  function ForgetResult(r: Result<Tables>): Result<Tables> {
    match r
    case Ok(t) => Ok(Forget(t))
    case Err(e) => Err(e)
  }

  function ForgetCarry(c: Carry): Carry {
    c.(source := NO_SOURCE)
  }

  lemma ForgetRecord(t: Tables, e: LedgerEvent)
    ensures Forget(Record(t, e)) == Record(Forget(t), ForgetEvent(e))
  {
    assert ForgetEvents(t.events + [e]) == ForgetEvents(t.events) + [ForgetEvent(e)];
  }

  lemma ForgetInsertTx(t: Tables, row: TxRow)
    ensures ForgetResult(InsertTx(t, row)) == InsertTx(Forget(t), ForgetRow(row))
  {
    assert Forget(t.(txs := t.txs[t.nextId := row], nextId := t.nextId + 1)).txs
        == Forget(t).txs[t.nextId := ForgetRow(row)];
  }

  lemma ForgetAdjustGoal(t: Tables, user: Id, goal: Id, delta: int)
    ensures ForgetResult(AdjustGoal(t, user, goal, delta)) == AdjustGoal(Forget(t), user, goal, delta)
    ensures forall g :: GoalBalance(t, user, g) == GoalBalance(Forget(t), user, g)
  {
  }

  lemma ForgetLog(t: Tables, source: Option<string>, w: WriteIntent)
    requires w.Transaction?
    ensures ForgetResult(LogTransaction(t, source, w)) == LogTransaction(Forget(t), NO_SOURCE, w)
  {
    var row := TxRow(w.user, w.kind, w.amount, w.category, TruncateOpt(w.note, NOTE_MAX), w.date, None,
                     TruncateOpt(w.account, ACCOUNT_MAX), source);
    hide TruncateOpt;
    ForgetInsertTx(t, row);
    var r := InsertTx(t, row);
    if r.Ok? {
      hide InsertTx, Forget, Record;
      ForgetRecord(r.value, TxCreate(w.user, t.nextId, FullImage(w.kind, w.amount, w.category, w.date, None, None), source));
      ForgetKeepsIds(t);
    }
  }

  lemma ForgetKeepsIds(t: Tables)
    ensures Forget(t).nextId == t.nextId && Forget(t).goals == t.goals && Forget(t).txs.Keys == t.txs.Keys
    ensures forall i :: i in t.txs ==> Forget(t).txs[i] == ForgetRow(t.txs[i])
    ensures Forget(t).budgets == t.budgets && Forget(t).recurring == t.recurring && Forget(t).memories == t.memories
  {
  }

  lemma ForgetContribute(t: Tables, source: Option<string>, w: WriteIntent)
    requires w.GoalContribution?
    ensures ForgetResult(Contribute(t, source, w)) == Contribute(Forget(t), NO_SOURCE, w)
  {
    var row := TxRow(w.user, TxKind.Expense, w.amount, SavingsGoals, None, w.date, Some(w.goal), None, source);
    ForgetInsertTx(t, row);
    ForgetKeepsIds(t);
    hide InsertTx, Forget, Record, AdjustGoal, GoalBalance;
    var r := InsertTx(t, row);
    if r.Ok? {
      ForgetAdjustGoal(r.value, w.user, w.goal, w.amount);
      var u := AdjustGoal(r.value, w.user, w.goal, w.amount);
      if u.Ok? {
        ForgetAdjustGoal(u.value, w.user, w.goal, 0);
        ForgetRecord(u.value, TxCreate(w.user, t.nextId,
                                       FullImage(TxKind.Expense, w.amount, SavingsGoals, w.date, Some(w.goal),
                                                 GoalBalance(u.value, w.user, Some(w.goal))), source));
      }
    }
  }

  lemma ForgetDropTx(t: Tables, id: Id)
    ensures Forget(t.(txs := t.txs - {id})) == Forget(t).(txs := Forget(t).txs - {id})
  {
    assert Forget(t.(txs := t.txs - {id})).txs == Forget(t).txs - {id};
  }

  lemma ForgetSetTx(t: Tables, id: Id, row: TxRow)
    ensures Forget(t.(txs := t.txs[id := row])) == Forget(t).(txs := Forget(t).txs[id := ForgetRow(row)])
  {
    assert Forget(t.(txs := t.txs[id := row])).txs == Forget(t).txs[id := ForgetRow(row)];
  }

  lemma ForgetDelete(t: Tables, user: Id, id: Id, source: Option<string>)
    ensures ForgetResult(DeleteTx(t, user, id, source)) == DeleteTx(Forget(t), user, id, NO_SOURCE)
  {
    hide Forget, Record, AdjustGoal, GoalBalance;
    ForgetKeepsIds(t);
    if id in t.txs && t.txs[id].user == user {
      var row := t.txs[id];
      if row.goal.Some? {
        ForgetAdjustGoal(t, user, row.goal.value, -row.amount);
      }
      var r := if row.goal.Some? then AdjustGoal(t, user, row.goal.value, -row.amount) else Ok(t);
      if r.Ok? {
        var t1 := r.value;
        ForgetAdjustGoal(t1, user, 0, 0);
        ForgetDropTx(t1, id);
        ForgetRecord(t1.(txs := t1.txs - {id}),
                     TxDelete(user, id, FullImage(row.kind, row.amount, row.category, row.date, row.goal,
                                                  GoalBalance(t1, user, row.goal)), source));
      }
    }
  }

  lemma ForgetPatch(row: TxRow, amount: Option<Centavos>, category: Option<Category>, note: Option<string>)
    ensures ForgetRow(PatchTx(row, amount, category, note)) == PatchTx(ForgetRow(row), amount, category, note)
    ensures PatchTx(row, amount, category, note).source == row.source
  {
  }

  lemma ForgetStoreEdit(t: Tables, id: Id, row: TxRow, amount: Option<Centavos>, category: Option<Category>,
                        note: Option<string>, source: Option<string>)
    ensures ForgetResult(StoreEdit(t, id, row, amount, category, note, source))
            == StoreEdit(Forget(t), id, ForgetRow(row), amount, category, note, NO_SOURCE)
  {
    var row' := PatchTx(row, amount, category, note);
    ForgetPatch(row, amount, category, note);
    ForgetAdjustGoal(t, row.user, 0, 0);
    ForgetSetTx(t, id, row');
    hide Forget, Record, GoalBalance, PatchTx;
    ForgetRecord(t.(txs := t.txs[id := row']),
                 TxEdit(row.user, id, EditImage(row.amount, row.category, row.goal),
                        EditImage(row'.amount, row'.category, row.goal),
                        if MovesGoal(row, amount) then GoalBalance(t, row.user, row.goal) else None, source));
  }

  lemma ForgetEdit(t: Tables, user: Id, id: Id, amount: Option<Centavos>, category: Option<Category>,
                   note: Option<string>, source: Option<string>)
    ensures ForgetResult(EditTx(t, user, id, amount, category, note, source))
            == EditTx(Forget(t), user, id, amount, category, note, NO_SOURCE)
  {
    hide Forget, AdjustGoal, StoreEdit;
    ForgetKeepsIds(t);
    if id in t.txs && t.txs[id].user == user {
      var row := t.txs[id];
      if MovesGoal(row, amount) {
        ForgetAdjustGoal(t, user, row.goal.value, amount.value - row.amount);
      }
      var r := Rebalance(t, row, amount);
      if r.Ok? {
        ForgetStoreEdit(r.value, id, row, amount, category, note, source);
      }
    }
  }

  lemma ForgetRemoveGoal(t: Tables, user: Id, goal: Id)
    ensures Forget(RemoveGoal(t, user, goal)) == RemoveGoal(Forget(t), user, goal)
  {
    assert Forget(RemoveGoal(t, user, goal)).txs == RemoveGoal(Forget(t), user, goal).txs;
  }

  lemma ForgetTransferIn(t: Tables, source: Option<string>, w: WriteIntent)
    requires w.Transfer?
    ensures ForgetResult(AddTransfer(t, source, w)) == AddTransfer(Forget(t), NO_SOURCE, w)
  {
    var r := AddTransfer(t, source, w);
    if r.Ok? {
      assert Forget(r.value).transfers == AddTransfer(Forget(t), NO_SOURCE, w).value.transfers;
    }
  }

  /** The writes that never look at a source or at a row that has one. */
  lemma ForgetRest(t: Tables, c: Carry, w: WriteIntent)
    requires !InsertsTransaction(w) && !w.DeleteLast? && !w.EditLast? && !w.DeleteGoal? && !w.Transfer?
    ensures ForgetResult(Apply(t, c, w)) == Apply(Forget(t), ForgetCarry(c), w)
  {
    hide ForgetTransfers, ForgetEvents;
  }

  lemma ForgetApply(t: Tables, c: Carry, w: WriteIntent)
    ensures ForgetResult(Apply(t, c, w)) == Apply(Forget(t), ForgetCarry(c), w)
  {
    match w
    case Transaction(_, _, _, _, _, _, _) => ForgetLog(t, c.source, w);
    case GoalContribution(_, _, _, _) => ForgetContribute(t, c.source, w);
    case DeleteLast(user, _, _) =>
      if Target(c, w).Some? {
        ForgetDelete(t, user, Target(c, w).value, c.source);
      }
    case EditLast(user, _, _, amount, category, note) =>
      if Target(c, w).Some? {
        ForgetEdit(t, user, Target(c, w).value, amount, category, note, c.source);
      }
    case DeleteGoal(user, goal) => ForgetRemoveGoal(t, user, goal);
    case Transfer(_, _, _, _, _, _) => ForgetTransferIn(t, c.source, w);
    case _ => ForgetRest(t, c, w);
  }

  /** Running a batch and then blanking the sources is running it on blanked tables. */
  lemma {:induction false} ForgetCommutes(t: Tables, c: Carry, ws: seq<WriteIntent>)
    ensures match ApplyAll(t, c, ws)
            case Ok(r) => ApplyAll(Forget(t), ForgetCarry(c), ws) == Ok((Forget(r.0), ForgetCarry(r.1)))
            case Err(e) => ApplyAll(Forget(t), ForgetCarry(c), ws) == Err(e)
    decreases |ws|
  {
    if ws != [] {
      ForgetApply(t, c, ws[0]);
      ForgetKeepsIds(t);
      hide Apply, Forget;
      var r := Apply(t, c, ws[0]);
      if r.Ok? {
        ForgetCommutes(r.value, Advance(t, c, ws[0]), ws[1..]);
      }
    }
  }

  // ---------------------------------------------------------------- park, then replay

  /** What the confirming flush runs: consume first, the stored writes, the reply last. */
  function Replay(confirmation: Id, user: Id, stored: seq<WriteIntent>, reply: WriteIntent): seq<WriteIntent> {
    [ConsumeConfirmation(user, confirmation)] + stored + [reply]
  }

  ghost predicate SameUpToSource(a: Result<(Tables, Carry)>, b: Result<(Tables, Carry)>) {
    match (a, b)
    case (Ok(x), Ok(y)) => Forget(x.0) == Forget(y.0) && x.1.last == y.1.last
    case (Err(e), Err(f)) => e == f
    case _ => false
  }

  /** Flushing the batch under its own message, or parking it and flushing the replay under the
      answer's message, gives the same tables and events but for the message they are credited to;
      and one fails exactly when the other does, with the same error. */
  lemma ParkReplayEquivalence(t: Tables, own: Option<string>, answer: Option<string>, ws: seq<WriteIntent>,
                              confirmation: Id, user: Id, reply: WriteIntent, reply': WriteIntent)
    requires forall w :: w in ws && IsBookkeeping(w) ==> IsTurn(w)
    requires reply.OutboundReply? && reply'.OutboundReply?
    ensures SameUpToSource(ApplyAll(t, Carry(None, own), ws + [reply]),
                           ApplyAll(t, Carry(None, answer), Replay(confirmation, user, Parked(ws), reply')))
  {
    hide Apply, Forget;
    var c, c' := Carry(None, own), Carry(None, answer);
    var head := [ConsumeConfirmation(user, confirmation)];
    ParkedIsLedgerPart(ws);
    BookkeepingIsInvisible(t, c, ws + [reply]);
    BookkeepingIsInvisible(t, c', head + Parked(ws) + [reply']);
    LedgerPartConcat(ws, [reply]);
    LedgerPartConcat(head + Parked(ws), [reply']);
    LedgerPartConcat(head, Parked(ws));
    LedgerPartOfBookkeeping([reply]);
    LedgerPartOfBookkeeping([reply']);
    LedgerPartOfBookkeeping(head);
    LedgerPartIsIdempotent(ws);
    assert LedgerPart(ws) + [] == LedgerPart(ws);
    assert LedgerPart(ws + [reply]) == LedgerPart(ws);
    assert LedgerPart(head + Parked(ws) + [reply']) == LedgerPart(ws);
    ForgetCommutes(t, c, LedgerPart(ws));
    ForgetCommutes(t, c', LedgerPart(ws));
  }

  lemma LedgerPartIsIdempotent(ws: seq<WriteIntent>)
    ensures LedgerPart(LedgerPart(ws)) == LedgerPart(ws)
  {
    LedgerPartIsLedger(ws);
    LedgerPartOfLedger(LedgerPart(ws));
  }

  lemma {:induction false} LedgerPartIsLedger(ws: seq<WriteIntent>)
    ensures forall w :: w in LedgerPart(ws) ==> w in ws && !IsBookkeeping(w)
  {
    if ws != [] {
      LedgerPartIsLedger(ws[1..]);
    }
  }

  /** The parking flush itself, turns and the question, leaves the ledger alone. */
  lemma ParkingFlushKeepsLedger(t: Tables, c: Carry, turns: seq<WriteIntent>, ask: WriteIntent)
    requires forall w :: w in turns ==> IsTurn(w)
    requires ask.OutboundReply?
    ensures ApplyAll(t, c, turns + [ask]) == Ok((t, c))
  {
    BookkeepingIsInvisible(t, c, turns + [ask]);
    LedgerPartOfBookkeeping(turns + [ask]);
  }
}

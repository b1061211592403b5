/** The database as the program drives it: tables updated statement by statement. Every method is tied
    to the function that specifies it, so the laws proved of those functions hold of the methods. */
module Database {
  import opened Prelude
  import opened Text
  import opened Domain
  import opened Ledger
  import Goals
  import Inbox
  import Confirmations
  import Outbox
  import Flush
  import Protocol
  import Memory

  /** What one flush keeps in memory between its writes. */
  class FlushState {
    var lastInserted: Option<Id>
    const source: Option<string>

    constructor (source: Option<string>)
      ensures this.source == source && lastInserted == None
    {
      this.source := source;
      lastInserted := None;
    }

    function View(): Carry
      reads this
    {
      Carry(lastInserted, source)
    }
  }

  class Database {
    var txs: map<Id, TxRow>
    var goals: map<Id, GoalRow>
    var budgets: map<(Id, Category), int>
    var recurring: map<Id, RecurringRow>
    var memories: map<Id, Memory.MemoryRow>
    var transfers: seq<TransferRow>
    var events: seq<LedgerEvent>
    var nextId: Id
    var turns: seq<Flush.Turn>
    var processed: Inbox.Markers
    var confirmations: map<Id, Confirmations.Row>
    var nextConfirmation: Id
    var outbox: map<Id, Outbox.OutRow>
    var nextReply: Id

    constructor ()
      ensures View() == Flush.FRESH
    {
      txs, goals, budgets, recurring, memories, transfers, events, nextId := map[], map[], map[], map[], map[], [], [], 0;
      turns, processed, confirmations, nextConfirmation, outbox, nextReply := [], map[], map[], 0, map[], 0;
    }

    function Tables(): Ledger.Tables
      reads this
    {
      Ledger.Tables(txs, goals, budgets, recurring, memories, transfers, events, nextId)
    }

    function View(): Flush.Db
      reads this
    {
      Flush.Db(Tables(), turns, processed, Confirmations.Book(confirmations, nextConfirmation),
               Outbox.Queue(outbox, nextReply))
    }

    // -------------------------------------------------------------- transactions and goals

    /** `update savings_goals … returning saved_centavos` */
    method AddToGoal(user: Id, goal: Id, delta: int) returns (r: Result<Option<int>>)
      modifies this`goals
      ensures match AdjustGoal(old(Tables()), user, goal, delta)
              case Ok(t) => Tables() == t && r == Ok(GoalBalance(t, user, Some(goal)))
              case Err(e) => r == Err(e)
    {
      if goal !in goals || goals[goal].user != user {
        return Ok(None);
      }
      var saved := goals[goal].saved + delta;
      if saved < I64_MIN || saved > I64_MAX {
        return Err(NumericOverflow);
      }
      if saved < 0 {
        return Err(CheckViolation);
      }
      goals := goals[goal := goals[goal].(saved := saved)];
      r := Ok(Some(saved));
    }

    /** `insert into transactions … returning id` */
    method AddTransaction(row: TxRow) returns (r: Result<Id>)
      modifies this`txs, this`nextId
      ensures match InsertTx(old(Tables()), row)
              case Ok(t) => Tables() == t && r == Ok(old(nextId))
              case Err(e) => r == Err(e)
    {
      if row.amount <= 0 || row.amount > MAX_SAFE {
        return Err(CheckViolation);
      }
      if row.goal.Some? && row.goal.value !in goals {
        return Err(ForeignKeyViolation);
      }
      txs := txs[nextId := row];
      r := Ok(nextId);
      nextId := nextId + 1;
    }

    method RecordEvent(e: LedgerEvent)
      modifies this`events
      ensures Tables() == Record(old(Tables()), e)
    {
      events := events + [e];
    }

    method LogEntry(w: WriteIntent, state: FlushState) returns (r: Result<bool>)
      requires w.Transaction?
      modifies this`txs, this`events, this`nextId, state
      ensures match LogTransaction(old(Tables()), state.source, w)
              case Ok(t) => r == Ok(true) && Tables() == t && state.lastInserted == Some(old(nextId))
              case Err(e) => r == Err(e)
    {
      hide TruncateOpt;
      var id :- AddTransaction(TxRow(w.user, w.kind, w.amount, w.category, TruncateOpt(w.note, NOTE_MAX), w.date, None,
                                     TruncateOpt(w.account, ACCOUNT_MAX), state.source));
      state.lastInserted := Some(id);
      RecordEvent(TxCreate(w.user, id, FullImage(w.kind, w.amount, w.category, w.date, None, None), state.source));
      r := Ok(true);
    }

    method ContributeToGoal(w: WriteIntent, state: FlushState) returns (r: Result<bool>)
      requires w.GoalContribution?
      modifies this`txs, this`goals, this`events, this`nextId, state
      ensures match Contribute(old(Tables()), state.source, w)
              case Ok(t) => r == Ok(true) && Tables() == t && state.lastInserted == Some(old(nextId))
              case Err(e) => r == Err(e)
    {
      hide InsertTx, AdjustGoal;
      var id :- AddTransaction(TxRow(w.user, TxKind.Expense, w.amount, SavingsGoals, None, w.date, Some(w.goal), None,
                                     state.source));
      state.lastInserted := Some(id);
      var balance :- AddToGoal(w.user, w.goal, w.amount);
      RecordEvent(TxCreate(w.user, id, FullImage(TxKind.Expense, w.amount, SavingsGoals, w.date, Some(w.goal), balance),
                           state.source));
      r := Ok(true);
    }

    method DeleteTransaction(user: Id, target: Id, source: Option<string>) returns (r: Result<bool>)
      modifies this`txs, this`goals, this`events
      ensures match DeleteTx(old(Tables()), user, target, source)
              case Ok(t) => r == Ok(true) && Tables() == t
              case Err(e) => r == Err(e)
    {
      hide AdjustGoal;
      if target !in txs || txs[target].user != user {
        return Ok(true);
      }
      var row := txs[target];
      var balance: Option<int> := None;
      if row.goal.Some? {
        balance :- AddToGoal(user, row.goal.value, -row.amount);
      }
      txs := txs - {target};
      RecordEvent(TxDelete(user, target, FullImage(row.kind, row.amount, row.category, row.date, row.goal, balance), source));
      r := Ok(true);
    }

    /** The edit's update: amount, category and note, each only if given. */
    method UpdateTransaction(target: Id, row: TxRow, amount: Option<Centavos>, category: Option<Category>,
                             note: Option<string>, balance: Option<int>, source: Option<string>)
      returns (r: Result<bool>)
      requires balance == if MovesGoal(row, amount) then GoalBalance(Tables(), row.user, row.goal) else None
      modifies this`txs, this`events
      ensures match StoreEdit(old(Tables()), target, row, amount, category, note, source)
              case Ok(t) => r == Ok(true) && Tables() == t
              case Err(e) => r == Err(e)
    {
      var effective := if row.goal.None? then category else None;
      if amount.None? && effective.None? && note.None? {
        return Ok(true);
      }
      var updated := row;
      if amount.Some? {
        if amount.value <= 0 || amount.value > MAX_SAFE {
          return Err(CheckViolation);
        }
        updated := updated.(amount := amount.value);
      }
      if effective.Some? {
        updated := updated.(category := effective.value);
      }
      if note.Some? {
        updated := updated.(note := TruncateOpt(note, NOTE_MAX));
      }
      assert updated == PatchTx(row, amount, category, note);
      hide PatchTx, MovesGoal, GoalBalance;
      txs := txs[target := updated];
      RecordEvent(TxEdit(row.user, target, EditImage(row.amount, row.category, row.goal),
                         EditImage(updated.amount, updated.category, row.goal), balance, source));
      r := Ok(true);
    }

    method EditTransaction(user: Id, target: Id, amount: Option<Centavos>, category: Option<Category>,
                           note: Option<string>, source: Option<string>) returns (r: Result<bool>)
      modifies this`txs, this`goals, this`events
      ensures match EditTx(old(Tables()), user, target, amount, category, note, source)
              case Ok(t) => r == Ok(true) && Tables() == t
              case Err(e) => r == Err(e)
    {
      hide AdjustGoal, StoreEdit;
      if target !in txs || txs[target].user != user {
        return Ok(true);
      }
      var row := txs[target];
      var balance: Option<int> := None;
      if row.goal.Some? && amount.Some? && amount.value != row.amount {
        balance :- AddToGoal(user, row.goal.value, amount.value - row.amount);
      }
      r := UpdateTransaction(target, row, amount, category, note, balance, source);
    }

    method CreateGoalRow(w: WriteIntent) returns (r: Result<bool>)
      requires w.CreateGoal?
      modifies this`goals, this`nextId
      ensures match InsertGoal(old(Tables()), w)
              case Ok(t) => r == Ok(true) && Tables() == t
              case Err(e) => r == Err(e)
    {
      var name := Truncate(w.name, NAME_MAX);
      if w.targetCentavos <= 0 || w.targetCentavos > MAX_SAFE {
        return Err(CheckViolation);
      }
      if !(exists g :: g in goals && SameName(goals[g], w.user, name)) {
        goals := goals[nextId := GoalRow(w.user, name, w.targetCentavos, 0, w.targetDate)];
        nextId := nextId + 1;
      }
      r := Ok(true);
    }

    method UpdateGoalRow(w: WriteIntent) returns (r: Result<bool>)
      requires w.EditGoal?
      modifies this`goals
      ensures match PatchGoal(old(Tables()), w)
              case Ok(t) => r == Ok(true) && Tables() == t
              case Err(e) => r == Err(e)
    {
      if w.newName.None? && w.newTarget.None? && w.newTargetDate.None? {
        return Ok(true);
      }
      if w.goal !in goals || goals[w.goal].user != w.user {
        return Ok(true);
      }
      var row := goals[w.goal];
      if w.newName.Some? {
        row := row.(name := Truncate(w.newName.value, NAME_MAX));
      }
      if w.newTarget.Some? {
        if w.newTarget.value <= 0 || w.newTarget.value > MAX_SAFE {
          return Err(CheckViolation);
        }
        row := row.(target := w.newTarget.value);
      }
      if w.newTargetDate.Some? {
        row := row.(targetDate := w.newTargetDate.value);
      }
      if exists g :: g in goals && g != w.goal && SameName(goals[g], w.user, row.name) {
        return Err(UniqueViolation);
      }
      goals := goals[w.goal := row];
      r := Ok(true);
    }

    /** Unlink the user's rows, then delete the goal, which unlinks whatever still points at it. */
    method DeleteGoalRow(user: Id, goal: Id)
      modifies this`txs, this`goals
      ensures Tables() == RemoveGoal(old(Tables()), user, goal)
    {
      var rows := txs;
      txs := map i | i in rows ::
               if rows[i].goal == Some(goal) && rows[i].user == user then rows[i].(goal := None) else rows[i];
      if goal in goals && goals[goal].user == user {
        goals := goals - {goal};
        DropGoalLinks(goal);
      }
      assert txs == RemoveGoal(old(Tables()), user, goal).txs;
    }

    /** `on delete set null` */
    method DropGoalLinks(goal: Id)
      modifies this`txs
      ensures txs == map i | i in old(txs) ::
                       if old(txs)[i].goal == Some(goal) then old(txs)[i].(goal := None) else old(txs)[i]
    {
      var rows := txs;
      txs := map i | i in rows :: if rows[i].goal == Some(goal) then rows[i].(goal := None) else rows[i];
    }

    // -------------------------------------------------------------- budgets, recurring items, transfers, memories

    method SetBudgetRow(user: Id, category: Category, limit: int) returns (r: Result<bool>)
      modifies this`budgets
      ensures match UpsertBudget(old(Tables()), user, category, limit)
              case Ok(t) => r == Ok(true) && Tables() == t
              case Err(e) => r == Err(e)
    {
      if limit <= 0 || limit > MAX_SAFE {
        return Err(CheckViolation);
      }
      budgets := budgets[(user, category) := limit];
      r := Ok(true);
    }

    method AddRecurringItem(user: Id, input: RecurringInput) returns (r: Result<bool>)
      modifies this`recurring, this`nextId
      ensures match UpsertRecurring(old(Tables()), user, input)
              case Ok(t) => r == Ok(true) && Tables() == t
              case Err(e) => r == Err(e)
    {
      var row := RecurringRow(user, Truncate(input.labelText, LABEL_MAX), input.kind, input.amount, input.category,
                              input.cadence, input.dayOfMonth, input.dayOfWeek, None);
      hide RecurringChecks, Truncate;
      if !RecurringChecks(row) {
        return Err(CheckViolation);
      }
      var existing := FindLabel(recurring, user, row.labelText, nextId);
      if existing.Some? {
        var prior := recurring[existing.value];
        recurring := recurring[existing.value := row.(labelText := prior.labelText, lastReminded := prior.lastReminded)];
      } else {
        recurring := recurring[nextId := row];
        nextId := nextId + 1;
      }
      r := Ok(true);
    }

    method RemoveRecurringItem(user: Id, query: string)
      modifies this`recurring
      ensures Tables() == DropRecurring(old(Tables()), user, query)
    {
      hide RecurringTarget;
      var target := RecurringTarget(recurring, user, query, nextId);
      if target.Some? {
        recurring := recurring - {target.value};
      }
    }

    method EditRecurringItem(w: WriteIntent) returns (r: Result<bool>)
      requires w.EditRecurring?
      modifies this`recurring
      ensures match ReviseRecurring(old(Tables()), w)
              case Ok(t) => r == Ok(true) && Tables() == t
              case Err(e) => r == Err(e)
    {
      hide RecurringTarget, RecurringChecks;
      if w.newAmount.None? && w.newCategory.None? && w.newCadence.None? && w.newDayOfMonth.None? && w.newDayOfWeek.None? {
        return Ok(true);
      }
      var target := RecurringTarget(recurring, w.user, w.query, nextId);
      if target.Some? {
        var row := PatchRecurring(recurring[target.value], w);
        if !RecurringChecks(row) {
          return Err(CheckViolation);
        }
        recurring := recurring[target.value := row];
      }
      r := Ok(true);
    }

    method AddTransferRow(w: WriteIntent, source: Option<string>) returns (r: Result<bool>)
      requires w.Transfer?
      modifies this`transfers
      ensures match AddTransfer(old(Tables()), source, w)
              case Ok(t) => r == Ok(true) && Tables() == t
              case Err(e) => r == Err(e)
    {
      hide TruncateOpt;
      if w.amount <= 0 {
        return Err(CheckViolation);
      }
      transfers := transfers + [TransferRow(w.user, w.amount, TruncateOpt(w.fromAccount, ACCOUNT_MAX),
                                            TruncateOpt(w.toAccount, ACCOUNT_MAX), TruncateOpt(w.note, NOTE_MAX), w.date,
                                            source)];
      r := Ok(true);
    }

    function MemoryStore(): Memory.Store
      reads this
    {
      Memory.Store(memories, nextId)
    }

    /** save_memory_in_tx */
    method RememberFact(user: Id, content: string, kind: Memory.MemoryKind)
      modifies this`memories, this`nextId
      ensures MemoryStore() == old(MemoryStore()).Save(user, content, kind)
    {
      hide Memory.NormalizeContent, Memory.CompactContent, Trim;
      var trimmed := Truncate(Trim(content), Memory.CONTENT_MAX);
      if trimmed == "" {
        return;
      }
      var compact := Memory.CompactContent(trimmed);
      if compact == "" {
        return;
      }
      var existing := Memory.FindSame(memories, user, Memory.NormalizeContent(trimmed), compact, nextId);
      if existing.Some? {
        if Memory.ShouldPromote(memories[existing.value].kind, kind) {
          memories := memories[existing.value := memories[existing.value].(kind := kind)];
        }
        return;
      }
      memories := memories[nextId := Memory.MemoryRow(user, trimmed, kind)];
      nextId := nextId + 1;
    }

    /** forget_memory_in_tx: an equal fact first, else one that contains the query. */
    method ForgetFact(user: Id, query: string)
      modifies this`memories
      ensures MemoryStore() == old(MemoryStore()).Forget(user, query)
    {
      hide Memory.NormalizeContent, Memory.CompactContent, Trim;
      var q := Trim(query);
      if q == "" {
        return;
      }
      var normalized, compact := Memory.NormalizeContent(q), Memory.CompactContent(q);
      if compact == "" {
        return;
      }
      var target := Memory.FindSame(memories, user, normalized, compact, nextId);
      if target.None? {
        target := Memory.FindLike(memories, user, normalized, compact, nextId);
      }
      if target.Some? {
        memories := memories - {target.value};
      }
    }

    // -------------------------------------------------------------- replies and confirmations

    /** save_outbound_reply_in_tx */
    method SaveReply(user: Id, phone: string, content: string, dedupKey: Option<string>, now: Time)
      modifies this`outbox, this`nextReply
      ensures Outbox.Queue(outbox, nextReply)
              == Outbox.Enqueue(Outbox.Queue(old(outbox), old(nextReply)), user, phone, content, dedupKey, now)
    {
      hide Trim, Truncate;
      TrimIsEmptyIff(content);
      TrimIsEmptyIff(phone);
      if Trim(content) == "" || Trim(phone) == "" {
        return;
      }
      var key := Outbox.NormalKey(dedupKey);
      var content', phone' := Truncate(Trim(content), Outbox.CONTENT_MAX), Truncate(Trim(phone), Outbox.PHONE_MAX);
      var existing := None;
      if key.Some? {
        existing := Outbox.FindKey(outbox, key.value, nextReply);
      }
      if existing.Some? {
        var row := outbox[existing.value].(phone := phone', content := content', updatedAt := now);
        if row.status != Outbox.Sent {
          row := row.(status := Outbox.Queued, nextAttemptAt := now);
        }
        outbox := outbox[existing.value := row];
      } else {
        outbox := outbox[nextReply := Outbox.OutRow(user, phone', content', key, Outbox.Queued, 0, now, now, None)];
        nextReply := nextReply + 1;
      }
    }

    /** consume_confirmation_in_tx */
    method ConsumeConfirmationRow(id: Id, user: Id) returns (consumed: bool)
      modifies this`confirmations
      ensures match Confirmations.Consume(old(View()).confirmations, id, user)
              case Some(book) => consumed && View() == old(View()).(confirmations := book)
              case None => !consumed && View() == old(View())
    {
      consumed := id in confirmations && confirmations[id].user == user && confirmations[id].status == Confirmations.Pending;
      if consumed {
        confirmations := confirmations[id := confirmations[id].(status := Confirmations.Consumed)];
      }
    }

    // -------------------------------------------------------------- one write

    /** The writes that insert or correct a transaction, and so use or set the flush's memory. */
    method ApplyEntry(w: WriteIntent, state: FlushState) returns (r: Result<bool>)
      requires InsertsTransaction(w) || w.DeleteLast? || w.EditLast?
      modifies this`txs, this`goals, this`events, this`nextId, state
      ensures match Apply(old(Tables()), old(state.View()), w)
              case Ok(t) => r == Ok(true) && Tables() == t && state.View() == Advance(old(Tables()), old(state.View()), w)
              case Err(e) => r == Err(e)
    {
      hide LogTransaction, Contribute, DeleteTx, EditTx;
      match w
      case Transaction(_, _, _, _, _, _, _) =>
        r := LogEntry(w, state);
      case GoalContribution(_, _, _, _) =>
        r := ContributeToGoal(w, state);
      case DeleteLast(user, target, sameTurn) =>
        var id := if sameTurn then state.lastInserted else target;
        r := Ok(true);
        if id.Some? {
          r := DeleteTransaction(user, id.value, state.source);
          if r.Ok? && sameTurn {
            state.lastInserted := None;
          }
        }
      case EditLast(user, target, sameTurn, amount, category, note) =>
        var id := if sameTurn then state.lastInserted else target;
        r := Ok(true);
        if id.Some? {
          r := EditTransaction(user, id.value, amount, category, note, state.source);
        }
    }

    method ApplyRecurring(w: WriteIntent) returns (r: Result<bool>)
      requires w.AddRecurring? || w.RemoveRecurring? || w.EditRecurring?
      modifies this`recurring, this`nextId
      ensures forall c: Carry ::
                match Apply(old(Tables()), c, w)
                case Ok(t) => r == Ok(true) && Tables() == t
                case Err(e) => r == Err(e)
    {
      hide UpsertRecurring, DropRecurring, ReviseRecurring;
      if w.AddRecurring? {
        r := AddRecurringItem(w.user, w.recurring);
      } else if w.RemoveRecurring? {
        RemoveRecurringItem(w.user, w.query);
        r := Ok(true);
      } else {
        r := EditRecurringItem(w);
      }
    }

    method ApplyGoal(w: WriteIntent) returns (r: Result<bool>)
      requires w.CreateGoal? || w.EditGoal? || w.DeleteGoal?
      modifies this`txs, this`goals, this`nextId
      ensures forall c: Carry ::
                match Apply(old(Tables()), c, w)
                case Ok(t) => r == Ok(true) && Tables() == t
                case Err(e) => r == Err(e)
    {
      hide InsertGoal, PatchGoal, RemoveGoal;
      if w.CreateGoal? {
        r := CreateGoalRow(w);
      } else if w.EditGoal? {
        r := UpdateGoalRow(w);
      } else {
        DeleteGoalRow(w.user, w.goal);
        r := Ok(true);
      }
    }

    method ApplyMemory(w: WriteIntent)
      requires w.SaveMemory? || w.ForgetMemory?
      modifies this`memories, this`nextId
      ensures forall c: Carry :: Apply(old(Tables()), c, w) == Ok(Tables())
    {
      if w.SaveMemory? {
        RememberFact(w.user, w.content, w.memoryKind);
      } else {
        ForgetFact(w.user, w.query);
      }
    }

    /** The writes to the other tables of the ledger. */
    method ApplyOther(w: WriteIntent, source: Option<string>) returns (r: Result<bool>)
      requires !InsertsTransaction(w) && !w.DeleteLast? && !w.EditLast? && !IsBookkeeping(w)
      modifies this`txs, this`goals, this`budgets, this`recurring, this`memories, this`transfers, this`nextId
      ensures forall c: Carry :: c.source == source ==>
                match Apply(old(Tables()), c, w)
                case Ok(t) => r == Ok(true) && Tables() == t
                case Err(e) => r == Err(e)
    {
      hide UpsertBudget, AddTransfer;
      r := Ok(true);
      if w.CreateGoal? || w.EditGoal? || w.DeleteGoal? {
        r := ApplyGoal(w);
      } else if w.AddRecurring? || w.RemoveRecurring? || w.EditRecurring? {
        r := ApplyRecurring(w);
      } else if w.SaveMemory? || w.ForgetMemory? {
        ApplyMemory(w);
      } else {
        match w
        case SetBudget(user, category, limit) => r := SetBudgetRow(user, category, limit);
        case RemoveBudget(user, category) => budgets := budgets - {(user, category)};
        case Transfer(_, _, _, _, _, _) => r := AddTransferRow(w, source);
      }
    }

    /** The writes that never touch the ledger. */
    method ApplyBookkeeping(w: WriteIntent, now: Time) returns (r: Result<bool>)
      requires IsBookkeeping(w)
      modifies this`turns, this`outbox, this`nextReply, this`confirmations
      ensures forall c: Carry ::
                match Flush.Perform(old(View()), c, w, now)
                case Going(db, c1) => r == Ok(true) && View() == db && c1 == c
                case Gone => r == Ok(false)
                case Broken(e) => r == Err(e)
    {
      hide Apply, Outbox.Enqueue, Confirmations.Consume, Truncate;
      if w.SaveTurn? {
        turns := turns + [Flush.Turn(w.user, w.role, Truncate(w.content, Flush.TURN_MAX))];
        r := Ok(true);
      } else if w.OutboundReply? {
        SaveReply(w.user, w.phone, w.content, w.dedupKey, now);
        r := Ok(true);
      } else {
        var consumed := ConsumeConfirmationRow(w.confirmation, w.user);
        r := Ok(consumed);
      }
    }

    /** apply_write_intent: false only for a confirmation that is no longer pending. */
    method ApplyWriteIntent(w: WriteIntent, state: FlushState, now: Time) returns (r: Result<bool>)
      modifies this, state
      ensures match Flush.Perform(old(View()), old(state.View()), w, now)
              case Going(db, c) => r == Ok(true) && View() == db && state.View() == c
              case Gone => r == Ok(false)
              case Broken(e) => r == Err(e)
    {
      hide Apply, Advance, Outbox.Enqueue, Confirmations.Consume, Truncate;
      if IsBookkeeping(w) {
        r := ApplyBookkeeping(w, now);
      } else if InsertsTransaction(w) || w.DeleteLast? || w.EditLast? {
        r := ApplyEntry(w, state);
      } else {
        assert Advance(Tables(), state.View(), w) == state.View() by {
          OthersAdvanceNothing(Tables(), state.View(), w);
        }
        r := ApplyOther(w, state.source);
      }
    }

    lemma OthersAdvanceNothing(t: Ledger.Tables, c: Carry, w: WriteIntent)
      requires !InsertsTransaction(w) && !w.DeleteLast?
      ensures Advance(t, c, w) == c
    {
    }

    // -------------------------------------------------------------- the flush

    method RestoreTables(t: Ledger.Tables)
      modifies this`txs, this`goals, this`budgets, this`recurring, this`memories, this`transfers, this`events, this`nextId
      ensures Tables() == t
    {
      txs, goals, budgets, recurring := t.txs, t.goals, t.budgets, t.recurring;
      memories, transfers, events, nextId := t.memories, t.transfers, t.events, t.nextId;
    }

    method Rollback(saved: Flush.Db)
      modifies this
      ensures View() == saved
    {
      turns, processed := saved.turns, saved.claims;
      confirmations, nextConfirmation := saved.confirmations.rows, saved.confirmations.nextId;
      outbox, nextReply := saved.outbox.rows, saved.outbox.nextId;
      RestoreTables(saved.ledger);
    }

    /** flush_writes: every write and the completion marker, or the database exactly as it was. */
    method FlushWrites(mid: Option<string>, intents: seq<WriteIntent>, now: Time) returns (outcome: Flush.Outcome)
      modifies this
      ensures (View(), outcome) == Flush.FlushWrites(old(View()), mid, intents, now)
    {
      var saved := View();
      var state := new FlushState(mid);
      assert intents[0..] == intents;
      for i := 0 to |intents|
        invariant Flush.PerformAll(saved, Carry(None, mid), intents, now)
               == Flush.PerformAll(View(), state.View(), intents[i..], now)
        invariant fresh(state)
      {
        assert intents[i..][0] == intents[i] && intents[i..][1..] == intents[i + 1..];
        hide Flush.Perform;
        var r := ApplyWriteIntent(intents[i], state, now);
        if r.Err? {
          Rollback(saved);
          return Flush.Failed(r.error);
        }
        if !r.value {
          Rollback(saved);
          return Flush.Superseded;
        }
      }
      if mid.Some? {
        if mid.value in processed && processed[mid.value].Completed? {
          Rollback(saved);
          return Flush.Superseded;
        }
        processed := processed[mid.value := Inbox.Completed(now)];
      }
      outcome := Flush.Committed;
    }

    // -------------------------------------------------------------- statements outside a flush

    method ClaimSlot(mid: string, now: Time) returns (process: bool)
      modifies this`processed
      ensures View() == old(View()).(claims := Inbox.ClaimSlot(old(processed), mid, now).0)
      ensures process == Inbox.ClaimSlot(old(processed), mid, now).1
    {
      process := mid !in processed || (processed[mid].Claimed? && processed[mid].at <= now - Inbox.CLAIM_TTL);
      if process {
        processed := processed[mid := Inbox.Claimed(now)];
      }
    }

    method SavePendingConfirmation(user: Id, phone: string, source: Option<string>, summary: string,
                                   payload: seq<WriteIntent>, expiresAt: Time)
      modifies this`confirmations, this`nextConfirmation
      ensures View() == old(View()).(confirmations :=
                Confirmations.Save(old(View()).confirmations, user, phone, source, summary, payload, expiresAt))
    {
      hide Trim, Truncate;
      if source.Some? && exists i :: i in confirmations && confirmations[i].source == source {
        return;
      }
      confirmations := confirmations[nextConfirmation :=
        Confirmations.Row(user, Truncate(Trim(phone), Confirmations.PHONE_MAX), source,
                          Truncate(Trim(summary), Confirmations.SUMMARY_MAX), payload, Confirmations.Pending, expiresAt)];
      nextConfirmation := nextConfirmation + 1;
    }

    method CancelPendingConfirmations(user: Id)
      modifies this`confirmations
      ensures View() == old(View()).(confirmations := Confirmations.Cancel(old(View()).confirmations, user))
    {
      var before := confirmations;
      confirmations := map i | i in before ::
                         if before[i].user == user && before[i].status == Confirmations.Pending
                         then before[i].(status := Confirmations.Cancelled) else before[i];
      assert confirmations == Confirmations.Cancel(old(View()).confirmations, user).rows;
    }

    method ReapPendingConfirmations(now: Time)
      modifies this`confirmations
      ensures View() == old(View()).(confirmations := Confirmations.Reap(old(View()).confirmations, now))
    {
      var before := confirmations;
      confirmations := map i | i in before && before[i].status == Confirmations.Pending && before[i].expiresAt >= now :: before[i];
      assert confirmations == Confirmations.Reap(old(View()).confirmations, now).rows;
    }

    method ReapProcessedMessages(now: Time)
      modifies this`processed
      ensures View() == old(View()).(claims := Inbox.Reap(old(processed), now))
    {
      var before := processed;
      processed := map mid | mid in before && !Inbox.Reapable(before[mid], now) :: before[mid];
      assert processed == Inbox.Reap(before, now);
    }

    /** reconcile_goal_balances: the number of goals repaired. */
    method ReconcileGoalBalances(user: Id) returns (r: Result<nat>)
      modifies this`goals
      ensures match Goals.Reconcile(old(Tables()), user)
              case Ok(fixed) => View() == old(View()).(ledger := fixed.0) && r == Ok(fixed.1)
              case Err(e) => View() == old(View()) && r == Err(e)
    {
      var before := Tables();
      var drifted := Goals.DriftedGoals(before, user);
      hide Goals.LinkedSum, Goals.DriftedGoals;
      if exists g :: g in drifted && Goals.LinkedSum(txs, g, nextId) > I64_MAX {
        return Err(NumericOverflow);
      }
      if exists g :: g in drifted && Goals.LinkedSum(txs, g, nextId) < 0 {
        return Err(CheckViolation);
      }
      goals := map g | g in before.goals ::
                 if g in drifted then before.goals[g].(saved := Goals.LinkedSum(before.txs, g, before.nextId))
                 else before.goals[g];
      assert goals == Goals.Reconcile(before, user).value.0.goals;
      r := Ok(|drifted|);
    }

    method ClaimReminder(item: Id, user: Id, today: Day) returns (claimed: bool)
      modifies this`recurring
      ensures View() == old(View()).(ledger := Protocol.ClaimReminder(old(Tables()), item, user, today))
      ensures claimed <==> item in old(recurring) && old(recurring)[item].user == user
                           && old(recurring)[item].lastReminded != Some(today)
    {
      claimed := item in recurring && recurring[item].user == user && recurring[item].lastReminded != Some(today);
      if claimed {
        recurring := recurring[item := recurring[item].(lastReminded := Some(today))];
      }
    }

    // -------------------------------------------------------------- the outbound queue

    function Replies(): Outbox.Queue
      reads this
    {
      Outbox.Queue(outbox, nextReply)
    }

    method ClaimReplyByKey(key: string, now: Time) returns (claimed: Option<Id>)
      modifies this`outbox
      ensures View() == old(View()).(outbox := Outbox.Step(old(Replies()), Outbox.ClaimKey(key, now)))
      ensures claimed == Outbox.KeyTarget(old(Replies()), key, now)
    {
      hide Outbox.NormalKey;
      claimed := Outbox.KeyTarget(Replies(), key, now);
      var before := outbox;
      if claimed.Some? {
        var row := outbox[claimed.value];
        outbox := outbox[claimed.value := row.(status := Outbox.Sending, attempts := row.attempts + 1, updatedAt := now)];
      }
      assert outbox == Outbox.ClaimRows(before, Outbox.Targets(old(Replies()), Outbox.ClaimKey(key, now)), now);
    }

    /** claim_due_outbound_messages, row after row, oldest first. */
    method ClaimDueReplies(at: Time, limit: int, now: Time) returns (claimed: seq<Id>)
      modifies this`outbox
      ensures View() == old(View()).(outbox := Outbox.Step(old(Replies()), Outbox.ClaimDue(at, limit, now)))
      ensures claimed == Outbox.DueTargets(old(Replies()), at, limit)
    {
      claimed := Outbox.DueTargets(Replies(), at, limit);
      var before := outbox;
      DueAreDistinct(Replies(), at, limit);
      assert Outbox.ClaimRows(before, claimed[..0], now) == before;
      for k := 0 to |claimed|
        invariant outbox == Outbox.ClaimRows(before, claimed[..k], now)
      {
        assert claimed[k] in claimed;
        ClaimOneMore(before, claimed, k, now);
        outbox := outbox[claimed[k] := Outbox.ClaimRow(outbox[claimed[k]], now)];
      }
      assert claimed[..|claimed|] == claimed;
    }

    lemma ClaimOneMore(rows: map<Id, Outbox.OutRow>, ids: seq<Id>, k: nat, now: Time)
      requires k < |ids| && ids[k] in rows && forall i, j :: 0 <= i < j < |ids| ==> ids[i] < ids[j]
      ensures var some := Outbox.ClaimRows(rows, ids[..k], now);
              && some[ids[k]] == rows[ids[k]]
              && Outbox.ClaimRows(rows, ids[..k + 1], now) == some[ids[k] := Outbox.ClaimRow(rows[ids[k]], now)]
    {
      var id := ids[k];
      assert ids[..k + 1] == ids[..k] + [id];
      assert id !in ids[..k];
      hide Outbox.ClaimRow;
    }

    lemma DueAreDistinct(q: Outbox.Queue, at: Time, limit: int)
      ensures var r := Outbox.DueTargets(q, at, limit); forall j, k :: 0 <= j < k < |r| ==> r[j] < r[k]
    {
    }

    method MarkReplySent(id: Id, now: Time)
      modifies this`outbox
      ensures View() == old(View()).(outbox := Outbox.Step(old(Replies()), Outbox.MarkSent(id, now)))
    {
      if id in outbox {
        outbox := outbox[id := outbox[id].(status := Outbox.Sent, updatedAt := now)];
      }
    }

    method MarkReplyFailed(id: Id, retryable: bool, now: Time)
      modifies this`outbox
      ensures View() == old(View()).(outbox := Outbox.Step(old(Replies()), Outbox.MarkFailed(id, retryable, now)))
    {
      if id in outbox && outbox[id].status == Outbox.Sending {
        var row := outbox[id].(updatedAt := now);
        if retryable && row.attempts < Outbox.MAX_ATTEMPTS {
          var wait := Outbox.BackoffSeconds(row.attempts) * Outbox.SECOND;
          row := row.(status := Outbox.Queued, nextAttemptAt := now + wait);
        } else {
          row := row.(status := Outbox.Failed, deadLetteredAt := Some(now));
        }
        outbox := outbox[id := row];
      }
    }
  }
}

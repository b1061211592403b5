/** The ledger's own constraints: every CHECK, length limit and unique index of its tables holds after
    every batch, so no statement ever meets a stored row that violates one. */
module Constraints {
  import opened Prelude
  import opened Text
  import opened Domain
  import opened Ledger
  import opened Evolution
  import opened SameTurn
  import Memory

  predicate ShortOpt(s: Option<string>, max: nat) {
    s.Some? ==> |s.value| <= max
  }

  predicate TxOk(row: TxRow) {
    SafeAmount(row.amount) && ShortOpt(row.note, NOTE_MAX) && ShortOpt(row.account, ACCOUNT_MAX)
  }

  predicate GoalOk(row: GoalRow) {
    SafeAmount(row.target) && |row.name| <= NAME_MAX
  }

  predicate RecurringOk(row: RecurringRow) {
    RecurringChecks(row) && |row.labelText| <= LABEL_MAX
  }

  predicate TransferOk(row: TransferRow) {
    && row.amount > 0 && ShortOpt(row.note, NOTE_MAX)
    && ShortOpt(row.fromAccount, ACCOUNT_MAX) && ShortOpt(row.toAccount, ACCOUNT_MAX)
  }

  ghost predicate TxsOk(t: Tables) {
    forall i :: i in t.txs ==> TxOk(t.txs[i])
  }

  /** Goal names of a user are distinct whatever their case. */
  ghost predicate GoalsOk(t: Tables) {
    && (forall g :: g in t.goals ==> GoalOk(t.goals[g]))
    && (forall g, h :: g in t.goals && h in t.goals && g != h ==>
          !SameName(t.goals[g], t.goals[h].user, t.goals[h].name))
  }

  /** So are the labels of a user's recurring items. */
  ghost predicate BillsOk(t: Tables) {
    && (forall i :: i in t.recurring ==> RecurringOk(t.recurring[i]))
    && (forall i, j :: i in t.recurring && j in t.recurring && i != j ==>
          !SameLabel(t.recurring[i], t.recurring[j].user, t.recurring[j].labelText))
  }

  ghost predicate RestOk(t: Tables) {
    && (forall k :: k in t.budgets ==> SafeAmount(t.budgets[k]))
    && (forall i :: 0 <= i < |t.transfers| ==> TransferOk(t.transfers[i]))
  }

  ghost predicate FactsOk(t: Tables) {
    forall i :: i in t.memories ==> |t.memories[i].content| <= Memory.CONTENT_MAX
  }

  ghost predicate Hold(t: Tables) {
    TxsOk(t) && GoalsOk(t) && BillsOk(t) && RestOk(t) && FactsOk(t)
  }

  // ---------------------------------------------------------------- transactions

  lemma PatchIsOk(row: TxRow, amount: Option<Centavos>, category: Option<Category>, note: Option<string>)
    requires TxOk(row) && (amount.Some? ==> SafeAmount(amount.value))
    ensures TxOk(PatchTx(row, amount, category, note))
  {
  }

  lemma EditChecksItsAmount(t: Tables, user: Id, id: Id, amount: Option<Centavos>, category: Option<Category>,
                            note: Option<string>, source: Option<string>)
    requires EditTx(t, user, id, amount, category, note, source).Ok? && id in t.txs && t.txs[id].user == user
    ensures amount.Some? ==> SafeAmount(amount.value)
  {
    hide AdjustGoal, PatchTx, Record, GoalBalance;
  }

  lemma CorrectionsKeepTxs(t: Tables, c: Carry, w: WriteIntent)
    requires TxsOk(t) && (w.EditLast? || w.DeleteLast?)
    ensures var r := Apply(t, c, w); r.Ok? ==> TxsOk(r.Or(t))
  {
    var id := Target(c, w);
    if id.Some? && Apply(t, c, w).Ok? {
      if w.DeleteLast? {
        DeleteTxShape(t, w.user, id.value, c.source);
      } else {
        EditTxShape(t, w.user, id.value, w.newAmount, w.newCategory, w.newNote, c.source);
        if id.value in t.txs && t.txs[id.value].user == w.user {
          EditChecksItsAmount(t, w.user, id.value, w.newAmount, w.newCategory, w.newNote, c.source);
          PatchIsOk(t.txs[id.value], w.newAmount, w.newCategory, w.newNote);
        }
      }
    }
  }

  lemma ApplyKeepsTxs(t: Tables, c: Carry, w: WriteIntent)
    requires Bounded(t) && TxsOk(t)
    ensures var r := Apply(t, c, w); r.Ok? ==> TxsOk(r.Or(t))
  {
    if w.EditLast? || w.DeleteLast? {
      CorrectionsKeepTxs(t, c, w);
    } else if w.GoalContribution? {
      if Apply(t, c, w).Ok? {
        ContributedRow(t, c.source, w);
      }
    } else if !MovesMoney(w) {
      OthersFrame(t, c, w);
    }
  }

  // ---------------------------------------------------------------- goals

  lemma MoneyKeepsGoalNames(t: Tables, c: Carry, w: WriteIntent)
    requires InsertsTransaction(w) || w.EditLast? || w.DeleteLast?
    ensures var r := Apply(t, c, w);
            r.Ok? ==> && r.value.goals.Keys == t.goals.Keys
                      && forall g :: g in t.goals ==> r.value.goals[g] == t.goals[g].(saved := r.value.goals[g].saved)
  {
    hide EditTx, DeleteTx, LogTransaction, Contribute;
    if InsertsTransaction(w) {
      if Apply(t, c, w).Ok? {
        InsertShape(t, c, w);
      }
    } else if Target(c, w).Some? {
      if w.DeleteLast? {
        DeleteTxShape(t, w.user, Target(c, w).value, c.source);
      } else {
        EditTxShape(t, w.user, Target(c, w).value, w.newAmount, w.newCategory, w.newNote, c.source);
      }
    }
  }

  lemma ApplyKeepsGoals(t: Tables, c: Carry, w: WriteIntent)
    requires Bounded(t) && GoalsOk(t)
    ensures var r := Apply(t, c, w); r.Ok? ==> GoalsOk(r.Or(t))
  {
    if !MovesMoney(w) {
      OthersFrame(t, c, w);
    } else if w.CreateGoal? || w.EditGoal? || w.DeleteGoal? {
      GoalWritesKeepGoals(t, c, w);
    } else {
      MoneyKeepsGoalNames(t, c, w);
      hide Apply;
    }
  }

  lemma GoalWritesKeepGoals(t: Tables, c: Carry, w: WriteIntent)
    requires Bounded(t) && GoalsOk(t) && (w.CreateGoal? || w.EditGoal? || w.DeleteGoal?)
    ensures var r := Apply(t, c, w); r.Ok? ==> GoalsOk(r.Or(t))
  {
    hide Lower;
  }

  // ---------------------------------------------------------------- recurring items, and the rest

  lemma UpsertKeepsBills(t: Tables, user: Id, r: RecurringInput)
    requires Bounded(t) && BillsOk(t)
    ensures var u := UpsertRecurring(t, user, r); u.Ok? ==> BillsOk(u.value)
  {
    hide Lower, SafeAmount;
    var text := Truncate(r.labelText, LABEL_MAX);
    var existing := FindLabel(t.recurring, user, text, t.nextId);
    hide FindLabel;
    assert existing.Some? ==> SameLabel(t.recurring[existing.value], user, text);
  }

  lemma OtherBillWritesKeepBills(t: Tables, c: Carry, w: WriteIntent)
    requires Bounded(t) && BillsOk(t) && (w.RemoveRecurring? || w.EditRecurring?)
    ensures var r := Apply(t, c, w); r.Ok? ==> BillsOk(r.Or(t))
  {
    hide Lower, RecurringChecks, RecurringTarget;
  }

  /** What the writes that are not about them leave alone. */
  lemma OthersKeepRest(t: Tables, c: Carry, w: WriteIntent)
    requires Bounded(t) && !(w.AddRecurring? || w.RemoveRecurring? || w.EditRecurring?)
    ensures var r := Apply(t, c, w);
            r.Ok? ==> && r.Or(t).recurring == t.recurring
                      && (!w.SetBudget? && !w.RemoveBudget? ==> r.Or(t).budgets == t.budgets)
                      && (!w.Transfer? ==> r.Or(t).transfers == t.transfers)
  {
    if w.EditLast? || w.DeleteLast? {
      if Target(c, w).Some? {
        if w.DeleteLast? {
          DeleteTxShape(t, w.user, Target(c, w).value, c.source);
        } else {
          EditTxShape(t, w.user, Target(c, w).value, w.newAmount, w.newCategory, w.newNote, c.source);
        }
      }
    } else if w.GoalContribution? {
      ContributeShape(t, c.source, w);
    }
  }

  lemma ApplyKeepsRest(t: Tables, c: Carry, w: WriteIntent)
    requires Bounded(t) && BillsOk(t) && RestOk(t)
    ensures var r := Apply(t, c, w); r.Ok? ==> BillsOk(r.Or(t)) && RestOk(r.Or(t))
  {
    if w.AddRecurring? || w.RemoveRecurring? || w.EditRecurring? {
      RecurringFrame(t, c, w);
      if w.AddRecurring? {
        UpsertKeepsBills(t, w.user, w.recurring);
      } else {
        OtherBillWritesKeepBills(t, c, w);
      }
      hide BillsOk;
    } else {
      OthersKeepRest(t, c, w);
      hide BillsOk;
    }
  }

  lemma ApplyKeepsFacts(t: Tables, c: Carry, w: WriteIntent)
    requires Bounded(t) && FactsOk(t)
    ensures var r := Apply(t, c, w); r.Ok? ==> FactsOk(r.Or(t))
  {
    if w.SaveMemory? {
      Memory.SavedRowsFit(Memory.Store(t.memories, t.nextId), w.user, w.content, w.memoryKind);
    } else if w.ForgetMemory? {
      Memory.KeptRowsFit(Memory.Store(t.memories, t.nextId), w.user, w.query);
    } else {
      hide Apply;
      OthersKeepMemories(t, c, w);
    }
  }

  /** Every batch of any writes keeps every constraint. */
  lemma {:induction false} BatchKeepsConstraints(t: Tables, c: Carry, ws: seq<WriteIntent>)
    requires Bounded(t) && Hold(t)
    ensures var r := ApplyAll(t, c, ws); r.Ok? ==> Hold(r.Or((t, c)).0)
    decreases |ws|
  {
    hide Apply, TxsOk, GoalsOk, BillsOk, RestOk, FactsOk;
    if ws != [] {
      var w := ws[0];
      ApplyEvolves(t, c, w);
      ApplyKeepsTxs(t, c, w);
      ApplyKeepsGoals(t, c, w);
      ApplyKeepsRest(t, c, w);
      ApplyKeepsFacts(t, c, w);
      var r := Apply(t, c, w);
      if r.Ok? {
        BatchKeepsConstraints(r.value, Advance(t, c, w), ws[1..]);
      }
    }
  }
}

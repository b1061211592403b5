/** What every write keeps: ids are never reused, identities never change, the log only grows, and
    only the destructive writes ever remove a row. */
module Evolution {
  import opened Prelude
  import opened Domain
  import opened Text
  import opened Ledger
  import Memory

  ghost predicate Bounded(t: Tables) {
    && (forall i :: i in t.txs ==> i < t.nextId)
    && (forall i :: i in t.goals ==> i < t.nextId)
    && (forall i :: i in t.recurring ==> i < t.nextId)
    && (forall i :: i in t.memories ==> i < t.nextId)
  }

  /** `u` can be reached from `t` by writes: whatever an old id names now, it already named, with
      the same owner, kind and date; a goal link can only be cut. */
  ghost predicate Evolves(t: Tables, u: Tables) {
    && t.nextId <= u.nextId
    && t.events <= u.events
    && (forall g :: g in u.goals && g < t.nextId ==> g in t.goals && u.goals[g].user == t.goals[g].user)
    && (forall i :: i in u.txs && i < t.nextId ==> i in t.txs && SameIdentity(t.txs[i], u.txs[i]))
  }

  predicate SameIdentity(a: TxRow, b: TxRow) {
    && a.user == b.user && a.kind == b.kind && a.date == b.date && a.source == b.source
    && (b.goal == a.goal || b.goal == None)
  }

  /** The writes that can change transactions, goals or the event log. */
  predicate MovesMoney(w: WriteIntent) {
    InsertsTransaction(w) || w.DeleteLast? || w.EditLast? || w.CreateGoal? || w.EditGoal? || w.DeleteGoal?
  }

  lemma UpsertFrame(t: Tables, user: Id, r: RecurringInput)
    requires Bounded(t)
    ensures var u := UpsertRecurring(t, user, r);
            u.Ok? ==> && u.Or(t) == t.(recurring := u.Or(t).recurring, nextId := u.Or(t).nextId)
                      && t.nextId <= u.Or(t).nextId && Bounded(u.Or(t))
  {
    hide RecurringChecks, Truncate;
  }

  lemma RecurringFrame(t: Tables, c: Carry, w: WriteIntent)
    requires Bounded(t) && (w.AddRecurring? || w.RemoveRecurring? || w.EditRecurring?)
    ensures var r := Apply(t, c, w);
            r.Ok? ==> && r.Or(t) == t.(recurring := r.Or(t).recurring, nextId := r.Or(t).nextId)
                      && t.nextId <= r.Or(t).nextId && Bounded(r.Or(t))
  {
    hide UpsertRecurring, RecurringChecks, RecurringTarget;
    if w.AddRecurring? {
      UpsertFrame(t, w.user, w.recurring);
    }
  }

  /** Every other write leaves those three tables exactly as they are. */
  lemma OthersFrame(t: Tables, c: Carry, w: WriteIntent)
    requires Bounded(t) && !MovesMoney(w)
    ensures var r := Apply(t, c, w);
            r.Ok? ==> && r.Or(t).txs == t.txs && r.Or(t).goals == t.goals && r.Or(t).events == t.events
                      && t.nextId <= r.Or(t).nextId && Bounded(r.Or(t))
  {
    match w
    case SaveMemory(user, content, kind) =>
      Memory.StoreShape(Memory.Store(t.memories, t.nextId), user, content, kind);
    case ForgetMemory(user, query) =>
      Memory.StoreShape(Memory.Store(t.memories, t.nextId), user, query, Memory.Fact);
    case _ =>
      if w.AddRecurring? || w.RemoveRecurring? || w.EditRecurring? {
        RecurringFrame(t, c, w);
      }
  }

  /** A balance may move, and only an own goal's. */
  predicate GoalShape(before: GoalRow, after: GoalRow, user: Id) {
    after == before.(saved := after.saved) && (before.user != user ==> after == before)
  }

  /** A balance update touches the balance of one owned goal and nothing else. */
  lemma AdjustGoalShape(t: Tables, user: Id, goal: Id, delta: int)
    ensures var r := AdjustGoal(t, user, goal, delta);
            r.Ok? ==> && r.value == t.(goals := r.value.goals) && r.value.goals.Keys == t.goals.Keys
                      && forall g :: g in t.goals ==> GoalShape(t.goals[g], r.value.goals[g], user)
  {
  }

  lemma DeleteTxShape(t: Tables, user: Id, id: Id, source: Option<string>)
    ensures var r := DeleteTx(t, user, id, source);
            r.Ok? ==> && r.value.txs == (if id in t.txs && t.txs[id].user == user then t.txs - {id} else t.txs)
                      && r.value == t.(txs := r.value.txs, goals := r.value.goals, events := r.value.events)
                      && r.value.goals.Keys == t.goals.Keys && t.events <= r.value.events
                      && forall g :: g in t.goals ==> GoalShape(t.goals[g], r.value.goals[g], user)
  {
    hide AdjustGoal, GoalBalance;
    if id in t.txs && t.txs[id].user == user && t.txs[id].goal.Some? {
      AdjustGoalShape(t, user, t.txs[id].goal.value, -t.txs[id].amount);
    }
  }

  lemma StoreEditShape(t: Tables, id: Id, row: TxRow, amount: Option<Centavos>, category: Option<Category>,
                       note: Option<string>, source: Option<string>)
    ensures var r := StoreEdit(t, id, row, amount, category, note, source);
            r.Ok? ==> && (r.value.txs == t.txs || r.value.txs == t.txs[id := PatchTx(row, amount, category, note)])
                      && r.value == t.(txs := r.value.txs, events := r.value.events) && t.events <= r.value.events
  {
    hide PatchTx, GoalBalance;
  }

  lemma EditTxShape(t: Tables, user: Id, id: Id, amount: Option<Centavos>, category: Option<Category>,
                    note: Option<string>, source: Option<string>)
    ensures var r := EditTx(t, user, id, amount, category, note, source);
            r.Ok? ==> && (r.value.txs == t.txs
                          || (id in t.txs && t.txs[id].user == user
                              && r.value.txs == t.txs[id := PatchTx(t.txs[id], amount, category, note)]))
                      && r.value == t.(txs := r.value.txs, goals := r.value.goals, events := r.value.events)
                      && r.value.goals.Keys == t.goals.Keys && t.events <= r.value.events
                      && forall g :: g in t.goals ==> GoalShape(t.goals[g], r.value.goals[g], user)
  {
    hide AdjustGoal, StoreEdit, PatchTx;
    if id in t.txs && t.txs[id].user == user {
      var row := t.txs[id];
      if MovesGoal(row, amount) {
        AdjustGoalShape(t, user, row.goal.value, amount.value - row.amount);
      }
      var r := Rebalance(t, row, amount);
      if r.Ok? {
        StoreEditShape(r.value, id, row, amount, category, note, source);
      }
    }
  }

  lemma ContributeShape(t: Tables, source: Option<string>, w: WriteIntent)
    requires w.GoalContribution?
    ensures var r := Contribute(t, source, w);
            r.Ok? ==> && t.nextId in r.value.txs && r.value.txs == t.txs[t.nextId := r.value.txs[t.nextId]]
                      && r.value == t.(txs := r.value.txs, goals := r.value.goals, events := r.value.events,
                                       nextId := t.nextId + 1)
                      && r.value.goals.Keys == t.goals.Keys && t.events <= r.value.events
                      && forall g :: g in t.goals ==> GoalShape(t.goals[g], r.value.goals[g], w.user)
  {
    var r := InsertTx(t, TxRow(w.user, TxKind.Expense, w.amount, SavingsGoals, None, w.date, Some(w.goal), None, source));
    if r.Ok? {
      AdjustGoalShape(r.value, w.user, w.goal, w.amount);
    }
  }

  lemma RemoveGoalEvolves(t: Tables, user: Id, goal: Id)
    requires Bounded(t)
    ensures Bounded(RemoveGoal(t, user, goal)) && Evolves(t, RemoveGoal(t, user, goal))
  {
  }

  lemma InsertGoalEvolves(t: Tables, w: WriteIntent)
    requires Bounded(t) && w.CreateGoal?
    ensures var r := InsertGoal(t, w); r.Ok? ==> Bounded(r.Or(t)) && Evolves(t, r.Or(t))
  {
    hide Truncate, SameName;
  }

  lemma PatchGoalEvolves(t: Tables, w: WriteIntent)
    requires Bounded(t) && w.EditGoal?
    ensures var r := PatchGoal(t, w); r.Ok? ==> Bounded(r.Or(t)) && Evolves(t, r.Or(t))
  {
    hide Truncate, SameName;
  }

  lemma GoalWritesEvolve(t: Tables, c: Carry, w: WriteIntent)
    requires Bounded(t) && (w.CreateGoal? || w.EditGoal? || w.DeleteGoal?)
    ensures var r := Apply(t, c, w); r.Ok? ==> Bounded(r.Or(t)) && Evolves(t, r.Or(t))
  {
    hide InsertGoal, PatchGoal, RemoveGoal;
    if w.CreateGoal? {
      InsertGoalEvolves(t, w);
    } else if w.EditGoal? {
      PatchGoalEvolves(t, w);
    } else {
      RemoveGoalEvolves(t, w.user, w.goal);
    }
  }

  lemma DeleteTxEvolves(t: Tables, user: Id, id: Id, source: Option<string>)
    requires Bounded(t)
    ensures var r := DeleteTx(t, user, id, source); r.Ok? ==> Bounded(r.Or(t)) && Evolves(t, r.Or(t))
  {
    DeleteTxShape(t, user, id, source);
  }

  lemma EditTxEvolves(t: Tables, user: Id, id: Id, amount: Option<Centavos>, category: Option<Category>,
                      note: Option<string>, source: Option<string>)
    requires Bounded(t)
    ensures var r := EditTx(t, user, id, amount, category, note, source);
            r.Ok? ==> Bounded(r.value) && Evolves(t, r.value) && KeepsRows(t, r.value)
  {
    EditTxShape(t, user, id, amount, category, note, source);
  }

  lemma InsertsEvolve(t: Tables, c: Carry, w: WriteIntent)
    requires Bounded(t) && InsertsTransaction(w)
    ensures var r := Apply(t, c, w); r.Ok? ==> Bounded(r.Or(t)) && Evolves(t, r.Or(t)) && KeepsRows(t, r.Or(t))
  {
    hide Apply;
    if Apply(t, c, w).Ok? {
      InsertShape(t, c, w);
      GrowthEvolves(t, Apply(t, c, w).value, w.user);
    }
  }

  /** One new row under the next id, at most a balance moved, the log longer. */
  lemma InsertShape(t: Tables, c: Carry, w: WriteIntent)
    requires InsertsTransaction(w) && Apply(t, c, w).Ok?
    ensures var u := Apply(t, c, w).value;
            && t.nextId in u.txs && u.txs == t.txs[t.nextId := u.txs[t.nextId]]
            && u == t.(txs := u.txs, goals := u.goals, events := u.events, nextId := t.nextId + 1)
            && u.goals.Keys == t.goals.Keys && t.events <= u.events
            && forall g :: g in t.goals ==> GoalShape(t.goals[g], u.goals[g], w.user)
  {
    hide Contribute, TruncateOpt;
    if w.GoalContribution? {
      ContributeShape(t, c.source, w);
    }
  }

  lemma GrowthEvolves(t: Tables, u: Tables, user: Id)
    requires Bounded(t) && t.nextId in u.txs && u.txs == t.txs[t.nextId := u.txs[t.nextId]]
    requires u == t.(txs := u.txs, goals := u.goals, events := u.events, nextId := t.nextId + 1)
    requires u.goals.Keys == t.goals.Keys && t.events <= u.events
    requires forall g :: g in t.goals ==> GoalShape(t.goals[g], u.goals[g], user)
    ensures Bounded(u) && Evolves(t, u) && KeepsRows(t, u)
  {
  }

  lemma ApplyEvolves(t: Tables, c: Carry, w: WriteIntent)
    requires Bounded(t)
    ensures var r := Apply(t, c, w); r.Ok? ==> Bounded(r.Or(t)) && Evolves(t, r.Or(t))
  {
    if !MovesMoney(w) {
      OthersFrame(t, c, w);
    } else if w.DeleteLast? {
      if Target(c, w).Some? {
        DeleteTxEvolves(t, w.user, Target(c, w).value, c.source);
      }
    } else if w.EditLast? {
      if Target(c, w).Some? {
        EditTxEvolves(t, w.user, Target(c, w).value, w.newAmount, w.newCategory, w.newNote, c.source);
      }
    } else if InsertsTransaction(w) {
      InsertsEvolve(t, c, w);
    } else {
      GoalWritesEvolve(t, c, w);
    }
  }

  lemma {:induction false} BatchEvolves(t: Tables, c: Carry, ws: seq<WriteIntent>)
    requires Bounded(t)
    ensures var r := ApplyAll(t, c, ws); r.Ok? ==> Bounded(r.Or((t, c)).0) && Evolves(t, r.Or((t, c)).0)
    decreases |ws|
  {
    if ws != [] {
      ApplyEvolves(t, c, ws[0]);
      var r := Apply(t, c, ws[0]);
      if r.Ok? {
        BatchEvolves(r.value, Advance(t, c, ws[0]), ws[1..]);
      }
    }
  }

  // ---------------------------------------------------------------- who can change memories

  lemma InsertsKeepMemories(t: Tables, c: Carry, w: WriteIntent)
    requires InsertsTransaction(w)
    ensures var r := Apply(t, c, w); r.Ok? ==> r.Or(t).memories == t.memories && t.nextId <= r.Or(t).nextId
  {
    if w.GoalContribution? {
      ContributeShape(t, c.source, w);
    }
  }

  lemma CorrectionsKeepMemories(t: Tables, c: Carry, w: WriteIntent)
    requires w.EditLast? || w.DeleteLast?
    ensures var r := Apply(t, c, w); r.Ok? ==> r.Or(t).memories == t.memories && t.nextId <= r.Or(t).nextId
  {
    if Target(c, w).Some? {
      if w.DeleteLast? {
        DeleteTxShape(t, w.user, Target(c, w).value, c.source);
      } else {
        EditTxShape(t, w.user, Target(c, w).value, w.newAmount, w.newCategory, w.newNote, c.source);
      }
    }
  }

  lemma OthersKeepMemories(t: Tables, c: Carry, w: WriteIntent)
    requires Bounded(t) && !w.SaveMemory? && !w.ForgetMemory?
    ensures var r := Apply(t, c, w); r.Ok? ==> r.Or(t).memories == t.memories && t.nextId <= r.Or(t).nextId
  {
    if InsertsTransaction(w) {
      InsertsKeepMemories(t, c, w);
    } else if w.EditLast? || w.DeleteLast? {
      CorrectionsKeepMemories(t, c, w);
    } else if w.AddRecurring? || w.RemoveRecurring? || w.EditRecurring? {
      RecurringFrame(t, c, w);
    }
  }

  // ---------------------------------------------------------------- who can remove rows

  predicate IsDestructive(w: WriteIntent) {
    w.DeleteLast? || w.DeleteGoal? || w.RemoveBudget? || w.RemoveRecurring? || w.ForgetMemory?
  }

  /** Every row of `t` is still a row of `u`. */
  predicate KeepsRows(t: Tables, u: Tables) {
    && t.txs.Keys <= u.txs.Keys && t.goals.Keys <= u.goals.Keys && t.budgets.Keys <= u.budgets.Keys
    && t.recurring.Keys <= u.recurring.Keys && t.memories.Keys <= u.memories.Keys
    && t.transfers <= u.transfers
  }

  lemma RecurringKeepsRows(t: Tables, c: Carry, w: WriteIntent)
    requires w.AddRecurring? || w.EditRecurring?
    ensures var r := Apply(t, c, w); r.Ok? ==> KeepsRows(t, r.Or(t))
  {
    hide RecurringChecks, FindLabel, RecurringTarget, PatchRecurring, Truncate;
  }

  lemma ApplyKeepsRows(t: Tables, c: Carry, w: WriteIntent)
    requires Bounded(t) && !IsDestructive(w)
    ensures var r := Apply(t, c, w); r.Ok? ==> KeepsRows(t, r.Or(t))
  {
    hide Apply, KeepsRows;
    if w.SaveMemory? {
      SaveKeepsRows(t, c, w);
    } else if w.EditLast? {
      EditKeepsRows(t, c, w);
    } else if InsertsTransaction(w) {
      InsertsEvolve(t, c, w);
    } else if w.AddRecurring? || w.EditRecurring? {
      RecurringKeepsRows(t, c, w);
    } else {
      RestKeepsRows(t, c, w);
    }
  }

  lemma RestKeepsRows(t: Tables, c: Carry, w: WriteIntent)
    requires w.CreateGoal? || w.EditGoal? || w.SetBudget? || w.Transfer? || IsBookkeeping(w)
    ensures var r := Apply(t, c, w); r.Ok? ==> KeepsRows(t, r.Or(t))
  {
    hide SameName, Truncate;
  }

  lemma EditKeepsRows(t: Tables, c: Carry, w: WriteIntent)
    requires Bounded(t) && w.EditLast?
    ensures var r := Apply(t, c, w); r.Ok? ==> KeepsRows(t, r.Or(t))
  {
    hide EditTx;
    if Target(c, w).Some? {
      EditTxEvolves(t, w.user, Target(c, w).value, w.newAmount, w.newCategory, w.newNote, c.source);
    }
  }

  lemma SaveKeepsRows(t: Tables, c: Carry, w: WriteIntent)
    requires Bounded(t) && w.SaveMemory?
    ensures var r := Apply(t, c, w); r.Ok? ==> KeepsRows(t, r.Or(t))
  {
    Memory.StoreShape(Memory.Store(t.memories, t.nextId), w.user, w.content, w.memoryKind);
  }

  lemma {:induction false} BatchKeepsRows(t: Tables, c: Carry, ws: seq<WriteIntent>)
    requires Bounded(t) && forall w :: w in ws ==> !IsDestructive(w)
    ensures var r := ApplyAll(t, c, ws); r.Ok? ==> KeepsRows(t, r.Or((t, c)).0)
    decreases |ws|
  {
    if ws != [] {
      assert ws[0] in ws;
      ApplyKeepsRows(t, c, ws[0]);
      ApplyEvolves(t, c, ws[0]);
      var r := Apply(t, c, ws[0]);
      if r.Ok? {
        BatchKeepsRows(r.value, Advance(t, c, ws[0]), ws[1..]);
      }
    }
  }
}

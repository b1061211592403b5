/** What one write does, another takes back: the round trips the corrections are for. */
module Undo {
  import opened Prelude
  import opened Text
  import opened Domain
  import opened Ledger
  import opened Evolution
  import opened Goals
  import opened SameTurn

  /** The same rows everywhere; only the event log grew and ids were used up. */
  predicate SameRows(t: Tables, u: Tables) {
    t == u.(events := t.events, nextId := t.nextId)
  }

  lemma DropWhatWasAdded<V>(m: map<Id, V>, id: Id, v: V)
    requires id !in m
    ensures m[id := v] - {id} == m
  {
  }

  /** A contribution, spelled out: a linked row under the next id, and the goal up by the amount. */
  lemma ContributionRows(t: Tables, source: Option<string>, w: WriteIntent)
    requires Sound(t) && w.GoalContribution? && OwnGoal(t, w) && Contribute(t, source, w).Ok?
    ensures w.goal in t.goals && t.goals[w.goal].user == w.user
    ensures var u, goal := Contribute(t, source, w).value, t.goals[w.goal];
            && u.goals == t.goals[w.goal := goal.(saved := goal.saved + w.amount)]
            && u == t.(txs := u.txs, goals := u.goals, events := u.events, nextId := t.nextId + 1)
  {
    hide GoalBalance;
    ContributeShape(t, source, w);
  }

  /** Undoing a linked row gives its amount back to the goal. */
  lemma DeletionRows(t: Tables, user: Id, id: Id, source: Option<string>)
    requires Sound(t) && id in t.txs && t.txs[id].user == user
    ensures DeleteTx(t, user, id, source).Ok?
    ensures var u, row := DeleteTx(t, user, id, source).value, t.txs[id];
            && u == t.(txs := t.txs - {id}, goals := u.goals, events := u.events)
            && u.goals == (if row.goal.None? then t.goals
                           else t.goals[row.goal.value := t.goals[row.goal.value].(saved := t.goals[row.goal.value].saved - row.amount)])
  {
    DeleteKeepsSound(t, user, id, source);
    DeleteTxShape(t, user, id, source);
    if t.txs[id].goal.Some? {
      WithdrawOk(t, id);
    }
    hide AdjustGoal, GoalBalance;
  }

  /** Logging an entry, or contributing to a goal, and undoing it in the same turn restores every row of
      every table, the goal's balance included, whatever the ledger was. */
  lemma UndoRestores(t: Tables, c: Carry, w: WriteIntent)
    requires Sound(t) && InsertsTransaction(w) && OwnGoal(t, w) && Apply(t, c, w).Ok?
    ensures var undo := DeleteLast(w.user, None, true);
            var r := ApplyAll(t, c, [w, undo]);
            r.Ok? && SameRows(t, r.value.0) && r.value.1.last == None && |r.value.0.events| == |t.events| + 2
  {
    hide LogTransaction, Contribute, DeleteTx, Sound, ApplyAll;
    var undo := DeleteLast(w.user, None, true);
    var u, c1 := Apply(t, c, w).value, Advance(t, c, w);
    ApplyKeepsSound(t, c, w);
    EventsGrow(t, c, w);
    InsertedRow(t, c, w);
    DeletionRows(u, w.user, t.nextId, c1.source);
    DropWhatWasAdded(t.txs, t.nextId, u.txs[t.nextId]);
    var v := Apply(u, c1, undo).value;
    assert v.goals == t.goals;
    assert SameRows(t, v);
    TwoWrites(t, c, w, undo);
  }

  /** What an entry or a contribution puts into the tables. */
  lemma InsertedRow(t: Tables, c: Carry, w: WriteIntent)
    requires Sound(t) && InsertsTransaction(w) && OwnGoal(t, w) && Apply(t, c, w).Ok?
    ensures var u := Apply(t, c, w).value;
            && t.nextId !in t.txs && t.nextId in u.txs && u.txs == t.txs[t.nextId := u.txs[t.nextId]]
            && u.txs[t.nextId].user == w.user && u.txs[t.nextId].amount == w.amount
            && u.txs[t.nextId].goal == (if w.GoalContribution? then Some(w.goal) else None)
            && u == t.(txs := u.txs, goals := u.goals, events := u.events, nextId := t.nextId + 1)
            && (w.Transaction? ==> u.goals == t.goals)
            && (w.GoalContribution? ==>
                  && w.goal in t.goals
                  && u.goals == t.goals[w.goal := t.goals[w.goal].(saved := t.goals[w.goal].saved + w.amount)])
  {
    hide TruncateOpt, Contribute, Conserved;
    InsertShape(t, c, w);
    if w.GoalContribution? {
      ContributionRows(t, c.source, w);
      ContributedRow(t, c.source, w);
    }
  }

  lemma EventsGrow(t: Tables, c: Carry, w: WriteIntent)
    requires InsertsTransaction(w) && Apply(t, c, w).Ok?
    ensures var u := Apply(t, c, w).value; |u.events| == |t.events| + 1
    ensures forall user: Id, id: Id, source :: id in Apply(t, c, w).value.txs && Apply(t, c, w).value.txs[id].user == user
              && DeleteTx(Apply(t, c, w).value, user, id, source).Ok?
              ==> |DeleteTx(Apply(t, c, w).value, user, id, source).value.events| == |t.events| + 2
  {
  }

  lemma TwoWrites(t: Tables, c: Carry, a: WriteIntent, b: WriteIntent)
    requires Apply(t, c, a).Ok? && Apply(Apply(t, c, a).value, Advance(t, c, a), b).Ok?
    ensures var u, c1 := Apply(t, c, a).value, Advance(t, c, a);
            ApplyAll(t, c, [a, b]) == Ok((Apply(u, c1, b).value, Advance(u, c1, b)))
  {
    hide Apply, Advance;
    var u, c1 := Apply(t, c, a).value, Advance(t, c, a);
    assert [a, b][1..] == [b] && [b][1..] == [];
    var v, c2 := Apply(u, c1, b).value, Advance(u, c1, b);
    assert ApplyAll(v, c2, []) == Ok((v, c2));
  }

  /** Changing an amount and changing it back restores the row and, when it is linked, its goal. */
  lemma EditBackRestores(t: Tables, user: Id, id: Id, amount: Centavos, source: Option<string>)
    requires Sound(t) && id in t.txs && t.txs[id].user == user
    requires EditTx(t, user, id, Some(amount), None, None, source).Ok?
    ensures var u := EditTx(t, user, id, Some(amount), None, None, source).value;
            var back := EditTx(u, user, id, Some(t.txs[id].amount), None, None, source);
            back.Ok? && back.value.txs == t.txs && back.value.goals == t.goals
  {
    var old' := t.txs[id].amount;
    var u := EditTx(t, user, id, Some(amount), None, None, source).value;
    EditKeepsSound(t, user, id, Some(amount), None, None, source);
    EditMoves(t, user, id, Some(amount), None, None, source);
    OnlySavedMoves(t, user, id, amount, source);
    EditFailsExactlyWhen(u, user, id, Some(old'), None, None, source);
    assert u.txs[id] == t.txs[id].(amount := amount);
    hide EditTx, Sound;
    EditedBack(t, u, user, id, source);
  }

  lemma OnlySavedMoves(t: Tables, user: Id, id: Id, amount: Centavos, source: Option<string>)
    requires EditTx(t, user, id, Some(amount), None, None, source).Ok?
    ensures var u := EditTx(t, user, id, Some(amount), None, None, source).value;
            forall g :: g in t.goals ==> g in u.goals && u.goals[g] == t.goals[g].(saved := u.goals[g].saved)
  {
    hide GoalBalance, PatchTx;
  }

  lemma EditedBack(t: Tables, u: Tables, user: Id, id: Id, source: Option<string>)
    requires Sound(t) && Sound(u) && id in t.txs && t.txs[id].user == user
    requires id in u.txs && u.txs == t.txs[id := u.txs[id]] && u.txs[id] == t.txs[id].(amount := u.txs[id].amount)
    requires u.goals.Keys == t.goals.Keys
    requires forall g :: g in t.goals ==>
               && u.goals[g] == t.goals[g].(saved := u.goals[g].saved)
               && u.goals[g].saved == t.goals[g].saved + if t.txs[id].goal == Some(g) then u.txs[id].amount - t.txs[id].amount else 0
    ensures var back := EditTx(u, user, id, Some(t.txs[id].amount), None, None, source);
            back.Ok? && back.value.txs == t.txs && back.value.goals == t.goals
  {
    var was := t.txs[id].amount;
    EditFailsExactlyWhen(u, user, id, Some(was), None, None, source);
    BalanceFits(t, u, id);
    EditMoves(u, user, id, Some(was), None, None, source);
    OnlySavedMoves(u, user, id, was, source);
    PatchBack(t.txs[id], u.txs[id]);
    hide EditTx, Sound, PatchTx;
    BackAgain(t, u, EditTx(u, user, id, Some(was), None, None, source).value, id);
  }

  lemma BalanceFits(t: Tables, u: Tables, id: Id)
    requires Sound(t) && id in t.txs && id in u.txs && u.txs[id].goal == t.txs[id].goal
    requires t.txs[id].goal.Some? ==> t.txs[id].goal.value in u.goals
    requires t.txs[id].goal.Some? ==>
               var g := t.txs[id].goal.value;
               g in t.goals && u.goals[g].saved == t.goals[g].saved + u.txs[id].amount - t.txs[id].amount
    ensures SafeAmount(t.txs[id].amount)
    ensures t.txs[id].goal.Some? ==>
              u.goals[t.txs[id].goal.value].saved + t.txs[id].amount - u.txs[id].amount <= I64_MAX
  {
    hide Conserved;
  }

  lemma PatchBack(row: TxRow, edited: TxRow)
    requires edited == row.(amount := edited.amount) && I64_MIN <= row.amount <= I64_MAX
    ensures PatchTx(edited, Some(row.amount), None, None) == row
  {
  }

  lemma BackAgain(t: Tables, u: Tables, v: Tables, id: Id)
    requires id in t.txs && id in u.txs && u.txs == t.txs[id := u.txs[id]] && v.txs == u.txs[id := t.txs[id]]
    requires u.goals.Keys == t.goals.Keys && v.goals.Keys == t.goals.Keys
    requires forall g :: g in t.goals ==>
               && u.goals[g] == t.goals[g].(saved := u.goals[g].saved) && v.goals[g] == u.goals[g].(saved := v.goals[g].saved)
               && v.goals[g].saved == t.goals[g].saved
    ensures v.txs == t.txs && v.goals == t.goals
  {
    assert v.txs == t.txs[id := t.txs[id]];
  }

  /** A goal created and deleted again leaves no trace, not even a cut link. */
  lemma GoalRoundTrip(t: Tables, w: WriteIntent)
    requires Sound(t) && w.CreateGoal? && InsertGoal(t, w).Ok? && InsertGoal(t, w).value != t
    ensures SameRows(t, RemoveGoal(InsertGoal(t, w).value, w.user, t.nextId))
  {
    hide Conserved, SameName, Truncate;
    var u := InsertGoal(t, w).value;
    assert t.nextId in u.goals && u.goals[t.nextId].user == w.user && u.txs == t.txs;
    var v := RemoveGoal(u, w.user, t.nextId);
    assert forall i :: i in t.txs ==> t.txs[i].goal != Some(t.nextId);
    assert v.txs == t.txs;
    DropWhatWasAdded(t.goals, t.nextId, u.goals[t.nextId]);
  }

  /** A new recurring item, added and removed by its label, is gone and took nothing else with it. */
  lemma BillRoundTrip(t: Tables, user: Id, input: RecurringInput)
    requires Bounded(t) && UpsertRecurring(t, user, input).Ok?
    requires Trim(input.labelText) == input.labelText && 0 < |input.labelText| <= LABEL_MAX
    requires forall i :: i in t.recurring ==> !SameLabel(t.recurring[i], user, input.labelText)
    ensures SameRows(t, DropRecurring(UpsertRecurring(t, user, input).value, user, input.labelText))
  {
    hide RecurringChecks, LikeLabels, Trim;
    var u := UpsertRecurring(t, user, input).value;
    assert FindLabel(t.recurring, user, input.labelText, t.nextId).None?;
    assert u.recurring == t.recurring[t.nextId := u.recurring[t.nextId]];
    assert SameLabel(u.recurring[t.nextId], user, input.labelText);
    var exact := FindLabel(u.recurring, user, input.labelText, u.nextId);
    assert exact == Some(t.nextId);
    DropWhatWasAdded(t.recurring, t.nextId, u.recurring[t.nextId]);
  }
}

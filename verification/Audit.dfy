/** The audit trail replays to the ledger: folding ledger_events rebuilds the live transactions. */
module Audit {
  import opened Prelude
  import opened Domain
  import opened Ledger
  import opened Evolution

  /** What the trail records of a transaction. The goal link is outside it: deleting a goal cuts links
      without an event. */
  datatype Entry = Entry(kind: TxKind, amount: int, category: Category, date: Day)

  function EntryOf(row: TxRow): Entry {
    Entry(row.kind, row.amount, row.category, row.date)
  }

  function EntryOfImage(image: FullImage): Entry {
    Entry(image.kind, image.amount, image.category, image.date)
  }

  function Live(t: Tables): map<Id, Entry> {
    map i | i in t.txs :: EntryOf(t.txs[i])
  }

  /** One event applied to a replayed ledger by a reader who knows only the trail. */
  function Replay1(m: map<Id, Entry>, e: LedgerEvent): map<Id, Entry> {
    match e
    case TxCreate(_, tx, created, _) => m[tx := EntryOfImage(created)]
    case TxEdit(_, tx, _, after, _, _) =>
      if tx in m then m[tx := m[tx].(amount := after.amount, category := after.category)] else m
    case TxDelete(_, tx, _, _) => m - {tx}
  }

  function Replay(events: seq<LedgerEvent>): map<Id, Entry> {
    if events == [] then map[] else Replay1(Replay(events[..|events| - 1]), events[|events| - 1])
  }

  /** The event tells the truth about the ledger it was applied to: a creation is of something new, and
      the `before` of an edit or a deletion is what the replay holds at that point. */
  predicate Truthful(m: map<Id, Entry>, e: LedgerEvent) {
    match e
    case TxCreate(_, tx, _, _) => tx !in m
    case TxEdit(_, tx, before, _, _, _) => tx in m && m[tx].amount == before.amount && m[tx].category == before.category
    case TxDelete(_, tx, deleted, _) => tx in m && m[tx] == EntryOfImage(deleted)
  }

  ghost predicate AllTruthful(events: seq<LedgerEvent>) {
    forall i :: 0 <= i < |events| ==> Truthful(Replay(events[..i]), events[i])
  }

  ghost predicate Audited(t: Tables) {
    && (forall i :: i in t.txs ==> i < t.nextId)
    && Replay(t.events) == Live(t)
    && AllTruthful(t.events)
  }

  lemma Append(t: Tables, u: Tables, e: LedgerEvent)
    requires Audited(t) && (forall i :: i in u.txs ==> i < u.nextId)
    requires u.events == t.events + [e]
    requires Truthful(Live(t), e) && Live(u) == Replay1(Live(t), e)
    ensures Audited(u)
  {
    var events := u.events;
    assert events[..|events| - 1] == t.events;
    forall i | 0 <= i < |events|
      ensures Truthful(Replay(events[..i]), events[i])
    {
      if i < |t.events| {
        assert events[..i] == t.events[..i];
      }
    }
  }

  lemma Same(t: Tables, u: Tables)
    requires Audited(t) && u.events == t.events && Live(u) == Live(t) && t.nextId <= u.nextId
    ensures Audited(u)
  {
    forall i | i in u.txs
      ensures i < u.nextId
    {
      assert i in Live(u);
    }
  }

  /** A new row under the next id, with an event that describes it. */
  lemma CreationIsAudited(t: Tables, u: Tables, row: TxRow, e: LedgerEvent)
    requires Audited(t) && e.TxCreate? && e.tx == t.nextId && EntryOfImage(e.created) == EntryOf(row)
    requires u.txs == t.txs[t.nextId := row] && u.events == t.events + [e] && u.nextId == t.nextId + 1
    ensures Audited(u)
  {
    assert Live(u) == Live(t)[t.nextId := EntryOf(row)];
    Append(t, u, e);
  }

  lemma LogIsAudited(t: Tables, source: Option<string>, w: WriteIntent)
    requires Audited(t) && w.Transaction?
    ensures var r := LogTransaction(t, source, w); r.Ok? ==> Audited(r.Or(t))
  {
    var r := LogTransaction(t, source, w);
    if r.Ok? {
      var u := r.value;
      CreationIsAudited(t, u, u.txs[t.nextId], u.events[|u.events| - 1]);
    }
  }

  lemma ContributionIsAudited(t: Tables, source: Option<string>, w: WriteIntent)
    requires Audited(t) && w.GoalContribution?
    ensures var r := Contribute(t, source, w); r.Ok? ==> Audited(r.Or(t))
  {
    var r := Contribute(t, source, w);
    if r.Ok? {
      ContributeShape(t, source, w);
      var u := r.value;
      CreationIsAudited(t, u, u.txs[t.nextId], u.events[|u.events| - 1]);
    }
  }

  /** The event of a deletion holds the whole row that goes, its goal, and the goal's balance after. */
  lemma DeletionIsLogged(t: Tables, user: Id, id: Id, source: Option<string>)
    requires id in t.txs && t.txs[id].user == user && DeleteTx(t, user, id, source).Ok?
    ensures var u, row := DeleteTx(t, user, id, source).value, t.txs[id];
            u.events == t.events + [TxDelete(user, id, FullImage(row.kind, row.amount, row.category, row.date, row.goal,
                                                                 GoalBalance(u, user, row.goal)), source)]
  {
    if t.txs[id].goal.Some? {
      AdjustGoalShape(t, user, t.txs[id].goal.value, -t.txs[id].amount);
    }
    hide AdjustGoal;
  }

  lemma DeleteIsAudited(t: Tables, user: Id, id: Id, source: Option<string>)
    requires Audited(t)
    ensures var r := DeleteTx(t, user, id, source); r.Ok? ==> Audited(r.Or(t))
    ensures var r := DeleteTx(t, user, id, source);
            r.Ok? ==> if id in t.txs && t.txs[id].user == user then
                        var row := t.txs[id];
                        r.value.events
                        == t.events + [TxDelete(user, id, FullImage(row.kind, row.amount, row.category, row.date, row.goal,
                                                                    GoalBalance(r.value, user, row.goal)), source)]
                      else r.value == t
  {
    hide GoalBalance, AdjustGoal;
    var r := DeleteTx(t, user, id, source);
    if r.Ok? && id in t.txs && t.txs[id].user == user {
      DeleteTxShape(t, user, id, source);
      DeletionIsLogged(t, user, id, source);
      hide DeleteTx;
      var u := r.value;
      assert Live(u) == Live(t) - {id};
      Append(t, u, u.events[|u.events| - 1]);
    }
  }

  /** Whether an edit has any column to set on this row. */
  predicate SetsSomething(row: TxRow, amount: Option<Centavos>, category: Option<Category>, note: Option<string>) {
    amount.Some? || (category.Some? && row.goal.None?) || note.Some?
  }

  /** The event of an edit holds the row's amount and category before and after, and the goal's balance
      after if it moved; an edit that sets nothing logs nothing. */
  lemma EditIsLogged(t: Tables, user: Id, id: Id, amount: Option<Centavos>, category: Option<Category>,
                     note: Option<string>, source: Option<string>)
    requires id in t.txs && t.txs[id].user == user && EditTx(t, user, id, amount, category, note, source).Ok?
    ensures var u, row := EditTx(t, user, id, amount, category, note, source).value, t.txs[id];
            var row' := PatchTx(row, amount, category, note);
            if SetsSomething(row, amount, category, note) then
              && u.txs == t.txs[id := row']
              && u.events == t.events + [TxEdit(user, id, EditImage(row.amount, row.category, row.goal),
                                                EditImage(row'.amount, row'.category, row.goal),
                                                if MovesGoal(row, amount) then GoalBalance(u, user, row.goal) else None, source)]
            else u.txs == t.txs && u.events == t.events
  {
    hide PatchTx, AdjustGoal;
    var row := t.txs[id];
    if MovesGoal(row, amount) {
      AdjustGoalShape(t, user, row.goal.value, amount.value - row.amount);
    }
  }

  lemma EditIsAudited(t: Tables, user: Id, id: Id, amount: Option<Centavos>, category: Option<Category>,
                      note: Option<string>, source: Option<string>)
    requires Audited(t)
    ensures var r := EditTx(t, user, id, amount, category, note, source); r.Ok? ==> Audited(r.Or(t))
    ensures var r := EditTx(t, user, id, amount, category, note, source);
            r.Ok? && id in t.txs && t.txs[id].user == user ==>
              var row, row' := t.txs[id], PatchTx(t.txs[id], amount, category, note);
              if SetsSomething(row, amount, category, note) then
                r.value.events
                == t.events + [TxEdit(user, id, EditImage(row.amount, row.category, row.goal),
                                      EditImage(row'.amount, row'.category, row.goal),
                                      if MovesGoal(row, amount) then GoalBalance(r.value, user, row.goal) else None, source)]
              else r.value.events == t.events
  {
    hide StoreEdit, Rebalance, AdjustGoal, GoalBalance, MovesGoal;
    var r := EditTx(t, user, id, amount, category, note, source);
    if r.Ok? && id in t.txs && t.txs[id].user == user {
      EditTxShape(t, user, id, amount, category, note, source);
      EditIsLogged(t, user, id, amount, category, note, source);
      hide EditTx;
      var u, row := r.value, t.txs[id];
      var row' := PatchTx(row, amount, category, note);
      if SetsSomething(row, amount, category, note) {
        assert row'.kind == row.kind && row'.date == row.date;
        hide PatchTx;
        assert Live(u) == Live(t)[id := EntryOf(row')];
        Append(t, u, u.events[|u.events| - 1]);
      } else {
        Same(t, u);
      }
    }
  }

  lemma RemoveGoalIsAudited(t: Tables, user: Id, goal: Id)
    requires Audited(t)
    ensures Audited(RemoveGoal(t, user, goal))
  {
    assert Live(RemoveGoal(t, user, goal)) == Live(t);
    Same(t, RemoveGoal(t, user, goal));
  }

  /** Every write, whatever its arguments and whoever it names, keeps the trail exact. */
  lemma ApplyIsAudited(t: Tables, c: Carry, w: WriteIntent)
    requires Bounded(t) && Audited(t)
    ensures var r := Apply(t, c, w); r.Ok? ==> Audited(r.Or(t))
  {
    if w.Transaction? {
      LogIsAudited(t, c.source, w);
    } else if w.GoalContribution? {
      ContributionIsAudited(t, c.source, w);
    } else if w.DeleteLast? {
      if Target(c, w).Some? {
        DeleteIsAudited(t, w.user, Target(c, w).value, c.source);
      }
    } else if w.EditLast? {
      if Target(c, w).Some? {
        EditIsAudited(t, w.user, Target(c, w).value, w.newAmount, w.newCategory, w.newNote, c.source);
      }
    } else if w.DeleteGoal? {
      RemoveGoalIsAudited(t, w.user, w.goal);
    } else {
      OtherWriteIsAudited(t, c, w);
    }
  }

  lemma OtherWriteIsAudited(t: Tables, c: Carry, w: WriteIntent)
    requires Bounded(t) && Audited(t)
    requires !InsertsTransaction(w) && !w.DeleteLast? && !w.EditLast? && !w.DeleteGoal?
    ensures var r := Apply(t, c, w); r.Ok? ==> Audited(r.Or(t))
  {
    var r := Apply(t, c, w);
    if r.Ok? {
      if !MovesMoney(w) {
        OthersFrame(t, c, w);
      }
      Same(t, r.value);
    }
  }

  lemma {:induction false} BatchIsAudited(t: Tables, c: Carry, ws: seq<WriteIntent>)
    requires Bounded(t) && Audited(t)
    ensures var r := ApplyAll(t, c, ws); r.Ok? ==> Audited(r.Or((t, c)).0)
    decreases |ws|
  {
    if ws != [] {
      ApplyIsAudited(t, c, ws[0]);
      ApplyEvolves(t, c, ws[0]);
      var r := Apply(t, c, ws[0]);
      if r.Ok? {
        BatchIsAudited(r.value, Advance(t, c, ws[0]), ws[1..]);
      }
    }
  }
}

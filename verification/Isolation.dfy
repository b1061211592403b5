/** No user's writes ever touch another user's rows of the ledger. */
module Isolation {
  import opened Prelude
  import opened Text
  import opened Domain
  import opened Ledger
  import opened Evolution
  import opened Goals
  import opened SameTurn
  import Constraints
  import Memory

  predicate TxOf(t: Tables, i: Id, user: Id) {
    i in t.txs && t.txs[i].user == user
  }

  predicate GoalOf(t: Tables, g: Id, user: Id) {
    g in t.goals && t.goals[g].user == user
  }

  predicate BillOf(t: Tables, i: Id, user: Id) {
    i in t.recurring && t.recurring[i].user == user
  }

  predicate FactOf(t: Tables, i: Id, user: Id) {
    i in t.memories && t.memories[i].user == user
  }

  ghost predicate SameMoney(t: Tables, u: Tables, user: Id) {
    && (forall i :: TxOf(t, i, user) <==> TxOf(u, i, user))
    && (forall i :: TxOf(t, i, user) && TxOf(u, i, user) ==> u.txs[i] == t.txs[i])
    && (forall g :: GoalOf(t, g, user) <==> GoalOf(u, g, user))
    && (forall g :: GoalOf(t, g, user) && GoalOf(u, g, user) ==> u.goals[g] == t.goals[g])
  }

  ghost predicate SameRest(t: Tables, u: Tables, user: Id) {
    && (forall i :: BillOf(t, i, user) <==> BillOf(u, i, user))
    && (forall i :: BillOf(t, i, user) && BillOf(u, i, user) ==> u.recurring[i] == t.recurring[i])
    && (forall i :: FactOf(t, i, user) <==> FactOf(u, i, user))
    && (forall i :: FactOf(t, i, user) && FactOf(u, i, user) ==> u.memories[i] == t.memories[i])
    && (forall c: Category :: (user, c) in t.budgets <==> (user, c) in u.budgets)
    && (forall c: Category :: (user, c) in t.budgets && (user, c) in u.budgets ==> u.budgets[(user, c)] == t.budgets[(user, c)])
  }

  function EventsOf(es: seq<LedgerEvent>, user: Id): seq<LedgerEvent> {
    if es == [] then []
    else EventsOf(es[..|es| - 1], user) + if es[|es| - 1].user == user then [es[|es| - 1]] else []
  }

  function TransfersOf(rows: seq<TransferRow>, user: Id): seq<TransferRow> {
    if rows == [] then []
    else TransfersOf(rows[..|rows| - 1], user) + if rows[|rows| - 1].user == user then [rows[|rows| - 1]] else []
  }

  /** The user's part of the two append-only tables. */
  predicate SameLogs(t: Tables, u: Tables, user: Id) {
    EventsOf(u.events, user) == EventsOf(t.events, user) && TransfersOf(u.transfers, user) == TransfersOf(t.transfers, user)
  }

  /** Every row of this user, in every table of the ledger, is as it was, and there are no new ones. */
  ghost predicate Untouched(t: Tables, u: Tables, user: Id) {
    SameMoney(t, u, user) && SameRest(t, u, user) && SameLogs(t, u, user)
  }

  lemma UntouchedTransitive(a: Tables, b: Tables, c: Tables, user: Id)
    requires Untouched(a, b, user) && Untouched(b, c, user)
    ensures Untouched(a, c, user)
  {
  }

  // ---------------------------------------------------------------- events and transfers

  /** At most one entry is appended, and it is this user's. */
  predicate Appends(t: Tables, u: Tables, user: Id) {
    && (u.events == t.events || (u.events != [] && u.events[..|u.events| - 1] == t.events && u.events[|u.events| - 1].user == user))
    && (u.transfers == t.transfers
        || (u.transfers != [] && u.transfers[..|u.transfers| - 1] == t.transfers && u.transfers[|u.transfers| - 1].user == user))
  }

  lemma RecordAppends(t: Tables, u: Tables, e: LedgerEvent)
    requires u.events == t.events + [e] && u.transfers == t.transfers
    ensures Appends(t, u, e.user)
  {
  }

  lemma InsertsAppend(t: Tables, c: Carry, w: WriteIntent)
    requires InsertsTransaction(w)
    ensures var r := Apply(t, c, w); r.Ok? ==> Appends(t, r.Or(t), w.user)
  {
    if w.GoalContribution? {
      ContributeShape(t, c.source, w);
    }
    if Apply(t, c, w).Ok? {
      var u := Apply(t, c, w).value;
      var e := u.events[|u.events| - 1];
      assert u.events == t.events + [e] && e.user == w.user;
      hide Apply;
      RecordAppends(t, u, e);
    }
  }

  lemma DeleteAppends(t: Tables, user: Id, id: Id, source: Option<string>)
    ensures var r := DeleteTx(t, user, id, source); r.Ok? ==> Appends(t, r.Or(t), user)
  {
    DeleteTxShape(t, user, id, source);
    hide AdjustGoal, GoalBalance;
    if TxOf(t, id, user) && t.txs[id].goal.Some? {
      AdjustGoalShape(t, user, t.txs[id].goal.value, -t.txs[id].amount);
    }
  }

  lemma StoreAppends(t: Tables, id: Id, row: TxRow, amount: Option<Centavos>, category: Option<Category>,
                     note: Option<string>, source: Option<string>)
    ensures var r := StoreEdit(t, id, row, amount, category, note, source); r.Ok? ==> Appends(t, r.Or(t), row.user)
  {
    hide PatchTx, GoalBalance;
  }

  lemma EditAppends(t: Tables, user: Id, id: Id, amount: Option<Centavos>, category: Option<Category>, note: Option<string>,
                    source: Option<string>)
    ensures var r := EditTx(t, user, id, amount, category, note, source); r.Ok? ==> Appends(t, r.Or(t), user)
  {
    hide AdjustGoal, StoreEdit;
    if TxOf(t, id, user) {
      var row := t.txs[id];
      if MovesGoal(row, amount) {
        AdjustGoalShape(t, user, row.goal.value, amount.value - row.amount);
      }
      var r := Rebalance(t, row, amount);
      if r.Ok? {
        StoreAppends(r.value, id, row, amount, category, note, source);
      }
    }
  }

  lemma ApplyAppends(t: Tables, c: Carry, w: WriteIntent)
    requires Bounded(t)
    ensures var r := Apply(t, c, w); r.Ok? ==> Appends(t, r.Or(t), w.user)
  {
    if InsertsTransaction(w) {
      InsertsAppend(t, c, w);
    } else if w.DeleteLast? {
      if Target(c, w).Some? {
        DeleteAppends(t, w.user, Target(c, w).value, c.source);
      }
    } else if w.EditLast? {
      if Target(c, w).Some? {
        EditAppends(t, w.user, Target(c, w).value, w.newAmount, w.newCategory, w.newNote, c.source);
      }
    } else if w.AddRecurring? || w.RemoveRecurring? || w.EditRecurring? {
      RecurringFrame(t, c, w);
    } else if !MovesMoney(w) {
      OthersFrame(t, c, w);
    }
    hide EditTx, DeleteTx;
  }

  lemma AppendsLeavesOthers(t: Tables, u: Tables, user: Id, other: Id)
    requires Appends(t, u, user) && user != other
    ensures SameLogs(t, u, other)
  {
  }

  // ---------------------------------------------------------------- transactions and goals

  /** Rows of others kept, goals of others kept: what the shape of every money write amounts to. */
  lemma ShapeTouchesOwn(t: Tables, u: Tables, user: Id, other: Id)
    requires user != other && u.goals.Keys == t.goals.Keys
    requires forall g :: g in t.goals ==> GoalShape(t.goals[g], u.goals[g], user)
    requires forall i :: TxOf(t, i, other) <==> TxOf(u, i, other)
    requires forall i :: TxOf(t, i, other) && TxOf(u, i, other) ==> u.txs[i] == t.txs[i]
    ensures SameMoney(t, u, other)
  {
  }

  lemma InsertsTouchOwn(t: Tables, c: Carry, w: WriteIntent, other: Id)
    requires Bounded(t) && InsertsTransaction(w) && w.user != other
    ensures var r := Apply(t, c, w); r.Ok? ==> SameMoney(t, r.Or(t), other)
  {
    hide SameMoney, AdjustGoal, GoalBalance;
    if w.GoalContribution? && Apply(t, c, w).Ok? {
      ContributeShape(t, c.source, w);
      ContributedRow(t, c.source, w);
    }
    if Apply(t, c, w).Ok? {
      var u := Apply(t, c, w).value;
      assert u.txs == t.txs[t.nextId := u.txs[t.nextId]] && u.txs[t.nextId].user == w.user;
      hide Apply;
      ShapeTouchesOwn(t, u, w.user, other);
    }
  }

  lemma DeleteTouchesOwn(t: Tables, user: Id, id: Id, source: Option<string>, other: Id)
    requires user != other
    ensures var r := DeleteTx(t, user, id, source); r.Ok? ==> SameMoney(t, r.Or(t), other)
  {
    hide DeleteTx, SameMoney;
    DeleteTxShape(t, user, id, source);
    if DeleteTx(t, user, id, source).Ok? {
      ShapeTouchesOwn(t, DeleteTx(t, user, id, source).value, user, other);
    }
  }

  lemma EditTouchesOwn(t: Tables, user: Id, id: Id, amount: Option<Centavos>, category: Option<Category>,
                       note: Option<string>, source: Option<string>, other: Id)
    requires user != other
    ensures var r := EditTx(t, user, id, amount, category, note, source); r.Ok? ==> SameMoney(t, r.Or(t), other)
  {
    hide EditTx, SameMoney, PatchTx;
    EditTxShape(t, user, id, amount, category, note, source);
    if id in t.txs {
      PatchKeepsLink(t.txs[id], amount, category, note);
    }
    if EditTx(t, user, id, amount, category, note, source).Ok? {
      ShapeTouchesOwn(t, EditTx(t, user, id, amount, category, note, source).value, user, other);
    }
  }

  lemma NothingMoved(t: Tables, user: Id)
    ensures SameMoney(t, t, user)
  {
  }

  lemma CorrectionsTouchOwn(t: Tables, c: Carry, w: WriteIntent, other: Id)
    requires (w.EditLast? || w.DeleteLast?) && w.user != other
    ensures var r := Apply(t, c, w); r.Ok? ==> SameMoney(t, r.Or(t), other)
  {
    hide EditTx, DeleteTx, SameMoney;
    NothingMoved(t, other);
    if Target(c, w).Some? {
      if w.DeleteLast? {
        DeleteTouchesOwn(t, w.user, Target(c, w).value, c.source, other);
      } else {
        EditTouchesOwn(t, w.user, Target(c, w).value, w.newAmount, w.newCategory, w.newNote, c.source, other);
      }
    }
  }

  /** The cascade of a goal deletion stays inside the user too, because only the owner's rows link to it. */
  lemma RemovalTouchesOwn(t: Tables, user: Id, goal: Id, other: Id)
    requires Sound(t) && user != other
    ensures SameMoney(t, RemoveGoal(t, user, goal), other)
  {
    hide Conserved;
  }

  lemma NamingTouchesOwn(t: Tables, c: Carry, w: WriteIntent, other: Id)
    requires Bounded(t) && (w.CreateGoal? || w.EditGoal?) && w.user != other
    ensures var r := Apply(t, c, w); r.Ok? ==> SameMoney(t, r.Or(t), other)
  {
    hide SameName, Truncate;
  }

  lemma GoalWritesTouchOwn(t: Tables, c: Carry, w: WriteIntent, other: Id)
    requires Sound(t) && (w.CreateGoal? || w.EditGoal? || w.DeleteGoal?) && w.user != other
    ensures var r := Apply(t, c, w); r.Ok? ==> SameMoney(t, r.Or(t), other)
  {
    hide SameMoney, RemoveGoal, InsertGoal, PatchGoal, Conserved;
    if w.DeleteGoal? {
      RemovalTouchesOwn(t, w.user, w.goal, other);
    } else {
      NamingTouchesOwn(t, c, w, other);
    }
  }

  // ---------------------------------------------------------------- everything else

  lemma MemoriesTouchOwn(t: Tables, c: Carry, w: WriteIntent, other: Id)
    requires Bounded(t) && (w.SaveMemory? || w.ForgetMemory?) && w.user != other
    ensures var r := Apply(t, c, w); r.Ok? ==> SameRest(t, r.Or(t), other)
  {
    var s := Memory.Store(t.memories, t.nextId);
    if w.SaveMemory? {
      Memory.SaveTouchesOwn(s, w.user, w.content, w.memoryKind, other);
      KeptFacts(t, s.Save(w.user, w.content, w.memoryKind), other);
    } else {
      Memory.ForgetTouchesOwn(s, w.user, w.query, other);
      KeptFacts(t, s.Forget(w.user, w.query), other);
    }
  }

  lemma KeptFacts(t: Tables, s: Memory.Store, user: Id)
    requires Memory.SameFacts(t.memories, s.rows, user)
    ensures SameRest(t, WithMemories(t, s), user)
  {
  }

  lemma UpsertTouchesOwn(t: Tables, user: Id, input: RecurringInput, other: Id)
    requires Bounded(t) && user != other
    ensures var r := UpsertRecurring(t, user, input); r.Ok? ==> SameRest(t, r.Or(t), other)
  {
    hide RecurringChecks, Lower, Truncate;
  }

  lemma DropTouchesOwn(t: Tables, user: Id, query: string, other: Id)
    requires user != other
    ensures SameRest(t, DropRecurring(t, user, query), other)
  {
    hide RecurringTarget;
  }

  lemma ReviseTouchesOwn(t: Tables, w: WriteIntent, other: Id)
    requires w.EditRecurring? && w.user != other
    ensures var r := ReviseRecurring(t, w); r.Ok? ==> SameRest(t, r.Or(t), other)
  {
    hide RecurringChecks, RecurringTarget;
  }

  lemma BillsTouchOwn(t: Tables, c: Carry, w: WriteIntent, other: Id)
    requires Bounded(t) && (w.AddRecurring? || w.RemoveRecurring? || w.EditRecurring?) && w.user != other
    ensures var r := Apply(t, c, w); r.Ok? ==> SameRest(t, r.Or(t), other)
  {
    hide UpsertRecurring, DropRecurring, ReviseRecurring, SameRest;
    if w.AddRecurring? {
      UpsertTouchesOwn(t, w.user, w.recurring, other);
    } else if w.RemoveRecurring? {
      DropTouchesOwn(t, w.user, w.query, other);
    } else {
      ReviseTouchesOwn(t, w, other);
    }
  }

  lemma EqualTablesSameRest(t: Tables, u: Tables, other: Id)
    requires u.recurring == t.recurring && u.memories == t.memories
    requires forall c: Category :: (other, c) in t.budgets <==> (other, c) in u.budgets
    requires forall c: Category :: (other, c) in t.budgets && (other, c) in u.budgets ==>
               u.budgets[(other, c)] == t.budgets[(other, c)]
    ensures SameRest(t, u, other)
  {
  }

  lemma MoneyLeavesRest(t: Tables, c: Carry, w: WriteIntent, other: Id)
    requires Bounded(t) && MovesMoney(w)
    ensures var r := Apply(t, c, w); r.Ok? ==> SameRest(t, r.Or(t), other)
  {
    hide Apply, SameRest;
    Constraints.OthersKeepRest(t, c, w);
    OthersKeepMemories(t, c, w);
    if Apply(t, c, w).Ok? {
      EqualTablesSameRest(t, Apply(t, c, w).value, other);
    }
  }

  lemma BudgetWrites(t: Tables, c: Carry, w: WriteIntent, other: Id)
    requires w.user != other && (w.SetBudget? || w.RemoveBudget?) && Apply(t, c, w).Ok?
    ensures var u := Apply(t, c, w).value;
            && u == t.(budgets := u.budgets)
            && (forall c: Category :: (other, c) in t.budgets <==> (other, c) in u.budgets)
            && (forall c: Category :: (other, c) in t.budgets && (other, c) in u.budgets ==>
                  u.budgets[(other, c)] == t.budgets[(other, c)])
  {
  }

  lemma PlainTouchesOwn(t: Tables, c: Carry, w: WriteIntent, other: Id)
    requires Bounded(t) && w.user != other && (w.SetBudget? || w.RemoveBudget? || w.Transfer? || IsBookkeeping(w))
    ensures var r := Apply(t, c, w); r.Ok? ==> SameRest(t, r.Or(t), other)
  {
    hide Apply, SameRest;
    Constraints.OthersKeepRest(t, c, w);
    OthersKeepMemories(t, c, w);
    if Apply(t, c, w).Ok? {
      if w.SetBudget? || w.RemoveBudget? {
        BudgetWrites(t, c, w, other);
      }
      EqualTablesSameRest(t, Apply(t, c, w).value, other);
    }
  }

  lemma ApplyTouchesOwn(t: Tables, c: Carry, w: WriteIntent, other: Id)
    requires Sound(t) && w.user != other
    ensures var r := Apply(t, c, w); r.Ok? ==> Untouched(t, r.Or(t), other)
  {
    hide Apply, SameMoney, SameRest, SameLogs, Sound;
    SoundIsBounded(t);
    ApplyAppends(t, c, w);
    if Apply(t, c, w).Ok? {
      AppendsLeavesOthers(t, Apply(t, c, w).value, w.user, other);
    }
    MoneyAndRestTouchOwn(t, c, w, other);
  }

  lemma SoundIsBounded(t: Tables)
    requires Sound(t)
    ensures Bounded(t)
  {
  }

  lemma FrameIsSameMoney(t: Tables, u: Tables, other: Id)
    requires u.txs == t.txs && u.goals == t.goals
    ensures SameMoney(t, u, other)
  {
  }

  lemma MoneyAndRestTouchOwn(t: Tables, c: Carry, w: WriteIntent, other: Id)
    requires Sound(t) && w.user != other
    ensures var r := Apply(t, c, w); r.Ok? ==> SameMoney(t, r.Or(t), other) && SameRest(t, r.Or(t), other)
  {
    SoundIsBounded(t);
    hide Apply, SameMoney, SameRest, Sound;
    if MovesMoney(w) {
      MoneyLeavesRest(t, c, w, other);
      if InsertsTransaction(w) {
        InsertsTouchOwn(t, c, w, other);
      } else if w.EditLast? || w.DeleteLast? {
        CorrectionsTouchOwn(t, c, w, other);
      } else {
        GoalWritesTouchOwn(t, c, w, other);
      }
    } else {
      OthersFrame(t, c, w);
      if Apply(t, c, w).Ok? {
        FrameIsSameMoney(t, Apply(t, c, w).value, other);
      }
      if w.SaveMemory? || w.ForgetMemory? {
        MemoriesTouchOwn(t, c, w, other);
      } else if w.AddRecurring? || w.RemoveRecurring? || w.EditRecurring? {
        BillsTouchOwn(t, c, w, other);
      } else {
        PlainTouchesOwn(t, c, w, other);
      }
    }
  }

  /** A batch of one user's writes leaves every other user's rows exactly as they were. */
  lemma {:induction false} BatchTouchesOwn(t: Tables, c: Carry, ws: seq<WriteIntent>, user: Id, other: Id)
    requires Sound(t) && user != other
    requires forall w :: w in ws ==> w.user == user && OwnGoal(t, w)
    ensures var r := ApplyAll(t, c, ws); r.Ok? ==> Untouched(t, r.Or((t, c)).0, other)
    decreases |ws|
  {
    if ws != [] {
      var w := ws[0];
      assert w in ws;
      ApplyTouchesOwn(t, c, w, other);
      ApplyKeepsSound(t, c, w);
      ApplyEvolves(t, c, w);
      hide Apply, Untouched, Sound, Evolves;
      var r := Apply(t, c, w);
      if r.Ok? {
        forall x | x in ws[1..]
          ensures x.user == user && OwnGoal(r.value, x)
        {
          assert x in ws;
          OwnGoalIsStable(t, r.value, x);
        }
        BatchTouchesOwn(r.value, Advance(t, c, w), ws[1..], user, other);
        if ApplyAll(t, c, ws).Ok? {
          UntouchedTransitive(t, r.value, ApplyAll(t, c, ws).value.0, other);
        }
      }
    }
  }
}

/** Goal conservation: a goal's stored balance is the sum of the transactions linked to it. */
module Goals {
  import opened Prelude
  import opened Text
  import opened Domain
  import opened Ledger
  import opened Evolution

  function LinkedAmount(txs: map<Id, TxRow>, goal: Id, i: Id): int {
    if i in txs && txs[i].goal == Some(goal) then txs[i].amount else 0
  }

  /** `select sum(amount_centavos) from transactions where goal_id = goal`, over ids below `n`. */
  function LinkedSum(txs: map<Id, TxRow>, goal: Id, n: Id): int {
    if n == 0 then 0 else LinkedSum(txs, goal, n - 1) + LinkedAmount(txs, goal, n - 1)
  }

  ghost predicate Conserved(t: Tables) {
    forall g :: g in t.goals ==> t.goals[g].saved == LinkedSum(t.txs, g, t.nextId)
  }

  /** Stored amounts are positive, and a linked row is a Savings/Goals expense of the goal's owner. */
  ghost predicate WellLinked(t: Tables) {
    && Bounded(t)
    && (forall g :: g in t.goals ==> 0 <= t.goals[g].saved <= I64_MAX)
    && (forall i :: i in t.txs ==> SafeAmount(t.txs[i].amount))
    && (forall i :: i in t.txs && t.txs[i].goal.Some? ==> LinkOk(t, t.txs[i]))
  }

  predicate LinkOk(t: Tables, row: TxRow)
    requires row.goal.Some?
  {
    && row.goal.value in t.goals && t.goals[row.goal.value].user == row.user
    && row.kind == TxKind.Expense && row.category == SavingsGoals
  }

  ghost predicate Sound(t: Tables) {
    WellLinked(t) && Conserved(t)
  }

  // ---------------------------------------------------------------- sums

  lemma {:induction false} SumAgrees(a: map<Id, TxRow>, b: map<Id, TxRow>, goal: Id, n: Id)
    requires forall i: Id :: i < n ==> LinkedAmount(a, goal, i) == LinkedAmount(b, goal, i)
    ensures LinkedSum(a, goal, n) == LinkedSum(b, goal, n)
  {
    if n > 0 {
      SumAgrees(a, b, goal, n - 1);
    }
  }

  /** Changing one row moves the sum by that row's difference. */
  lemma {:induction false} SumMoves(a: map<Id, TxRow>, b: map<Id, TxRow>, goal: Id, n: Id, k: Id)
    requires k < n
    requires forall i: Id :: i < n && i != k ==> LinkedAmount(a, goal, i) == LinkedAmount(b, goal, i)
    ensures LinkedSum(b, goal, n) == LinkedSum(a, goal, n) - LinkedAmount(a, goal, k) + LinkedAmount(b, goal, k)
  {
    if k == n - 1 {
      SumAgrees(a, b, goal, n - 1);
    } else {
      SumMoves(a, b, goal, n - 1, k);
    }
  }

  lemma {:induction false} SumIsZero(txs: map<Id, TxRow>, goal: Id, n: Id)
    requires forall i: Id :: i < n ==> LinkedAmount(txs, goal, i) == 0
    ensures LinkedSum(txs, goal, n) == 0
  {
    if n > 0 {
      SumIsZero(txs, goal, n - 1);
    }
  }

  lemma {:induction false} SumCovers(txs: map<Id, TxRow>, goal: Id, n: Id, k: Id)
    requires forall i :: i in txs ==> txs[i].amount > 0
    ensures LinkedSum(txs, goal, n) >= 0
    ensures k < n ==> LinkedSum(txs, goal, n) >= LinkedAmount(txs, goal, k)
  {
    if n > 0 {
      SumCovers(txs, goal, n - 1, k);
    }
  }

  // ---------------------------------------------------------------- the writes that move money

  /** Linking a new row: conserved when the goal moves with it. */
  lemma InsertMoves(t: Tables, u: Tables, row: TxRow)
    requires Sound(t)
    requires u.txs == t.txs[t.nextId := row] && u.nextId == t.nextId + 1
    requires u.goals.Keys == t.goals.Keys && forall g :: g in t.goals ==> u.goals[g].user == t.goals[g].user
    requires forall g :: g in t.goals ==>
               u.goals[g].saved == t.goals[g].saved + if row.goal == Some(g) then row.amount else 0
    ensures Conserved(u)
  {
    forall g | g in u.goals
      ensures u.goals[g].saved == LinkedSum(u.txs, g, u.nextId)
    {
      SumAgrees(t.txs, u.txs, g, t.nextId);
    }
  }

  /** Replacing or removing the row `k`: conserved when the goal moves by the difference. */
  lemma UpdateMoves(t: Tables, u: Tables, k: Id)
    requires Sound(t) && k in t.txs && u.nextId == t.nextId
    requires forall i :: i != k ==> (i in u.txs <==> i in t.txs) && (i in t.txs ==> u.txs[i] == t.txs[i])
    requires u.goals.Keys == t.goals.Keys
    requires forall g :: g in t.goals ==>
               u.goals[g].saved == t.goals[g].saved - LinkedAmount(t.txs, g, k) + LinkedAmount(u.txs, g, k)
    ensures Conserved(u)
  {
    forall g | g in u.goals
      ensures u.goals[g].saved == LinkedSum(u.txs, g, u.nextId)
    {
      SumMoves(t.txs, u.txs, g, t.nextId, k);
    }
  }

  lemma LogKeepsSound(t: Tables, source: Option<string>, w: WriteIntent)
    requires Sound(t) && w.Transaction?
    ensures var r := LogTransaction(t, source, w); r.Ok? ==> Sound(r.Or(t))
  {
    var r := LogTransaction(t, source, w);
    if r.Ok? {
      InsertMoves(t, r.value, r.value.txs[t.nextId]);
    }
  }

  /** A contribution committed from a sound state keeps it sound exactly when the goal is the
      contributor's own: the insert links any existing goal, the balance update only an owned one. */
  lemma ContributionIsConservedIffOwned(t: Tables, source: Option<string>, w: WriteIntent)
    requires Sound(t) && w.GoalContribution?
    ensures var r := Contribute(t, source, w);
            r.Ok? ==> w.goal in t.goals && (Sound(r.value) <==> t.goals[w.goal].user == w.user)
    ensures var r := Contribute(t, source, w);
            r.Ok? ==> (Conserved(r.value) <==> t.goals[w.goal].user == w.user)
  {
    var r := Contribute(t, source, w);
    if r.Ok? {
      var u := r.value;
      ContributionEffect(t, source, w);
      hide Contribute;
      if t.goals[w.goal].user == w.user {
        InsertMoves(t, u, u.txs[t.nextId]);
        NewLinkIsOk(t, u, w);
      } else {
        SumAgrees(t.txs, u.txs, w.goal, t.nextId);
        assert u.goals[w.goal].saved != LinkedSum(u.txs, w.goal, u.nextId);
      }
    }
  }

  /** A committed contribution, spelled out: a linked row, and the goal's balance only if it is owned. */
  lemma ContributionEffect(t: Tables, source: Option<string>, w: WriteIntent)
    requires Sound(t) && w.GoalContribution? && Contribute(t, source, w).Ok?
    ensures var u := Contribute(t, source, w).value;
            var row := TxRow(w.user, TxKind.Expense, w.amount, SavingsGoals, None, w.date, Some(w.goal), None, source);
            && w.goal in t.goals && SafeAmount(w.amount) && u.txs == t.txs[t.nextId := row] && u.nextId == t.nextId + 1
            && u == t.(txs := u.txs, goals := u.goals, events := u.events, nextId := u.nextId)
            && u.goals.Keys == t.goals.Keys
            && forall g :: g in t.goals ==>
                 && u.goals[g].user == t.goals[g].user && 0 <= u.goals[g].saved <= I64_MAX
                 && u.goals[g].saved == t.goals[g].saved + if g == w.goal && t.goals[g].user == w.user then w.amount else 0
  {
    hide Conserved, GoalBalance;
  }

  lemma NewLinkIsOk(t: Tables, u: Tables, w: WriteIntent)
    requires WellLinked(t) && w.GoalContribution? && w.goal in t.goals && t.goals[w.goal].user == w.user && SafeAmount(w.amount)
    requires t.nextId in u.txs && u.txs == t.txs[t.nextId := u.txs[t.nextId]] && u.nextId == t.nextId + 1
    requires u.txs[t.nextId]
             == TxRow(w.user, TxKind.Expense, w.amount, SavingsGoals, None, w.date, Some(w.goal), None, u.txs[t.nextId].source)
    requires u.recurring == t.recurring && u.memories == t.memories && u.goals.Keys == t.goals.Keys
    requires forall g :: g in t.goals ==> u.goals[g].user == t.goals[g].user && 0 <= u.goals[g].saved <= I64_MAX
    ensures WellLinked(u)
  {
  }

  /** Removing the money of a linked row from its goal never trips a CHECK. */
  lemma WithdrawOk(t: Tables, id: Id)
    requires Sound(t) && id in t.txs && t.txs[id].goal.Some?
    ensures var row := t.txs[id]; var g := row.goal.value;
            var r := AdjustGoal(t, row.user, g, -row.amount);
            && r.Ok? && r.value == t.(goals := t.goals[g := t.goals[g].(saved := t.goals[g].saved - row.amount)])
            && 0 <= r.value.goals[g].saved
  {
    SumCovers(t.txs, t.txs[id].goal.value, t.nextId, id);
  }

  /** Links stay well formed when rows keep or lose their link and goals keep their owner. */
  lemma LinksSurvive(t: Tables, u: Tables)
    requires WellLinked(t) && Bounded(u)
    requires u.goals.Keys == t.goals.Keys && forall g :: g in t.goals ==> u.goals[g].user == t.goals[g].user
    requires forall g :: g in u.goals ==> 0 <= u.goals[g].saved <= I64_MAX
    requires forall i :: i in u.txs ==> i in t.txs && SafeAmount(u.txs[i].amount)
    requires forall i :: i in u.txs ==> && u.txs[i].goal == t.txs[i].goal && u.txs[i].user == t.txs[i].user
                                        && (u.txs[i].goal.Some? ==> && u.txs[i].kind == t.txs[i].kind
                                                                    && u.txs[i].category == t.txs[i].category)
    ensures WellLinked(u)
  {
  }

  /** What a deletion does to the balances: an owned row goes, and its goal gets exactly its amount back. */
  lemma DeleteMoves(t: Tables, user: Id, id: Id, source: Option<string>)
    requires Sound(t) && id in t.txs && t.txs[id].user == user
    ensures DeleteTx(t, user, id, source).Ok?
    ensures var u := DeleteTx(t, user, id, source).value;
            && u.txs == t.txs - {id} && u.nextId == t.nextId && u.goals.Keys == t.goals.Keys
            && forall g :: g in t.goals ==>
                 && u.goals[g].user == t.goals[g].user && 0 <= u.goals[g].saved <= I64_MAX
                 && u.goals[g].saved == t.goals[g].saved - if t.txs[id].goal == Some(g) then t.txs[id].amount else 0
  {
    if t.txs[id].goal.Some? {
      WithdrawOk(t, id);
    }
    hide AdjustGoal, GoalBalance, Conserved;
  }

  /** Deleting never trips the non-negative CHECK, whoever deletes whatever; an owned row disappears and
      its goal gets exactly the row's amount back, anything else changes nothing. */
  lemma DeleteKeepsSound(t: Tables, user: Id, id: Id, source: Option<string>)
    requires Sound(t)
    ensures var r := DeleteTx(t, user, id, source); r.Ok? && Sound(r.value)
    ensures var u := DeleteTx(t, user, id, source).value;
            if id in t.txs && t.txs[id].user == user then
              && u.txs == t.txs - {id} && u.goals.Keys == t.goals.Keys
              && forall g :: g in t.goals ==>
                   u.goals[g].saved == t.goals[g].saved - if t.txs[id].goal == Some(g) then t.txs[id].amount else 0
            else u == t
  {
    if id in t.txs && t.txs[id].user == user {
      DeleteTxShape(t, user, id, source);
      DeleteMoves(t, user, id, source);
      hide DeleteTx;
      var u := DeleteTx(t, user, id, source).value;
      UpdateMoves(t, u, id);
      LinksSurvive(t, u);
    }
  }

  /** On a sound ledger an edit of an owned row fails exactly when the new amount is outside the
      allowed range or the goal's balance would leave the bigint; the non-negative CHECK never fires. */
  lemma EditFailsExactlyWhen(t: Tables, user: Id, id: Id, amount: Option<Centavos>, category: Option<Category>,
                             note: Option<string>, source: Option<string>)
    requires Sound(t) && id in t.txs && t.txs[id].user == user
    ensures var row := t.txs[id];
            EditTx(t, user, id, amount, category, note, source).Err?
            <==> amount.Some? && (!SafeAmount(amount.value)
                                  || (MovesGoal(row, amount)
                                      && t.goals[row.goal.value].saved + amount.value - row.amount > I64_MAX))
  {
    var row := t.txs[id];
    if MovesGoal(row, amount) {
      SumCovers(t.txs, row.goal.value, t.nextId, id);
    }
  }

  /** What an edit does to the balances: each goal moves by the change in the row's linked amount. */
  lemma EditMoves(t: Tables, user: Id, id: Id, amount: Option<Centavos>, category: Option<Category>,
                  note: Option<string>, source: Option<string>)
    requires Sound(t) && id in t.txs && t.txs[id].user == user
    ensures var row, row' := t.txs[id], PatchTx(t.txs[id], amount, category, note);
            var r := EditTx(t, user, id, amount, category, note, source);
            r.Ok? ==> && SafeAmount(row'.amount) && r.value.txs == t.txs[id := row'] && r.value.nextId == t.nextId
                      && r.value.goals.Keys == t.goals.Keys
                      && forall g :: g in t.goals ==>
                           && r.value.goals[g].user == t.goals[g].user
                           && 0 <= r.value.goals[g].saved <= I64_MAX
                           && r.value.goals[g].saved == t.goals[g].saved + if row.goal == Some(g) then row'.amount - row.amount else 0
  {
    hide PatchTx, StoreEdit, AdjustGoal, Record;
    var row, row' := t.txs[id], PatchTx(t.txs[id], amount, category, note);
    PatchedAmount(row, amount, category, note);
    if EditTx(t, user, id, amount, category, note, source).Ok? {
      RebalanceEffect(t, id, amount);
      StoreEffect(Rebalance(t, row, amount).value, id, row, amount, category, note, source);
    }
  }

  lemma PatchedAmount(row: TxRow, amount: Option<Centavos>, category: Option<Category>, note: Option<string>)
    ensures PatchTx(row, amount, category, note).amount == Or<int>(amount, row.amount)
  {
  }

  /** The goal moves by the difference, and only if the amount really changes. */
  lemma RebalanceEffect(t: Tables, id: Id, amount: Option<Centavos>)
    requires Sound(t) && id in t.txs && Rebalance(t, t.txs[id], amount).Ok?
    ensures var u, row := Rebalance(t, t.txs[id], amount).value, t.txs[id];
            && u == t.(goals := u.goals) && u.goals.Keys == t.goals.Keys
            && forall g :: g in t.goals ==>
                 && u.goals[g].user == t.goals[g].user && 0 <= u.goals[g].saved <= I64_MAX
                 && u.goals[g].saved
                    == t.goals[g].saved + if row.goal == Some(g) then Or<int>(amount, row.amount) - row.amount else 0
  {
    hide Conserved;
  }

  lemma StoreEffect(t: Tables, id: Id, row: TxRow, amount: Option<Centavos>, category: Option<Category>,
                    note: Option<string>, source: Option<string>)
    requires id in t.txs && t.txs[id] == row && SafeAmount(row.amount)
    requires StoreEdit(t, id, row, amount, category, note, source).Ok?
    ensures var u, row' := StoreEdit(t, id, row, amount, category, note, source).value, PatchTx(row, amount, category, note);
            u.txs == t.txs[id := row'] && u == t.(txs := u.txs, events := u.events) && SafeAmount(row'.amount)
  {
    hide GoalBalance, TruncateOpt;
    if amount.None? && note.None? && !(category.Some? && row.goal.None?) {
      assert PatchTx(row, amount, category, note) == row;
    }
  }

  /** A committed edit keeps conservation: the goal of the row, if any, moves by exactly the change of
      the row's amount, and every other balance stays. */
  lemma EditKeepsSound(t: Tables, user: Id, id: Id, amount: Option<Centavos>, category: Option<Category>,
                       note: Option<string>, source: Option<string>)
    requires Sound(t)
    ensures var r := EditTx(t, user, id, amount, category, note, source); r.Ok? ==> Sound(r.Or(t))
    ensures var r := EditTx(t, user, id, amount, category, note, source);
            r.Ok? ==> if id in t.txs && t.txs[id].user == user then
                        && r.value.goals.Keys == t.goals.Keys
                        && forall g :: g in t.goals ==>
                             r.value.goals[g].saved
                             == t.goals[g].saved
                                + if t.txs[id].goal == Some(g) then Or<int>(amount, t.txs[id].amount) - t.txs[id].amount else 0
                      else r.value == t
  {
    hide PatchTx, SafeAmount, StoreEdit, Rebalance;
    var r := EditTx(t, user, id, amount, category, note, source);
    if r.Ok? && id in t.txs && t.txs[id].user == user {
      EditMoves(t, user, id, amount, category, note, source);
      EditTxEvolves(t, user, id, amount, category, note, source);
      PatchKeepsLink(t.txs[id], amount, category, note);
      PatchedAmount(t.txs[id], amount, category, note);
      hide EditTx;
      UpdateMoves(t, r.value, id);
      LinksSurvive(t, r.value);
    }
  }

  lemma PatchKeepsLink(row: TxRow, amount: Option<Centavos>, category: Option<Category>, note: Option<string>)
    ensures var row' := PatchTx(row, amount, category, note);
            && row'.goal == row.goal && row'.user == row.user && row'.kind == row.kind
            && (row.goal.Some? ==> row'.category == row.category)
  {
  }

  // ---------------------------------------------------------------- the writes that move goals

  lemma RemoveGoalKeepsSound(t: Tables, user: Id, goal: Id)
    requires Sound(t)
    ensures Sound(RemoveGoal(t, user, goal))
  {
    var u := RemoveGoal(t, user, goal);
    RemoveGoalEvolves(t, user, goal);
    if goal !in t.goals || t.goals[goal].user != user {
      assert u.txs == t.txs;
    } else {
      forall g | g in u.goals
        ensures u.goals[g].saved == LinkedSum(u.txs, g, u.nextId)
      {
        SumAgrees(t.txs, u.txs, g, t.nextId);
      }
    }
  }

  /** A new goal starts at zero under a fresh id that no transaction is linked to. */
  lemma InsertGoalKeepsSound(t: Tables, w: WriteIntent)
    requires Sound(t) && w.CreateGoal?
    ensures var r := InsertGoal(t, w); r.Ok? ==> Sound(r.Or(t))
    ensures var r := InsertGoal(t, w);
            r.Ok? && r.value != t ==>
              && t.nextId !in t.goals && r.value.goals.Keys == t.goals.Keys + {t.nextId}
              && r.value.goals[t.nextId].saved == 0 && forall i :: i in r.value.txs ==> r.value.txs[i].goal != Some(t.nextId)
  {
    hide SameName, Truncate;
    var r := InsertGoal(t, w);
    if r.Ok? && r.value != t {
      forall g | g in r.value.goals
        ensures r.value.goals[g].saved == LinkedSum(r.value.txs, g, r.value.nextId)
      {
        SumAgrees(t.txs, r.value.txs, g, t.nextId);
        if g == t.nextId {
          SumIsZero(t.txs, g, t.nextId);
        }
      }
    }
  }

  lemma FrameKeepsSound(t: Tables, u: Tables)
    requires Sound(t) && Bounded(u) && u.txs == t.txs && t.nextId <= u.nextId
    requires u.goals.Keys == t.goals.Keys
    requires forall g :: g in t.goals ==> u.goals[g].user == t.goals[g].user && u.goals[g].saved == t.goals[g].saved
    ensures Sound(u)
  {
    forall g | g in u.goals
      ensures u.goals[g].saved == LinkedSum(u.txs, g, u.nextId)
    {
      SumStops(t.txs, g, t.nextId, u.nextId);
    }
  }

  lemma {:induction false} SumStops(txs: map<Id, TxRow>, goal: Id, n: Id, m: Id)
    requires n <= m && forall i :: i in txs ==> i < n
    ensures LinkedSum(txs, goal, m) == LinkedSum(txs, goal, n)
  {
    if n < m {
      SumStops(txs, goal, n, m - 1);
    }
  }

  // ---------------------------------------------------------------- every write, every batch

  /** The one assumption: a contribution names a goal id that already existed for someone else never.
      Tool-built batches satisfy it, because the id comes from the user's own goal list. */
  predicate OwnGoal(t: Tables, w: WriteIntent) {
    w.GoalContribution? ==> w.goal < t.nextId && (w.goal in t.goals ==> t.goals[w.goal].user == w.user)
  }

  lemma OwnGoalIsStable(t: Tables, u: Tables, w: WriteIntent)
    requires Evolves(t, u) && OwnGoal(t, w)
    ensures OwnGoal(u, w)
  {
  }

  lemma OtherWritesKeepSound(t: Tables, c: Carry, w: WriteIntent)
    requires Sound(t) && !MovesMoney(w)
    ensures var r := Apply(t, c, w); r.Ok? ==> Sound(r.Or(t))
  {
    OthersFrame(t, c, w);
    var r := Apply(t, c, w);
    if r.Ok? {
      FrameKeepsSound(t, r.value);
    }
  }

  lemma PatchGoalKeepsSound(t: Tables, w: WriteIntent)
    requires Sound(t) && w.EditGoal?
    ensures var r := PatchGoal(t, w); r.Ok? ==> Sound(r.Or(t))
  {
    var r := PatchGoal(t, w);
    if r.Ok? {
      FrameKeepsSound(t, r.value);
    }
  }

  lemma ApplyKeepsSound(t: Tables, c: Carry, w: WriteIntent)
    requires Sound(t) && OwnGoal(t, w)
    ensures var r := Apply(t, c, w); r.Ok? ==> Sound(r.Or(t))
  {
    if !MovesMoney(w) {
      OtherWritesKeepSound(t, c, w);
    } else if w.Transaction? {
      LogKeepsSound(t, c.source, w);
    } else if w.GoalContribution? {
      ContributionIsConservedIffOwned(t, c.source, w);
    } else if w.DeleteLast? {
      if Target(c, w).Some? {
        DeleteKeepsSound(t, w.user, Target(c, w).value, c.source);
      }
    } else if w.EditLast? {
      if Target(c, w).Some? {
        EditKeepsSound(t, w.user, Target(c, w).value, w.newAmount, w.newCategory, w.newNote, c.source);
      }
    } else if w.CreateGoal? {
      InsertGoalKeepsSound(t, w);
    } else if w.EditGoal? {
      PatchGoalKeepsSound(t, w);
    } else {
      RemoveGoalKeepsSound(t, w.user, w.goal);
    }
  }

  /** Conservation survives any batch of writes that contributes only to the users' own goals. */
  lemma {:induction false} BatchKeepsSound(t: Tables, c: Carry, ws: seq<WriteIntent>)
    requires Sound(t) && forall w :: w in ws ==> OwnGoal(t, w)
    ensures var r := ApplyAll(t, c, ws); r.Ok? ==> Sound(r.Or((t, c)).0)
    decreases |ws|
  {
    if ws != [] {
      assert ws[0] in ws;
      ApplyKeepsSound(t, c, ws[0]);
      ApplyEvolves(t, c, ws[0]);
      var r := Apply(t, c, ws[0]);
      if r.Ok? {
        forall w | w in ws[1..]
          ensures OwnGoal(r.value, w)
        {
          assert w in ws;
        }
        BatchKeepsSound(r.value, Advance(t, c, ws[0]), ws[1..]);
      }
    }
  }

  // ---------------------------------------------------------------- reconciliation

  predicate Drifted(t: Tables, g: Id)
    requires g in t.goals
  {
    t.goals[g].saved != LinkedSum(t.txs, g, t.nextId)
  }

  function DriftedGoals(t: Tables, user: Id): set<Id> {
    set g | g in t.goals && t.goals[g].user == user && Drifted(t, g)
  }

  /** reconcile_goal_balances: the drifted goals of one user take the sum of their rows. The sum is
      not filtered by user, and one that leaves the bigint, or the CHECK, aborts the statement. */
  function Reconcile(t: Tables, user: Id): Result<(Tables, nat)> {
    var fixed := DriftedGoals(t, user);
    if exists g :: g in fixed && LinkedSum(t.txs, g, t.nextId) > I64_MAX then Err(NumericOverflow)
    else if exists g :: g in fixed && LinkedSum(t.txs, g, t.nextId) < 0 then Err(CheckViolation)
    else
      var goals := map g | g in t.goals ::
                     if g in fixed then t.goals[g].(saved := LinkedSum(t.txs, g, t.nextId)) else t.goals[g];
      Ok((t.(goals := goals), |fixed|))
  }

  /** It can fail only because some goal's true sum no longer fits its column. */
  lemma ReconcileFailsExactlyWhen(t: Tables, user: Id)
    requires WellLinked(t)
    ensures Reconcile(t, user).Err?
            <==> exists g :: g in t.goals && t.goals[g].user == user && LinkedSum(t.txs, g, t.nextId) > I64_MAX
  {
    forall g | g in t.goals
      ensures LinkedSum(t.txs, g, t.nextId) >= 0
    {
      SumCovers(t.txs, g, t.nextId, 0);
    }
    if g :| g in t.goals && t.goals[g].user == user && LinkedSum(t.txs, g, t.nextId) > I64_MAX {
      assert g in DriftedGoals(t, user);
    }
  }

  /** On conserved balances it is the identity and reports zero rows; it reports zero only then. */
  lemma ReconcileIsIdentityIffConserved(t: Tables, user: Id)
    ensures Reconcile(t, user) == Ok((t, 0)) <==> DriftedGoals(t, user) == {}
    ensures Reconcile(t, user).Ok? && DriftedGoals(t, user) != {} ==> Reconcile(t, user).value.0 != t
  {
    var fixed, r := DriftedGoals(t, user), Reconcile(t, user);
    if fixed == {} {
      assert r.Ok? && r.value.0.goals == t.goals;
    } else if r.Ok? {
      var g :| g in fixed;
      assert r.value.0.goals[g].saved != t.goals[g].saved;
    }
  }

  /** From any drift of the balances it restores the user's goals, touches no one else's, keeps every
      other invariant, and a second run finds nothing left to do. */
  lemma ReconcileRestores(t: Tables, user: Id)
    requires WellLinked(t) && Reconcile(t, user).Ok?
    ensures var u := Reconcile(t, user).value.0;
            && u == t.(goals := u.goals) && u.goals.Keys == t.goals.Keys
            && (forall g :: g in t.goals && t.goals[g].user == user ==> !Drifted(u, g))
            && (forall g :: g in t.goals && t.goals[g].user != user ==> u.goals[g] == t.goals[g])
            && (forall g :: g in t.goals ==> u.goals[g] == t.goals[g].(saved := u.goals[g].saved))
            && WellLinked(u) && Reconcile(u, user) == Ok((u, 0))
  {
    var u := Reconcile(t, user).value.0;
    forall g | g in t.goals
      ensures LinkedSum(t.txs, g, t.nextId) >= 0
    {
      SumCovers(t.txs, g, t.nextId, 0);
    }
    assert DriftedGoals(u, user) == {};
    ReconcileIsIdentityIffConserved(u, user);
  }

  /** So on a conserved ledger the nightly reconciliation changes nothing, for any user. */
  lemma ReconcileIdleOnConserved(t: Tables, user: Id)
    requires Conserved(t)
    ensures Reconcile(t, user) == Ok((t, 0))
  {
    assert DriftedGoals(t, user) == {};
    ReconcileIsIdentityIffConserved(t, user);
  }

  /** The same-user guard matters: a contribution to someone else's goal commits and drifts it. */
  lemma ForeignContributionDrifts()
    ensures exists t: Tables, w: WriteIntent ::
              Sound(t) && w.GoalContribution? && Contribute(t, None, w).Ok? && !Conserved(Contribute(t, None, w).value)
  {
    var goal := GoalRow(1, "trip", 100, 0, None);
    var t := EMPTY.(goals := map[0 := goal], nextId := 1);
    SumIsZero(t.txs, 0, 1);
    var w := GoalContribution(2, 0, 5, 0);
    ContributionIsConservedIffOwned(t, None, w);
  }
}

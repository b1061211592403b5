/** The category law: over tool-built batches a transaction is categorised Income exactly when its
    kind is income, and a row linked to a goal stays a Savings/Goals expense. */
module Categories {
  import opened Prelude
  import opened Domain
  import opened Ledger
  import opened Evolution
  import opened Goals
  import opened Tools
  import opened SameTurn

  predicate Categorised(row: TxRow) {
    && (row.category == Category.Income <==> row.kind == TxKind.Income)
    && (row.goal.Some? ==> row.kind == TxKind.Expense && row.category == SavingsGoals)
  }

  ghost predicate AllCategorised(t: Tables) {
    forall i :: i in t.txs ==> Categorised(t.txs[i])
  }

  lemma InsertsCategorised(t: Tables, c: Carry, user: Id, s: Snapshot, w: WriteIntent)
    requires AllCategorised(t) && InsertsTransaction(w) && WriteOk(user, s, w)
    ensures var r := Apply(t, c, w); r.Ok? ==> AllCategorised(r.Or(t))
  {
    if w.GoalContribution? && Apply(t, c, w).Ok? {
      ContributedRow(t, c.source, w);
    }
  }

  /** Removing rows or goals, and every write outside the ledger's core, cannot break the law. */
  lemma OthersCategorised(t: Tables, c: Carry, w: WriteIntent)
    requires Bounded(t) && AllCategorised(t) && !InsertsTransaction(w) && !w.EditLast?
    ensures var r := Apply(t, c, w); r.Ok? ==> AllCategorised(r.Or(t))
  {
    if w.DeleteLast? {
      if Target(c, w).Some? {
        DeleteTxShape(t, w.user, Target(c, w).value, c.source);
      }
    } else if !MovesMoney(w) {
      OthersFrame(t, c, w);
    }
  }

  /** An edit respects the law when it recategorises only expenses, and never as income. */
  lemma EditsCategorised(t: Tables, c: Carry, w: WriteIntent)
    requires AllCategorised(t) && w.EditLast?
    requires w.newCategory.Some? ==> w.newCategory.value != Category.Income
    requires w.newCategory.Some? && Target(c, w).Some? && Target(c, w).value in t.txs ==>
               t.txs[Target(c, w).value].kind == TxKind.Expense
    ensures var r := Apply(t, c, w); r.Ok? ==> AllCategorised(r.Or(t))
  {
    if Target(c, w).Some? {
      EditTxShape(t, w.user, Target(c, w).value, w.newAmount, w.newCategory, w.newNote, c.source);
    }
  }

  /** Every prefix of a tool-built batch keeps the law. */
  lemma {:induction false} PrefixCategorised(t0: Tables, src: Option<string>, user: Id, s: Snapshot,
                                             ws: seq<WriteIntent>, n: nat)
    requires Bounded(t0) && AllCategorised(t0) && SnapshotFits(t0, user, s) && ToolBuilt(user, s, ws) && n <= |ws|
    requires ApplyAll(t0, Carry(None, src), ws[..n]).Ok?
    ensures AllCategorised(ApplyAll(t0, Carry(None, src), ws[..n]).value.0)
  {
    if n > 0 {
      var c0, w := Carry(None, src), ws[n - 1];
      assert w in ws && WriteOk(user, s, w);
      assert ws[..n] == ws[..n - 1] + [w];
      PrefixSucceeds(t0, c0, ws[..n], n - 1);
      assert ws[..n][..n - 1] == ws[..n - 1];
      PrefixCategorised(t0, src, user, s, ws, n - 1);
      BatchEvolves(t0, c0, ws[..n - 1]);
      ApplyAllSnoc(t0, c0, ws[..n - 1], w);
      hide ApplyAll, Apply;
      var r := ApplyAll(t0, c0, ws[..n - 1]).value;
      if InsertsTransaction(w) {
        InsertsCategorised(r.0, r.1, user, s, w);
      } else if w.EditLast? {
        ScanMatchesRun(t0, src, user, s, ws, n - 1);
        assert CorrectionOk(s, ws[..n - 1], w);
        hide LastBuffered;
        EditsCategorised(r.0, r.1, w);
      } else {
        OthersCategorised(r.0, r.1, w);
      }
    } else {
      assert ws[..0] == [];
    }
  }

  /** What the ledger promises between flushes. */
  ghost predicate Good(t: Tables) {
    Sound(t) && AllCategorised(t)
  }

  /** A batch the tools can build takes a good ledger to a good ledger. */
  lemma ToolBatchKeepsGood(t: Tables, src: Option<string>, user: Id, s: Snapshot, ws: seq<WriteIntent>)
    requires Good(t) && SnapshotFits(t, user, s) && ToolBuilt(user, s, ws)
    ensures var r := ApplyAll(t, Carry(None, src), ws); r.Ok? ==> Good(r.Or((t, Carry(None, src))).0)
  {
    if ApplyAll(t, Carry(None, src), ws).Ok? {
      ToolBuiltContributesToOwnGoals(t, user, s, ws);
      BatchKeepsSound(t, Carry(None, src), ws);
      assert ws[..|ws|] == ws;
      PrefixCategorised(t, src, user, s, ws, |ws|);
    }
  }

  /** The tools' guard is needed: an edit that recategorises an income row breaks the law. */
  lemma UnguardedEditBreaksTheLaw()
    ensures var row := TxRow(1, TxKind.Income, 100, Category.Income, None, 0, None, None, None);
            var t := EMPTY.(txs := map[0 := row], nextId := 1);
            var r := Apply(t, Carry(None, None), EditLast(1, Some(0), false, None, Some(Food), None));
            Good(t) && r.Ok? && !AllCategorised(r.value)
  {
    var row := TxRow(1, TxKind.Income, 100, Category.Income, None, 0, None, None, None);
    var t := EMPTY.(txs := map[0 := row], nextId := 1);
    var r := Apply(t, Carry(None, None), EditLast(1, Some(0), false, None, Some(Food), None));
    assert 0 in r.value.txs && !Categorised(r.value.txs[0]);
  }
}

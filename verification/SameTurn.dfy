/** Same-turn corrections: the tools' static scan over the buffered writes and the flush's run-time
    memory of its last insert always agree, so a correction lands on the row it was aimed at. */
module SameTurn {
  import opened Prelude
  import opened Domain
  import opened Ledger
  import opened Evolution
  import opened Goals
  import opened Tools

  // ---------------------------------------------------------------- running a prefix

  lemma ApplyAllSnoc(t: Tables, c: Carry, ws: seq<WriteIntent>, w: WriteIntent)
    ensures ApplyAll(t, c, ws + [w])
            == match ApplyAll(t, c, ws)
               case Err(e) => Err(e)
               case Ok(r) => (match Apply(r.0, r.1, w)
                              case Ok(u) => Ok((u, Advance(r.0, r.1, w)))
                              case Err(e) => Err(e))
  {
    hide Apply, Advance;
    ApplyAllConcat(t, c, ws, [w]);
    var r := ApplyAll(t, c, ws);
    if r.Ok? {
      var u := Apply(r.value.0, r.value.1, w);
      if u.Ok? {
        assert [w][1..] == [];
        assert ApplyAll(u.value, Advance(r.value.0, r.value.1, w), []) == Ok((u.value, Advance(r.value.0, r.value.1, w)));
      }
    }
  }

  lemma PrefixSucceeds(t: Tables, c: Carry, ws: seq<WriteIntent>, n: nat)
    requires n <= |ws| && ApplyAll(t, c, ws).Ok?
    ensures ApplyAll(t, c, ws[..n]).Ok?
  {
    ApplyAllConcat(t, c, ws[..n], ws[n..]);
    assert ws[..n] + ws[n..] == ws;
  }

  // ---------------------------------------------------------------- what a snapshot says of the ledger

  /** Facts about the ledger that a snapshot taken earlier guarantees for ever after. */
  ghost predicate SnapshotFits(t: Tables, user: Id, s: Snapshot) {
    && (s.last.Some? ==>
          && s.last.value.id < t.nextId
          && (s.last.value.id in t.txs && s.last.value.category != Category.Income ==>
                t.txs[s.last.value.id].kind == TxKind.Expense))
    && (forall g :: g in s.goals ==> g.id < t.nextId && (g.id in t.goals ==> t.goals[g.id].user == user))
  }

  lemma SnapshotFitsIsStable(t: Tables, u: Tables, user: Id, s: Snapshot)
    requires SnapshotFits(t, user, s) && Evolves(t, u)
    ensures SnapshotFits(u, user, s)
  {
  }

  lemma ToolBuiltContributesToOwnGoals(t: Tables, user: Id, s: Snapshot, ws: seq<WriteIntent>)
    requires SnapshotFits(t, user, s) && ToolBuilt(user, s, ws)
    ensures forall w :: w in ws ==> OwnGoal(t, w)
  {
    forall w | w in ws
      ensures OwnGoal(t, w)
    {
      assert WriteOk(user, s, w);
    }
  }

  // ---------------------------------------------------------------- the scan and the run agree

  /** Where the insert found by the backward scan stands in the batch. */
  function LastBufferedIndex(ws: seq<WriteIntent>): (r: Option<nat>)
    ensures r.Some? <==> LastBuffered(ws).Some?
    ensures r.Some? ==> r.value < |ws| && InsertsTransaction(ws[r.value])
                        && LastBuffered(ws) == BufferedTarget(ws[r.value])
  {
    if ws == [] then None
    else
      var w := ws[|ws| - 1];
      if InsertsTransaction(w) then Some(|ws| - 1)
      else if w.DeleteLast? && w.sameTurn then None
      else LastBufferedIndex(ws[..|ws| - 1])
  }

  /** The row under `id` is what the scan's target describes. */
  predicate Describes(target: TxTarget, row: TxRow, user: Id) {
    && row.user == user
    && (row.kind == TxKind.Income <==> target.category == Category.Income)
    && (row.goal.Some? ==> target.goalLinked)
  }

  /** After flushing `ws` from `t0`, the flush remembers a row exactly when the scan finds a write;
      the row is the one that write inserted, it is still there, and it is what the scan described. */
  ghost predicate InSync(t0: Tables, src: Option<string>, user: Id, ws: seq<WriteIntent>, t: Tables, c: Carry) {
    && (c.last.Some? <==> LastBuffered(ws).Some?)
    && (c.last.Some? ==>
          var i := LastBufferedIndex(ws).value;
          var before := ApplyAll(t0, Carry(None, src), ws[..i]);
          && before.Ok? && before.value.0.nextId == c.last.value
          && t0.nextId <= c.last.value < t.nextId
          && c.last.value in t.txs
          && Describes(LastBuffered(ws).value, t.txs[c.last.value], user))
  }

  lemma InsertSyncs(t0: Tables, src: Option<string>, user: Id, s: Snapshot, ws: seq<WriteIntent>, w: WriteIntent)
    requires Bounded(t0) && InsertsTransaction(w) && WriteOk(user, s, w)
    requires ApplyAll(t0, Carry(None, src), ws + [w]).Ok?
    ensures var r := ApplyAll(t0, Carry(None, src), ws + [w]).Or((t0, Carry(None, src))); InSync(t0, src, user, ws + [w], r.0, r.1)
  {
    hide ApplyAll, LastBuffered;
    var c0 := Carry(None, src);
    ApplyAllSnoc(t0, c0, ws, w);
    BatchEvolves(t0, c0, ws);
    var r := ApplyAll(t0, c0, ws).value;
    InsertsEvolve(r.0, r.1, w);
    assert (ws + [w])[..|ws|] == ws;
    assert LastBufferedIndex(ws + [w]) == Some(|ws|);
    if w.GoalContribution? {
      ContributeShape(r.0, r.1.source, w);
      ContributedRow(r.0, r.1.source, w);
    }
  }

  lemma ContributedRow(t: Tables, source: Option<string>, w: WriteIntent)
    requires w.GoalContribution? && Contribute(t, source, w).Ok?
    ensures Contribute(t, source, w).value.txs
            == t.txs[t.nextId := TxRow(w.user, TxKind.Expense, w.amount, SavingsGoals, None, w.date, Some(w.goal), None, source)]
  {
    var row := TxRow(w.user, TxKind.Expense, w.amount, SavingsGoals, None, w.date, Some(w.goal), None, source);
    AdjustGoalShape(InsertTx(t, row).value, w.user, w.goal, w.amount);
  }

  /** A write that neither inserts nor is a same-turn delete leaves the remembered row in place. */
  lemma RowStays(t: Tables, c: Carry, w: WriteIntent, id: Id)
    requires Bounded(t) && id in t.txs && Apply(t, c, w).Ok?
    requires !InsertsTransaction(w)
    requires w.DeleteLast? ==> Target(c, w) != Some(id)
    ensures var u := Apply(t, c, w).value; id in u.txs && SameIdentity(t.txs[id], u.txs[id])
  {
    ApplyEvolves(t, c, w);
    if w.DeleteLast? {
      if Target(c, w).Some? {
        DeleteTxShape(t, w.user, Target(c, w).value, c.source);
      }
    } else if !MovesMoney(w) {
      OthersFrame(t, c, w);
    } else if w.EditLast? {
      if Target(c, w).Some? {
        EditTxShape(t, w.user, Target(c, w).value, w.newAmount, w.newCategory, w.newNote, c.source);
      }
    }
  }

  lemma OtherSyncs(t0: Tables, src: Option<string>, user: Id, s: Snapshot, ws: seq<WriteIntent>, w: WriteIntent)
    requires Bounded(t0) && SnapshotFits(t0, user, s) && !InsertsTransaction(w)
    requires w.EditLast? || w.DeleteLast? ==> CorrectionOk(s, ws, w)
    requires ApplyAll(t0, Carry(None, src), ws + [w]).Ok?
    requires ApplyAll(t0, Carry(None, src), ws).Ok? ==>
               var r := ApplyAll(t0, Carry(None, src), ws).Or((t0, Carry(None, src))); InSync(t0, src, user, ws, r.0, r.1)
    ensures var r := ApplyAll(t0, Carry(None, src), ws + [w]).Or((t0, Carry(None, src))); InSync(t0, src, user, ws + [w], r.0, r.1)
  {
    var c0 := Carry(None, src);
    ApplyAllSnoc(t0, c0, ws, w);
    hide ApplyAll, Apply;
    var r := ApplyAll(t0, c0, ws).value;
    BatchEvolves(t0, c0, ws);
    ApplyEvolves(r.0, r.1, w);
    assert (ws + [w])[..|ws|] == ws;
    if r.1.last.Some? && !(w.DeleteLast? && w.sameTurn) {
      RowStays(r.0, r.1, w, r.1.last.value);
      var i := LastBufferedIndex(ws).value;
      assert (ws + [w])[..i] == ws[..i];
    }
  }

  /** The agreement holds after every prefix the tools can build, from every ledger. */
  lemma {:induction false} ScanMatchesRun(t0: Tables, src: Option<string>, user: Id, s: Snapshot,
                                          ws: seq<WriteIntent>, n: nat)
    requires Bounded(t0) && SnapshotFits(t0, user, s) && ToolBuilt(user, s, ws) && n <= |ws|
    requires ApplyAll(t0, Carry(None, src), ws[..n]).Ok?
    ensures var r := ApplyAll(t0, Carry(None, src), ws[..n]).value; InSync(t0, src, user, ws[..n], r.0, r.1)
  {
    hide LastBuffered, Apply, CorrectionOk, WriteOk;
    if n == 0 {
      assert ws[..0] == [];
      EmptyScan();
    } else {
      var w := ws[n - 1];
      assert w in ws;
      assert ws[..n] == ws[..n - 1] + [w];
      PrefixSucceeds(t0, Carry(None, src), ws[..n], n - 1);
      assert ws[..n][..n - 1] == ws[..n - 1];
      ScanMatchesRun(t0, src, user, s, ws, n - 1);
      if InsertsTransaction(w) {
        InsertSyncs(t0, src, user, s, ws[..n - 1], w);
      } else {
        OtherSyncs(t0, src, user, s, ws[..n - 1], w);
      }
    }
  }

  lemma EmptyScan()
    ensures LastBuffered([]).None?
  {
  }

  /** What a correction in a tool-built batch does when the flush reaches it: a same-turn one always
      finds the row its own turn inserted, and a historical one never touches a row of this turn. */
  lemma CorrectionsHitTheirTarget(t0: Tables, src: Option<string>, user: Id, s: Snapshot,
                                  ws: seq<WriteIntent>, n: nat)
    requires Bounded(t0) && SnapshotFits(t0, user, s) && ToolBuilt(user, s, ws) && n < |ws|
    requires ws[n].EditLast? || ws[n].DeleteLast?
    requires ApplyAll(t0, Carry(None, src), ws[..n + 1]).Ok?
    ensures ApplyAll(t0, Carry(None, src), ws[..n]).Ok?
    ensures var r := ApplyAll(t0, Carry(None, src), ws[..n]).value;
            var u := ApplyAll(t0, Carry(None, src), ws[..n + 1]).value.0;
            var w := ws[n];
            && (w.sameTurn <==> LastBuffered(ws[..n]).Some?)
            && (w.sameTurn ==>
                  var i := LastBufferedIndex(ws[..n]).value;
                  var inserted := ApplyAll(t0, Carry(None, src), ws[..i]);
                  && inserted.Ok?
                  && var id := inserted.value.0.nextId;
                     && t0.nextId <= id && id in r.0.txs
                     && (w.DeleteLast? ==> u.txs == r.0.txs - {id})
                     && (w.EditLast? ==> u.txs == r.0.txs[id := PatchTx(r.0.txs[id], w.newAmount, w.newCategory, w.newNote)]))
            && (!w.sameTurn ==> forall id :: id >= t0.nextId ==>
                  && (id in u.txs <==> id in r.0.txs) && (id in r.0.txs ==> u.txs[id] == r.0.txs[id]))
  {
    var c0, w := Carry(None, src), ws[n];
    assert ws[..n + 1] == ws[..n] + [w];
    assert ws[..n + 1][..n] == ws[..n];
    PrefixSucceeds(t0, c0, ws[..n + 1], n);
    ScanMatchesRun(t0, src, user, s, ws, n);
    ApplyAllSnoc(t0, c0, ws[..n], w);
    assert CorrectionOk(s, ws[..n], w) && WriteOk(user, s, w) by { assert w in ws; }
    hide ApplyAll, LastBuffered;
    var r := ApplyAll(t0, c0, ws[..n]).value;
    if w.sameTurn {
      assert ws[..n][..LastBufferedIndex(ws[..n]).value] == ws[..LastBufferedIndex(ws[..n]).value];
    }
    CorrectionShape(r.0, r.1, w);
  }

  /** One correction: it changes at most its target row, and really does change an owned one. */
  lemma CorrectionShape(t: Tables, c: Carry, w: WriteIntent)
    requires w.EditLast? || w.DeleteLast?
    requires Apply(t, c, w).Ok?
    ensures var u := Apply(t, c, w).value; var target := Target(c, w);
            && (forall id :: target != Some(id) ==> (id in u.txs <==> id in t.txs) && (id in t.txs ==> u.txs[id] == t.txs[id]))
            && (target.Some? && target.value in t.txs && t.txs[target.value].user == w.user ==>
                  && (w.DeleteLast? ==> u.txs == t.txs - {target.value})
                  && (w.EditLast? ==> u.txs == t.txs[target.value := PatchTx(t.txs[target.value], w.newAmount, w.newCategory, w.newNote)]))
  {
    var target := Target(c, w);
    if target.Some? {
      if w.DeleteLast? {
        DeleteTxShape(t, w.user, target.value, c.source);
      } else {
        if target.value in t.txs && t.txs[target.value].user == w.user {
          EditedRow(t, w.user, target.value, w.newAmount, w.newCategory, w.newNote, c.source);
        }
        EditTxShape(t, w.user, target.value, w.newAmount, w.newCategory, w.newNote, c.source);
      }
    }
  }

  lemma EditedRow(t: Tables, user: Id, id: Id, amount: Option<Centavos>, category: Option<Category>,
                  note: Option<string>, source: Option<string>)
    requires EditTx(t, user, id, amount, category, note, source).Ok? && id in t.txs && t.txs[id].user == user
    ensures EditTx(t, user, id, amount, category, note, source).value.txs
            == t.txs[id := PatchTx(t.txs[id], amount, category, note)]
  {
    if MovesGoal(t.txs[id], amount) {
      AdjustGoalShape(t, user, t.txs[id].goal.value, amount.value - t.txs[id].amount);
    }
    var row' := PatchTx(t.txs[id], amount, category, note);
    if amount.None? && note.None? && !(category.Some? && t.txs[id].goal.None?) {
      assert row' == t.txs[id];
    }
  }
}

/** What was written is what the next turn's snapshot reads. */
module ReadBack {
  import opened Prelude
  import opened Text
  import opened Domain
  import opened Ledger
  import opened Evolution
  import opened SameTurn
  import opened Protocol
  import Tools

  /** What the snapshot should show of an entry just logged. */
  function Shown(id: Id, w: WriteIntent): Tools.LastTx
    requires InsertsTransaction(w)
  {
    if w.Transaction? then Tools.LastTx(id, w.category, TruncateOpt(w.note, NOTE_MAX), false)
    else Tools.LastTx(id, SavingsGoals, None, true)
  }

  /** An entry just logged is the user's last transaction, with its category, its note and its link. */
  lemma LoggedIsLast(t: Tables, c: Carry, w: WriteIntent)
    requires InsertsTransaction(w) && Apply(t, c, w).Ok?
    ensures ReadLast(Apply(t, c, w).Or(t), w.user) == Some(Shown(t.nextId, w))
  {
    if w.GoalContribution? {
      ContributeShape(t, c.source, w);
      ContributedRow(t, c.source, w);
    }
  }

  lemma {:induction false} SameGoalList(a: map<Id, GoalRow>, b: map<Id, GoalRow>, user: Id, n: Id)
    requires forall i: Id :: i < n ==> (i in a <==> i in b) && (i in a ==> a[i].user == b[i].user && a[i].name == b[i].name)
    ensures GoalsBelow(a, user, n) == GoalsBelow(b, user, n)
  {
    if n > 0 {
      SameGoalList(a, b, user, n - 1);
    }
  }

  /** A goal just created joins the list under its name, behind all that were there, unless the user had
      one of that name. */
  lemma CreatedIsListed(t: Tables, w: WriteIntent)
    requires Bounded(t) && w.CreateGoal? && InsertGoal(t, w).Ok?
    ensures var u, name := InsertGoal(t, w).value, Truncate(w.name, NAME_MAX);
            GoalsBelow(u.goals, w.user, u.nextId)
            == GoalsBelow(t.goals, w.user, t.nextId)
               + if exists g :: g in t.goals && SameName(t.goals[g], w.user, name) then [] else [Tools.GoalName(t.nextId, name)]
  {
    SameGoalList(t.goals, InsertGoal(t, w).value.goals, w.user, t.nextId);
    hide SameName, Truncate;
  }

  lemma {:induction false} SameLabelList(a: map<Id, RecurringRow>, b: map<Id, RecurringRow>, user: Id, n: Id)
    requires forall i: Id :: i < n ==> (i in a <==> i in b) && (i in a ==> a[i].user == b[i].user && a[i].labelText == b[i].labelText)
    ensures LabelsBelow(a, user, n) == LabelsBelow(b, user, n)
  {
    if n > 0 {
      SameLabelList(a, b, user, n - 1);
    }
  }

  /** An item just added joins the list under its label, behind all that were there; one whose label
      exists updates in place, and keeps its old spelling and its last reminder. */
  lemma AddedIsListed(t: Tables, user: Id, input: RecurringInput)
    requires Bounded(t) && UpsertRecurring(t, user, input).Ok?
    ensures var u, text := UpsertRecurring(t, user, input).value, Truncate(input.labelText, LABEL_MAX);
            var existing := FindLabel(t.recurring, user, text, t.nextId);
            && LabelsBelow(u.recurring, user, u.nextId)
               == LabelsBelow(t.recurring, user, t.nextId) + (if existing.Some? then [] else [text])
            && (existing.Some? ==>
                  && u.recurring[existing.value].amount == input.amount && u.recurring[existing.value].cadence == input.cadence
                  && u.recurring[existing.value].lastReminded == t.recurring[existing.value].lastReminded)
  {
    hide RecurringChecks, Truncate, Lower, FindLabel, LabelsBelow;
    var u := UpsertRecurring(t, user, input).value;
    UpsertedRows(t, user, input);
    hide UpsertRecurring;
    SameLabelList(t.recurring, u.recurring, user, t.nextId);
    LastLabel(u.recurring, user, t.nextId);
  }

  lemma LastLabel(m: map<Id, RecurringRow>, user: Id, n: Id)
    ensures LabelsBelow(m, user, n + 1)
            == LabelsBelow(m, user, n) + if n in m && m[n].user == user then [m[n].labelText] else []
  {
  }

  lemma UpsertedRows(t: Tables, user: Id, input: RecurringInput)
    requires Bounded(t) && UpsertRecurring(t, user, input).Ok?
    ensures var u, text := UpsertRecurring(t, user, input).value, Truncate(input.labelText, LABEL_MAX);
            var existing := FindLabel(t.recurring, user, text, t.nextId);
            && (forall i: Id :: i < t.nextId ==> (i in t.recurring <==> i in u.recurring))
            && (forall i: Id :: i < t.nextId && i in t.recurring ==>
                  u.recurring[i].user == t.recurring[i].user && u.recurring[i].labelText == t.recurring[i].labelText)
            && (existing.None? ==>
                  && u.nextId == t.nextId + 1 && t.nextId in u.recurring && u.recurring[t.nextId].user == user
                  && u.recurring[t.nextId].labelText == text)
            && (existing.Some? ==>
                  && u.nextId == t.nextId && existing.value in t.recurring && existing.value in u.recurring
                  && u.recurring[existing.value].amount == input.amount && u.recurring[existing.value].cadence == input.cadence
                  && u.recurring[existing.value].lastReminded == t.recurring[existing.value].lastReminded)
  {
    hide RecurringChecks, Truncate, Lower, FindLabel;
  }
}

/** Recurring items: which row an edit or a removal hits, and when the tools' validation and the table's
    CHECKs disagree. */
module Bills {
  import opened Prelude
  import opened Domain
  import opened Ledger
  import opened Tools
  import opened Text
  import Flush
  import Like

  /** A day the table would refuse, in an edit the tools accepted. */
  predicate HasBadDay(call: ToolCall)
    requires call.ChangeBill?
  {
    || (call.dayOfMonth.Some? && !(1 <= call.dayOfMonth.value <= 31))
    || (call.dayOfWeek.Some? && !(0 <= call.dayOfWeek.value <= 6))
  }

  /** The tools check a day only together with its cadence. An accepted edit of a stored item aborts its
      statement, and so the whole flush, exactly when it carries a day outside the column's range. */
  lemma AcceptedEditFailsIff(ctx: Context, call: ToolCall, t: Tables, id: Id)
    requires call.ChangeBill? && BillIntent(ctx, call).Some?
    requires id in t.recurring && RecurringChecks(t.recurring[id])
    ensures var w := BillIntent(ctx, call).value;
            w.EditRecurring? && (UpdateRecurring(t, id, w).Err? <==> HasBadDay(call))
  {
    hide FindOne, AmountOf;
    AmountsAreLegal(ctx, call.newAmount);
  }

  /** Adding an item has the same gap, through the day its cadence does not use. */
  lemma AcceptedItemFailsIff(ctx: Context, call: ToolCall, t: Tables)
    requires call.AddBill? && BillIntent(ctx, call).Some?
    ensures var w := BillIntent(ctx, call).value;
            && w.AddRecurring?
            && (UpsertRecurring(t, w.user, w.recurring).Err?
                <==> (w.recurring.dayOfMonth.Some? && !(1 <= w.recurring.dayOfMonth.value <= 31))
                     || (w.recurring.dayOfWeek.Some? && !(0 <= w.recurring.dayOfWeek.value <= 6)))
  {
    hide AmountOf, FindLabel, Truncate;
    AmountsAreLegal(ctx, Some(call.amount));
  }

  /** One such edit takes everything else the user said in the message down with it. */
  lemma BadDayLosesTheWholeBatch(t: Tables, c: Carry, before: seq<WriteIntent>, w: WriteIntent, after: seq<WriteIntent>)
    requires ApplyAll(t, c, before).Ok?
    requires var r := ApplyAll(t, c, before).value; Apply(r.0, r.1, w).Err?
    ensures ApplyAll(t, c, before + [w] + after).Err?
  {
    ApplyAllConcat(t, c, before, [w] + after);
    assert before + [w] + after == before + ([w] + after);
    hide Apply;
  }

  // ---------------------------------------------------------------- an input that fails

  const RENT_CALL: ToolCall := ChangeBill("Rent", None, None, None, Some(40), None)

  function RentEdit(user: Id): WriteIntent {
    EditRecurring(user, "Rent", None, None, None, Some(Some(40)), None)
  }

  /** A ledger whose one recurring item is the rent, due on the first. */
  function RentTables(user: Id): Tables {
    EMPTY.(recurring := map[0 := RecurringRow(user, "Rent", TxKind.Expense, 100, Category.Bills, Monthly, Some(1), None, None)],
           nextId := 1)
  }

  lemma RentIsFound()
    ensures FindOne(BillNames(["Rent"]), "Rent") == Some(GoalName(0, "Rent")) && Trim("Rent") == "Rent"
  {
    TrimKeeps("Rent");
    var goals, q := BillNames(["Rent"]), Lower("Rent");
    assert goals == [GoalName(0, "Rent")] && goals[1..] == [];
    assert Exact(goals, q) == [GoalName(0, "Rent")];
    assert q[0] == 'r';
    hide Trim, Exact, Containing, Lower;
  }

  /** "Rent is on the 40th now", with no cadence: the tools accept it, whatever their keyword tables. */
  lemma TheToolsAcceptTheFortieth(ctx: Context)
    requires ctx.snapshot.recurring == ["Rent"]
    ensures BillIntent(ctx, RENT_CALL) == Some(RentEdit(ctx.user))
  {
    RentIsFound();
    hide FindOne;
  }

  lemma TheTableRefusesTheFortieth(t: Tables, user: Id)
    requires t.recurring == RentTables(user).recurring && t.nextId == 2
    ensures ReviseRecurring(t, RentEdit(user)) == Err(CheckViolation)
  {
    RentIsFound();
    hide Trim, Lower, LikeLabels;
    assert FindLabel(t.recurring, user, "Rent", 1) == Some(0);
    assert FindLabel(t.recurring, user, "Rent", 2) == Some(0);
    assert RecurringTarget(t.recurring, user, "Rent", 2) == Some(0);
  }

  /** And the flush then loses the lunch the user logged in the same message. */
  lemma TheFortiethLosesTheLunch(user: Id, day: Day, now: Time)
    ensures var lunch := Transaction(user, TxKind.Expense, 200, Food, None, day, None);
            var db := Flush.FRESH.(ledger := RentTables(user));
            && Flush.FlushWrites(db, Some("m1"), [lunch], now).1 == Flush.Committed
            && Flush.FlushWrites(db, Some("m1"), [lunch, RentEdit(user)], now) == (db, Flush.Failed(CheckViolation))
  {
    hide ReviseRecurring;
    var lunch, edit := Transaction(user, TxKind.Expense, 200, Food, None, day, None), RentEdit(user);
    var db, c := Flush.FRESH.(ledger := RentTables(user)), Carry(None, Some("m1"));
    var t := Apply(db.ledger, c, lunch).value;
    TheTableRefusesTheFortieth(t, user);
    assert [lunch][1..] == [] && [lunch, edit][1..] == [edit] && [edit][1..] == [];
    var after := Flush.Perform(db, c, lunch, now);
    assert after.Going? && after.db.ledger == t;
    assert Flush.Perform(after.db, after.carry, edit, now) == Flush.Broken(CheckViolation);
    hide Flush.Perform;
    assert Flush.PerformAll(after.db, after.carry, [], now) == Flush.Going(after.db, after.carry);
    assert Flush.PerformAll(after.db, after.carry, [edit], now) == Flush.Broken(CheckViolation);
  }

  // ---------------------------------------------------------------- which row

  ghost predicate Mentions(row: RecurringRow, user: Id, q: string) {
    row.user == user && Contains(Lower(row.labelText), Lower(q))
  }

  lemma LikeLabelIsContainment(row: RecurringRow, user: Id, q: string)
    ensures LikeLabel(row, user, q) <==> Mentions(row, user, q)
  {
    var e := Like.EscapeLike(q);
    Like.LowerCommutesWithEscape(q);
    assert Lower("%" + e + "%") == "%" + Lower(e) + "%";
    Like.EscapedPatternIsSubstring(Lower(q), Lower(row.labelText));
    hide Like.Matches, Like.EscapeLike;
  }

  lemma {:induction false} LikeLabelsAreAll(m: map<Id, RecurringRow>, user: Id, q: string, n: Id)
    ensures var r := LikeLabels(m, user, q, n);
            && (forall i: Id :: i in r <==> i < n && i in m && LikeLabel(m[i], user, q))
            && (forall j, k :: 0 <= j < k < |r| ==> r[j] < r[k])
  {
    hide LikeLabel;
    if n > 0 {
      LikeLabelsAreAll(m, user, q, n - 1);
      var older := LikeLabels(m, user, q, n - 1);
      assert forall j :: 0 <= j < |older| ==> older[j] in older;
    }
  }

  ghost predicate OnlyMention(m: map<Id, RecurringRow>, user: Id, q: string, id: Id) {
    id in m && Mentions(m[id], user, q) && forall j :: j in m && Mentions(m[j], user, q) ==> j == id
  }

  /** An edit or a removal hits the oldest row whose label equals the query; failing that the one row
      whose label contains it, and with none or several, nothing. Case never matters, and `%` and `_` in the
      query stand for themselves. */
  lemma RecurringTargetMeaning(m: map<Id, RecurringRow>, user: Id, query: string, n: Id)
    requires forall i :: i in m ==> i < n
    ensures var q, hit := Trim(query), RecurringTarget(m, user, query, n);
            if q == "" then hit.None?
            else if exists i :: i in m && SameLabel(m[i], user, q) then
              hit.Some? && hit.value in m && SameLabel(m[hit.value], user, q)
            else forall id: Id :: hit == Some(id) <==> OnlyMention(m, user, q, id)
  {
    var q := Trim(query);
    hide Trim, LikeLabel, Mentions;
    if q != "" && !exists i :: i in m && SameLabel(m[i], user, q) {
      var hits := LikeLabels(m, user, q, n);
      LikeLabelsAreAll(m, user, q, n);
      forall i | i in m
        ensures LikeLabel(m[i], user, q) <==> Mentions(m[i], user, q)
      {
        LikeLabelIsContainment(m[i], user, q);
      }
      assert forall i :: i in hits <==> i in m && Mentions(m[i], user, q);
      if |hits| == 1 {
        assert hits[0] in hits;
      } else if |hits| >= 2 {
        assert hits[0] in hits && hits[1] in hits && hits[0] != hits[1];
      }
    }
  }
}

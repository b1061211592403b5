/** Budget reactions: what a turn's expenses make the reply say, and over a run of turns how often. */
module Budget {
  import opened Prelude
  import opened Domain
  import opened Ledger
  import opened Evolution
  import opened SameTurn

  const NEAR_PERCENT: int := 80

  // ---------------------------------------------------------------- integer percentages

  /** `/` of the source: truncation toward zero. */
  function TruncDiv(a: int, b: int): int
    requires b > 0
  {
    if a >= 0 then a / b else -(-a / b)
  }

  /** percent_rounded: half away from zero, None when undefined or out of range. */
  function PercentRounded(numerator: int, denominator: int): Option<int> {
    if denominator <= 0 then None
    else
      var num := numerator * 100;
      var rounded := if num >= 0 then TruncDiv(num + denominator / 2, denominator)
                     else TruncDiv(num - denominator / 2, denominator);
      if I64_MIN <= rounded <= I64_MAX then Some(rounded) else None
  }

  /** ratio_crossed */
  predicate RatioCrossed(numerator: int, denominator: int, percent: int) {
    denominator > 0 && numerator * 100 >= percent * denominator
  }

  /** The result is a nearest whole percent. */
  lemma PercentIsNearest(n: int, d: int)
    requires PercentRounded(n, d).Some?
    ensures var p := PercentRounded(n, d).value; -d <= 2 * (100 * n - p * d) <= d
  {
    if n >= 0 {
      RoundedQuotient(n * 100, d);
      PercentOfCredit(n, d);
      hide PercentRounded;
    } else {
      PercentIsOdd(n, d);
      var q := (-n * 100 + d / 2) / d;
      RoundedQuotient(-n * 100, d);
      hide PercentRounded;
      assert (-q) * d == -(q * d);
    }
  }

  lemma PercentOfCredit(n: int, d: int)
    requires n >= 0 && PercentRounded(n, d).Some?
    ensures PercentRounded(n, d).value == (n * 100 + d / 2) / d
  {
  }

  /** Halves go away from zero on both sides: a negative ratio mirrors the positive one. */
  lemma PercentIsOdd(n: int, d: int)
    requires n < 0 && PercentRounded(n, d).Some?
    ensures PercentRounded(n, d).value == -((-n * 100 + d / 2) / d)
    ensures PercentRounded(n, d).value != I64_MIN ==> PercentRounded(-n, d) == Some(-PercentRounded(n, d).value)
  {
    assert -(n * 100 - d / 2) == -n * 100 + d / 2;
  }

  lemma RoundedQuotient(x: int, d: int)
    requires x >= 0 && d > 0
    ensures var q := (x + d / 2) / d; -d <= 2 * (x - q * d) <= d
  {
    var y := x + d / 2;
    var q := y / d;
    assert y == d * q + y % d;
    assert d * q == q * d;
  }

  // ---------------------------------------------------------------- one line

  datatype Line = Over(category: Category, excess: int) | Near(category: Category, percent: int, left: int)

  datatype Status = Status(category: Category, limit: int, spent: int)

  /** budget_reaction_line */
  function ReactionLine(current: Status, prior: int): Option<Line> {
    if current.limit <= 0 then None
    else if current.spent > current.limit && prior <= current.limit then
      Some(Over(current.category, current.spent - current.limit))
    else if RatioCrossed(current.spent, current.limit, NEAR_PERCENT) && !RatioCrossed(prior, current.limit, NEAR_PERCENT) then
      Some(Near(current.category, Or<int>(PercentRounded(current.spent, current.limit), 0), Max(current.limit - current.spent, 0)))
    else None
  }

  /** A near line tells the truth: 80 to 100 percent, and exactly what is left. */
  lemma NearLineIsTrue(current: Status, prior: int)
    requires ReactionLine(current, prior).Some? && ReactionLine(current, prior).value.Near?
    ensures var line := ReactionLine(current, prior).value;
            && 80 <= line.percent <= 100 && PercentRounded(current.spent, current.limit) == Some(line.percent)
            && line.left == current.limit - current.spent && current.spent <= current.limit
  {
    QuotientBounds(current.spent * 100 + current.limit / 2, current.limit, 80, 100);
  }

  lemma QuotientBounds(x: int, d: int, lo: int, hi: int)
    requires d > 0 && lo * d <= x < (hi + 1) * d
    ensures lo <= x / d <= hi
  {
    var q := x / d;
    assert x == q * d + x % d;
    if q < lo {
      Below(q, lo, d);
    }
    if hi < q {
      Below(hi, q, d);
    }
  }

  lemma Below(a: int, b: int, d: int)
    requires d > 0 && a < b
    ensures a * d + d <= b * d
  {
    var k := b - a - 1;
    assert k * d >= 0;
    assert b * d == (a + 1 + k) * d == a * d + d + k * d;
  }

  // ---------------------------------------------------------------- a run of turns

  /** Spend after `n` turns that log these amounts. */
  function SpentAfter(start: int, amounts: seq<nat>, n: nat): int
    requires n <= |amounts|
  {
    if n == 0 then start else SpentAfter(start, amounts, n - 1) + amounts[n - 1]
  }

  function LineAt(c: Category, limit: int, start: int, amounts: seq<nat>, n: nat): Option<Line>
    requires n < |amounts|
  {
    ReactionLine(Status(c, limit, SpentAfter(start, amounts, n + 1)), SpentAfter(start, amounts, n))
  }

  function Overs(c: Category, limit: int, start: int, amounts: seq<nat>, n: nat): nat
    requires n <= |amounts|
  {
    if n == 0 then 0
    else
      var line := LineAt(c, limit, start, amounts, n - 1);
      Overs(c, limit, start, amounts, n - 1) + if line.Some? && line.value.Over? then 1 else 0
  }

  function Nears(c: Category, limit: int, start: int, amounts: seq<nat>, n: nat): nat
    requires n <= |amounts|
  {
    if n == 0 then 0
    else
      var line := LineAt(c, limit, start, amounts, n - 1);
      Nears(c, limit, start, amounts, n - 1) + if line.Some? && line.value.Near? then 1 else 0
  }

  /** Over is said exactly once if spend goes from at most the limit to above it and never otherwise;
      near at most once; and something is said exactly when one of the two thresholds was crossed. */
  lemma {:induction false} ReactionsOverARun(c: Category, limit: int, start: int, amounts: seq<nat>, n: nat)
    requires limit > 0 && n <= |amounts|
    ensures var end := SpentAfter(start, amounts, n);
            var crossedNear := !RatioCrossed(start, limit, NEAR_PERCENT) && RatioCrossed(end, limit, NEAR_PERCENT);
            var overs, nears := Overs(c, limit, start, amounts, n), Nears(c, limit, start, amounts, n);
            && start <= end
            && overs == (if start <= limit < end then 1 else 0)
            && nears <= 1 && (nears == 1 ==> crossedNear)
            && (overs + nears > 0 <==> crossedNear || start <= limit < end)
  {
    if n > 0 {
      ReactionsOverARun(c, limit, start, amounts, n - 1);
    }
  }

  // ---------------------------------------------------------------- the turn's own expenses

  predicate Counts(w: WriteIntent, user: Id, c: Category, first: Day, last: Day) {
    w.Transaction? && w.user == user && w.kind == TxKind.Expense && w.category == c && first <= w.date <= last
  }

  function LoggedSum(ws: seq<WriteIntent>, user: Id, c: Category, first: Day, last: Day): int {
    if ws == [] then 0
    else
      var w := ws[|ws| - 1];
      LoggedSum(ws[..|ws| - 1], user, c, first, last) + if Counts(w, user, c, first, last) then w.amount else 0
  }

  predicate Mentions(ws: seq<WriteIntent>, user: Id, c: Category, first: Day, last: Day) {
    exists i :: 0 <= i < |ws| && Counts(ws[i], user, c, first, last)
  }

  /** The just_logged map, entry by entry: present exactly for the categories the turn spent in, each with
      its sum. The agent's writes all carry the turn's user. */
  method JustLogged(ws: seq<WriteIntent>, user: Id, first: Day, last: Day) returns (m: map<Category, int>)
    requires forall w :: w in ws ==> w.user == user
    ensures forall c :: c in m <==> Mentions(ws, user, c, first, last)
    ensures forall c :: c in m ==> m[c] == LoggedSum(ws, user, c, first, last)
  {
    m := map[];
    for i := 0 to |ws|
      invariant forall c :: c in m <==> Mentions(ws[..i], user, c, first, last)
      invariant forall c :: (if c in m then m[c] else 0) == LoggedSum(ws[..i], user, c, first, last)
    {
      var w := ws[i];
      assert ws[..i + 1][..i] == ws[..i] && w in ws;
      MentionsStep(ws, i, user, first, last);
      if w.Transaction? && w.kind == TxKind.Expense && w.date >= first && w.date <= last {
        m := m[w.category := (if w.category in m then m[w.category] else 0) + w.amount];
      }
    }
    assert ws[..|ws|] == ws;
  }

  lemma MentionsStep(ws: seq<WriteIntent>, i: nat, user: Id, first: Day, last: Day)
    requires i < |ws|
    ensures forall c :: Mentions(ws[..i + 1], user, c, first, last)
                        <==> Mentions(ws[..i], user, c, first, last) || Counts(ws[i], user, c, first, last)
  {
    assert forall j :: 0 <= j < i ==> ws[..i + 1][j] == ws[..i][j];
    assert ws[..i + 1][i] == ws[i];
  }

  // ---------------------------------------------------------------- the prediction

  predicate Spends(row: TxRow, user: Id, c: Category, first: Day, last: Day) {
    row.user == user && row.kind == TxKind.Expense && row.category == c && first <= row.date <= last
  }

  /** The spent column of the budget query, over ids below `n`. */
  function SpentIn(txs: map<Id, TxRow>, user: Id, c: Category, first: Day, last: Day, n: Id): int {
    if n == 0 then 0
    else
      SpentIn(txs, user, c, first, last, n - 1)
      + if n - 1 in txs && Spends(txs[n - 1], user, c, first, last) then txs[n - 1].amount else 0
  }

  function Spent(t: Tables, user: Id, c: Category, first: Day, last: Day): int {
    SpentIn(t.txs, user, c, first, last, t.nextId)
  }

  /** What the reply's budget check leaves out: money moved into goals. */
  function ContributedSum(ws: seq<WriteIntent>, user: Id, c: Category, first: Day, last: Day): int {
    if ws == [] then 0
    else
      var w := ws[|ws| - 1];
      ContributedSum(ws[..|ws| - 1], user, c, first, last)
      + if w.GoalContribution? && w.user == user && c == SavingsGoals && first <= w.date <= last then w.amount else 0
  }

  lemma {:induction false} SpentAgrees(a: map<Id, TxRow>, b: map<Id, TxRow>, user: Id, c: Category, first: Day, last: Day, n: Id)
    requires forall i: Id :: i < n ==> (i in a <==> i in b)
    requires forall i: Id :: i < n && i in a ==>
               Spends(a[i], user, c, first, last) == Spends(b[i], user, c, first, last) && a[i].amount == b[i].amount
    ensures SpentIn(a, user, c, first, last, n) == SpentIn(b, user, c, first, last, n)
  {
    if n > 0 {
      SpentAgrees(a, b, user, c, first, last, n - 1);
    }
  }

  lemma {:induction false} SpentStops(txs: map<Id, TxRow>, user: Id, c: Category, first: Day, last: Day, n: Id, m: Id)
    requires n <= m && forall i :: i in txs ==> i < n
    ensures SpentIn(txs, user, c, first, last, m) == SpentIn(txs, user, c, first, last, n)
  {
    if n < m {
      SpentStops(txs, user, c, first, last, n, m - 1);
    }
  }

  predicate Corrects(w: WriteIntent) {
    w.EditLast? || w.DeleteLast?
  }

  function Adds(w: WriteIntent, user: Id, c: Category, first: Day, last: Day): int {
    if Counts(w, user, c, first, last) then w.amount
    else if w.GoalContribution? && w.user == user && c == SavingsGoals && first <= w.date <= last then w.amount
    else 0
  }

  lemma InsertAdds(t: Tables, c: Carry, w: WriteIntent, user: Id, cat: Category, first: Day, last: Day)
    requires Bounded(t) && InsertsTransaction(w) && Apply(t, c, w).Ok?
    ensures Spent(Apply(t, c, w).Or(t), user, cat, first, last) == Spent(t, user, cat, first, last) + Adds(w, user, cat, first, last)
  {
    hide Contribute, TruncateOpt;
    var u := Apply(t, c, w).value;
    InsertShape(t, c, w);
    if w.GoalContribution? {
      ContributedRow(t, c.source, w);
    }
    var row := u.txs[t.nextId];
    assert row.user == w.user && row.date == w.date && row.amount == w.amount;
    assert row.kind == (if w.Transaction? then w.kind else TxKind.Expense);
    assert row.category == (if w.Transaction? then w.category else SavingsGoals);
    hide Apply;
    SpentAgrees(t.txs, u.txs, user, cat, first, last, t.nextId);
  }

  lemma GoalWritesKeepTxs(t: Tables, c: Carry, w: WriteIntent)
    requires (w.CreateGoal? || w.EditGoal? || w.DeleteGoal?) && Apply(t, c, w).Ok?
    ensures var u := Apply(t, c, w).value;
            u.txs.Keys == t.txs.Keys && forall i :: i in t.txs ==> u.txs[i] == t.txs[i].(goal := u.txs[i].goal)
  {
    hide SameName;
  }

  /** The writes that neither insert nor correct leave each row where it counts. */
  lemma OthersKeepTxs(t: Tables, c: Carry, w: WriteIntent)
    requires Bounded(t) && !InsertsTransaction(w) && !Corrects(w) && Apply(t, c, w).Ok?
    ensures var u := Apply(t, c, w).value;
            && t.nextId <= u.nextId && u.txs.Keys == t.txs.Keys
            && forall i :: i in t.txs ==> u.txs[i] == t.txs[i].(goal := u.txs[i].goal)
  {
    hide Apply;
    ApplyEvolves(t, c, w);
    if !MovesMoney(w) {
      OthersFrame(t, c, w);
    } else {
      GoalWritesKeepTxs(t, c, w);
    }
  }

  lemma OtherAddsNothing(t: Tables, c: Carry, w: WriteIntent, user: Id, cat: Category, first: Day, last: Day)
    requires Bounded(t) && !InsertsTransaction(w) && !Corrects(w) && Apply(t, c, w).Ok?
    ensures Spent(Apply(t, c, w).Or(t), user, cat, first, last) == Spent(t, user, cat, first, last)
  {
    hide Apply;
    OthersKeepTxs(t, c, w);
    var u := Apply(t, c, w).value;
    SpentAgrees(t.txs, u.txs, user, cat, first, last, t.nextId);
    SpentStops(u.txs, user, cat, first, last, t.nextId, u.nextId);
  }

  // ---------------------------------------------------------------- corrections

  function Weight(row: TxRow, user: Id, cat: Category, first: Day, last: Day): int {
    if Spends(row, user, cat, first, last) then row.amount else 0
  }

  /** The row a correction is about to hit. */
  function TargetRow(t: Tables, c: Carry, w: WriteIntent): Option<TxRow>
    requires Corrects(w)
  {
    var id := Target(c, w);
    if id.Some? && id.value in t.txs && t.txs[id.value].user == w.user then Some(t.txs[id.value]) else None
  }

  /** What the check does not see in a write: goal money, and what a correction takes away or brings. */
  function Unseen(t: Tables, c: Carry, w: WriteIntent, user: Id, cat: Category, first: Day, last: Day): int {
    if w.GoalContribution? then Adds(w, user, cat, first, last)
    else if !Corrects(w) || TargetRow(t, c, w).None? then 0
    else
      var row := TargetRow(t, c, w).value;
      (if w.EditLast? then Weight(PatchTx(row, w.newAmount, w.newCategory, w.newNote), user, cat, first, last) else 0)
      - Weight(row, user, cat, first, last)
  }

  lemma {:induction false} SpentMoves(a: map<Id, TxRow>, b: map<Id, TxRow>, user: Id, cat: Category, first: Day, last: Day,
                                      n: Id, k: Id)
    requires k < n && k in a && forall i: Id :: i < n && i != k ==> (i in a <==> i in b) && (i in a ==> a[i] == b[i])
    ensures SpentIn(b, user, cat, first, last, n)
            == SpentIn(a, user, cat, first, last, n) - Weight(a[k], user, cat, first, last)
               + if k in b then Weight(b[k], user, cat, first, last) else 0
  {
    if k == n - 1 {
      SpentAgrees(a, b, user, cat, first, last, n - 1);
    } else {
      SpentMoves(a, b, user, cat, first, last, n - 1, k);
    }
  }

  lemma CorrectionAdds(t: Tables, c: Carry, w: WriteIntent, user: Id, cat: Category, first: Day, last: Day)
    requires Bounded(t) && Corrects(w) && Apply(t, c, w).Ok?
    ensures Spent(Apply(t, c, w).Or(t), user, cat, first, last)
            == Spent(t, user, cat, first, last) + Unseen(t, c, w, user, cat, first, last)
  {
    CorrectionShape(t, c, w);
    CorrectionKeepsIds(t, c, w);
    hide Apply, PatchTx, Weight;
    var u, id := Apply(t, c, w).value, Target(c, w);
    if TargetRow(t, c, w).Some? {
      SpentMoves(t.txs, u.txs, user, cat, first, last, t.nextId, id.value);
    } else {
      SpentAgrees(t.txs, u.txs, user, cat, first, last, t.nextId);
    }
  }

  lemma CorrectionKeepsIds(t: Tables, c: Carry, w: WriteIntent)
    requires Corrects(w) && Apply(t, c, w).Ok?
    ensures Apply(t, c, w).Or(t).nextId == t.nextId
    ensures TargetRow(t, c, w).None? ==> Apply(t, c, w).Or(t).txs == t.txs
  {
    if Target(c, w).Some? {
      if w.DeleteLast? {
        DeleteTxShape(t, w.user, Target(c, w).value, c.source);
      } else {
        EditTxShape(t, w.user, Target(c, w).value, w.newAmount, w.newCategory, w.newNote, c.source);
      }
    }
    hide DeleteTx, EditTx;
  }

  /** All of a batch that the check does not see. */
  function UnseenSum(t: Tables, c: Carry, ws: seq<WriteIntent>, user: Id, cat: Category, first: Day, last: Day): int {
    if ws == [] then 0
    else
      var init := ws[..|ws| - 1];
      UnseenSum(t, c, init, user, cat, first, last)
      + match ApplyAll(t, c, init)
        case Ok(r) => Unseen(r.0, r.1, ws[|ws| - 1], user, cat, first, last)
        case Err(_) => 0
  }

  lemma OneAddsUp(t: Tables, c: Carry, w: WriteIntent, user: Id, cat: Category, first: Day, last: Day)
    requires Bounded(t) && Apply(t, c, w).Ok?
    ensures Spent(Apply(t, c, w).Or(t), user, cat, first, last)
            == Spent(t, user, cat, first, last) + Unseen(t, c, w, user, cat, first, last)
               + if Counts(w, user, cat, first, last) then w.amount else 0
  {
    hide Apply, Spent;
    if InsertsTransaction(w) {
      InsertAdds(t, c, w, user, cat, first, last);
    } else if Corrects(w) {
      CorrectionAdds(t, c, w, user, cat, first, last);
    } else {
      OtherAddsNothing(t, c, w, user, cat, first, last);
    }
  }

  /** What the budget check predicts before the flush. */
  function Predicted(t: Tables, ws: seq<WriteIntent>, user: Id, cat: Category, first: Day, last: Day): int {
    Spent(t, user, cat, first, last) + LoggedSum(ws, user, cat, first, last)
  }

  /** After any flush, corrections included, the query reports the prediction plus exactly what the check
      did not see. */
  lemma {:induction false} FlushAddsUp(t: Tables, src: Option<string>, ws: seq<WriteIntent>, n: nat, user: Id, cat: Category,
                                       first: Day, last: Day)
    requires Bounded(t) && n <= |ws| && ApplyAll(t, Carry(None, src), ws[..n]).Ok?
    ensures Spent(ApplyAll(t, Carry(None, src), ws[..n]).value.0, user, cat, first, last)
            == Predicted(t, ws[..n], user, cat, first, last) + UnseenSum(t, Carry(None, src), ws[..n], user, cat, first, last)
  {
    hide ApplyAll, Apply, Spent, Unseen;
    var c0 := Carry(None, src);
    if n == 0 {
      assert ws[..0] == [];
      NothingApplied(t, c0);
    } else {
      var w := ws[n - 1];
      assert ws[..n] == ws[..n - 1] + [w] && ws[..n][..n - 1] == ws[..n - 1];
      PrefixSucceeds(t, c0, ws[..n], n - 1);
      FlushAddsUp(t, src, ws, n - 1, user, cat, first, last);
      BatchEvolves(t, c0, ws[..n - 1]);
      ApplyAllSnoc(t, c0, ws[..n - 1], w);
      var r := ApplyAll(t, c0, ws[..n - 1]).value;
      OneAddsUp(r.0, r.1, w, user, cat, first, last);
    }
  }

  lemma NothingApplied(t: Tables, c: Carry)
    ensures ApplyAll(t, c, []) == Ok((t, c))
  {
  }

  // ---------------------------------------------------------------- when the prediction is exact

  /** A correction of some other category, or of nothing: its row does not count here, and it does not
      move one here. */
  predicate Elsewhere(t: Tables, c: Carry, w: WriteIntent, user: Id, cat: Category, first: Day, last: Day) {
    Corrects(w) && TargetRow(t, c, w).Some? ==>
      !Spends(TargetRow(t, c, w).value, user, cat, first, last) && (w.EditLast? ==> w.newCategory != Some(cat))
  }

  ghost predicate CorrectsElsewhere(t: Tables, src: Option<string>, ws: seq<WriteIntent>, user: Id, cat: Category, first: Day,
                                    last: Day) {
    forall k :: 0 <= k < |ws| && ApplyAll(t, Carry(None, src), ws[..k]).Ok? ==>
      Elsewhere(ApplyAll(t, Carry(None, src), ws[..k]).value.0, ApplyAll(t, Carry(None, src), ws[..k]).value.1, ws[k],
                user, cat, first, last)
  }

  lemma ElsewhereIsNothing(t: Tables, c: Carry, w: WriteIntent, user: Id, cat: Category, first: Day, last: Day)
    requires Corrects(w) && Elsewhere(t, c, w, user, cat, first, last)
    ensures Unseen(t, c, w, user, cat, first, last) == 0
  {
  }

  /** Then the goal money is all it does not see. */
  lemma {:induction false} UnseenIsContributed(t: Tables, src: Option<string>, ws: seq<WriteIntent>, n: nat, user: Id,
                                               cat: Category, first: Day, last: Day)
    requires n <= |ws| && CorrectsElsewhere(t, src, ws, user, cat, first, last)
    requires ApplyAll(t, Carry(None, src), ws[..n]).Ok?
    ensures UnseenSum(t, Carry(None, src), ws[..n], user, cat, first, last) == ContributedSum(ws[..n], user, cat, first, last)
  {
    hide ApplyAll, Elsewhere, Spends;
    if n > 0 {
      var c0, w := Carry(None, src), ws[n - 1];
      assert ws[..n][..n - 1] == ws[..n - 1];
      PrefixSucceeds(t, c0, ws[..n], n - 1);
      UnseenIsContributed(t, src, ws, n - 1, user, cat, first, last);
      var r := ApplyAll(t, c0, ws[..n - 1]).value;
      if Corrects(w) {
        ElsewhereIsNothing(r.0, r.1, w, user, cat, first, last);
      }
    }
  }

  lemma {:induction false} ContributionsArePositive(ws: seq<WriteIntent>, user: Id, cat: Category, first: Day, last: Day)
    requires forall w :: w in ws && w.GoalContribution? ==> w.amount > 0
    ensures ContributedSum(ws, user, cat, first, last) >= 0
    ensures ContributedSum(ws, user, cat, first, last) == 0
            <==> !(cat == SavingsGoals
                   && exists i :: 0 <= i < |ws| && ws[i].GoalContribution? && ws[i].user == user && first <= ws[i].date <= last)
  {
    if ws != [] {
      var init := ws[..|ws| - 1];
      assert forall i :: 0 <= i < |init| ==> init[i] == ws[i];
      assert forall w :: w in init ==> w in ws;
      assert ws[|ws| - 1] in ws;
      ContributionsArePositive(init, user, cat, first, last);
    }
  }

  /** A committed batch contributes positive amounts only. */
  lemma {:induction false} CommittedContributions(t: Tables, c: Carry, ws: seq<WriteIntent>)
    requires ApplyAll(t, c, ws).Ok?
    ensures forall w :: w in ws && w.GoalContribution? ==> w.amount > 0
    decreases |ws|
  {
    if ws != [] {
      FirstSucceeds(t, c, ws);
      assert ws[0].GoalContribution? ==> ws[0].amount > 0 by {
        hide AdjustGoal, GoalBalance;
      }
      hide Apply, ApplyAll;
      CommittedContributions(Apply(t, c, ws[0]).value, Advance(t, c, ws[0]), ws[1..]);
      assert forall w :: w in ws ==> w == ws[0] || w in ws[1..];
    }
  }

  lemma FirstSucceeds(t: Tables, c: Carry, ws: seq<WriteIntent>)
    requires ws != [] && ApplyAll(t, c, ws).Ok?
    ensures Apply(t, c, ws[0]).Ok? && ApplyAll(Apply(t, c, ws[0]).value, Advance(t, c, ws[0]), ws[1..]).Ok?
  {
    hide Apply;
  }

  /** In a turn whose corrections are of other categories, the predicted spend equals the budget query
      after the flush exactly when the turn puts no money into goals this month, or the budget is not the
      Savings/Goals one. */
  lemma PredictionIsExactIff(t: Tables, src: Option<string>, ws: seq<WriteIntent>, user: Id, cat: Category, first: Day,
                             last: Day)
    requires Bounded(t) && CorrectsElsewhere(t, src, ws, user, cat, first, last) && ApplyAll(t, Carry(None, src), ws).Ok?
    ensures var u := ApplyAll(t, Carry(None, src), ws).value.0;
            Predicted(t, ws, user, cat, first, last) == Spent(u, user, cat, first, last)
            <==> !(cat == SavingsGoals
                   && exists i :: 0 <= i < |ws| && ws[i].GoalContribution? && ws[i].user == user && first <= ws[i].date <= last)
  {
    hide ApplyAll, Spent;
    assert ws[..|ws|] == ws;
    FlushAddsUp(t, src, ws, |ws|, user, cat, first, last);
    UnseenIsContributed(t, src, ws, |ws|, user, cat, first, last);
    CommittedContributions(t, Carry(None, src), ws);
    ContributionsArePositive(ws, user, cat, first, last);
  }

  /** A turn it gets wrong: one Savings/Goals expense and one contribution. The check sees the expense,
      the query both. */
  lemma ContributionIsMissed()
    ensures var goal := GoalRow(1, "trip", 10000, 0, None);
            var t := EMPTY.(goals := map[0 := goal], nextId := 1);
            var ws := [Transaction(1, TxKind.Expense, 100, SavingsGoals, None, 5, None), GoalContribution(1, 0, 50, 5)];
            var r := ApplyAll(t, Carry(None, None), ws);
            && r.Ok? && Predicted(t, ws, 1, SavingsGoals, 0, 30) == 100 && Spent(r.value.0, 1, SavingsGoals, 0, 30) == 150
  {
    var goal := GoalRow(1, "trip", 10000, 0, None);
    var t, c := EMPTY.(goals := map[0 := goal], nextId := 1), Carry(None, None);
    var a, b := Transaction(1, TxKind.Expense, 100, SavingsGoals, None, 5, None), GoalContribution(1, 0, 50, 5);
    var t1, c1 := Apply(t, c, a).value, Advance(t, c, a);
    InsertAdds(t, c, a, 1, SavingsGoals, 0, 30);
    InsertAdds(t1, c1, b, 1, SavingsGoals, 0, 30);
    var t2, c2 := Apply(t1, c1, b).value, Advance(t1, c1, b);
    assert Spent(t, 1, SavingsGoals, 0, 30) == 0;
    assert Spent(t2, 1, SavingsGoals, 0, 30) == 150;
    LoggedOfTwo(a, b, 1, SavingsGoals, 0, 30);
    hide Apply, Advance, Spent, LoggedSum;
    assert [] + [a] == [a] && [a] + [b] == [a, b];
    NothingApplied(t, c);
    ApplyAllSnoc(t, c, [], a);
    ApplyAllSnoc(t, c, [a], b);
  }

  lemma LoggedOfTwo(a: WriteIntent, b: WriteIntent, user: Id, cat: Category, first: Day, last: Day)
    ensures LoggedSum([a, b], user, cat, first, last)
            == (if Counts(a, user, cat, first, last) then a.amount else 0) + (if Counts(b, user, cat, first, last) then b.amount else 0)
  {
    LoggedSnoc([], a, user, cat, first, last);
    LoggedSnoc([a], b, user, cat, first, last);
    assert [] + [a] == [a] && [a] + [b] == [a, b];
  }

  lemma LoggedSnoc(ws: seq<WriteIntent>, w: WriteIntent, user: Id, cat: Category, first: Day, last: Day)
    ensures LoggedSum(ws + [w], user, cat, first, last)
            == LoggedSum(ws, user, cat, first, last) + if Counts(w, user, cat, first, last) then w.amount else 0
    ensures LoggedSum([], user, cat, first, last) == 0
  {
    assert (ws + [w])[..|ws|] == ws;
  }
}

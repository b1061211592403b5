/** The write tools: how the agent's tool calls become buffered writes. */
module Tools {
  import opened Prelude
  import opened Text
  import opened Domain
  import Money
  import Memory

  // ---------------------------------------------------------------- expense categories

  /** The first word of the note that names a real expense category. */
  function CategoryFromWords(coerce: string -> Category, words: seq<string>): Category {
    if words == [] then Other
    else
      var hit := coerce(words[0]);
      if words[0] == "" || hit == Other || hit == Category.Income then CategoryFromWords(coerce, words[1..])
      else hit
  }

  function CategoryFromNote(coerce: string -> Category, note: Option<string>): Category {
    match note
    case None => Other
    case Some(n) => CategoryFromWords(coerce, Memory.Split(Lower(n)))
  }

  /** coerce_expense_category, over any keyword table `coerce`. */
  function CoerceExpense(coerce: string -> Category, value: string, note: Option<string>): Category {
    var category := coerce(value);
    if category == Category.Income || category == Other then CategoryFromNote(coerce, note) else category
  }

  lemma {:induction false} WordsNeverIncome(coerce: string -> Category, words: seq<string>)
    ensures CategoryFromWords(coerce, words) != Category.Income
  {
    if words != [] {
      WordsNeverIncome(coerce, words[1..]);
    }
  }

  /** No keyword table and no note can turn an expense into income. */
  lemma ExpenseNeverIncome(coerce: string -> Category, value: string, note: Option<string>)
    ensures CoerceExpense(coerce, value, note) != Category.Income
  {
    if note.Some? {
      WordsNeverIncome(coerce, Memory.Split(Lower(note.value)));
    }
  }

  // ---------------------------------------------------------------- what the agent sees

  datatype LastTx = LastTx(id: Id, category: Category, note: Option<string>, goalLinked: bool)
  datatype GoalName = GoalName(id: Id, name: string)

  datatype Snapshot = Snapshot(last: Option<LastTx>, goals: seq<GoalName>, recurring: seq<string>)

  /** The request's fixed inputs: the keyword tables and the decimal library stay uninterpreted. */
  datatype Context = Context(
    user: Id, snapshot: Snapshot, coerce: string -> Category,
    wide: (string, nat) -> Option<Centavos>, durable: (string, Memory.MemoryKind) -> bool)

  /** The transaction a correction would hit. */
  datatype TxTarget = TxTarget(id: Id, sameTurn: bool, category: Category, note: Option<string>, goalLinked: bool)

  /** A parsed tool call. A date that failed validation arrives as None. */
  datatype ToolCall =
    | LogExpense(amount: string, category: string, note: Option<string>, date: Option<Day>, account: Option<string>)
    | LogIncome(amount: string, note: Option<string>, date: Option<Day>, account: Option<string>)
    | LogTransfer(amount: string, fromAccount: Option<string>, toAccount: Option<string>, note: Option<string>,
                  date: Option<Day>)
    | CorrectLast(newAmount: Option<string>, newCategory: Option<string>, newNote: Option<string>)
    | UndoLast
    | BudgetTo(category: string, limit: Option<string>)
    | BudgetOff(category: string)
    | Remember(fact: string, kind: Memory.MemoryKind)
    | Forget(query: string)
    | NewGoal(name: string, target: string, deadline: Option<Option<Day>>)
    | ContributeTo(goalName: string, amount: string, date: Option<Day>)
    | ChangeGoal(goalName: string, newName: Option<string>, newTarget: Option<string>,
                 newDeadline: Option<Option<Option<Day>>>)
    | DropGoal(goalName: string)
    | AddBill(title: string, amount: string, category: string, income: bool, cadence: Option<Cadence>,
              dayOfMonth: Option<int>, dayOfWeek: Option<int>)
    | ChangeBill(title: string, newAmount: Option<string>, newCategory: Option<string>,
                 newCadence: Option<Option<Cadence>>, dayOfMonth: Option<int>, dayOfWeek: Option<int>)
    | DropBill(title: string)

  function CleanAccount(account: Option<string>): Option<string> {
    if account.Some? && Trim(account.value) != "" then Some(Trim(account.value)) else None
  }

  function CleanNote(note: Option<string>): Option<string> {
    if note.Some? && Trim(note.value) != "" then note else None
  }

  /** The amount of an optional text: absent is fine, unreadable is not. */
  datatype OptAmount = Absent | Good(value: Centavos) | Bad

  function AmountOf(ctx: Context, text: Option<string>): OptAmount {
    match text
    case None => Absent
    case Some(t) => if Money.Parse(t, ctx.wide).Amount? then Good(Money.Parse(t, ctx.wide).centavos) else Bad
  }

  function AsOption(a: OptAmount): Option<Centavos> {
    if a.Good? then Some(a.value) else None
  }

  // ---------------------------------------------------------------- targets

  /** The transaction this write buffers, as a target; or the end of the search; or neither. */
  function BufferedTarget(w: WriteIntent): Option<TxTarget>
    requires InsertsTransaction(w)
  {
    if w.Transaction? then
      Some(TxTarget(0, true, if w.kind == TxKind.Income then Category.Income else w.category, w.note, false))
    else Some(TxTarget(0, true, SavingsGoals, None, true))
  }

  /** The backward scan over the writes buffered so far. */
  function LastBuffered(ws: seq<WriteIntent>): Option<TxTarget> {
    if ws == [] then None
    else
      var w := ws[|ws| - 1];
      if InsertsTransaction(w) then BufferedTarget(w)
      else if w.DeleteLast? && w.sameTurn then None
      else LastBuffered(ws[..|ws| - 1])
  }

  /** The same scan as the source's loop over the reversed writes. */
  method FindLastBuffered(ws: seq<WriteIntent>) returns (r: Option<TxTarget>)
    ensures r == LastBuffered(ws)
  {
    var n := |ws|;
    assert ws[..n] == ws;
    while n > 0
      invariant 0 <= n <= |ws|
      invariant LastBuffered(ws) == LastBuffered(ws[..n])
    {
      assert ws[..n][..n - 1] == ws[..n - 1];
      var w := ws[n - 1];
      if InsertsTransaction(w) {
        return BufferedTarget(w);
      }
      if w.DeleteLast? && w.sameTurn {
        return None;
      }
      n := n - 1;
    }
    r := None;
  }

  function HistoricalTarget(s: Snapshot): Option<TxTarget> {
    match s.last
    case None => None
    case Some(l) => Some(TxTarget(l.id, false, l.category, l.note, l.goalLinked))
  }

  /** What editLast corrects: this turn's own entry first, else the last stored one. */
  function CorrectionTarget(ctx: Context, ws: seq<WriteIntent>): Option<TxTarget> {
    if LastBuffered(ws).Some? then LastBuffered(ws) else HistoricalTarget(ctx.snapshot)
  }

  // ---------------------------------------------------------------- names

  function Exact(goals: seq<GoalName>, query: string): seq<GoalName> {
    if goals == [] then []
    else (if Lower(goals[0].name) == query then [goals[0]] else []) + Exact(goals[1..], query)
  }

  predicate HasInfix(s: string, q: string) {
    q <= s || (s != "" && HasInfix(s[1..], q))
  }

  function Containing(goals: seq<GoalName>, query: string): seq<GoalName> {
    if goals == [] then []
    else (if HasInfix(Lower(goals[0].name), query) then [goals[0]] else []) + Containing(goals[1..], query)
  }

  /** find_one_goal: one exact name, else one containing name, else an error. Finding a recurring item
      follows the same rule over labels. */
  function FindOne(goals: seq<GoalName>, query: string): Option<GoalName> {
    var q := Lower(Trim(query));
    if q == "" then None
    else if |Exact(goals, q)| == 1 then Some(Exact(goals, q)[0])
    else if |Containing(goals, q)| == 1 then Some(Containing(goals, q)[0])
    else None
  }

  lemma {:induction false} MatchesAreListed(goals: seq<GoalName>, query: string)
    ensures forall g :: g in Exact(goals, query) || g in Containing(goals, query) ==> g in goals
  {
    hide Lower, HasInfix;
    if goals != [] {
      MatchesAreListed(goals[1..], query);
      assert goals[0] in goals && forall g :: g in goals[1..] ==> g in goals;
    }
  }

  lemma FoundIsListed(goals: seq<GoalName>, query: string)
    ensures FindOne(goals, query).Some? ==> FindOne(goals, query).value in goals
  {
    var q := Lower(Trim(query));
    MatchesAreListed(goals, q);
    hide Lower, Trim, Exact, Containing;
    if |Exact(goals, q)| == 1 {
      assert Exact(goals, q)[0] in Exact(goals, q);
    }
    if |Containing(goals, q)| == 1 {
      assert Containing(goals, q)[0] in Containing(goals, q);
    }
  }

  function BillNames(labels: seq<string>): seq<GoalName> {
    seq(|labels|, i requires 0 <= i < |labels| => GoalName(i, labels[i]))
  }

  predicate DaysOk(cadence: Cadence, dayOfMonth: Option<int>, dayOfWeek: Option<int>) {
    match cadence
    case Monthly => dayOfMonth.Some? && 1 <= dayOfMonth.value <= 31
    case Weekly => dayOfWeek.Some? && 0 <= dayOfWeek.value <= 6
  }

  // ---------------------------------------------------------------- the tools

  function CorrectionIntent(ctx: Context, ws: seq<WriteIntent>, call: ToolCall): Option<WriteIntent>
    requires call.CorrectLast?
  {
    var target := CorrectionTarget(ctx, ws);
    var amount := AmountOf(ctx, call.newAmount);
    if target.None? || amount.Bad? then None
    else if call.newCategory.Some? && (target.value.goalLinked || target.value.category == Category.Income) then None
    else
      var note := if call.newNote.Some? then call.newNote else target.value.note;
      var category := if call.newCategory.Some? then Some(CoerceExpense(ctx.coerce, call.newCategory.value, note)) else None;
      if amount.Absent? && category.None? && call.newNote.None? then None
      else
        Some(EditLast(ctx.user, if target.value.sameTurn then None else Some(target.value.id), target.value.sameTurn,
                      AsOption(amount), category, call.newNote))
  }

  function UndoIntent(ctx: Context, ws: seq<WriteIntent>): Option<WriteIntent> {
    if LastBuffered(ws).Some? then Some(DeleteLast(ctx.user, None, true))
    else if ctx.snapshot.last.Some? then Some(DeleteLast(ctx.user, Some(ctx.snapshot.last.value.id), false))
    else None
  }

  function EntryIntent(ctx: Context, call: ToolCall): Option<WriteIntent>
    requires call.LogExpense? || call.LogIncome? || call.LogTransfer? || call.ContributeTo?
  {
    var amount := AmountOf(ctx, Some(call.amount));
    if !amount.Good? || call.date.None? then None
    else
      match call
      case LogExpense(_, category, note, date, account) =>
        Some(Transaction(ctx.user, TxKind.Expense, amount.value, CoerceExpense(ctx.coerce, category, note),
                         CleanNote(note), date.value, CleanAccount(account)))
      case LogIncome(_, note, date, account) =>
        Some(Transaction(ctx.user, TxKind.Income, amount.value, Category.Income, CleanNote(note), date.value,
                         CleanAccount(account)))
      case LogTransfer(_, fromAccount, toAccount, note, date) =>
        if CleanAccount(fromAccount).None? && CleanAccount(toAccount).None? then None
        else
          Some(Transfer(ctx.user, amount.value, CleanAccount(fromAccount), CleanAccount(toAccount), CleanNote(note),
                        date.value))
      case ContributeTo(goalName, _, date) =>
        match FindOne(ctx.snapshot.goals, goalName)
        case Some(goal) => Some(GoalContribution(ctx.user, goal.id, amount.value, date.value))
        case None => None
  }

  function GoalIntent(ctx: Context, call: ToolCall): Option<WriteIntent>
    requires call.NewGoal? || call.ChangeGoal? || call.DropGoal?
  {
    match call
    case NewGoal(name, target, deadline) =>
      var amount := AmountOf(ctx, Some(target));
      if Trim(name) == "" || !amount.Good? || deadline.None? then None
      else Some(CreateGoal(ctx.user, Trim(name), amount.value, deadline.value))
    case ChangeGoal(goalName, newName, newTarget, newDeadline) =>
      var goal := FindOne(ctx.snapshot.goals, goalName);
      var amount := AmountOf(ctx, newTarget);
      if goal.None? || amount.Bad? || newDeadline == Some(None) then None
      else if newName.Some? && Trim(newName.value) == "" then None
      else if newName.None? && amount.Absent? && newDeadline.None? then None
      else
        Some(EditGoal(ctx.user, goal.value.id, if newName.Some? then Some(Trim(newName.value)) else None,
                      AsOption(amount), if newDeadline.Some? then newDeadline.value else None))
    case DropGoal(goalName) =>
      match FindOne(ctx.snapshot.goals, goalName)
      case Some(goal) => Some(DeleteGoal(ctx.user, goal.id))
      case None => None
  }

  function BillIntent(ctx: Context, call: ToolCall): Option<WriteIntent>
    requires call.AddBill? || call.ChangeBill? || call.DropBill?
  {
    match call
    case AddBill(title, amountText, category, income, cadence, dayOfMonth, dayOfWeek) =>
      var amount := AmountOf(ctx, Some(amountText));
      if !amount.Good? || cadence.None? || !DaysOk(cadence.value, dayOfMonth, dayOfWeek) then None
      else
        var kind := if income then TxKind.Income else TxKind.Expense;
        Some(AddRecurring(ctx.user,
                          RecurringInput(title, kind, amount.value, if income then Category.Income else ctx.coerce(category),
                                         cadence.value, dayOfMonth, dayOfWeek)))
    case ChangeBill(title, newAmount, newCategory, newCadence, dayOfMonth, dayOfWeek) =>
      var hit := FindOne(BillNames(ctx.snapshot.recurring), title);
      var amount := AmountOf(ctx, newAmount);
      if hit.None? || amount.Bad? || newCadence == Some(None) then None
      else if newCadence.Some? && !DaysOk(newCadence.value.value, dayOfMonth, dayOfWeek) then None
      else if amount.Absent? && newCategory.None? && newCadence.None? && dayOfMonth.None? && dayOfWeek.None? then None
      else
        Some(EditRecurring(ctx.user, hit.value.name, AsOption(amount),
                           if newCategory.Some? then Some(ctx.coerce(newCategory.value)) else None,
                           if newCadence.Some? then newCadence.value else None,
                           if dayOfMonth.Some? then Some(dayOfMonth) else None,
                           if dayOfWeek.Some? then Some(dayOfWeek) else None))
    case DropBill(title) =>
      match FindOne(BillNames(ctx.snapshot.recurring), title)
      case Some(hit) => Some(RemoveRecurring(ctx.user, hit.name))
      case None => None
  }

  function OtherIntent(ctx: Context, call: ToolCall): Option<WriteIntent>
    requires call.BudgetTo? || call.BudgetOff? || call.Remember? || call.Forget?
  {
    match call
    case BudgetTo(category, limitText) =>
      var limit := AmountOf(ctx, limitText);
      if limit.Good? then Some(SetBudget(ctx.user, ctx.coerce(category), limit.value)) else None
    case BudgetOff(category) => Some(RemoveBudget(ctx.user, ctx.coerce(category)))
    case Remember(fact, kind) =>
      if Trim(fact) == "" || !ctx.durable(Trim(fact), kind) then None else Some(SaveMemory(ctx.user, Trim(fact), kind))
    case Forget(query) => if Trim(query) == "" then None else Some(ForgetMemory(ctx.user, query))
  }

  /** The write a call buffers, if any; a tool error buffers nothing. */
  function IntentOf(ctx: Context, ws: seq<WriteIntent>, call: ToolCall): Option<WriteIntent> {
    match call
    case CorrectLast(_, _, _) => CorrectionIntent(ctx, ws, call)
    case UndoLast => UndoIntent(ctx, ws)
    case LogExpense(_, _, _, _, _) => EntryIntent(ctx, call)
    case LogIncome(_, _, _, _) => EntryIntent(ctx, call)
    case LogTransfer(_, _, _, _, _) => EntryIntent(ctx, call)
    case ContributeTo(_, _, _) => EntryIntent(ctx, call)
    case NewGoal(_, _, _) => GoalIntent(ctx, call)
    case ChangeGoal(_, _, _, _) => GoalIntent(ctx, call)
    case DropGoal(_) => GoalIntent(ctx, call)
    case AddBill(_, _, _, _, _, _, _) => BillIntent(ctx, call)
    case ChangeBill(_, _, _, _, _, _) => BillIntent(ctx, call)
    case DropBill(_) => BillIntent(ctx, call)
    case _ => OtherIntent(ctx, call)
  }

  /** The writes a whole turn of tool calls buffers. */
  function Buffer(ctx: Context, calls: seq<ToolCall>): seq<WriteIntent> {
    if calls == [] then []
    else
      var ws := Buffer(ctx, calls[..|calls| - 1]);
      match IntentOf(ctx, ws, calls[|calls| - 1])
      case Some(w) => ws + [w]
      case None => ws
  }

  /** The vector the tools push onto. */
  class WriteBuffer {
    var writes: seq<WriteIntent>

    constructor ()
      ensures writes == []
    {
      writes := [];
    }

    /** One tool call: at most one push. */
    method Execute(ctx: Context, call: ToolCall)
      modifies this
      ensures writes == match IntentOf(ctx, old(writes), call) case Some(w) => old(writes) + [w] case None => old(writes)
    {
      var intent := IntentOf(ctx, writes, call);
      if intent.Some? {
        writes := writes + [intent.value];
      }
    }

    /** A whole turn, call after call. */
    method ExecuteAll(ctx: Context, calls: seq<ToolCall>)
      requires writes == []
      modifies this
      ensures writes == Buffer(ctx, calls)
    {
      hide IntentOf;
      for i := 0 to |calls|
        invariant writes == Buffer(ctx, calls[..i])
      {
        assert calls[..i + 1][..i] == calls[..i];
        Execute(ctx, calls[i]);
      }
      assert calls[..|calls|] == calls;
    }
  }

  // ---------------------------------------------------------------- what every tool-built batch satisfies

  /** A correction made when `before` was buffered points at that turn's entry if there is one, at the
      snapshot's last row otherwise, and never recategorises income or a goal contribution. */
  predicate CorrectionOk(s: Snapshot, before: seq<WriteIntent>, w: WriteIntent)
    requires w.EditLast? || w.DeleteLast?
  {
    && (w.sameTurn <==> LastBuffered(before).Some?)
    && (!w.sameTurn ==> s.last.Some? && w.target == Some(s.last.value.id))
    && (w.EditLast? && w.newCategory.Some? ==>
          && w.newCategory.value != Category.Income
          && (if w.sameTurn then RecategorizableTarget(LastBuffered(before).value)
              else s.last.value.category != Category.Income && !s.last.value.goalLinked))
  }

  predicate RecategorizableTarget(t: TxTarget) {
    t.category != Category.Income && !t.goalLinked
  }

  predicate LegalEntry(amount: int) {
    1 <= amount <= Money.MAX_ENTRY_CENTAVOS
  }

  /** What holds of a write whatever was buffered before it. */
  predicate WriteOk(user: Id, s: Snapshot, w: WriteIntent) {
    && w.user == user && !w.SaveTurn? && !w.OutboundReply? && !w.ConsumeConfirmation?
    && (w.Transaction? ==> LegalEntry(w.amount) && (w.category == Category.Income <==> w.kind == TxKind.Income))
    && (w.GoalContribution? ==> LegalEntry(w.amount) && exists g :: g in s.goals && g.id == w.goal)
    && (w.EditLast? && w.newAmount.Some? ==> LegalEntry(w.newAmount.value))
  }

  ghost predicate ToolBuilt(user: Id, s: Snapshot, ws: seq<WriteIntent>) {
    && (forall w :: w in ws ==> WriteOk(user, s, w))
    && (forall j :: 0 <= j < |ws| && (ws[j].EditLast? || ws[j].DeleteLast?) ==> CorrectionOk(s, ws[..j], ws[j]))
  }

  lemma AmountsAreLegal(ctx: Context, text: Option<string>)
    ensures AmountOf(ctx, text).Good? ==> LegalEntry(AmountOf(ctx, text).value)
  {
    hide Money.Parse;
    if text.Some? {
      Money.ParsedIsLegal(text.value, ctx.wide);
    }
  }

  predicate IntentOk(ctx: Context, ws: seq<WriteIntent>, r: Option<WriteIntent>) {
    r.Some? ==> && WriteOk(ctx.user, ctx.snapshot, r.value)
                && (r.value.EditLast? || r.value.DeleteLast? ==> CorrectionOk(ctx.snapshot, ws, r.value))
  }

  lemma CorrectionIsOk(ctx: Context, ws: seq<WriteIntent>, call: ToolCall)
    requires call.CorrectLast?
    ensures IntentOk(ctx, ws, CorrectionIntent(ctx, ws, call))
  {
    hide AmountOf, LastBuffered, CoerceExpense;
    AmountsAreLegal(ctx, call.newAmount);
    var target := CorrectionTarget(ctx, ws);
    if call.newCategory.Some? && target.Some? {
      ExpenseNeverIncome(ctx.coerce, call.newCategory.value, if call.newNote.Some? then call.newNote else target.value.note);
    }
    BufferedIsSameTurn(ws);
  }

  lemma UndoIsOk(ctx: Context, ws: seq<WriteIntent>)
    ensures IntentOk(ctx, ws, UndoIntent(ctx, ws))
  {
    hide LastBuffered;
  }

  lemma EntryIsOk(ctx: Context, ws: seq<WriteIntent>, call: ToolCall)
    requires call.LogExpense? || call.LogIncome? || call.LogTransfer? || call.ContributeTo?
    ensures IntentOk(ctx, ws, EntryIntent(ctx, call))
  {
    hide AmountOf, FindOne, CoerceExpense, Trim;
    AmountsAreLegal(ctx, Some(call.amount));
    if call.LogExpense? {
      ExpenseNeverIncome(ctx.coerce, call.category, call.note);
    }
    if call.ContributeTo? {
      FoundIsListed(ctx.snapshot.goals, call.goalName);
    }
  }

  lemma OthersAreOk(ctx: Context, ws: seq<WriteIntent>, call: ToolCall)
    ensures call.NewGoal? || call.ChangeGoal? || call.DropGoal? ==> IntentOk(ctx, ws, GoalIntent(ctx, call))
    ensures call.AddBill? || call.ChangeBill? || call.DropBill? ==> IntentOk(ctx, ws, BillIntent(ctx, call))
    ensures call.BudgetTo? || call.BudgetOff? || call.Remember? || call.Forget? ==> IntentOk(ctx, ws, OtherIntent(ctx, call))
  {
    hide AmountOf, FindOne, Trim;
  }

  /** What one call buffers is right, whatever was buffered before. */
  lemma IntentIsOk(ctx: Context, ws: seq<WriteIntent>, call: ToolCall)
    ensures var r := IntentOf(ctx, ws, call);
            r.Some? ==> && WriteOk(ctx.user, ctx.snapshot, r.value)
                        && (r.value.EditLast? || r.value.DeleteLast? ==> CorrectionOk(ctx.snapshot, ws, r.value))
  {
    hide CorrectionIntent, UndoIntent, EntryIntent, GoalIntent, BillIntent, OtherIntent, WriteOk, CorrectionOk;
    UndoIsOk(ctx, ws);
    OthersAreOk(ctx, ws, call);
    if call.CorrectLast? {
      CorrectionIsOk(ctx, ws, call);
    } else if call.LogExpense? || call.LogIncome? || call.LogTransfer? || call.ContributeTo? {
      EntryIsOk(ctx, ws, call);
    }
  }

  lemma {:induction false} BufferedIsSameTurn(ws: seq<WriteIntent>)
    ensures LastBuffered(ws).Some? ==> LastBuffered(ws).value.sameTurn
  {
    if ws != [] {
      BufferedIsSameTurn(ws[..|ws| - 1]);
    }
  }

  lemma OneMoreIsToolBuilt(user: Id, s: Snapshot, ws: seq<WriteIntent>, w: WriteIntent)
    requires ToolBuilt(user, s, ws) && WriteOk(user, s, w)
    requires w.EditLast? || w.DeleteLast? ==> CorrectionOk(s, ws, w)
    ensures ToolBuilt(user, s, ws + [w])
  {
    hide WriteOk, CorrectionOk;
    var all := ws + [w];
    forall j | 0 <= j < |all| && (all[j].EditLast? || all[j].DeleteLast?)
      ensures CorrectionOk(s, all[..j], all[j])
    {
      assert j < |ws| ==> all[..j] == ws[..j];
      assert j == |ws| ==> all[..j] == ws;
    }
  }

  /** Every batch the tools can build, from any calls in any order, satisfies ToolBuilt. */
  lemma {:induction false} BufferIsToolBuilt(ctx: Context, calls: seq<ToolCall>)
    ensures ToolBuilt(ctx.user, ctx.snapshot, Buffer(ctx, calls))
  {
    hide IntentOf, WriteOk, CorrectionOk;
    if calls != [] {
      var ws := Buffer(ctx, calls[..|calls| - 1]);
      var call := calls[|calls| - 1];
      BufferIsToolBuilt(ctx, calls[..|calls| - 1]);
      IntentIsOk(ctx, ws, call);
      var r := IntentOf(ctx, ws, call);
      if r.Some? {
        assert Buffer(ctx, calls) == ws + [r.value];
        OneMoreIsToolBuilt(ctx.user, ctx.snapshot, ws, r.value);
      }
    }
  }
}

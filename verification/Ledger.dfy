/** What each ledger-affecting write does to the tables, as a function of the tables before it.
    A failing statement (CHECK, foreign key, unique index, bigint overflow) is an Err. */
module Ledger {
  import opened Prelude
  import opened Text
  import opened Domain
  import Like
  import Memory

  const NOTE_MAX: nat := 500
  const NAME_MAX: nat := 100
  const LABEL_MAX: nat := 100
  const ACCOUNT_MAX: nat := 100
  /** The upper bound of the `*_safe` CHECKs. */
  const MAX_SAFE: int := 9007199254740991

  datatype TxRow = TxRow(user: Id, kind: TxKind, amount: int, category: Category, note: Option<string>,
                         date: Day, goal: Option<Id>, account: Option<string>, source: Option<string>)

  datatype GoalRow = GoalRow(user: Id, name: string, target: int, saved: int, targetDate: Option<Day>)

  datatype RecurringRow = RecurringRow(
    user: Id, labelText: string, kind: TxKind, amount: int, category: Category, cadence: Cadence,
    dayOfMonth: Option<int>, dayOfWeek: Option<int>, lastReminded: Option<Day>)

  datatype TransferRow = TransferRow(user: Id, amount: int, fromAccount: Option<string>,
                                     toAccount: Option<string>, note: Option<string>, date: Day,
                                     source: Option<string>)

  /** The JSON snapshots of the audit trail. */
  datatype FullImage = FullImage(kind: TxKind, amount: int, category: Category, date: Day,
                                 goal: Option<Id>, goalSaved: Option<int>)
  datatype EditImage = EditImage(amount: int, category: Category, goal: Option<Id>)

  datatype LedgerEvent =
    | TxCreate(user: Id, tx: Id, created: FullImage, source: Option<string>)
    | TxEdit(user: Id, tx: Id, before: EditImage, after: EditImage, goalSaved: Option<int>, source: Option<string>)
    | TxDelete(user: Id, tx: Id, deleted: FullImage, source: Option<string>)

  /** The tables a turn's writes can change. */
  datatype Tables = Tables(
    txs: map<Id, TxRow>,
    goals: map<Id, GoalRow>,
    budgets: map<(Id, Category), int>,
    recurring: map<Id, RecurringRow>,
    memories: map<Id, Memory.MemoryRow>,
    transfers: seq<TransferRow>,
    events: seq<LedgerEvent>,
    nextId: Id)

  const EMPTY: Tables := Tables(map[], map[], map[], map[], map[], [], [], 0)

  predicate SafeAmount(amount: int) {
    0 < amount <= MAX_SAFE
  }

  function TruncateOpt(s: Option<string>, max: nat): Option<string> {
    match s
    case Some(v) => Some(Truncate(v, max))
    case None => None
  }

  // ---------------------------------------------------------------- transactions and goals

  /** `insert into transactions`, with its CHECK and its foreign key. */
  function InsertTx(t: Tables, row: TxRow): Result<Tables> {
    if !SafeAmount(row.amount) then Err(CheckViolation)
    else if row.goal.Some? && row.goal.value !in t.goals then Err(ForeignKeyViolation)
    else Ok(t.(txs := t.txs[t.nextId := row], nextId := t.nextId + 1))
  }

  /** `update savings_goals set saved_centavos = saved_centavos + delta where id and user_id`. */
  function AdjustGoal(t: Tables, user: Id, goal: Id, delta: int): Result<Tables> {
    if goal in t.goals && t.goals[goal].user == user then
      var saved := t.goals[goal].saved + delta;
      if !(I64_MIN <= saved <= I64_MAX) then Err(NumericOverflow)
      else if saved < 0 then Err(CheckViolation)
      else Ok(t.(goals := t.goals[goal := t.goals[goal].(saved := saved)]))
    else Ok(t)
  }

  /** The `returning saved_centavos` of the update above. */
  function GoalBalance(t: Tables, user: Id, goal: Option<Id>): Option<int> {
    if goal.Some? && goal.value in t.goals && t.goals[goal.value].user == user
    then Some(t.goals[goal.value].saved) else None
  }

  function Record(t: Tables, e: LedgerEvent): Tables {
    t.(events := t.events + [e])
  }

  function LogTransaction(t: Tables, source: Option<string>, w: WriteIntent): Result<Tables>
    requires w.Transaction?
  {
    var row := TxRow(w.user, w.kind, w.amount, w.category, TruncateOpt(w.note, NOTE_MAX), w.date, None,
                     TruncateOpt(w.account, ACCOUNT_MAX), source);
    var t1 :- InsertTx(t, row);
    Ok(Record(t1, TxCreate(w.user, t.nextId, FullImage(w.kind, w.amount, w.category, w.date, None, None), source)))
  }

  function Contribute(t: Tables, source: Option<string>, w: WriteIntent): Result<Tables>
    requires w.GoalContribution?
  {
    var row := TxRow(w.user, TxKind.Expense, w.amount, SavingsGoals, None, w.date, Some(w.goal), None, source);
    var t1 :- InsertTx(t, row);
    var t2 :- AdjustGoal(t1, w.user, w.goal, w.amount);
    Ok(Record(t2, TxCreate(w.user, t.nextId,
                           FullImage(TxKind.Expense, w.amount, SavingsGoals, w.date, Some(w.goal),
                                     GoalBalance(t2, w.user, Some(w.goal))),
                           source)))
  }

  function DeleteTx(t: Tables, user: Id, id: Id, source: Option<string>): Result<Tables> {
    if id !in t.txs || t.txs[id].user != user then Ok(t)
    else
      var row := t.txs[id];
      var t1 :- if row.goal.Some? then AdjustGoal(t, user, row.goal.value, -row.amount) else Ok(t);
      Ok(Record(t1.(txs := t1.txs - {id}),
                TxDelete(user, id,
                         FullImage(row.kind, row.amount, row.category, row.date, row.goal, GoalBalance(t1, user, row.goal)),
                         source)))
  }

  /** The row an edit stores. A goal-linked row keeps its category whatever was asked. */
  function PatchTx(row: TxRow, amount: Option<Centavos>, category: Option<Category>, note: Option<string>): TxRow {
    row.(amount := Or<int>(amount, row.amount),
         category := if row.goal.None? then Or(category, row.category) else row.category,
         note := if note.Some? then TruncateOpt(note, NOTE_MAX) else row.note)
  }

  predicate MovesGoal(row: TxRow, amount: Option<Centavos>) {
    row.goal.Some? && amount.Some? && amount.value != row.amount
  }

  /** The goal's share of an edit: the difference between the new amount and the old. */
  function Rebalance(t: Tables, row: TxRow, amount: Option<Centavos>): Result<Tables> {
    if MovesGoal(row, amount) then AdjustGoal(t, row.user, row.goal.value, amount.value - row.amount) else Ok(t)
  }

  /** The row's share: the update and its event, unless the edit leaves no column to set. */
  function StoreEdit(t: Tables, id: Id, row: TxRow, amount: Option<Centavos>, category: Option<Category>,
                     note: Option<string>, source: Option<string>): Result<Tables> {
    var recategorized := category.Some? && row.goal.None?;
    if amount.None? && !recategorized && note.None? then Ok(t)
    else if amount.Some? && !SafeAmount(amount.value) then Err(CheckViolation)
    else
      var row' := PatchTx(row, amount, category, note);
      Ok(Record(t.(txs := t.txs[id := row']),
                TxEdit(row.user, id, EditImage(row.amount, row.category, row.goal),
                       EditImage(row'.amount, row'.category, row.goal),
                       if MovesGoal(row, amount) then GoalBalance(t, row.user, row.goal) else None, source)))
  }

  function EditTx(t: Tables, user: Id, id: Id, amount: Option<Centavos>, category: Option<Category>,
                  note: Option<string>, source: Option<string>): Result<Tables> {
    if id !in t.txs || t.txs[id].user != user then Ok(t)
    else
      var t1 :- Rebalance(t, t.txs[id], amount);
      StoreEdit(t1, id, t.txs[id], amount, category, note, source)
  }

  predicate SameName(row: GoalRow, user: Id, name: string) {
    row.user == user && Lower(row.name) == Lower(name)
  }

  function InsertGoal(t: Tables, w: WriteIntent): Result<Tables>
    requires w.CreateGoal?
  {
    var name := Truncate(w.name, NAME_MAX);
    if !SafeAmount(w.targetCentavos) then Err(CheckViolation)
    else if exists g :: g in t.goals && SameName(t.goals[g], w.user, name) then Ok(t)
    else
      Ok(t.(goals := t.goals[t.nextId := GoalRow(w.user, name, w.targetCentavos, 0, w.targetDate)],
            nextId := t.nextId + 1))
  }

  function PatchGoal(t: Tables, w: WriteIntent): Result<Tables>
    requires w.EditGoal?
  {
    if (w.newName.None? && w.newTarget.None? && w.newTargetDate.None?)
       || w.goal !in t.goals || t.goals[w.goal].user != w.user then Ok(t)
    else
      var row := t.goals[w.goal];
      var name := if w.newName.Some? then Truncate(w.newName.value, NAME_MAX) else row.name;
      if w.newTarget.Some? && !SafeAmount(w.newTarget.value) then Err(CheckViolation)
      else if exists g :: g in t.goals && g != w.goal && SameName(t.goals[g], w.user, name) then Err(UniqueViolation)
      else
        Ok(t.(goals := t.goals[w.goal := row.(name := name, target := Or<int>(w.newTarget, row.target),
                                              targetDate := Or(w.newTargetDate, row.targetDate))]))
  }

  /** The two statements of a goal deletion, the second with its `on delete set null`. */
  function RemoveGoal(t: Tables, user: Id, goal: Id): Tables {
    var deleted := goal in t.goals && t.goals[goal].user == user;
    var txs := map id | id in t.txs ::
                 if t.txs[id].goal == Some(goal) && (deleted || t.txs[id].user == user)
                 then t.txs[id].(goal := None) else t.txs[id];
    t.(txs := txs, goals := if deleted then t.goals - {goal} else t.goals)
  }

  // ---------------------------------------------------------------- budgets, recurring items, transfers

  function UpsertBudget(t: Tables, user: Id, category: Category, limit: int): Result<Tables> {
    if !SafeAmount(limit) then Err(CheckViolation)
    else Ok(t.(budgets := t.budgets[(user, category) := limit]))
  }

  /** The CHECKs of recurring_items. */
  predicate RecurringChecks(row: RecurringRow) {
    && SafeAmount(row.amount)
    && (row.dayOfMonth.Some? ==> 1 <= row.dayOfMonth.value <= 31)
    && (row.dayOfWeek.Some? ==> 0 <= row.dayOfWeek.value <= 6)
    && (if row.cadence.Monthly? then row.dayOfMonth.Some? else row.dayOfWeek.Some?)
  }

  predicate SameLabel(row: RecurringRow, user: Id, text: string) {
    row.user == user && Lower(row.labelText) == Lower(text)
  }

  /** The oldest row below `n` with this label. */
  function FindLabel(m: map<Id, RecurringRow>, user: Id, text: string, n: Id): (r: Option<Id>)
    ensures r.Some? ==> r.value in m && r.value < n && SameLabel(m[r.value], user, text)
    ensures r.None? ==> forall i :: i in m && i < n ==> !SameLabel(m[i], user, text)
  {
    if n == 0 then None
    else
      var earlier := FindLabel(m, user, text, n - 1);
      if earlier.Some? then earlier
      else if n - 1 in m && SameLabel(m[n - 1], user, text) then Some(n - 1)
      else None
  }

  predicate LikeLabel(row: RecurringRow, user: Id, query: string) {
    row.user == user && Like.Matches(Lower("%" + Like.EscapeLike(query) + "%"), Lower(row.labelText))
  }

  /** The rows below `n` whose label matches the pattern, oldest first. */
  function LikeLabels(m: map<Id, RecurringRow>, user: Id, query: string, n: Id): (r: seq<Id>)
    ensures forall i :: i in r ==> i in m && i < n && LikeLabel(m[i], user, query)
  {
    if n == 0 then []
    else LikeLabels(m, user, query, n - 1) + if n - 1 in m && LikeLabel(m[n - 1], user, query) then [n - 1] else []
  }

  /** recurring_target_id: an exact label wins, else the only containing label, else nothing. */
  function RecurringTarget(m: map<Id, RecurringRow>, user: Id, query: string, n: Id): (r: Option<Id>)
    ensures r.Some? ==> r.value in m && r.value < n && m[r.value].user == user
  {
    var q := Trim(query);
    if q == "" then None
    else
      var exact := FindLabel(m, user, q, n);
      if exact.Some? then exact
      else
        var hits := LikeLabels(m, user, q, n);
        if |hits| == 1 then assert hits[0] in hits; Some(hits[0]) else None
  }

  function UpsertRecurring(t: Tables, user: Id, r: RecurringInput): Result<Tables> {
    var text := Truncate(r.labelText, LABEL_MAX);
    var row := RecurringRow(user, text, r.kind, r.amount, r.category, r.cadence, r.dayOfMonth, r.dayOfWeek, None);
    if !RecurringChecks(row) then Err(CheckViolation)
    else
      var existing := FindLabel(t.recurring, user, text, t.nextId);
      if existing.Some? then
        var prior := t.recurring[existing.value];
        Ok(t.(recurring := t.recurring[existing.value := row.(labelText := prior.labelText, lastReminded := prior.lastReminded)]))
      else Ok(t.(recurring := t.recurring[t.nextId := row], nextId := t.nextId + 1))
  }

  function DropRecurring(t: Tables, user: Id, query: string): Tables {
    match RecurringTarget(t.recurring, user, query, t.nextId)
    case Some(id) => t.(recurring := t.recurring - {id})
    case None => t
  }

  function PatchRecurring(row: RecurringRow, w: WriteIntent): RecurringRow
    requires w.EditRecurring?
  {
    row.(amount := Or<int>(w.newAmount, row.amount), category := Or(w.newCategory, row.category),
         cadence := Or(w.newCadence, row.cadence), dayOfMonth := Or(w.newDayOfMonth, row.dayOfMonth),
         dayOfWeek := Or(w.newDayOfWeek, row.dayOfWeek))
  }

  function UpdateRecurring(t: Tables, id: Id, w: WriteIntent): Result<Tables>
    requires w.EditRecurring? && id in t.recurring
  {
    var row := PatchRecurring(t.recurring[id], w);
    if !RecurringChecks(row) then Err(CheckViolation) else Ok(t.(recurring := t.recurring[id := row]))
  }

  function ReviseRecurring(t: Tables, w: WriteIntent): Result<Tables>
    requires w.EditRecurring?
  {
    if w.newAmount.None? && w.newCategory.None? && w.newCadence.None? && w.newDayOfMonth.None? && w.newDayOfWeek.None?
    then Ok(t)
    else
      match RecurringTarget(t.recurring, w.user, w.query, t.nextId)
      case None => Ok(t)
      case Some(id) => UpdateRecurring(t, id, w)
  }

  function AddTransfer(t: Tables, source: Option<string>, w: WriteIntent): Result<Tables>
    requires w.Transfer?
  {
    if w.amount <= 0 then Err(CheckViolation)
    else
      var row := TransferRow(w.user, w.amount, TruncateOpt(w.fromAccount, ACCOUNT_MAX),
                             TruncateOpt(w.toAccount, ACCOUNT_MAX), TruncateOpt(w.note, NOTE_MAX), w.date, source);
      Ok(t.(transfers := t.transfers + [row]))
  }

  function WithMemories(t: Tables, s: Memory.Store): Tables {
    t.(memories := s.rows, nextId := s.nextId)
  }

  // ---------------------------------------------------------------- one write, and a batch of them

  /** The in-memory state a flush carries from one write to the next. */
  datatype Carry = Carry(last: Option<Id>, source: Option<string>)

  function Target(c: Carry, w: WriteIntent): Option<Id>
    requires w.DeleteLast? || w.EditLast?
  {
    if w.sameTurn then c.last else w.target
  }

  /** Writes that touch the conversation, the reply queue or a confirmation, never these tables. */
  predicate IsBookkeeping(w: WriteIntent) {
    w.SaveTurn? || w.OutboundReply? || w.ConsumeConfirmation?
  }

  function Apply(t: Tables, c: Carry, w: WriteIntent): Result<Tables> {
    match w
    case Transaction(_, _, _, _, _, _, _) => LogTransaction(t, c.source, w)
    case GoalContribution(_, _, _, _) => Contribute(t, c.source, w)
    case DeleteLast(user, _, _) =>
      (match Target(c, w)
       case Some(id) => DeleteTx(t, user, id, c.source)
       case None => Ok(t))
    case EditLast(user, _, _, amount, category, note) =>
      (match Target(c, w)
       case Some(id) => EditTx(t, user, id, amount, category, note, c.source)
       case None => Ok(t))
    case CreateGoal(_, _, _, _) => InsertGoal(t, w)
    case SetBudget(user, category, limit) => UpsertBudget(t, user, category, limit)
    case RemoveBudget(user, category) => Ok(t.(budgets := t.budgets - {(user, category)}))
    case EditGoal(_, _, _, _, _) => PatchGoal(t, w)
    case DeleteGoal(user, goal) => Ok(RemoveGoal(t, user, goal))
    case SaveMemory(user, content, kind) =>
      Ok(WithMemories(t, Memory.Store(t.memories, t.nextId).Save(user, content, kind)))
    case ForgetMemory(user, query) =>
      Ok(WithMemories(t, Memory.Store(t.memories, t.nextId).Forget(user, query)))
    case AddRecurring(user, r) => UpsertRecurring(t, user, r)
    case RemoveRecurring(user, query) => Ok(DropRecurring(t, user, query))
    case EditRecurring(_, _, _, _, _, _, _) => ReviseRecurring(t, w)
    case Transfer(_, _, _, _, _, _) => AddTransfer(t, c.source, w)
    case SaveTurn(_, _, _) => Ok(t)
    case OutboundReply(_, _, _, _) => Ok(t)
    case ConsumeConfirmation(_, _) => Ok(t)
  }

  /** What the flush remembers after a write: the row a same-turn correction would hit. */
  function Advance(t: Tables, c: Carry, w: WriteIntent): Carry {
    if InsertsTransaction(w) then c.(last := Some(t.nextId))
    else if w.DeleteLast? && w.sameTurn then c.(last := None)
    else c
  }

  function ApplyAll(t: Tables, c: Carry, ws: seq<WriteIntent>): Result<(Tables, Carry)>
    decreases |ws|
  {
    if ws == [] then Ok((t, c))
    else
      var t1 :- Apply(t, c, ws[0]);
      ApplyAll(t1, Advance(t, c, ws[0]), ws[1..])
  }

  lemma {:induction false} ApplyAllConcat(t: Tables, c: Carry, a: seq<WriteIntent>, b: seq<WriteIntent>)
    ensures ApplyAll(t, c, a + b)
            == match ApplyAll(t, c, a)
               case Ok(r) => ApplyAll(r.0, r.1, b)
               case Err(e) => Err(e)
    decreases |a|
  {
    if a == [] {
      assert a + b == b;
    } else {
      assert (a + b)[1..] == a[1..] + b;
      var r := Apply(t, c, a[0]);
      if r.Ok? {
        ApplyAllConcat(r.value, Advance(t, c, a[0]), a[1..], b);
      }
    }
  }
}

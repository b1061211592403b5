/** The write commands the agent produces and the vocabulary they use. */
module Domain {
  import opened Prelude
  import Memory

  datatype TxKind = Income | Expense

  datatype Category =
    | Food | Transport | Bills | Shopping | Health | Entertainment | SavingsGoals | Income | Other

  datatype Cadence = Weekly | Monthly

  datatype MessageRole = User | Assistant

  datatype RecurringInput = RecurringInput(
    labelText: string, kind: TxKind, amount: Centavos, category: Category, cadence: Cadence,
    dayOfMonth: Option<int>, dayOfWeek: Option<int>)

  datatype WriteIntent =
    | Transaction(user: Id, kind: TxKind, amount: Centavos, category: Category, note: Option<string>,
                  date: Day, account: Option<string>)
    | GoalContribution(user: Id, goal: Id, amount: Centavos, date: Day)
    | DeleteLast(user: Id, target: Option<Id>, sameTurn: bool)
    | EditLast(user: Id, target: Option<Id>, sameTurn: bool, newAmount: Option<Centavos>,
               newCategory: Option<Category>, newNote: Option<string>)
    | CreateGoal(user: Id, name: string, targetCentavos: Centavos, targetDate: Option<Day>)
    | SetBudget(user: Id, category: Category, limit: Centavos)
    | RemoveBudget(user: Id, category: Category)
    | EditGoal(user: Id, goal: Id, newName: Option<string>, newTarget: Option<Centavos>,
               newTargetDate: Option<Option<Day>>)
    | DeleteGoal(user: Id, goal: Id)
    | SaveMemory(user: Id, content: string, memoryKind: Memory.MemoryKind)
    | ForgetMemory(user: Id, query: string)
    | SaveTurn(user: Id, role: MessageRole, content: string)
    | OutboundReply(user: Id, phone: string, content: string, dedupKey: Option<string>)
    | AddRecurring(user: Id, recurring: RecurringInput)
    | RemoveRecurring(user: Id, query: string)
    | EditRecurring(user: Id, query: string, newAmount: Option<Centavos>, newCategory: Option<Category>,
                    newCadence: Option<Cadence>, newDayOfMonth: Option<Option<int>>,
                    newDayOfWeek: Option<Option<int>>)
    | Transfer(user: Id, amount: Centavos, fromAccount: Option<string>, toAccount: Option<string>,
               note: Option<string>, date: Day)
    | ConsumeConfirmation(user: Id, confirmation: Id)

  /** What a same-turn correction can point at. */
  predicate InsertsTransaction(w: WriteIntent) {
    w.Transaction? || w.GoalContribution?
  }
}

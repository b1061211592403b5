/** The life of parked batches under any statements: applied at most once, and never once dead. */
module Applications {
  import opened Prelude
  import opened Domain
  import opened Text
  import opened Confirmations

  /** Everything that can happen to the table. A spend is a flush's consume that committed. */
  datatype BookMove =
    | Still
    | Save(user: Id, phone: string, source: Option<string>, summary: string, payload: seq<WriteIntent>, expiry: Time)
    | Spend(id: Id, user: Id)
    | Withdraw(user: Id)
    | Sweep(at: Time)

  /** How often each confirmation was applied, the same by source message, and how many consumed rows
      of each source were reaped. */
  datatype Tally = Tally(applied: multiset<Id>, appliedFrom: multiset<string>, reapedConsumed: multiset<string>)

  const NO_TALLY: Tally := Tally(multiset{}, multiset{}, multiset{})

  predicate Possible(book: Book, m: BookMove) {
    m.Spend? ==> CanConsume(book, m.id, m.user)
  }

  function StepBook(book: Book, m: BookMove): Book {
    match m
    case Still => book
    case Save(user, phone, source, summary, payload, expiry) =>
      Confirmations.Save(book, user, phone, source, summary, payload, expiry)
    case Spend(id, user) => Or(Consume(book, id, user), book)
    case Withdraw(user) => Cancel(book, user)
    case Sweep(at) => Reap(book, at)
  }

  predicate IsConsumed(book: Book, id: Id) {
    id in book.rows && book.rows[id].status == Consumed
  }

  function ConsumedSources(book: Book): set<string> {
    set i | i in book.rows && IsConsumed(book, i) && book.rows[i].source.Some? :: book.rows[i].source.value
  }

  function SourceOfRow(book: Book, id: Id): multiset<string> {
    if id in book.rows && book.rows[id].source.Some? then multiset{book.rows[id].source.value} else multiset{}
  }

  function StepTally(book: Book, t: Tally, m: BookMove): Tally {
    match m
    case Spend(id, _) => t.(applied := t.applied + multiset{id}, appliedFrom := t.appliedFrom + SourceOfRow(book, id))
    case Sweep(_) => t.(reapedConsumed := t.reapedConsumed + multiset(ConsumedSources(book)))
    case _ => t
  }

  /** Applications are accounted for, by confirmation and by source message. */
  ghost predicate Accounted(book: Book, t: Tally) {
    && Valid(book)
    && (forall id :: id in book.rows ==> t.applied[id] == if IsConsumed(book, id) then 1 else 0)
    && (forall id: Id :: t.applied[id] <= 1 && (id >= book.nextId ==> t.applied[id] == 0))
    && (forall src :: t.appliedFrom[src] == t.reapedConsumed[src] + if src in ConsumedSources(book) then 1 else 0)
  }

  /** The consumed rows of two books carry the same sources when they are the same rows. */
  lemma SameSources(a: Book, b: Book)
    requires forall i :: IsConsumed(a, i) <==> IsConsumed(b, i)
    requires forall i :: IsConsumed(a, i) && IsConsumed(b, i) ==> a.rows[i].source == b.rows[i].source
    ensures ConsumedSources(a) == ConsumedSources(b)
  {
    forall x
      ensures x in ConsumedSources(a) <==> x in ConsumedSources(b)
    {
      if x in ConsumedSources(a) {
        var i :| i in a.rows && IsConsumed(a, i) && a.rows[i].source == Some(x);
        assert IsConsumed(b, i) && b.rows[i].source == Some(x);
      }
      if x in ConsumedSources(b) {
        var i :| i in b.rows && IsConsumed(b, i) && b.rows[i].source == Some(x);
        assert IsConsumed(a, i) && a.rows[i].source == Some(x);
      }
    }
  }

  lemma SpendAddsSource(book: Book, id: Id, user: Id)
    requires Valid(book) && CanConsume(book, id, user)
    ensures var b, src := Consume(book, id, user).value, book.rows[id].source;
            && (src.Some? ==> src.value !in ConsumedSources(book))
            && ConsumedSources(b) == ConsumedSources(book) + (if src.Some? then {src.value} else {})
  {
    var b, src := Consume(book, id, user).value, book.rows[id].source;
    forall x
      ensures x in ConsumedSources(b) <==> x in ConsumedSources(book) || src == Some(x)
    {
      if x in ConsumedSources(b) {
        var i :| i in b.rows && IsConsumed(b, i) && b.rows[i].source == Some(x);
        assert i != id ==> IsConsumed(book, i) && book.rows[i].source == Some(x);
      }
      if x in ConsumedSources(book) {
        var i :| i in book.rows && IsConsumed(book, i) && book.rows[i].source == Some(x);
        assert IsConsumed(b, i) && b.rows[i].source == Some(x);
      }
      if src == Some(x) {
        assert IsConsumed(b, id) && b.rows[id].source == Some(x);
      }
    }
  }

  lemma SaveAccounts(book: Book, t: Tally, m: BookMove)
    requires Accounted(book, t) && m.Save?
    ensures Accounted(StepBook(book, m), t)
  {
    var b := StepBook(book, m);
    StatementsKeepValid(book, m.user, m.phone, m.source, m.summary, m.payload, m.expiry, 0);
    SavedRows(book, m);
    hide StepBook, Valid, ConsumedSources;
    SameSources(book, b);
    NewRowsAccount(book, b, t);
  }

  lemma NewRowsAccount(book: Book, b: Book, t: Tally)
    requires Accounted(book, t) && Valid(b) && book.nextId <= b.nextId && ConsumedSources(b) == ConsumedSources(book)
    requires forall i :: i in book.rows ==> i in b.rows && b.rows[i] == book.rows[i]
    requires forall i :: i in b.rows && i !in book.rows ==> i == book.nextId && b.rows[i].status == Pending
    ensures Accounted(b, t)
  {
    hide ConsumedSources, Valid;
  }

  lemma SavedRows(book: Book, m: BookMove)
    requires m.Save? && Valid(book)
    ensures var b := StepBook(book, m);
            && book.nextId <= b.nextId
            && (forall i :: i in book.rows ==> i in b.rows && b.rows[i] == book.rows[i])
            && (forall i :: i in b.rows && i !in book.rows ==> i == book.nextId && b.rows[i].status == Pending)
  {
    hide Trim, Truncate, HasSource;
  }

  lemma SpendAccounts(book: Book, t: Tally, m: BookMove)
    requires Accounted(book, t) && m.Spend? && CanConsume(book, m.id, m.user)
    ensures Accounted(StepBook(book, m), StepTally(book, t, m))
  {
    SpendAddsSource(book, m.id, m.user);
    hide ConsumedSources;
  }

  lemma WithdrawAccounts(book: Book, t: Tally, m: BookMove)
    requires Accounted(book, t) && m.Withdraw?
    ensures Accounted(StepBook(book, m), t)
  {
    SameSources(book, StepBook(book, m));
    hide ConsumedSources;
  }

  lemma SweepAccounts(book: Book, t: Tally, m: BookMove)
    requires Accounted(book, t) && m.Sweep?
    ensures Accounted(StepBook(book, m), StepTally(book, t, m))
  {
    assert ConsumedSources(StepBook(book, m)) == {};
    hide ConsumedSources;
  }

  lemma MovesAccount(book: Book, t: Tally, m: BookMove)
    requires Accounted(book, t) && Possible(book, m)
    ensures Accounted(StepBook(book, m), StepTally(book, t, m))
  {
    hide Accounted;
    match m
    case Still =>
    case Save(_, _, _, _, _, _) => SaveAccounts(book, t, m);
    case Spend(_, _) => SpendAccounts(book, t, m);
    case Withdraw(_) => WithdrawAccounts(book, t, m);
    case Sweep(_) => SweepAccounts(book, t, m);
  }

  lemma MovesKeepFit(book: Book, m: BookMove)
    requires AllFit(book)
    ensures AllFit(StepBook(book, m))
  {
    hide Trim, HasSource;
  }

  // ---------------------------------------------------------------- dead batches, and stored requests

  /** Cancelled, consumed or reaped. */
  predicate Dead(book: Book, id: Id) {
    id < book.nextId && (id in book.rows ==> book.rows[id].status != Pending)
  }

  lemma DeadStaysDead(book: Book, t: Tally, m: BookMove, id: Id)
    requires Dead(book, id) && Possible(book, m)
    ensures Dead(StepBook(book, m), id) && StepTally(book, t, m).applied[id] == t.applied[id]
  {
    hide ConsumedSources;
  }

  predicate SameRequest(a: Row, b: Row) {
    a == b.(status := a.status)
  }

  /** Nothing but the status of a stored row ever changes, and ids are never handed out again. */
  lemma RequestsNeverChange(book: Book, m: BookMove)
    requires Valid(book)
    ensures book.nextId <= StepBook(book, m).nextId
    ensures forall id :: id in StepBook(book, m).rows && id < book.nextId ==>
              id in book.rows && SameRequest(StepBook(book, m).rows[id], book.rows[id])
  {
  }
}

/** The whole database, and the flush: all of a turn's writes and its completion marker, or nothing. */
module Flush {
  import opened Prelude
  import opened Text
  import opened Domain
  import opened Ledger
  import Inbox
  import Confirmations
  import Outbox

  const TURN_MAX: nat := 4000

  datatype Turn = Turn(user: Id, role: MessageRole, content: string)

  datatype Db = Db(ledger: Tables, turns: seq<Turn>, claims: Inbox.Markers, confirmations: Confirmations.Book,
                   outbox: Outbox.Queue)

  const FRESH: Db := Db(Ledger.EMPTY, [], map[], Confirmations.EMPTY, Outbox.EMPTY)

  /** Inside the transaction: still going, superseded by a spent confirmation, or aborted. */
  datatype Progress = Going(db: Db, carry: Carry) | Gone | Broken(error: DbError)

  /** apply_write_intent */
  function Perform(db: Db, c: Carry, w: WriteIntent, now: Time): Progress {
    match w
    case SaveTurn(user, role, content) =>
      Going(db.(turns := db.turns + [Turn(user, role, Truncate(content, TURN_MAX))]), c)
    case OutboundReply(user, phone, content, key) =>
      Going(db.(outbox := Outbox.Enqueue(db.outbox, user, phone, content, key, now)), c)
    case ConsumeConfirmation(user, id) =>
      (match Confirmations.Consume(db.confirmations, id, user)
       case Some(book) => Going(db.(confirmations := book), c)
       case None => Gone)
    case _ =>
      match Apply(db.ledger, c, w)
      case Ok(ledger) => Going(db.(ledger := ledger), Advance(db.ledger, c, w))
      case Err(e) => Broken(e)
  }

  function PerformAll(db: Db, c: Carry, ws: seq<WriteIntent>, now: Time): Progress
    decreases |ws|
  {
    if ws == [] then Going(db, c)
    else
      match Perform(db, c, ws[0], now)
      case Going(db1, c1) => PerformAll(db1, c1, ws[1..], now)
      case Gone => Gone
      case Broken(e) => Broken(e)
  }

  datatype Outcome = Committed | Superseded | Failed(error: DbError)

  /** flush_writes, as a function of the database before it. */
  function FlushWrites(db: Db, mid: Option<string>, ws: seq<WriteIntent>, now: Time): (Db, Outcome) {
    match PerformAll(db, Carry(None, mid), ws, now)
    case Gone => (db, Superseded)
    case Broken(e) => (db, Failed(e))
    case Going(db1, _) =>
      if mid.None? then (db1, Committed)
      else
        match Inbox.Complete(db1.claims, mid.value, now)
        case Some(claims) => (db1.(claims := claims), Committed)
        case None => (db, Superseded)
  }

  // ---------------------------------------------------------------- what a flush does, table by table

  function ConsumeAll(b: Confirmations.Book, ws: seq<WriteIntent>): Option<Confirmations.Book>
    decreases |ws|
  {
    if ws == [] then Some(b)
    else if ws[0].ConsumeConfirmation? then
      (match Confirmations.Consume(b, ws[0].confirmation, ws[0].user)
       case Some(b1) => ConsumeAll(b1, ws[1..])
       case None => None)
    else ConsumeAll(b, ws[1..])
  }

  function EnqueueAll(q: Outbox.Queue, ws: seq<WriteIntent>, now: Time): Outbox.Queue
    decreases |ws|
  {
    if ws == [] then q
    else if ws[0].OutboundReply? then
      EnqueueAll(Outbox.Enqueue(q, ws[0].user, ws[0].phone, ws[0].content, ws[0].dedupKey, now), ws[1..], now)
    else EnqueueAll(q, ws[1..], now)
  }

  /** The tables do not interact: a flush that keeps going is the ledger's run, the confirmations' run
      and the queue's run side by side, and it keeps going exactly when none of them stops. */
  lemma {:induction false} PerformAllSplits(db: Db, c: Carry, ws: seq<WriteIntent>, now: Time)
    ensures var p := PerformAll(db, c, ws, now);
            var ledger := ApplyAll(db.ledger, c, ws);
            var book := ConsumeAll(db.confirmations, ws);
            && (p.Going? <==> ledger.Ok? && book.Some?)
            && match p
               case Going(db', c') =>
                 && ledger == Ok((db'.ledger, c')) && book == Some(db'.confirmations)
                 && db'.outbox == EnqueueAll(db.outbox, ws, now) && db'.claims == db.claims
               case Broken(error) => ledger == Err(error)
               case Gone => book.None?
    decreases |ws|
  {
    if ws != [] {
      OneSplits(db, c, ws[0], now);
      var p := Perform(db, c, ws[0], now);
      if p.Going? {
        hide Perform, Apply, Advance, Outbox.Enqueue, Confirmations.Consume;
        PerformAllSplits(p.db, p.carry, ws[1..], now);
      }
    }
  }

  lemma OneSplits(db: Db, c: Carry, w: WriteIntent, now: Time)
    ensures var p := Perform(db, c, w, now);
            var ledger := Apply(db.ledger, c, w);
            && (p.Going? <==> ledger.Ok? && (w.ConsumeConfirmation? ==>
                                               Confirmations.CanConsume(db.confirmations, w.confirmation, w.user)))
            && (p.Broken? ==> ledger == Err(p.error))
            && (p.Gone? ==> w.ConsumeConfirmation? && !Confirmations.CanConsume(db.confirmations, w.confirmation, w.user))
            && (p.Going? ==>
                  && ledger == Ok(p.db.ledger) && p.carry == Advance(db.ledger, c, w) && p.db.claims == db.claims
                  && p.db.confirmations == (if w.ConsumeConfirmation?
                                            then Confirmations.Consume(db.confirmations, w.confirmation, w.user).value
                                            else db.confirmations)
                  && p.db.outbox == (if w.OutboundReply?
                                     then Outbox.Enqueue(db.outbox, w.user, w.phone, w.content, w.dedupKey, now)
                                     else db.outbox))
  {
    hide Outbox.Enqueue, LogTransaction, Contribute, DeleteTx, EditTx, InsertGoal, PatchGoal, RemoveGoal,
         UpsertRecurring, DropRecurring, ReviseRecurring, AddTransfer;
  }

  /** When each outcome happens, and that the two failures leave the database exactly as it was. */
  lemma FlushOutcomes(db: Db, mid: string, ws: seq<WriteIntent>, now: Time)
    ensures var r := FlushWrites(db, Some(mid), ws, now);
            var ledger := ApplyAll(db.ledger, Carry(None, Some(mid)), ws);
            var book := ConsumeAll(db.confirmations, ws);
            && (r.1 == Committed <==> ledger.Ok? && book.Some? && !Inbox.IsCompleted(db.claims, mid))
            && (r.1 != Committed ==> r.0 == db)
            && match r.1
               case Failed(error) => ledger == Err(error)
               case Superseded => book.None? || Inbox.IsCompleted(db.claims, mid)
               case Committed =>
                 && Some(r.0.confirmations) == book && r.0.outbox == EnqueueAll(db.outbox, ws, now)
                 && r.0.ledger == ledger.Or((db.ledger, Carry(None, None))).0
                 && r.0.claims == db.claims[mid := Inbox.Completed(now)]
  {
    PerformAllSplits(db, Carry(None, Some(mid)), ws, now);
    hide PerformAll, ApplyAll, ConsumeAll, EnqueueAll;
  }
}

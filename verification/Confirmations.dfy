/** Parked batches waiting for a yes or a no. */
module Confirmations {
  import opened Prelude
  import opened Text
  import opened Domain

  const PHONE_MAX: nat := 80
  const SUMMARY_MAX: nat := 500
  const TTL: nat := 60 * 60 * 1000

  datatype Status = Pending | Consumed | Cancelled

  datatype Row = Row(user: Id, phone: string, source: Option<string>, summary: string, payload: seq<WriteIntent>,
                     status: Status, expiresAt: Time)

  datatype Book = Book(rows: map<Id, Row>, nextId: Id)

  const EMPTY: Book := Book(map[], 0)

  predicate HasSource(b: Book, source: Option<string>) {
    source.Some? && exists i :: i in b.rows && b.rows[i].source == source
  }

  /** save_pending_confirmation: at most one row per source message. */
  function Save(b: Book, user: Id, phone: string, source: Option<string>, summary: string,
                payload: seq<WriteIntent>, expiresAt: Time): Book {
    if HasSource(b, source) then b
    else
      Book(b.rows[b.nextId := Row(user, Truncate(Trim(phone), PHONE_MAX), source, Truncate(Trim(summary), SUMMARY_MAX),
                                  payload, Pending, expiresAt)],
           b.nextId + 1)
  }

  predicate Actionable(row: Row, user: Id, now: Time) {
    row.user == user && row.status == Pending && row.expiresAt > now
  }

  /** latest_pending_confirmation: the newest actionable row below `n`. */
  function LatestBelow(rows: map<Id, Row>, user: Id, now: Time, n: Id): (r: Option<Id>)
    ensures r.Some? ==> r.value < n && r.value in rows && Actionable(rows[r.value], user, now)
    ensures r.Some? ==> forall i :: r.value < i < n && i in rows ==> !Actionable(rows[i], user, now)
    ensures r.None? ==> forall i: Id :: i < n && i in rows ==> !Actionable(rows[i], user, now)
  {
    if n == 0 then None
    else if n - 1 in rows && Actionable(rows[n - 1], user, now) then Some(n - 1)
    else LatestBelow(rows, user, now, n - 1)
  }

  function Latest(b: Book, user: Id, now: Time): Option<Id> {
    LatestBelow(b.rows, user, now, b.nextId)
  }

  predicate CanConsume(b: Book, id: Id, user: Id) {
    id in b.rows && b.rows[id].user == user && b.rows[id].status == Pending
  }

  /** consume_confirmation_in_tx. Note that it does not look at the expiry. */
  function Consume(b: Book, id: Id, user: Id): Option<Book> {
    if CanConsume(b, id, user) then Some(b.(rows := b.rows[id := b.rows[id].(status := Consumed)])) else None
  }

  predicate Cancels(row: Row, user: Id) {
    row.user == user && row.status == Pending
  }

  /** cancel_pending_confirmations */
  function Cancel(b: Book, user: Id): Book {
    b.(rows := map i | i in b.rows :: if Cancels(b.rows[i], user) then b.rows[i].(status := Cancelled) else b.rows[i])
  }

  predicate Reapable(row: Row, now: Time) {
    row.status != Pending || row.expiresAt < now
  }

  /** reap_pending_confirmations */
  function Reap(b: Book, now: Time): Book {
    b.(rows := map i | i in b.rows && !Reapable(b.rows[i], now) :: b.rows[i])
  }

  /** The length limits of the table. */
  predicate Fits(row: Row) {
    |row.summary| <= SUMMARY_MAX && |row.phone| <= PHONE_MAX
  }

  ghost predicate AllFit(b: Book) {
    forall i :: i in b.rows ==> Fits(b.rows[i])
  }

  ghost predicate Valid(b: Book) {
    && (forall i :: i in b.rows ==> i < b.nextId)
    && (forall i, j :: i in b.rows && j in b.rows && i != j && b.rows[i].source.Some? ==>
          b.rows[i].source != b.rows[j].source)
  }

  /** Every statement keeps ids fresh and sources unique. */
  lemma StatementsKeepValid(b: Book, user: Id, phone: string, source: Option<string>, summary: string,
                            payload: seq<WriteIntent>, time: Time, id: Id)
    requires Valid(b)
    ensures Valid(Save(b, user, phone, source, summary, payload, time))
    ensures Consume(b, id, user).Some? ==> Valid(Consume(b, id, user).value)
    ensures Valid(Cancel(b, user)) && Valid(Reap(b, time))
  {
    hide Trim, Truncate;
  }
}

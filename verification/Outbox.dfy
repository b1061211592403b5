/** The outbound queue: an upsert, two ways to claim a row under a lease, and two ways to settle it. */
module Outbox {
  import opened Prelude
  import opened Text

  const CONTENT_MAX: nat := 4000
  const PHONE_MAX: nat := 80
  const KEY_MAX: nat := 200
  const MAX_ATTEMPTS: nat := 8
  const SECOND: int := 1000
  const LEASE: nat := 15 * 60 * SECOND

  datatype Status = Queued | Sending | Sent | Failed

  datatype OutRow = OutRow(
    user: Id, phone: string, content: string, dedupKey: Option<string>, status: Status, attempts: nat,
    nextAttemptAt: Time, updatedAt: Time, deadLetteredAt: Option<Time>)

  datatype Queue = Queue(rows: map<Id, OutRow>, nextId: Id)

  const EMPTY: Queue := Queue(map[], 0)

  /** How both the upsert and the lookup normalise a key. */
  function NormalKey(key: Option<string>): Option<string> {
    if key.None? || Trim(key.value) == "" then None else Some(Truncate(Trim(key.value), KEY_MAX))
  }

  /** The row holding a key, if any. */
  function FindKey(rows: map<Id, OutRow>, key: string, n: Id): (r: Option<Id>)
    ensures r.Some? ==> r.value < n && r.value in rows && rows[r.value].dedupKey == Some(key)
    ensures r.None? ==> forall i: Id :: i < n && i in rows ==> rows[i].dedupKey != Some(key)
  {
    if n == 0 then None
    else if n - 1 in rows && rows[n - 1].dedupKey == Some(key) then Some(n - 1)
    else FindKey(rows, key, n - 1)
  }

  function Requeue(row: OutRow, phone: string, content: string, now: Time): OutRow {
    if row.status == Sent then row.(phone := phone, content := content, updatedAt := now)
    else row.(phone := phone, content := content, status := Queued, nextAttemptAt := now, updatedAt := now)
  }

  predicate Sendable(phone: string, content: string) {
    !Blank(phone) && !Blank(content)
  }

  function EnqueueTarget(q: Queue, phone: string, content: string, key: Option<string>): Option<Id> {
    if Sendable(phone, content) && NormalKey(key).Some? then FindKey(q.rows, NormalKey(key).value, q.nextId) else None
  }

  /** save_outbound_reply_in_tx: blank text stores nothing; a known key updates its row. */
  function Enqueue(q: Queue, user: Id, phone: string, content: string, key: Option<string>, now: Time): Queue {
    if !Sendable(phone, content) then q
    else
      var phone', content' := Truncate(Trim(phone), PHONE_MAX), Truncate(Trim(content), CONTENT_MAX);
      match EnqueueTarget(q, phone, content, key)
      case Some(id) => q.(rows := q.rows[id := Requeue(q.rows[id], phone', content', now)])
      case None =>
        Queue(q.rows[q.nextId := OutRow(user, phone', content', NormalKey(key), Queued, 0, now, now, None)], q.nextId + 1)
  }

  predicate Claimable(row: OutRow, at: Time) {
    (row.status == Queued && row.nextAttemptAt <= at) || (row.status == Sending && row.updatedAt <= at - LEASE)
  }

  function ClaimRow(row: OutRow, now: Time): OutRow {
    row.(status := Sending, attempts := row.attempts + 1, updatedAt := now)
  }

  /** claim_outbound_by_dedup_key */
  function KeyTarget(q: Queue, key: string, now: Time): Option<Id> {
    if NormalKey(Some(key)).None? then None
    else
      match FindKey(q.rows, NormalKey(Some(key)).value, q.nextId)
      case Some(id) => if Claimable(q.rows[id], now) then Some(id) else None
      case None => None
  }

  /** The claimable ids below `n`, oldest first. */
  function DueBelow(rows: map<Id, OutRow>, at: Time, n: Id): (r: seq<Id>)
    ensures forall i :: i in r <==> i < n && i in rows && Claimable(rows[i], at)
    ensures forall j, k :: 0 <= j < k < |r| ==> r[j] < r[k]
  {
    if n == 0 then []
    else
      var older := DueBelow(rows, at, n - 1);
      assert forall j :: 0 <= j < |older| ==> older[j] in older;
      older + if n - 1 in rows && Claimable(rows[n - 1], at) then [n - 1] else []
  }

  /** The rows claim_due_outbound_messages takes: the oldest, between 1 and 50 of them. */
  function DueTargets(q: Queue, at: Time, limit: int): (r: seq<Id>)
    ensures |r| <= 50
    ensures forall i :: i in r ==> i < q.nextId && i in q.rows && Claimable(q.rows[i], at)
    ensures forall i, j: Id :: i in r && j < i && j in q.rows && Claimable(q.rows[j], at) ==> j in r
  {
    var due, most := DueBelow(q.rows, at, q.nextId), Max(1, Min(50, limit));
    if |due| <= most then due else PrefixIsOldest(due, most); due[..most]
  }

  lemma PrefixIsOldest(due: seq<Id>, most: nat)
    requires most <= |due| && forall j, k :: 0 <= j < k < |due| ==> due[j] < due[k]
    ensures forall i :: i in due[..most] ==> i in due
    ensures forall i, j: Id :: i in due[..most] && j < i && j in due ==> j in due[..most]
  {
    forall i, j: Id | i in due[..most] && j < i && j in due
      ensures j in due[..most]
    {
      var x :| 0 <= x < most && due[x] == i;
      var y :| 0 <= y < |due| && due[y] == j;
      assert y < x;
    }
  }

  function ClaimRows(rows: map<Id, OutRow>, ids: seq<Id>, now: Time): map<Id, OutRow> {
    map i | i in rows :: if i in ids then ClaimRow(rows[i], now) else rows[i]
  }

  /** Seconds to wait after `attempts` claims: thirty more each time, at most an hour. */
  function BackoffSeconds(attempts: int): int {
    Min(3600, Max(30, attempts * 30))
  }

  function SentRow(row: OutRow, now: Time): OutRow {
    row.(status := Sent, updatedAt := now)
  }

  function FailedRow(row: OutRow, retryable: bool, now: Time): OutRow {
    if row.status != Sending then row
    else if retryable && row.attempts < MAX_ATTEMPTS then
      row.(status := Queued, nextAttemptAt := now + BackoffSeconds(row.attempts) * SECOND, updatedAt := now)
    else row.(status := Failed, deadLetteredAt := Some(now), updatedAt := now)
  }

  // ---------------------------------------------------------------- runs

  datatype Op =
    | Put(user: Id, phone: string, content: string, dedupKey: Option<string>, now: Time)
    | ClaimKey(key: string, now: Time)
    | ClaimDue(at: Time, limit: int, now: Time)
    | MarkSent(id: Id, now: Time)
    | MarkFailed(id: Id, retryable: bool, now: Time)

  /** The rows an operation claims. */
  function Targets(q: Queue, op: Op): seq<Id> {
    match op
    case ClaimKey(key, now) => (match KeyTarget(q, key, now) case Some(id) => [id] case None => [])
    case ClaimDue(at, limit, now) => DueTargets(q, at, limit)
    case _ => []
  }

  function Step(q: Queue, op: Op): Queue {
    match op
    case Put(user, phone, content, key, now) => Enqueue(q, user, phone, content, key, now)
    case MarkSent(id, now) => if id in q.rows then q.(rows := q.rows[id := SentRow(q.rows[id], now)]) else q
    case MarkFailed(id, retryable, now) =>
      if id in q.rows then q.(rows := q.rows[id := FailedRow(q.rows[id], retryable, now)]) else q
    case _ => q.(rows := ClaimRows(q.rows, Targets(q, op), op.now))
  }

  function RunFrom(q: Queue, ops: seq<Op>): Queue {
    if ops == [] then q else Step(RunFrom(q, ops[..|ops| - 1]), ops[|ops| - 1])
  }

  function Run(ops: seq<Op>): Queue {
    RunFrom(EMPTY, ops)
  }

  /** Operations happen in time order, and a cron run's own clock is never ahead of the database's. */
  predicate Timely(ops: seq<Op>) {
    && (forall i, j :: 0 <= i < j < |ops| ==> ops[i].now <= ops[j].now)
    && (forall i :: 0 <= i < |ops| ==> ops[i].ClaimDue? ==> ops[i].at <= ops[i].now)
  }

  ghost predicate Bounded(q: Queue) {
    forall i :: i in q.rows ==> i < q.nextId
  }

  /** A key names at most one row. */
  ghost predicate KeysDistinct(q: Queue) {
    forall i, j :: i in q.rows && j in q.rows && i != j && q.rows[i].dedupKey.Some? ==>
      q.rows[i].dedupKey != q.rows[j].dedupKey
  }

  lemma StepKeepsKeysDistinct(q: Queue, op: Op)
    requires Bounded(q) && KeysDistinct(q)
    ensures KeysDistinct(Step(q, op)) && Bounded(Step(q, op))
  {
    hide Trim, Truncate, BackoffSeconds;
  }

  lemma {:induction false} RunIsBounded(ops: seq<Op>)
    ensures Bounded(Run(ops)) && KeysDistinct(Run(ops))
  {
    hide Step;
    if ops != [] {
      RunIsBounded(ops[..|ops| - 1]);
      StepKeepsKeysDistinct(Run(ops[..|ops| - 1]), ops[|ops| - 1]);
    }
  }

  /** The length limits of the table. */
  predicate Fits(row: OutRow) {
    && |row.content| <= CONTENT_MAX && |row.phone| <= PHONE_MAX
    && (row.dedupKey.Some? ==> |row.dedupKey.value| <= KEY_MAX)
  }

  ghost predicate AllFit(q: Queue) {
    forall i :: i in q.rows ==> Fits(q.rows[i])
  }

  lemma StepKeepsFit(q: Queue, op: Op)
    requires AllFit(q)
    ensures AllFit(Step(q, op))
  {
    hide Trim, BackoffSeconds, FindKey, DueTargets;
  }

  /** Every stored reply is within the table's length limits. */
  lemma {:induction false} RunFits(ops: seq<Op>)
    ensures AllFit(Run(ops))
  {
    hide Step;
    if ops != [] {
      RunFits(ops[..|ops| - 1]);
      StepKeepsFit(Run(ops[..|ops| - 1]), ops[|ops| - 1]);
    }
  }

  // ---------------------------------------------------------------- one row's life

  datatype Touch = Untouched | Claimed | Reclaimed | Requeued | Delivered | Bounced

  /** What an operation does to the row `id`. A claim of a row whose lease ran out is a reclaim. */
  function TouchOf(q: Queue, op: Op, id: Id): Touch
    requires id in q.rows
  {
    if id in Targets(q, op) then (if q.rows[id].status == Sending then Reclaimed else Claimed)
    else
      match op
      case Put(_, phone, content, key, _) =>
        if EnqueueTarget(q, phone, content, key) == Some(id) then Requeued else Untouched
      case MarkSent(i, _) => if i == id then Delivered else Untouched
      case MarkFailed(i, _, _) => if i == id && q.rows[id].status == Sending then Bounced else Untouched
      case _ => Untouched
  }

  /** The one transition system of a row. */
  predicate RowStep(row: OutRow, row': OutRow, touch: Touch, op: Op) {
    match touch
    case Untouched => row' == row
    case Claimed => row.status == Queued && row' == ClaimRow(row, op.now)
    case Reclaimed => row.status == Sending && row.updatedAt <= op.now - LEASE && row' == ClaimRow(row, op.now)
    case Requeued => row' == Requeue(row, row'.phone, row'.content, op.now)
    case Delivered => row' == SentRow(row, op.now)
    case Bounced => op.MarkFailed? && row.status == Sending && row' == FailedRow(row, op.retryable, op.now)
  }

  /** Every row takes one such step, and a new row is one just put. */
  lemma RowSteps(q: Queue, op: Op, id: Id)
    requires Bounded(q)
    ensures Bounded(Step(q, op)) && q.nextId <= Step(q, op).nextId && q.rows.Keys <= Step(q, op).rows.Keys
    ensures id in q.rows && (op.ClaimDue? ==> op.at <= op.now) ==>
              RowStep(q.rows[id], Step(q, op).rows[id], TouchOf(q, op, id), op)
    ensures id !in q.rows && id in Step(q, op).rows ==>
              op.Put? && Step(q, op).rows[id].status == Queued && Step(q, op).rows[id].attempts == 0
    ensures id in Targets(q, op) ==> id in q.rows
  {
    hide Trim, Truncate, BackoffSeconds;
  }

  /** A delivered row stays delivered, whatever follows. */
  lemma {:induction false} SentIsNeverLeft(q: Queue, more: seq<Op>, id: Id)
    requires Bounded(q) && id in q.rows && q.rows[id].status == Sent
    requires forall i :: 0 <= i < |more| ==> more[i].ClaimDue? ==> more[i].at <= more[i].now
    ensures Bounded(RunFrom(q, more)) && id in RunFrom(q, more).rows && RunFrom(q, more).rows[id].status == Sent
    ensures RunFrom(q, more).rows[id].attempts == q.rows[id].attempts
  {
    if more != [] {
      var init, op := more[..|more| - 1], more[|more| - 1];
      assert forall i :: 0 <= i < |init| ==> init[i] == more[i];
      SentIsNeverLeft(q, init, id);
      var mid := RunFrom(q, init);
      RowSteps(mid, op, id);
      assert id !in Targets(mid, op) by {
        hide Trim, Truncate;
      }
    }
  }

  // ---------------------------------------------------------------- leases

  /** Operation `i` of a run claims the row. */
  predicate ClaimsAt(ops: seq<Op>, i: nat, id: Id)
    requires i < |ops|
  {
    id in Targets(Run(ops[..i]), ops[i])
  }

  /** Operation `i` neither settles, requeues nor claims the row. */
  predicate LeavesAlone(ops: seq<Op>, i: nat, id: Id)
    requires i < |ops|
  {
    id in Run(ops[..i]).rows && TouchOf(Run(ops[..i]), ops[i], id) == Untouched
  }

  predicate Held(q: Queue, id: Id, since: Time) {
    id in q.rows && q.rows[id].status == Sending && q.rows[id].updatedAt == since
  }

  lemma {:induction false} HeldSince(ops: seq<Op>, i: nat, j: nat, id: Id)
    requires Timely(ops) && i < j <= |ops| && ClaimsAt(ops, i, id)
    requires forall k: nat :: i < k < j ==> LeavesAlone(ops, k, id)
    ensures Bounded(Run(ops[..j])) && Held(Run(ops[..j]), id, ops[i].now)
  {
    hide Step, Targets, KeysDistinct;
    var init := ops[..j - 1];
    assert ops[..j][..j - 1] == init;
    assert Run(ops[..j]) == Step(Run(init), ops[j - 1]);
    RunIsBounded(init);
    RowSteps(Run(init), ops[j - 1], id);
    if j - 1 > i {
      HeldSince(ops, i, j - 1, id);
      assert LeavesAlone(ops, j - 1, id);
    }
  }

  /** Two claims of a row with nothing settling or requeueing it between are at least a lease apart. */
  lemma LeaseIsExclusive(ops: seq<Op>, i: nat, j: nat, id: Id)
    requires Timely(ops) && i < j < |ops| && ClaimsAt(ops, i, id) && ClaimsAt(ops, j, id)
    requires forall k: nat :: i < k < j ==> LeavesAlone(ops, k, id)
    ensures ops[j].now - ops[i].now >= LEASE
  {
    hide Run, Step, Targets;
    HeldSince(ops, i, j, id);
    RowSteps(Run(ops[..j]), ops[j], id);
  }

  /** A row that is still being sent can be claimed again exactly from the end of its lease on. */
  lemma LeaseRunsOut(q: Queue, key: string, id: Id, now: Time)
    requires Bounded(q) && KeysDistinct(q) && id in q.rows && q.rows[id].status == Sending
    requires NormalKey(Some(key)).Some? && q.rows[id].dedupKey == NormalKey(Some(key))
    ensures KeyTarget(q, key, now) == Some(id) <==> now >= q.rows[id].updatedAt + LEASE
  {
    hide NormalKey;
  }

  // ---------------------------------------------------------------- the attempt budget

  function Count(ops: seq<Op>, id: Id, touches: set<Touch>): nat {
    if ops == [] then 0
    else
      var init := ops[..|ops| - 1];
      Count(init, id, touches)
      + if id in Run(init).rows && TouchOf(Run(init), ops[|ops| - 1], id) in touches then 1 else 0
  }

  predicate WithinBudget(row: OutRow, claims: nat, reclaims: nat) {
    && row.attempts == claims
    && (row.status == Queued ==> row.attempts < MAX_ATTEMPTS)
    && row.attempts <= MAX_ATTEMPTS + reclaims
    && (row.status == Failed ==> row.deadLetteredAt.Some?)
  }

  /** Operation `i` takes a row whose attempts are used up from a worker that never settled it. */
  predicate OverBudget(ops: seq<Op>, i: nat, id: Id) {
    && i < |ops|
    && var q := Run(ops[..i]);
       id in q.rows && TouchOf(q, ops[i], id) == Reclaimed && q.rows[id].attempts >= MAX_ATTEMPTS
  }

  /** The counter is the number of claims; only reclaims take it above the budget, and the last one did if
      it found the attempts used up. */
  ghost predicate BudgetKept(ops: seq<Op>, id: Id) {
    var q, claims, reclaims := Run(ops), Count(ops, id, {Claimed, Reclaimed}), Count(ops, id, {Reclaimed});
    && (if id in q.rows then WithinBudget(q.rows[id], claims, reclaims) else claims == 0 && reclaims == 0)
    && (claims > MAX_ATTEMPTS <==> exists i: nat :: OverBudget(ops, i, id))
    && (ops != [] && ClaimsAt(ops, |ops| - 1, id) ==>
          id in q.rows && (q.rows[id].attempts > MAX_ATTEMPTS <==> OverBudget(ops, |ops| - 1, id)))
  }

  /** Counts grow only by touches of a row that exists. */
  lemma CountStep(ops: seq<Op>, id: Id, touches: set<Touch>)
    requires ops != []
    ensures var init := ops[..|ops| - 1];
            Count(ops, id, touches)
            == Count(init, id, touches)
               + if id in Run(init).rows && TouchOf(Run(init), ops[|ops| - 1], id) in touches then 1 else 0
  {
    hide TouchOf, Step;
  }

  /** The earlier operations are over budget in the run exactly when they are in its beginning. */
  lemma EarlierOverBudget(ops: seq<Op>, id: Id)
    requires ops != []
    ensures var init := ops[..|ops| - 1];
            (exists i: nat :: OverBudget(ops, i, id))
            <==> (exists i: nat :: OverBudget(init, i, id)) || OverBudget(ops, |ops| - 1, id)
  {
    hide Run, TouchOf;
    var init := ops[..|ops| - 1];
    forall i: nat | i < |init|
      ensures OverBudget(ops, i, id) <==> OverBudget(init, i, id)
    {
      assert ops[..i] == init[..i];
    }
  }

  lemma LastIsStep(ops: seq<Op>)
    requires ops != [] && Timely(ops)
    ensures var init, op := ops[..|ops| - 1], ops[|ops| - 1];
            Timely(init) && (op.ClaimDue? ==> op.at <= op.now) && Run(ops) == Step(Run(init), op) && Bounded(Run(init))
  {
    RunIsBounded(ops[..|ops| - 1]);
    hide Step;
  }

  lemma NothingYet(id: Id)
    ensures id !in Run([]).rows && Count([], id, {Claimed, Reclaimed}) == 0 && Count([], id, {Reclaimed}) == 0
  {
  }

  lemma TouchIsClaim(q: Queue, op: Op, id: Id)
    requires id in q.rows
    ensures id in Targets(q, op) <==> TouchOf(q, op, id) in {Claimed, Reclaimed}
  {
    hide Targets, EnqueueTarget;
  }

  lemma NewRowIsWithinBudget(row: OutRow)
    requires row.status == Queued && row.attempts == 0
    ensures WithinBudget(row, 0, 0)
  {
  }

  lemma BudgetStep(row: OutRow, row': OutRow, touch: Touch, op: Op, claims: nat, reclaims: nat)
    requires RowStep(row, row', touch, op) && touch != Requeued && WithinBudget(row, claims, reclaims)
    ensures WithinBudget(row', claims + if touch in {Claimed, Reclaimed} then 1 else 0,
                         reclaims + if touch == Reclaimed then 1 else 0)
    ensures touch in {Claimed, Reclaimed} ==>
              (claims + 1 > MAX_ATTEMPTS <==> touch == Reclaimed && row.attempts >= MAX_ATTEMPTS)
    ensures row'.attempts == claims + if touch in {Claimed, Reclaimed} then 1 else 0
  {
  }

  /** As long as nothing re-enqueues a row, its attempt counter is its number of claims, it waits only
      while attempts remain, and beyond the budget every further claim is a reclaim of a lost lease: it is
      claimed more often than the budget allows if and only if at some point it was taken, its attempts
      used up, from a worker that died. */
  lemma {:induction false} AttemptBudget(ops: seq<Op>, id: Id)
    requires Timely(ops) && Count(ops, id, {Requeued}) == 0
    ensures BudgetKept(ops, id)
  {
    hide Run, Step, Count, Timely, KeysDistinct, RowStep, TouchOf, Bounded, WithinBudget, Targets;
    NothingYet(id);
    if ops != [] {
      var init, op := ops[..|ops| - 1], ops[|ops| - 1];
      CountStep(ops, id, {Requeued});
      CountStep(ops, id, {Claimed, Reclaimed});
      CountStep(ops, id, {Reclaimed});
      EarlierOverBudget(ops, id);
      LastIsStep(ops);
      AttemptBudget(init, id);
      var q := Run(init);
      RowSteps(q, op, id);
      if id in q.rows {
        BudgetStep(q.rows[id], Step(q, op).rows[id], TouchOf(q, op, id), op, Count(init, id, {Claimed, Reclaimed}),
                   Count(init, id, {Reclaimed}));
        TouchIsClaim(q, op, id);
      } else if id in Run(ops).rows {
        NewRowIsWithinBudget(Run(ops).rows[id]);
      }
    }
  }

  const CRON_LIMIT: int := 10

  /** A cron run takes the only row of a queue when it can be claimed. */
  lemma OnlyRowIsClaimed(q: Queue, at: Time, now: Time)
    requires q.nextId == 1 && q.rows.Keys == {0} && Claimable(q.rows[0], at)
    ensures Step(q, ClaimDue(at, CRON_LIMIT, now)) == Queue(map[0 := ClaimRow(q.rows[0], now)], 1)
    ensures Targets(q, ClaimDue(at, CRON_LIMIT, now)) == [0]
  {
    hide Claimable, ClaimRow;
    assert DueBelow(q.rows, at, 0) == [];
    assert DueBelow(q.rows, at, 1) == [0];
    assert DueTargets(q, at, CRON_LIMIT) == [0];
  }

  // ---------------------------------------------------------------- backoff

  lemma BackoffIsBounded(a: int, b: int)
    ensures 30 <= BackoffSeconds(a) <= 3600
    ensures a <= b ==> BackoffSeconds(a) <= BackoffSeconds(b)
  {
  }

  /** A retryable failure with attempts left comes back exactly when its backoff is over; any other
      failure of a row being sent is final for the claims. */
  lemma FailureComesBackAfterBackoff(row: OutRow, retryable: bool, now: Time, at: Time)
    requires row.status == Sending
    ensures var row' := FailedRow(row, retryable, now);
            Claimable(row', at) <==> && retryable && row.attempts < MAX_ATTEMPTS
                                     && at >= now + BackoffSeconds(row.attempts) * SECOND
  {
  }
}

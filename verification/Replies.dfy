/** The transactional outbox: a reply row exists under a message's key exactly when a flush for that
    message has committed, and the queue's own laws hold in every run of the system. */
module Replies {
  import opened Prelude
  import opened Text
  import opened Service
  import opened Protocol
  import opened Effects
  import opened Safety
  import Inbox
  import Outbox

  const MID_MAX: nat := 186

  /** The stored key of a message's reply; store and lookup compute it alike. */
  function Key(mid: string): Option<string> {
    Outbox.NormalKey(Some(ReplyKey(mid)))
  }

  // ---------------------------------------------------------------- keys of different messages

  lemma {:induction false} TrimEndAfter(a: string, b: string)
    requires a != "" && !IsSpace(a[|a| - 1])
    ensures TrimEnd(a + b) == a + TrimEnd(b)
    decreases |b|
  {
    if b == "" {
      assert a + b == a;
    } else if IsSpace(b[|b| - 1]) {
      assert (a + b)[..|a + b| - 1] == a + b[..|b| - 1];
      TrimEndAfter(a, b[..|b| - 1]);
    }
  }

  /** The key keeps the prefix, drops trailing blanks of the id, and clips the rest to 186 characters. */
  lemma KeyForm(mid: string)
    ensures Key(mid) == Some(KEY_PREFIX + Truncate(TrimEnd(mid), MID_MAX))
  {
    assert |KEY_PREFIX| == 14 && KEY_PREFIX[13] == ':' && KEY_PREFIX[0] == 'i';
    TrimEndAfter(KEY_PREFIX, mid);
    var full := KEY_PREFIX + TrimEnd(mid);
    assert full[0] == 'i';
    assert Trim(ReplyKey(mid)) == full;
    assert Truncate(full, Outbox.KEY_MAX) == KEY_PREFIX + Truncate(TrimEnd(mid), MID_MAX);
  }

  predicate Legal(mid: string) {
    Trim(mid) == mid && |mid| <= MID_MAX
  }

  /** Two messages share a key exactly when their ids agree up to trailing blanks and 186 characters. */
  lemma KeysCollideIff(a: string, b: string)
    ensures Key(a) == Key(b) <==> Truncate(TrimEnd(a), MID_MAX) == Truncate(TrimEnd(b), MID_MAX)
    ensures Legal(a) && Legal(b) && Key(a) == Key(b) ==> a == b
  {
    KeyForm(a);
    KeyForm(b);
    var x, y := Truncate(TrimEnd(a), MID_MAX), Truncate(TrimEnd(b), MID_MAX);
    assert (KEY_PREFIX + x)[|KEY_PREFIX|..] == x && (KEY_PREFIX + y)[|KEY_PREFIX|..] == y;
    assert |Trim(a)| <= |TrimEnd(a)| <= |a| && |Trim(b)| <= |TrimEnd(b)| <= |b|;
  }

  // ---------------------------------------------------------------- the system's queue is a run of the queue

  /** The queue is what its recorded operations make of an empty one, and they were timely. */
  ghost predicate QueueIsRun(s: Sys) {
    var ops := s.history.queueOps;
    s.db.outbox == Outbox.Run(ops) && Outbox.Timely(ops) && Before(ops, s.now)
  }

  predicate Before(ops: seq<Outbox.Op>, now: Time) {
    forall i :: 0 <= i < |ops| ==> ops[i].now <= now
  }

  lemma RunExtends(ops: seq<Outbox.Op>, op: Outbox.Op)
    requires Outbox.Timely(ops) && Before(ops, op.now) && (op.ClaimDue? ==> op.at <= op.now)
    ensures Outbox.Run(ops + [op]) == Outbox.Step(Outbox.Run(ops), op)
    ensures Outbox.Timely(ops + [op]) && Before(ops + [op], op.now)
  {
    assert (ops + [op])[..|ops|] == ops;
    hide Outbox.Step;
  }

  lemma StepKeepsRun(s: Sys, ops: seq<Outbox.Op>, u: Sys)
    requires QueueIsRun(s) && QueueMoves(s, ops, u)
    ensures QueueIsRun(u)
  {
    hide Outbox.Step, Outbox.Run, Outbox.Timely;
    if ops != [] {
      assert ops == [ops[0]];
      RunExtends(s.history.queueOps, ops[0]);
    } else {
      assert s.history.queueOps + ops == s.history.queueOps;
    }
  }

  /** So every law of the queue proved over its runs (sent for ever, exclusive leases, attempt budget)
      holds of the reply queue in every run of the system. */
  lemma {:induction false} QueueLawsApply(configured: Option<Centavos>, es: seq<Event>)
    ensures QueueIsRun(Run(configured, es))
  {
    hide Next, Inv, WorkersMove, NoteMoves, InboxMoves, BookMoves, LedgerMoves, OpsOf, QueueMoves;
    if es != [] {
      hide QueueIsRun;
      var init, e := es[..|es| - 1], es[|es| - 1];
      QueueLawsApply(configured, init);
      EveryReachableStateIsSafe(configured, init);
      NextMoves(Run(configured, init), e);
      StepKeepsRun(Run(configured, init), OpsOf(Run(configured, init), e, Run(configured, es).note), Run(configured, es));
    }
  }

  /** In every run of the system, a reply nothing re-enqueued is claimed more often than its budget
      allows exactly when at some point a claim took it, its attempts used up, from a dead worker. */
  lemma AttemptLawApplies(configured: Option<Centavos>, es: seq<Event>, id: Id)
    requires Outbox.Count(Run(configured, es).history.queueOps, id, {Outbox.Requeued}) == 0
    ensures Outbox.Count(Run(configured, es).history.queueOps, id, {Outbox.Claimed, Outbox.Reclaimed}) > Outbox.MAX_ATTEMPTS
            <==> exists i: nat :: Outbox.OverBudget(Run(configured, es).history.queueOps, i, id)
  {
    hide Run;
    QueueLawsApply(configured, es);
    Outbox.AttemptBudget(Run(configured, es).history.queueOps, id);
  }

  // ---------------------------------------------------------------- rows and commits

  predicate HasRow(q: Outbox.Queue, key: Option<string>) {
    exists i :: i in q.rows && q.rows[i].dedupKey == key
  }

  ghost predicate HasCommit(commits: multiset<string>, key: Option<string>) {
    exists mid :: mid in commits && Key(mid) == key
  }

  /** Rows and commits name the same keys. */
  ghost predicate Matched(q: Outbox.Queue, commits: multiset<string>) {
    && Outbox.Bounded(q)
    && forall key :: HasRow(q, key) <==> HasCommit(commits, key)
  }

  /** Everything but a put of a new key keeps the set of stored keys. */
  lemma StepKeys(q: Outbox.Queue, op: Outbox.Op)
    requires Outbox.Bounded(q)
    requires op.Put? ==> Outbox.Sendable(op.phone, op.content) && Outbox.NormalKey(op.dedupKey).Some?
    ensures forall key :: HasRow(Outbox.Step(q, op), key)
                          <==> HasRow(q, key) || (op.Put? && key == Outbox.NormalKey(op.dedupKey))
  {
    hide Outbox.Sendable, Truncate, Trim, Outbox.NormalKey, Outbox.BackoffSeconds;
    var r := Outbox.Step(q, op);
    Outbox.RowSteps(q, op, 0);
    assert forall i :: i in q.rows ==> i in r.rows && r.rows[i].dedupKey == q.rows[i].dedupKey;
    if op.Put? {
      var hit := Outbox.EnqueueTarget(q, op.phone, op.content, op.dedupKey);
      assert r.rows[if hit.Some? then hit.value else q.nextId].dedupKey == Outbox.NormalKey(op.dedupKey);
    } else {
      assert r.rows.Keys == q.rows.Keys;
    }
  }

  lemma StepMatches(s: Sys, e: Event, u: Sys)
    requires Matched(s.db.outbox, s.history.commits)
    requires NoteMoves(s, e, u) && InboxMoves(s, e, u) && QueueMoves(s, OpsOf(s, e, u.note), u)
    ensures Matched(u.db.outbox, u.history.commits)
  {
    hide Outbox.Step, PutOf, Trim, Shaped, HasRow, Truncate, Inbox.Reap, Outbox.NormalKey;
    var ops, commits := OpsOf(s, e, u.note), s.history.commits;
    if ops != [] {
      if u.note.Flushed? {
        KeyForm(u.note.mid);
      }
      StepKeys(s.db.outbox, ops[0]);
      Outbox.RowSteps(s.db.outbox, ops[0], 0);
    }
    forall key
      ensures HasCommit(u.history.commits, key) <==> HasCommit(commits, key) || (u.note.Flushed? && key == Key(u.note.mid))
    {
      if u.note.Flushed? {
        assert u.note.mid in u.history.commits && forall m :: m in u.history.commits ==> m in commits || m == u.note.mid;
        assert forall m :: m in commits ==> m in u.history.commits;
      }
    }
  }

  /** In every reachable state, on all five service paths and under every interleaving, the keys in the
      outbox are exactly the keys of the committed messages. */
  lemma {:induction false} RowsMatchCommits(configured: Option<Centavos>, es: seq<Event>)
    ensures Matched(Run(configured, es).db.outbox, Run(configured, es).history.commits)
  {
    hide Next, Inv, WorkersMove, NoteMoves, InboxMoves, BookMoves, QueueMoves, LedgerMoves, OpsOf;
    if es != [] {
      hide Matched;
      var init, e := es[..|es| - 1], es[|es| - 1];
      RowsMatchCommits(configured, init);
      EveryReachableStateIsSafe(configured, init);
      NextMoves(Run(configured, init), e);
      StepMatches(Run(configured, init), e, Run(configured, es));
    } else {
      assert forall key :: !HasRow(Outbox.EMPTY, key) && !HasCommit(multiset{}, key);
    }
  }

  /** For a legal id, when every committed id is legal: a reply row under its key exists exactly when
      the message has committed. */
  lemma ReplyExistsIffCommitted(configured: Option<Centavos>, es: seq<Event>, mid: string)
    requires Legal(mid) && forall m :: m in Run(configured, es).history.commits ==> Legal(m)
    ensures HasRow(Run(configured, es).db.outbox, Key(mid)) <==> mid in Run(configured, es).history.commits
  {
    RowsMatchCommits(configured, es);
    var commits := Run(configured, es).history.commits;
    hide Run, HasRow, Key, Legal;
    if HasCommit(commits, Key(mid)) {
      var m :| m in commits && Key(m) == Key(mid);
      KeysCollideIff(m, mid);
    }
  }

  // ---------------------------------------------------------------- when a commit's reply can be delivered

  predicate SentUnder(q: Outbox.Queue, key: Option<string>) {
    exists i :: i in q.rows && q.rows[i].dedupKey == key && q.rows[i].status == Outbox.Sent
  }

  /** Right after the commit its reply can be claimed exactly if no reply under its key was already sent. */
  predicate DeliverableIffUnsent(s: Sys, u: Sys) {
    u.note.Flushed? ==>
      (Outbox.KeyTarget(u.db.outbox, ReplyKey(u.note.mid), u.now).Some? <==> !SentUnder(s.db.outbox, Key(u.note.mid)))
  }

  lemma PutIsClaimableIff(q: Outbox.Queue, op: Outbox.Op, mid: string)
    requires Outbox.Bounded(q) && Outbox.KeysDistinct(q)
    requires op.Put? && Outbox.Sendable(op.phone, op.content) && op.dedupKey == Some(ReplyKey(mid))
    ensures Outbox.KeyTarget(Outbox.Step(q, op), ReplyKey(mid), op.now).Some? <==> !SentUnder(q, Key(mid))
  {
    KeyForm(mid);
    hide Outbox.NormalKey, Outbox.Sendable, Trim, Truncate;
    Outbox.StepKeepsKeysDistinct(q, op);
    var r, hit := Outbox.Step(q, op), Outbox.EnqueueTarget(q, op.phone, op.content, op.dedupKey);
    var id := if hit.Some? then hit.value else q.nextId;
    assert id in r.rows && r.rows[id].dedupKey == Key(mid);
    assert Outbox.FindKey(r.rows, Key(mid).value, r.nextId) == Some(id);
  }

  /** A message that commits again, its completed row reaped and its first reply delivered, only changes
      the words of the sent row: in every run, a commit's reply can be delivered exactly if none under its
      key was sent before. */
  lemma CommitIsDeliverableIff(configured: Option<Centavos>, es: seq<Event>, e: Event)
    ensures DeliverableIffUnsent(Run(configured, es), Run(configured, es + [e]))
  {
    hide Run, Inv, WorkersMove, InboxMoves, BookMoves, LedgerMoves, SentUnder, Outbox.Run, Outbox.KeyTarget, Outbox.Step, Key,
         Outbox.Sendable, Shaped, PutOf, Outbox.KeysDistinct, Outbox.Bounded;
    var s, u := Run(configured, es), Run(configured, es + [e]);
    RunMoves(configured, es, e);
    QueueLawsApply(configured, es);
    Outbox.RunIsBounded(s.history.queueOps);
    if u.note.Flushed? {
      ClockStands(s, e, u);
      PutIsClaimableIff(s.db.outbox, PutOf(u.note.batch, s.now)[0], u.note.mid);
    }
  }

  lemma ClockStands(s: Sys, e: Event, u: Sys)
    requires InboxMoves(s, e, u) && u.note.Flushed? && !e.Tick?
    ensures u.now == s.now
  {
    hide Inbox.Reap;
  }

  function LongId(end: string): string {
    seq(MID_MAX, i => 'x') + end
  }

  /** Beyond 186 characters it fails: two different ids get one key, so the first commit's row answers
      for the other. */
  lemma LongIdsCollide()
    ensures LongId("1") != LongId("2") && Key(LongId("1")) == Key(LongId("2"))
    ensures Trim(LongId("1")) == LongId("1") && Trim(LongId("2")) == LongId("2") && |LongId("1")| == MID_MAX + 1
  {
    hide Key;
    var base, a, b := seq(MID_MAX, i => 'x'), LongId("1"), LongId("2");
    assert a[MID_MAX] == '1' && b[MID_MAX] == '2' && a[0] == 'x' && b[0] == 'x';
    assert TrimEnd(a) == a && TrimEnd(b) == b;
    assert Truncate(a, MID_MAX) == base && Truncate(b, MID_MAX) == base;
    KeysCollideIff(a, b);
  }
}

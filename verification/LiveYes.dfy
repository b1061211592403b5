/** Only a live yes confirms: behind every applied confirmation stands a yes that the same worker read
    while the question had not expired; and exactly when the application itself still is in time. */
module LiveYes {
  import opened Prelude
  import opened Service
  import opened Applications
  import opened Protocol
  import opened Effects
  import opened Safety
  import opened Gate
  import opened AtMostOnce
  import Evolution
  import Inbox
  import Park
  import Policy

  /** Event `k` is worker `w` routing a bare yes to confirmation `id`, the newest live question of the
      sender at that moment. */
  predicate YesAt(es: seq<Event>, ss: seq<Sys>, k: nat, w: Id, input: Input, id: Id) {
    && k < |es| && k < |ss| && es[k] == Step(w, Route) && IsYesTo(ss[k].db, ss[k].now, input, id)
    && w in ss[k].workers && ss[k].workers[w] == Worker(input, Routing)
  }

  /** From state `k` to state `n` the worker has neither crashed nor been replaced: it is on that message. */
  ghost predicate Stays(ss: seq<Sys>, k: nat, n: nat, w: Id, input: Input) {
    forall j :: k <= j <= n && j < |ss| ==> w in ss[j].workers && ss[j].workers[w].input == input
  }

  /** What of a run matters here. */
  ghost predicate AnswerTrace(es: seq<Event>, ss: seq<Sys>) {
    && |ss| == |es| + 1 && ss[0].workers == map[] && (forall i :: 0 <= i <= |es| ==> AllHonest(ss[i]))
    && forall i :: 0 <= i < |es| ==>
         && WorkersMove(ss[i], es[i], ss[i + 1]) && BookMoves(ss[i], BookMoveOf(ss[i], es[i], ss[i + 1].note), ss[i + 1])
         && ss[i + 1].now == ss[i].now + if es[i].Tick? then es[i].ms else 0
  }

  // ---------------------------------------------------------------- where a confirming batch comes from

  /** The worker holds a batch that confirms `id`. */
  predicate Holds(s: Sys, w: Id, id: Id) {
    w in s.workers && s.workers[w].phase.Ready? && Used(s.workers[w].phase.batch) == Some(id)
  }

  /** It held the batch before, or this event was it routing a live yes. */
  lemma HeldOrRouted(s: Sys, e: Event, u: Sys, w: Id, id: Id)
    requires AllHonest(s) && WorkersMove(s, e, u) && Holds(u, w, id)
    ensures w in s.workers && s.workers[w].input == u.workers[w].input
    ensures Holds(s, w, id)
            || (e == Step(w, Route) && s.workers[w].phase == Routing && IsYesTo(s.db, s.now, s.workers[w].input, id))
  {
    hide ConfirmBatchOf, IsYesTo;
    assert w in s.workers ==> Honest(s.db.confirmations, s.workers[w]);
  }

  /** A worker holding a batch that confirms `id` has routed a live yes to it on its present message. */
  lemma {:induction false} ConfirmerReadAYes(es: seq<Event>, ss: seq<Sys>, n: nat, w: Id, id: Id) returns (k: nat)
    requires AnswerTrace(es, ss) && n <= |es| && Holds(ss[n], w, id)
    ensures k < n && YesAt(es, ss, k, w, ss[n].workers[w].input, id) && Stays(ss, k, n, w, ss[n].workers[w].input)
  {
    hide BookMoves, BookMoveOf, IsYesTo, AllHonest, WorkersMove, Used;
    assert AllHonest(ss[n - 1]) && WorkersMove(ss[n - 1], es[n - 1], ss[n - 1 + 1]);
    HeldOrRouted(ss[n - 1], es[n - 1], ss[n], w, id);
    if Holds(ss[n - 1], w, id) {
      k := ConfirmerReadAYes(es, ss, n - 1, w, id);
    } else {
      k := n - 1;
    }
  }

  // ---------------------------------------------------------------- the question and the clock between yes and commit

  /** The milliseconds the clock advances over a list of events. */
  function Elapsed(es: seq<Event>): nat {
    if es == [] then 0 else Elapsed(es[..|es| - 1]) + if es[|es| - 1].Tick? then es[|es| - 1].ms else 0
  }

  lemma {:induction false} ClockIsElapsed(es: seq<Event>, ss: seq<Sys>, k: nat, n: nat)
    requires AnswerTrace(es, ss) && k <= n <= |es|
    ensures ss[n].now == ss[k].now + Elapsed(es[k..n])
    decreases n
  {
    hide BookMoves, BookMoveOf, WorkersMove, AllHonest;
    if k < n {
      ClockIsElapsed(es, ss, k, n - 1);
      assert ss[n - 1 + 1].now == ss[n - 1].now + if es[n - 1].Tick? then es[n - 1].ms else 0;
      assert es[k..n][..n - k - 1] == es[k..n - 1];
    }
  }

  /** Ids are never handed out again, and a stored question is the one it was: same sender, writes,
      summary and expiry. */
  lemma {:induction false} QuestionsPersist(es: seq<Event>, ss: seq<Sys>, k: nat, n: nat, id: Id)
    requires AnswerTrace(es, ss) && k <= n <= |es|
    ensures var a, b := ss[k].db.confirmations, ss[n].db.confirmations;
            && a.nextId <= b.nextId
            && (id in b.rows && id < a.nextId ==> id in a.rows && SameRequest(b.rows[id], a.rows[id]))
    decreases n
  {
    hide BookMoveOf, WorkersMove, StepBook, StepTally, Honest;
    if k < n {
      QuestionsPersist(es, ss, k, n - 1, id);
      assert AllHonest(ss[n - 1]) && BookMoves(ss[n - 1], BookMoveOf(ss[n - 1], es[n - 1], ss[n - 1 + 1].note), ss[n - 1 + 1]);
      RequestsNeverChange(ss[n - 1].db.confirmations, BookMoveOf(ss[n - 1], es[n - 1], ss[n].note));
    }
  }

  // ---------------------------------------------------------------- the theorem

  /** Event `k` is the live yes behind the application of `id` by the worker that steps at the end of the
      run; it is in time exactly when the clock has since advanced by less than the question had left. */
  ghost predicate Authorises(es: seq<Event>, ss: seq<Sys>, e: Event, k: nat, id: Id) {
    && |ss| == |es| + 1 && k < |es| && e.Step? && e.worker in ss[|es|].workers
    && var s, input := ss[|es|], ss[|es|].workers[e.worker].input;
       && YesAt(es, ss, k, e.worker, input, id) && Stays(ss, k, |es|, e.worker, input)
       && id in s.db.confirmations.rows && id in ss[k].db.confirmations.rows
       && var row := s.db.confirmations.rows[id];
          && SameRequest(row, ss[k].db.confirmations.rows[id]) && ss[k].now < row.expiresAt
          && (s.now < row.expiresAt <==> Elapsed(es[k..]) < row.expiresAt - ss[k].now)
  }

  lemma TraceOfAnswers(configured: Option<Centavos>, es: seq<Event>)
    ensures AnswerTrace(es, States(configured, es))
  {
    hide Run, Inv, NoteMoves, WorkersMove, BookMoves, BookMoveOf, QueueMoves, OpsOf, AllHonest, Inbox.Reap;
    StatesMove(configured, es);
    forall i | 0 <= i <= |es|
      ensures AllHonest(States(configured, es)[i])
    {
      EveryWorkerIsHonest(configured, es[..i]);
    }
  }

  /** A question offered to a yes is stored, and has not expired. */
  lemma AnsweredIsLive(s: Sys, input: Input, id: Id)
    requires AllHonest(s) && IsYesTo(s.db, s.now, input, id)
    ensures id in s.db.confirmations.rows && id < s.db.confirmations.nextId && s.now < s.db.confirmations.rows[id].expiresAt
  {
    hide Policy.ConfirmReply, Honest;
  }

  lemma YesBehind(es: seq<Event>, ss: seq<Sys>, e: Event, id: Id) returns (k: nat)
    requires AnswerTrace(es, ss) && e.Step? && Holds(ss[|es|], e.worker, id) && id in ss[|es|].db.confirmations.rows
    ensures Authorises(es, ss, e, k, id)
  {
    hide BookMoves, BookMoveOf, WorkersMove, Elapsed, AllHonest, IsYesTo, Used;
    k := ConfirmerReadAYes(es, ss, |es|, e.worker, id);
    AnsweredIsLive(ss[k], ss[|es|].workers[e.worker].input, id);
    QuestionsPersist(es, ss, k, |es|, id);
    ClockIsElapsed(es, ss, k, |es|);
    assert es[k..|es|] == es[k..];
  }

  lemma HeldWhatItApplied(s: Sys, e: Event, u: Sys, id: Id)
    requires NoteMoves(s, e, u) && Consumes(u, id) && AppliesParked(s, e, u, id)
    ensures e.Step? && Holds(s, e.worker, id) && id in s.db.confirmations.rows
  {
    hide ConfirmBatch, Shaped, PutOf, Park.LedgerPart, Used;
  }

  /** In every run, whatever applies a parked batch acts on a yes: the same worker, still on the same
      message, had routed a bare yes to that very question while it was pending and had not expired. And
      the application is in time exactly when the clock has since advanced by less than what the
      question had left when the yes was read. */
  lemma OnlyALiveYesConfirms(configured: Option<Centavos>, es: seq<Event>, e: Event, id: Id) returns (k: nat)
    requires Consumes(Run(configured, es + [e]), id)
    ensures Authorises(es, States(configured, es), e, k, id)
  {
    hide Run, Next, Init, Inv, NoteMoves, WorkersMove, InboxMoves, BookMoves, QueueMoves, LedgerMoves, AnswerTrace, Consumes,
         AppliesParked, Authorises, Holds;
    RunMoves(configured, es, e);
    TraceOfAnswers(configured, es);
    StatesRun(configured, es);
    WhatIsAppliedWasParked(configured, es, e, id);
    HeldWhatItApplied(Run(configured, es), e, Run(configured, es + [e]), id);
    k := YesBehind(es, States(configured, es), e, id);
  }

  /** So a row leaves the ledger only because somebody said yes, in time to be heard. */
  lemma RowsLeaveOnlyByALiveYes(configured: Option<Centavos>, es: seq<Event>, e: Event) returns (k: nat, id: Id)
    requires !Evolution.KeepsRows(Run(configured, es).db.ledger, Run(configured, es + [e]).db.ledger)
    ensures Authorises(es, States(configured, es), e, k, id)
  {
    hide Run, States, Authorises, Evolution.KeepsRows, Used;
    RowsLeaveOnlyByConsent(configured, es, e);
    id := Used(Run(configured, es + [e]).note.batch).value;
    k := OnlyALiveYesConfirms(configured, es, e, id);
  }
}

/** The service's procedure as a run of the protocol. */
module Stepping {
  import opened Prelude
  import opened Service
  import opened Protocol
  import Effects
  import Flush
  import Inbound
  import Outbox

  /** Only this worker moved, to this database and phase; it queued one operation if it committed. */
  predicate Plays(s: Sys, worker: Id, input: Input, r: (Flush.Db, Phase), u: Sys) {
    && u.db == r.0 && u.now == s.now && u.threshold == s.threshold
    && u.workers == s.workers[worker := Worker(input, r.1)]
    && |u.history.queueOps| <= |s.history.queueOps| + 1
  }

  lemma StepPlays(s: Sys, worker: Id, input: Input, phase: Phase, m: Move)
    requires IsAt(s, worker, Worker(input, phase)) && !phase.Delivering?
    ensures var r := Act(s.db, s.now, s.threshold, input, phase, m);
            && Plays(s, worker, input, (r.0, r.1), Next(s, Step(worker, m)))
            && (r.1.Delivering? || Next(s, Step(worker, m)).history.queueOps == s.history.queueOps)
  {
    hide Act, Outside, Flush.FlushWrites, Outbox.Step;
    Effects.ActMovesTables(s.db, s.now, s.threshold, input, phase, m);
  }

  /** An undisturbed worker is a run. */
  lemma {:induction false} DriveIsARun(configured: Option<Centavos>, es: seq<Event>, w: Id, input: Input, phase: Phase,
                                       answer: Move, n: int) returns (more: seq<Event>)
    requires IsAt(Run(configured, es), w, Worker(input, phase)) && !phase.Delivering?
    ensures Plays(Run(configured, es), w, input,
                  Inbound.Drive(Run(configured, es).db, Run(configured, es).now, Run(configured, es).threshold, input, phase,
                                answer, n),
                  Run(configured, es + more))
    decreases n
  {
    hide Run, Act, Next, Inbound.NextMove;
    var s := Run(configured, es);
    more := [];
    assert es + [] == es;
    if n > 0 && !Inbound.Stopped(phase) {
      var e := Step(w, Inbound.NextMove(phase, answer));
      RunMore(configured, es, e);
      StepPlays(s, w, input, phase, e.move);
      var r := Act(s.db, s.now, s.threshold, input, phase, e.move);
      if r.1.Delivering? {
        more := [e];
      } else {
        var rest := DriveIsARun(configured, es + [e], w, input, r.1, answer, n - 1);
        more := [e] + rest;
        assert es + more == es + [e] + rest;
      }
    }
  }

  predicate SameButDb(s: Sys, u: Sys) {
    u.now == s.now && u.threshold == s.threshold && u.workers.Keys == s.workers.Keys
  }

  /** Claiming and settling a committed reply: the worker's last step, and the mark if there was anything to claim. */
  lemma DeliveryIsARun(configured: Option<Centavos>, es: seq<Event>, w: Id, input: Input, delivered: bool, retryable: bool)
    returns (more: seq<Event>)
    requires IsAt(Run(configured, es), w, Worker(input, Delivering))
    ensures SameButDb(Run(configured, es), Run(configured, es + more))
    ensures Run(configured, es + more).db
            == Inbound.Delivered(Run(configured, es).db, ReplyKey(input.dedupId), Run(configured, es).now, delivered, retryable)
  {
    hide Run, Act, Outbox.Step, Outbox.KeyTarget, Remember;
    var s := Run(configured, es);
    var id := Outbox.KeyTarget(s.db.outbox, ReplyKey(input.dedupId), s.now);
    more := [];
    assert es + [] == es;
    if id.Some? {
      var settle := SettleReply(id.value, delivered, retryable);
      RunMore(configured, es, Step(w, Deliver));
      RunMore(configured, es + [Step(w, Deliver)], settle);
      ActDelivers(s.db, s.now, s.threshold, input);
      more := [Step(w, Deliver)] + [settle];
      assert es + more == es + [Step(w, Deliver)] + [settle];
    }
  }

  lemma ActDelivers(db: Flush.Db, now: Time, threshold: Centavos, input: Input)
    ensures Act(db, now, threshold, input, Delivering, Deliver).0
            == db.(outbox := Outbox.Step(db.outbox, Outbox.ClaimKey(ReplyKey(input.dedupId), now)))
  {
    hide RouteTo, ThinkTo, Flush.FlushWrites, Outbox.Step;
  }

  /** An arrival, and what the worker does up to its commit or its end. */
  lemma ArrivalIsARun(configured: Option<Centavos>, es: seq<Event>, w: Id, input: Input, answer: Move, n: int)
    returns (more: seq<Event>)
    requires w !in Run(configured, es).workers && Allowed(input)
    ensures Plays(Run(configured, es), w, input,
                  Inbound.Drive(Run(configured, es).db, Run(configured, es).now, Run(configured, es).threshold, input, Received,
                                answer, n),
                  Run(configured, es + more))
  {
    hide Run, Act, Remember, Inbound.Drive;
    RunMore(configured, es, Arrive(w, input));
    var steps := DriveIsARun(configured, es + [Arrive(w, input)], w, input, Received, answer, n);
    more := [Arrive(w, input)] + steps;
    assert es + more == es + [Arrive(w, input)] + steps;
  }

  /** Whatever the service's procedure does to the database for one message, some run of the protocol
      does too, from every reachable state: an arrival, the worker's own steps, and a delivery. */
  lemma HandlingIsARun(configured: Option<Centavos>, es: seq<Event>, w: Id, input: Input, answer: Move, delivered: bool,
                       retryable: bool) returns (more: seq<Event>)
    requires w !in Run(configured, es).workers && Allowed(input) && (answer.Think? || answer.Fail?)
    ensures Run(configured, es + more).db
            == Inbound.HandledAlone(Run(configured, es).db, Run(configured, es).now, Run(configured, es).threshold, input, answer,
                                    delivered, retryable)
  {
    hide Run, Act, Inbound.Drive, Inbound.Delivered, Inbound.Alone;
    var s := Run(configured, es);
    more := ArrivalIsARun(configured, es, w, input, answer, Inbound.STEPS);
    Inbound.DriveIsAlone(s.db, s.now, s.threshold, input, answer);
    if Inbound.Alone(s.db, s.now, s.threshold, input, answer).1.Delivering? {
      var tail := DeliveryIsARun(configured, es + more, w, input, delivered, retryable);
      assert es + (more + tail) == es + more + tail;
      more := more + tail;
    }
  }
}

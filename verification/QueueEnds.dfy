/** How a worker ends: handing its queue over, or failing with a message already in the ring. */
module QueueEnds {
  import opened Layout
  import opened Bytes
  import opened PublishQueue
  import opened QueueInvariant
  import opened QueueRuns

  // ---------- Handing over ----------

  /** The worker's own steps, from any point of any handler to the end of its thread. */
  predicate WorkerStep(step: Step) {
    !step.DoClientPublish? && !step.DoRequestStop? && !step.DoRestart?
  }

  /** What entered the ring and is not in flight any more. */
  function AllLanded(q: Queue): seq<Message> {
    Landed(q.published, q.inRing && q.published != [])
  }

  /** From `q` to `r` the first messages of the line entered the ring and were completed as Published, in order; all
      others are still in line, in order, and nothing else was completed. */
  ghost predicate Moved(q: Queue, r: Queue) {
    && AllLanded(q) <= AllLanded(r) && Line(q) == AllLanded(r)[|AllLanded(q)|..] + Line(r)
    && r.accepted == q.accepted
    && (forall id: nat {:trigger id in r.done} ::
      id in r.done <==> id in q.done || InLineAt(AllLanded(r)[|AllLanded(q)|..], id))
    && (forall id: nat | id in r.done :: r.done[id] == if id in q.done then q.done[id] else Published)
  }

  lemma RingThere(q: Queue)
    requires Inv(q)
    ensures q.inRing ==> q.published != []
  {
  }

  lemma NothingMoved(q: Queue, r: Queue)
    requires AllLanded(r) == AllLanded(q) && Line(r) == Line(q) && r.accepted == q.accepted && r.done == q.done
    ensures Moved(q, r)
  {
    assert AllLanded(r)[|AllLanded(q)|..] == [];
    assert forall id: nat :: !InLineAt([], id);
  }

  lemma MovedAdds(q: Queue, r: Queue, t: Queue)
    requires Moved(q, r) && Moved(r, t)
    ensures Moved(q, t)
  {
    var x, y, z := AllLanded(q), AllLanded(r), AllLanded(t);
    var first, second := y[|x|..], z[|y|..];
    assert z[|x|..] == first + second;
    assert Line(q) == z[|x|..] + Line(t);
    forall id: nat
      ensures InLineAt(first + second, id) <==> InLineAt(first, id) || InLineAt(second, id)
    {
      EitherPart(first, second, id);
    }
  }

  lemma EitherPart(a: seq<Message>, b: seq<Message>, id: nat)
    ensures InLineAt(a + b, id) <==> InLineAt(a, id) || InLineAt(b, id)
  {
    if i: nat :| i < |a| && a[i].id == id {
      assert (a + b)[i].id == id;
    }
    if i: nat :| i < |b| && b[i].id == id {
      assert (a + b)[|a| + i].id == id;
    }
  }

  lemma LoopHeadMovesNothing(q: Queue, n: nat)
    ensures var r := LoopHead(q, n);
            && Line(r) == Line(q) && r.published == q.published && r.inRing == q.inRing && r.done == q.done
            && r.accepted == q.accepted && r.w.stop == q.w.stop
  {
    NoFlightLine(q.pending);
    if q.fly.Flight? {
      FlightFirst(q.fly, q.pending);
    }
  }

  /** A success recorded: the in-flight message has landed. */
  lemma LandingMoves(q: Queue)
    requires Inv(q) && q.w.pc.Attempted? && q.w.pc.succeeded
    ensures q.fly.Flight? && q.fly.msg.id !in q.done && q.inRing && q.published != []
    ensures !LandedState(q).inRing && Moved(q, LandedState(q))
  {
    hide AcceptedOk, LineOk, AheadOk, LandedOk, DoneOk, SchedOk, Outstanding;
    RingThere(q);
    FlightIsView(q);
    FlightFirst(q.fly, q.pending);
    NoFlightLine(q.pending);
    var r := LandedState(q);
    assert AllLanded(r)[|AllLanded(q)|..] == [q.fly.msg];
    assert [q.fly.msg][0] == q.fly.msg;
    assert forall id: nat :: InLineAt([q.fly.msg], id) <==> id == q.fly.msg.id;
  }

  lemma RelockMoves(q: Queue)
    requires Inv(q) && q.w.pc.Attempted?
    ensures var r := Apply(q, DoRelock); Moved(q, r) && r.w.stop == q.w.stop
  {
    hide Inv, LoopHead, Moved, Outstanding;
    RingThere(q);
    FlightIsView(q);
    RelockKeeps(q);
    RingThere(Apply(q, DoRelock));
    if q.w.pc.succeeded {
      LandingMoves(q);
      LoopHeadMovesNothing(LandedState(q), q.w.pc.n + 1);
      NothingMoved(LandedState(q), Apply(q, DoRelock));
      MovedAdds(q, LandedState(q), Apply(q, DoRelock));
    } else {
      FlightFirst(q.fly, q.pending);
      NothingMoved(q, Apply(q, DoRelock));
    }
  }

  lemma AttemptMovesNothing(q: Queue, outcome: Outcome)
    requires Inv(q) && q.w.pc.Attempting?
    ensures var r := Apply(q, DoAttempt(outcome)); Moved(q, r) && r.w.stop == q.w.stop
  {
    hide AcceptedOk, LineOk, AheadOk, LandedOk, DoneOk, SchedOk, Outstanding, RingOk;
    RingThere(q);
    EnterRing(q);
    RingThere(Apply(q, DoAttempt(outcome)));
    NothingMoved(q, Apply(q, DoAttempt(outcome)));
  }

  /** Every step of a worker that was told to hand over moves messages from the line to the ring at most; only a
      failed worker's last step completes what it leaves. */
  lemma StepMoves(q: Queue, step: Step)
    requires Inv(q) && WorkerStep(step) && q.w.stop == Transfer
    requires !(step.DoFinish? && Enabled(q, step) && q.w.pc.exit.Failed?)
    ensures var r := Apply(q, step); Moved(q, r) && r.w.stop == Transfer
  {
    hide Inv, Moved, LoopHead, Outstanding, SettleAll;
    RingThere(q);
    var r := Apply(q, step);
    RingThere(r);
    if !Enabled(q, step) {
      NothingMoved(q, q);
    } else {
      match step
      case DoAttempt(outcome) => AttemptMovesNothing(q, outcome);
      case DoRelock => RelockMoves(q);
      case DoLockAndLook =>
        LoopHeadMovesNothing(q.(w := q.w.(ready := true)), 0);
        NothingMoved(q, r);
      case DoFinish =>
        FinishKeeps(q);
        NothingMoved(q, r);
      case _ => NothingMoved(q, r);
    }
  }

  lemma {:induction false} ExitStays(q: Queue, steps: seq<Step>)
    requires Inv(q) && q.w.pc.Exited? && forall i: nat | i < |steps| :: WorkerStep(steps[i])
    ensures Run(q, steps) == q
    decreases |steps|
  {
    hide Inv;
    if steps != [] {
      assert Apply(q, steps[0]) == q;
      ExitStays(q, steps[1..]);
    }
  }

  /** Moving a publisher: wherever its worker is when it is told to hand over - waiting, between two events, or in the
      middle of a handler with up to 64 attempts to go -, and whatever it still does: if it ends in good order, the
      messages that entered the ring meanwhile were the first in line and are completed as Published, all others are
      in line as before, in order and not completed, and the new owner's worker starts with exactly these. */
  lemma {:induction false} MoveTransfersTheQueue(q: Queue, steps: seq<Step>)
    requires Inv(q) && q.w.stop == Transfer && forall i: nat | i < |steps| :: WorkerStep(steps[i])
    requires Run(q, steps).w.pc == Exited(Clean)
    ensures var r := Run(q, steps);
            Moved(q, r) && !r.settled && r.w.stop == Transfer
    ensures var r := Run(q, steps);
            var t := Apply(r, DoRestart);
            Moved(q, t) && t.fly == r.fly && t.pending == r.pending && t.w.pc.Waiting? && t.w.active
    decreases |steps|
  {
    hide Inv, Apply, Moved;
    RingThere(q);
    if steps == [] {
      NothingMoved(q, q);
      RestartMoves(q);
    } else {
      var q1 := Apply(q, steps[0]);
      RingThere(q1);
      if FailsNow(q, steps[0]) {
        FinishedFailed(q, steps[0]);
        ExitStays(q1, steps[1..]);
        assert false;
      } else {
        StepMoves(q, steps[0]);
        MoveTransfersTheQueue(q1, steps[1..]);
        var r := Run(q, steps);
        RingThere(r);
        MovedAdds(q, q1, r);
        RingThere(Apply(r, DoRestart));
        MovedAdds(q, q1, Apply(r, DoRestart));
      }
    }
  }

  predicate FailsNow(q: Queue, step: Step) {
    step.DoFinish? && Enabled(q, step) && q.w.pc.exit.Failed?
  }

  lemma FinishedFailed(q: Queue, step: Step)
    requires Inv(q) && FailsNow(q, step)
    ensures Apply(q, step).w.pc == Exited(Failed)
  {
    hide Inv, SettleAll;
    FinishKeeps(q);
  }

  lemma RestartMoves(q: Queue)
    requires Inv(q) && q.w.stop == Transfer && q.w.pc == Exited(Clean)
    ensures !q.settled
    ensures var t := Apply(q, DoRestart);
            Moved(q, t) && t.fly == q.fly && t.pending == q.pending && t.w.pc.Waiting? && t.w.active
  {
    hide AcceptedOk, LineOk, AheadOk, LandedOk, DoneOk, SchedOk, Outstanding, Moved, RingOk;
    RingThere(q);
    RingThere(Apply(q, DoRestart));
    NothingMoved(q, Apply(q, DoRestart));
  }

  // ---------- Failing with a message in the ring ----------

  /** A message entered the ring and its promise will not be fulfilled as Published. */
  predicate Stranded(q: Queue) {
    q.inRing && !q.w.pc.Attempted?
  }

  /** The step is an attempt whose message entered the ring before a reader's event could not be written. */
  predicate FailsToSignal(q: Queue, step: Step) {
    step == DoAttempt(FailedAfter) && Enabled(q, step)
  }

  /** Some attempt of the run wrote its message into the ring and then failed to signal a reader. */
  ghost predicate SignalFails(q: Queue, steps: seq<Step>)
    requires Inv(q)
    decreases |steps|
  {
    steps != [] && (FailsToSignal(q, steps[0]) || SignalFails(Apply(q, steps[0]), steps[1..]))
  }

  lemma StepStrands(q: Queue, step: Step)
    requires Inv(q)
    ensures Stranded(Apply(q, step)) <==> Stranded(q) || FailsToSignal(q, step)
  {
    hide AcceptedOk, LineOk, AheadOk, LandedOk, DoneOk, SchedOk, RingOk, Outstanding, LoopHead, SettleAll;
    if Enabled(q, step) {
      match step
      case DoRelock =>
        FlightIsView(q);
        RelockKeeps(q);
        if q.w.pc.succeeded {
          LoopHeadMovesNothing(LandedState(q), q.w.pc.n + 1);
        }
      case DoLockAndLook => LoopHeadMovesNothing(q.(w := q.w.(ready := true)), 0);
      case DoClientPublish(payload, signalled) => ClientPublishKeeps(q, payload, signalled);
      case DoFinish => FinishKeeps(q);
      case _ =>
    }
  }

  lemma {:induction false} RunStrands(q: Queue, steps: seq<Step>)
    requires Inv(q)
    ensures Stranded(Run(q, steps)) <==> Stranded(q) || SignalFails(q, steps)
    decreases |steps|
  {
    hide Inv, Apply, Stranded, FailsToSignal;
    if steps != [] {
      StepStrands(q, steps[0]);
      RunStrands(Apply(q, steps[0]), steps[1..]);
    }
  }

  ghost predicate SomeSignalFails(steps: seq<Step>) {
    InitOk();
    SignalFails(Init(), steps)
  }

  /** Exactly when a message that entered the ring is completed as anything but Published: some attempt of the run
      stored its write index and then failed to write a reader's event. It is the last message of the ring, and the
      worker's failure is what its client is told. */
  lemma PublishedButFailedIff(steps: seq<Step>, q: Queue, i: nat)
    requires q == FromStart(steps) && i < |q.published| && q.settled
    ensures !Completed(q, q.published[i].id, Published) <==> SomeSignalFails(steps) && i == |q.published| - 1
    ensures !Completed(q, q.published[i].id, Published) ==> Completed(q, q.published[i].id, WorkerFailed)
  {
    hide Run, AcceptedOk, LineOk, AheadOk, LandedOk, SchedOk, Outstanding, SignalFails;
    InitOk();
    RunStrands(Init(), steps);
    CompletionOfPublished(q, i);
    if q.inRing {
      FlightIsFirst(q);
    }
  }

  const STRAND := [DoClientPublish([], true), DoWorkEvent(true), DoLockAndLook, DoAttempt(FailedAfter), DoDeactivate]

  /** The worker has left its loop with a message in the ring. */
  predicate OneStranded(q: Queue) {
    && q.w == Worker(false, false, true, Inactive(Failed), Destroy, false) && q.fly == Flight(Message(0, []), false)
    && q.pending == [] && q.done == map[] && q.published == [Message(0, [])]
  }

  lemma StrandOne()
    ensures Inv(Init()) && OneStranded(Run(Init(), STRAND))
  {
    hide Inv, Run;
    InitOk();
    ClientPublishKeeps(Init(), [], true);
    var q1 := Apply(Init(), DoClientPublish([], true));
    var q2 := Apply(q1, DoWorkEvent(true));
    var q3 := Apply(q2, DoLockAndLook);
    var q4 := Apply(q3, DoAttempt(FailedAfter));
    var q5 := Apply(q4, DoDeactivate);
    hide Apply;
    RunFive(Init(), DoClientPublish([], true), DoWorkEvent(true), DoLockAndLook, DoAttempt(FailedAfter), DoDeactivate);
  }

  /** A run in which a message reaches its readers and is reported as failed. */
  lemma PublishedButFailed()
    ensures var q := FromStart(STRAND + [DoFinish]);
            q.published == [Message(0, [])] && Completed(q, 0, WorkerFailed)
  {
    hide Inv, Run, SettleAll;
    StrandOne();
    var q := Run(Init(), STRAND);
    FinishKeeps(q);
    assert Line(q)[0] == Message(0, []);
    RunMore(Init(), STRAND, DoFinish);
  }
}

/** Which way a worker ends, and what that makes of the messages still outstanding. */
module QueueStops {
  import opened Layout
  import opened Bytes
  import opened PublishQueue
  import opened QueueInvariant
  import opened QueueRuns

  // ---------- Failing ----------

  /** An event that cannot be read or written, a wait or control messages that fail, an attempt ending in an error. */
  predicate IsFailure(step: Step) {
    match step
    case DoWorkEvent(drained) => !drained
    case DoReschedule(signalled) => !signalled
    case DoRoomEvent(handled) => !handled
    case DoResume(signalled) => !signalled
    case DoShutdownEvent(drained) => !drained
    case DoWaitFails => true
    case DoAttempt(outcome) => outcome.FailedBefore? || outcome.FailedAfter?
    case _ => false
  }

  predicate HasFailed(pc: Pc) {
    pc == Stopping(Failed) || pc == Inactive(Failed) || pc == Exited(Failed)
  }

  /** Some operation of the run fails. */
  ghost predicate SomethingFails(q: Queue, steps: seq<Step>)
    requires Inv(q)
    decreases |steps|
  {
    steps != [] && ((IsFailure(steps[0]) && Enabled(q, steps[0])) || SomethingFails(Apply(q, steps[0]), steps[1..]))
  }

  lemma LoopHeadGoesOn(q: Queue, n: nat)
    ensures !HasFailed(LoopHead(q, n).w.pc)
  {
  }

  lemma RelockGoesOn(q: Queue)
    requires Inv(q) && q.w.pc.Attempted?
    ensures !HasFailed(Apply(q, DoRelock).w.pc) && !HasFailed(q.w.pc)
  {
    hide Inv, LoopHead;
    FlightIsView(q);
    if q.w.pc.succeeded {
      LoopHeadGoesOn(LandedState(q), q.w.pc.n + 1);
    }
  }

  lemma StepFails(q: Queue, step: Step)
    requires Inv(q)
    ensures HasFailed(Apply(q, step).w.pc) <==> HasFailed(q.w.pc) || (IsFailure(step) && Enabled(q, step))
  {
    hide Inv, Apply, Plain, HasFailed;
    if !Enabled(q, step) {
      NotEnabled(q, step);
    } else {
      match step
      case DoClientPublish(payload, signalled) => ClientLeavesWorker(q, payload, signalled);
      case DoLockAndLook => LockGoesOn(q);
      case DoRelock => RelockGoesOn(q);
      case DoAttempt(outcome) => AttemptFails(q, outcome);
      case DoFinish => FinishExits(q);
      case _ => PlainIs(q, step); PlainFails(q, step);
    }
  }

  lemma NotEnabled(q: Queue, step: Step)
    requires Inv(q) && !Enabled(q, step)
    ensures Apply(q, step) == q
  {
    hide Inv;
  }

  lemma PlainIs(q: Queue, step: Step)
    requires Inv(q) && IsPlain(step) && Enabled(q, step)
    ensures Apply(q, step) == q.(w := Plain(q, step))
  {
    hide Inv;
  }

  lemma PlainFails(q: Queue, step: Step)
    requires IsPlain(step) && Enabled(q, step)
    ensures HasFailed(Plain(q, step).pc) <==> HasFailed(q.w.pc) || IsFailure(step)
  {
  }

  lemma LockGoesOn(q: Queue)
    requires Inv(q) && q.w.pc.WorkDrained?
    ensures !HasFailed(Apply(q, DoLockAndLook).w.pc) && !HasFailed(q.w.pc)
  {
    hide Inv, LoopHead;
    LoopHeadGoesOn(q.(w := q.w.(ready := true)), 0);
  }

  lemma AttemptFails(q: Queue, outcome: Outcome)
    requires Inv(q) && q.w.pc.Attempting?
    ensures HasFailed(Apply(q, DoAttempt(outcome)).w.pc) <==> IsFailure(DoAttempt(outcome))
    ensures !HasFailed(q.w.pc)
  {
    hide Inv;
  }

  lemma ClientLeavesWorker(q: Queue, payload: seq<Byte>, signalled: bool)
    requires Inv(q)
    ensures var r := Apply(q, DoClientPublish(payload, signalled));
            && r.w == q.w.(work := r.w.work) && r.settled == q.settled
            && forall id | id in r.done :: (id in q.done && r.done[id] == q.done[id]) || r.done[id] == Overwritten
  {
    hide Inv, Outstanding;
    ClientPublishKeeps(q, payload, signalled);
  }

  lemma FinishExits(q: Queue)
    requires Inv(q) && q.w.pc.Inactive?
    ensures var r := Apply(q, DoFinish); r.w == q.w.(pc := Exited(q.w.pc.exit))
    ensures HasFailed(Apply(q, DoFinish).w.pc) <==> HasFailed(q.w.pc)
  {
    hide Inv, Outstanding, SettleAll;
    FinishKeeps(q);
  }

  lemma {:induction false} RunFails(q: Queue, steps: seq<Step>)
    requires Inv(q)
    ensures HasFailed(Run(q, steps).w.pc) <==> HasFailed(q.w.pc) || SomethingFails(q, steps)
    decreases |steps|
  {
    hide Inv, Apply, HasFailed, IsFailure;
    if steps != [] {
      StepFails(q, steps[0]);
      RunFails(Apply(q, steps[0]), steps[1..]);
    }
  }

  ghost predicate RunFailed(steps: seq<Step>) {
    InitOk();
    SomethingFails(Init(), steps)
  }

  /** A worker leaves its loop as failed exactly when an operation failed; an ordinary stop, of whatever intent, is a
      clean exit. */
  lemma FailedIff(steps: seq<Step>)
    ensures HasFailed(FromStart(steps).w.pc) <==> RunFailed(steps)
    ensures var pc := FromStart(steps).w.pc;
            pc.Stopping? || pc.Inactive? || pc.Exited? ==> (pc.exit == Clean <==> !RunFailed(steps))
  {
    hide Inv, Run, SomethingFails;
    InitOk();
    RunFails(Init(), steps);
  }

  // ---------- What clients are told ----------

  /** Only a finished worker tells its clients that it stopped or failed, and it tells them which. */
  ghost predicate Told(q: Queue) {
    && (forall id | id in q.done && q.done[id] == WorkerFailed :: q.settled && q.w.pc == Exited(Failed))
    && (forall id | id in q.done && q.done[id] == WorkerStopped ::
      q.settled && q.w.pc == Exited(Clean) && q.w.stop == Destroy)
  }

  lemma RelockTells(q: Queue)
    requires Inv(q) && q.w.pc.Attempted? && Told(q)
    ensures Told(Apply(q, DoRelock))
  {
    hide Inv, LoopHead;
    FlightIsView(q);
    if q.w.pc.succeeded {
      LoopHeadSame(LandedState(q), q.w.pc.n + 1);
    }
  }

  lemma FinishTells(q: Queue)
    requires Inv(q) && q.w.pc.Inactive? && Told(q)
    ensures Told(Apply(q, DoFinish))
  {
    hide Inv, Outstanding, SettleAll;
    FinishKeeps(q);
  }

  lemma SettledStays(q: Queue, step: Step)
    requires Inv(q) && q.settled
    ensures Apply(q, step) == q
  {
    FinishedStays(q, step);
  }

  lemma StepTells(q: Queue, step: Step)
    requires Inv(q) && Told(q)
    ensures Told(Apply(q, step))
  {
    hide Inv, LoopHead, ClientPublish, Relock, Finish;
    if q.settled {
      SettledStays(q, step);
    } else if Enabled(q, step) {
      match step
      case DoClientPublish(payload, signalled) => ClientLeavesWorker(q, payload, signalled);
      case DoLockAndLook => LoopHeadSame(q.(w := q.w.(ready := true)), 0);
      case DoRelock => RelockTells(q);
      case DoFinish => FinishTells(q);
      case _ =>
    }
  }

  lemma {:induction false} RunTells(q: Queue, steps: seq<Step>)
    requires Inv(q) && Told(q)
    ensures Told(Run(q, steps))
    decreases |steps|
  {
    hide Inv, Apply, Told;
    if steps != [] {
      StepTells(q, steps[0]);
      RunTells(Apply(q, steps[0]), steps[1..]);
    }
  }

  /** WorkerFailed is reported only in runs in which an operation failed, WorkerStopped only in runs in which none did
      and the worker was destroyed; both only once the worker has exited. */
  lemma WhyCompleted(steps: seq<Step>, id: nat)
    requires id in FromStart(steps).done
    ensures var q := FromStart(steps);
            && (q.done[id] == WorkerFailed ==> RunFailed(steps) && q.w.pc.Exited?)
            && (q.done[id] == WorkerStopped ==> !RunFailed(steps) && q.w.pc.Exited? && q.w.stop == Destroy)
  {
    hide Inv, Run, RunFailed;
    InitOk();
    FailedIff(steps);
    RunTells(Init(), steps);
  }

  /** What a worker that does not hand over leaves outstanding is completed as WorkerFailed if some operation of the run
      failed, and as WorkerStopped if none did. */
  lemma StopCompletesTheQueue(steps: seq<Step>)
    requires FromStart(steps).w.pc.Inactive? && (RunFailed(steps) || FromStart(steps).w.stop == Destroy)
    ensures var q := FromStart(steps);
            var r := Apply(q, DoFinish);
            && r.w.pc.Exited? && Extends(q, r)
            && forall id: nat | InLineAt(Line(q), id) ::
                 Completed(r, id, if RunFailed(steps) then WorkerFailed else WorkerStopped)
  {
    hide Inv, Run, RunFailed, Extends, Completed, Outstanding;
    FailedIff(steps);
    FinishCompletesTheLine(FromStart(steps));
    FinishExits(FromStart(steps));
  }

  // ---------- Stopping ----------

  predicate Leaving(pc: Pc) {
    pc.Stopping? || pc.Inactive? || pc.Exited?
  }

  lemma StopStaysPending(q: Queue, step: Step)
    requires Inv(q) && (q.w.shutdown || Leaving(q.w.pc)) && !step.DoRestart?
    ensures var r := Apply(q, step); r.w.shutdown || Leaving(r.w.pc)
  {
    hide Inv, Apply, Plain;
    if !Enabled(q, step) {
      NotEnabled(q, step);
    } else {
      match step
      case DoClientPublish(payload, signalled) => ClientLeavesWorker(q, payload, signalled);
      case DoLockAndLook => LockFlags(q);
      case DoRelock => RelockFlags(q);
      case DoAttempt(outcome) => AttemptFlags(q, outcome);
      case DoFinish => FinishExits(q);
      case _ => PlainIs(q, step); PlainPending(q, step);
    }
  }

  lemma PlainPending(q: Queue, step: Step)
    requires IsPlain(step) && Enabled(q, step) && !step.DoRestart? && (q.w.shutdown || Leaving(q.w.pc))
    ensures Plain(q, step).shutdown || Leaving(Plain(q, step).pc)
  {
  }

  lemma LockFlags(q: Queue)
    requires Inv(q) && q.w.pc.WorkDrained?
    ensures var w := Apply(q, DoLockAndLook).w; w.shutdown == q.w.shutdown && w.stop == q.w.stop && !Leaving(w.pc)
  {
    hide Inv, LoopHead;
    LoopHeadFlags(q.(w := q.w.(ready := true)), 0);
  }

  lemma AttemptFlags(q: Queue, outcome: Outcome)
    requires Inv(q) && q.w.pc.Attempting?
    ensures var w := Apply(q, DoAttempt(outcome)).w;
            w.shutdown == q.w.shutdown && w.stop == q.w.stop && (Leaving(w.pc) ==> HasFailed(w.pc))
  {
    hide Inv;
  }

  lemma LoopHeadFlags(q: Queue, n: nat)
    ensures var w := LoopHead(q, n).w; w.shutdown == q.w.shutdown && w.stop == q.w.stop && !Leaving(w.pc)
  {
  }

  lemma RelockFlags(q: Queue)
    requires Inv(q) && q.w.pc.Attempted?
    ensures var w := Apply(q, DoRelock).w; w.shutdown == q.w.shutdown && w.stop == q.w.stop && !Leaving(w.pc)
  {
    hide Inv, LoopHead;
    FlightIsView(q);
    if q.w.pc.succeeded {
      LoopHeadFlags(LandedState(q), q.w.pc.n + 1);
    }
  }

  /** Once an active worker was told to stop, the shutdown event is pending until the worker leaves its loop. */
  lemma {:induction false} StopIsPending(q: Queue, steps: seq<Step>)
    requires Inv(q) && (q.w.shutdown || Leaving(q.w.pc)) && forall i: nat | i < |steps| :: !steps[i].DoRestart?
    ensures var r := Run(q, steps); r.w.shutdown || Leaving(r.w.pc)
    decreases |steps|
  {
    hide Inv, Apply, Leaving;
    if steps != [] {
      StopStaysPending(q, steps[0]);
      StopIsPending(Apply(q, steps[0]), steps[1..]);
    }
  }

  lemma StopIsAnnounced(q: Queue, intent: Intent, steps: seq<Step>)
    requires Inv(q) && q.w.active && forall i: nat | i < |steps| :: !steps[i].DoRestart?
    ensures var r := Run(Apply(q, DoRequestStop(intent)), steps); r.w.shutdown || Leaving(r.w.pc)
  {
    hide Inv, Run;
    StopIsPending(Apply(q, DoRequestStop(intent)), steps);
  }

  /** What a worker was last told since it started. */
  datatype Wish = NoWish | Wish(intent: Intent)

  /** The wish after a run. Only an active worker is told anything, and a new owner starts a worker afresh. */
  ghost function WishAfter(q: Queue, steps: seq<Step>, wish: Wish): Wish
    requires Inv(q)
    decreases |steps|
  {
    hide Inv, Apply;
    if steps == [] then wish else WishAfter(Apply(q, steps[0]), steps[1..], WishOf(q, steps[0], wish))
  }

  function WishOf(q: Queue, step: Step, wish: Wish): Wish {
    if step.DoRequestStop? && q.w.active then Wish(step.intent)
    else if step.DoRestart? && Enabled(q, step) then NoWish
    else wish
  }

  /** A stop that is wished for is pending or under way, with its intent; without a wish only a failing worker stops. */
  predicate Granted(w: Worker, wish: Wish) {
    if wish.Wish? then w.stop == wish.intent && (w.shutdown || Leaving(w.pc))
    else !w.shutdown && (Leaving(w.pc) ==> HasFailed(w.pc))
  }

  lemma StepGrants(q: Queue, step: Step, wish: Wish)
    requires Inv(q) && Granted(q.w, wish)
    ensures Granted(Apply(q, step).w, WishOf(q, step, wish))
  {
    hide Inv, Apply, Plain;
    if !Enabled(q, step) {
      NotEnabled(q, step);
    } else {
      match step
      case DoClientPublish(payload, signalled) => ClientLeavesWorker(q, payload, signalled);
      case DoLockAndLook => LockFlags(q);
      case DoRelock => RelockFlags(q);
      case DoAttempt(outcome) => AttemptFlags(q, outcome);
      case DoFinish => FinishExits(q);
      case _ => PlainIs(q, step); PlainGrants(q, step, wish);
    }
  }

  lemma PlainGrants(q: Queue, step: Step, wish: Wish)
    requires Inv(q) && IsPlain(step) && Enabled(q, step) && Granted(q.w, wish)
    ensures Granted(Plain(q, step), WishOf(q, step, wish))
  {
  }

  lemma {:induction false} RunGrants(q: Queue, steps: seq<Step>, wish: Wish)
    requires Inv(q) && Granted(q.w, wish)
    ensures Granted(Run(q, steps).w, WishAfter(q, steps, wish))
    decreases |steps|
  {
    hide Inv, Apply, Granted, WishOf;
    if steps != [] {
      StepGrants(q, steps[0], wish);
      RunGrants(Apply(q, steps[0]), steps[1..], WishOf(q, steps[0], wish));
    }
  }

  ghost function LastWish(steps: seq<Step>): Wish {
    InitOk();
    WishAfter(Init(), steps, NoWish)
  }

  /** In every run, also across hand-overs: a worker stops cleanly only if it was told to since it started, and then
      with the intent it was told last; once told, its shutdown event is pending until it leaves its loop. */
  lemma StopsOnlyWhenTold(steps: seq<Step>)
    ensures var q, wish := FromStart(steps), LastWish(steps);
            && (Leaving(q.w.pc) && !HasFailed(q.w.pc) ==> wish == Wish(q.w.stop))
            && (wish.Wish? ==> q.w.stop == wish.intent && (q.w.shutdown || Leaving(q.w.pc)))
            && (wish.NoWish? ==> !q.w.shutdown)
  {
    hide Inv, Run, WishAfter;
    InitOk();
    RunGrants(Init(), steps, NoWish);
  }

  /** A waiting worker that is told to stop exits cleanly: destroyed, it completes everything outstanding as
      WorkerStopped; moved, it leaves everything as it is. */
  lemma WaitingWorkerStops(q: Queue, intent: Intent)
    requires Inv(q) && q.w.pc.Waiting?
    ensures var r := Run(q, [DoRequestStop(intent), DoShutdownEvent(true), DoDeactivate, DoFinish]);
            && r.w.pc == Exited(Clean) && !r.w.active && r.accepted == q.accepted && r.published == q.published
            && if intent == Destroy then
                 && r.settled && (forall id: nat | InLineAt(Line(q), id) :: Completed(r, id, WorkerStopped))
                 && forall id | id in q.done :: Completed(r, id, q.done[id])
               else !r.settled && r.done == q.done && r.fly == q.fly && r.pending == q.pending
  {
    hide Inv, Run, SettleAll, Outstanding;
    WaitingIsActive(q);
    var q1 := Apply(q, DoRequestStop(intent));
    var q2 := Apply(q1, DoShutdownEvent(true));
    var q3 := Apply(q2, DoDeactivate);
    var q4 := Apply(q3, DoFinish);
    RunFour(q, DoRequestStop(intent), DoShutdownEvent(true), DoDeactivate, DoFinish);
    FinishKeeps(q3);
    if intent == Destroy {
      FinishCompletesTheLine(q3);
    }
  }

  lemma WaitingIsActive(q: Queue)
    requires Inv(q) && q.w.pc.Waiting?
    ensures q.w.active && !q.settled
  {
  }

  lemma RunFour(q: Queue, a: Step, b: Step, c: Step, d: Step)
    requires Inv(q)
    ensures Run(q, [a, b, c, d]) == Apply(Apply(Apply(Apply(q, a), b), c), d)
  {
    hide Inv, Apply;
    RunOne(q, a);
    RunMore(q, [a], b);
    RunMore(q, [a, b], c);
    RunMore(q, [a, b, c], d);
    assert [a] + [b] == [a, b] && [a, b] + [c] == [a, b, c] && [a, b, c] + [d] == [a, b, c, d];
  }
}

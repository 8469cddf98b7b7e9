/** When the worker's own flags tell that no work is forgotten. */
module QueueSchedule {
  import opened Layout
  import opened Bytes
  import opened PublishQueue
  import opened QueueInvariant
  import opened QueueRuns

  /** Something outstanding and no handler at work on it: the work event is pending, or the publisher is not ready and
      its in-flight message blocked. */
  predicate Scheduled(q: Queue) {
    Quiet(q.w.pc) && Line(q) != [] ==> q.w.work || (!q.w.ready && TakesFlight(q))
  }

  /** The two ways to lose it: a publish that cannot be announced takes the blocked message out of flight to make room
      and puts it back into the queue; a new worker starts out ready although its predecessor was not. */
  predicate Forgets(q: Queue, step: Step) {
    match step
    case DoClientPublish(payload, signalled) =>
      !signalled && !Refuses(q, payload) && Full(q) && TakesFlight(q) && Quiet(q.w.pc) && !q.w.work
    case DoRestart => Enabled(q, step) && Line(q) != [] && !q.w.work
    case _ => false
  }

  lemma ClientSchedules(q: Queue, payload: seq<Byte>, signalled: bool)
    requires Inv(q) && Scheduled(q)
    ensures Scheduled(Apply(q, DoClientPublish(payload, signalled))) <==>
      !Forgets(q, DoClientPublish(payload, signalled))
  {
    hide Inv, Outstanding;
    ClientPublishKeeps(q, payload, signalled);
    if !Refuses(q, payload) && Full(q) && !signalled {
      RefusalRestores(q);
      assert Line(q) != [];
    }
  }

  lemma LoopHeadSchedules(q: Queue, n: nat)
    requires q.w.ready
    ensures Scheduled(LoopHead(q, n))
  {
  }

  lemma WorkerSchedules(q: Queue, step: Step)
    requires Inv(q) && Scheduled(q) && !step.DoClientPublish?
    ensures Scheduled(Apply(q, step)) <==> !Forgets(q, step)
  {
    hide Inv, Outstanding, LoopHead, SettleAll;
    match step
    case DoLockAndLook => LoopHeadSchedules(q.(w := q.w.(ready := true)), 0);
    case DoRelock =>
      if Enabled(q, step) {
        FlightIsView(q);
        RelockKeeps(q);
        if q.w.pc.succeeded {
          LoopHeadSchedules(LandedState(q), q.w.pc.n + 1);
        }
      }
    case DoFinish =>
      if Enabled(q, step) {
        FinishKeeps(q);
      }
    case _ =>
  }

  /** From a scheduled state, exactly the two forgetting steps lead to one that is not. */
  lemma ScheduledIff(q: Queue, step: Step)
    requires Inv(q) && Scheduled(q)
    ensures Scheduled(Apply(q, step)) <==> !Forgets(q, step)
  {
    hide Inv, Apply, Scheduled, Forgets;
    match step
    case DoClientPublish(payload, signalled) => ClientSchedules(q, payload, signalled);
    case _ => WorkerSchedules(q, step);
  }

  /** No step of the run forgets. */
  ghost predicate NeverForgets(q: Queue, steps: seq<Step>)
    requires Inv(q)
    decreases |steps|
  {
    steps != [] ==> !Forgets(q, steps[0]) && NeverForgets(Apply(q, steps[0]), steps[1..])
  }

  lemma {:induction false} RunSchedules(q: Queue, steps: seq<Step>)
    requires Inv(q) && Scheduled(q) && NeverForgets(q, steps)
    ensures Scheduled(Run(q, steps))
    decreases |steps|
  {
    hide Inv, Apply, Scheduled, Forgets;
    if steps != [] {
      ScheduledIff(q, steps[0]);
      RunSchedules(Apply(q, steps[0]), steps[1..]);
    }
  }

  /** In every run without a hand-over in which clients can announce what they publish, whatever else fails: if
      something is outstanding and no handler is at work, the work event is pending or the publisher is not ready and
      its in-flight message blocked. */
  lemma NoForgottenWorkByFlags(steps: seq<Step>)
    requires forall i: nat | i < |steps| :: !steps[i].DoRestart? && (steps[i].DoClientPublish? ==> steps[i].signalled)
    ensures Scheduled(FromStart(steps))
  {
    hide Inv, Run, NeverForgets;
    InitOk();
    AllAnnounced(Init(), steps);
    RunSchedules(Init(), steps);
  }

  lemma {:induction false} AllAnnounced(q: Queue, steps: seq<Step>)
    requires Inv(q)
    requires forall i: nat | i < |steps| :: !steps[i].DoRestart? && (steps[i].DoClientPublish? ==> steps[i].signalled)
    ensures NeverForgets(q, steps)
    decreases |steps|
  {
    hide Inv, Apply;
    if steps != [] {
      AllAnnounced(Apply(q, steps[0]), steps[1..]);
    }
  }

  // ---------- The hand-over ----------

  /** A message is published and finds no room, and the publisher is moved. */
  const BLOCK := [DoClientPublish([], true), DoWorkEvent(true), DoLockAndLook, DoAttempt(Blocked), DoRelock]
  const MOVE := [DoRequestStop(Transfer), DoShutdownEvent(true), DoDeactivate, DoFinish, DoRestart]

  /** One blocked message, known to the worker's flags. */
  predicate OneBlocked(q: Queue) {
    q.fly == Flight(Message(0, []), true) && q.pending == [] && q.done == map[]
    && q.w == Worker(true, false, false, Waiting, Destroy, false)
  }

  lemma BlockOne()
    ensures Inv(Init()) && OneBlocked(Run(Init(), BLOCK))
  {
    hide Inv, Run;
    InitOk();
    ClientPublishKeeps(Init(), [], true);
    var q1 := Apply(Init(), DoClientPublish([], true));
    var q2 := Apply(q1, DoWorkEvent(true));
    var q3 := Apply(q2, DoLockAndLook);
    var q4 := Apply(q3, DoAttempt(Blocked));
    RelockKeeps(q4);
    RunFive(Init(), DoClientPublish([], true), DoWorkEvent(true), DoLockAndLook, DoAttempt(Blocked), DoRelock);
  }

  lemma MoveOne(q: Queue)
    requires Inv(q) && OneBlocked(q)
    ensures var r := Run(q, MOVE);
            r.w == Worker(true, false, true, Waiting, Destroy, false) && r.fly == q.fly && r.done == q.done
  {
    hide Inv, Run;
    var q1 := Apply(q, DoRequestStop(Transfer));
    var q2 := Apply(q1, DoShutdownEvent(true));
    var q3 := Apply(q2, DoDeactivate);
    FinishKeeps(q3);
    RunFive(q, DoRequestStop(Transfer), DoShutdownEvent(true), DoDeactivate, DoFinish, DoRestart);
  }

  /** After a hand-over the flags no longer tell: the new worker waits, ready, with a blocked message and no event
      pending. NoForgottenWork still holds of it - the message was refused room -, and the next space event finds it. */
  lemma HandOverForgetsByFlags()
    ensures var q := FromStart(BLOCK + MOVE);
            && !Scheduled(q) && q.w.pc.Waiting? && q.w.ready && !q.w.work && q.fly == Flight(Message(0, []), true)
            && q.done == map[]
  {
    hide Inv, Run;
    BlockOne();
    MoveOne(Run(Init(), BLOCK));
    RunConcat(Init(), BLOCK, MOVE);
  }
}

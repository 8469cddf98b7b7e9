/** One turn of the work handler with clients publishing between its steps. */
module QueueHandler {
  import opened Layout
  import opened Bytes
  import opened PublishQueue
  import opened QueueInvariant
  import opened QueueRuns

  /** From `base` messages in the ring on, the handler has published what its counter says. */
  ghost predicate Counted(q: Queue, base: nat) {
    match q.w.pc
    case WorkDrained => |q.published| == base
    case Attempting(n, _) => |q.published| == base + n
    case Attempted(n, _, succeeded) => |q.published| == base + n + if succeeded then 1 else 0
    case Rescheduling => |q.published| == base + 64
    case _ => true
  }

  lemma LoopHeadCounts(q: Queue, n: nat, base: nat)
    requires |q.published| == base + n && n <= MAX_PER_EVENT
    ensures Counted(LoopHead(q, n), base)
  {
  }

  lemma RelockCounts(q: Queue, base: nat)
    requires Inv(q) && q.w.pc.Attempted? && Counted(q, base)
    ensures Counted(Apply(q, DoRelock), base)
  {
    hide Inv, LoopHead;
    FlightIsView(q);
    InTurn(q);
    if q.w.pc.succeeded {
      LoopHeadCounts(LandedState(q), q.w.pc.n + 1, base);
    }
  }

  lemma ClientCounts(q: Queue, payload: seq<Byte>, signalled: bool, base: nat)
    requires Inv(q) && Counted(q, base)
    ensures Counted(Apply(q, DoClientPublish(payload, signalled)), base)
  {
    hide Inv, Outstanding, Settle;
    ClientPublishKeeps(q, payload, signalled);
  }

  lemma FinishCounts(q: Queue, base: nat)
    requires Inv(q) && q.w.pc.Inactive?
    ensures Counted(Apply(q, DoFinish), base)
  {
    hide Inv, Outstanding, SettleAll;
    FinishKeeps(q);
  }

  lemma StepCounts(q: Queue, step: Step, base: nat)
    requires Inv(q) && Counted(q, base) && !step.DoWorkEvent?
    ensures Counted(Apply(q, step), base)
  {
    hide Inv, LoopHead, ClientPublish, Relock, Finish;
    if Enabled(q, step) {
      match step
      case DoClientPublish(payload, signalled) => ClientCounts(q, payload, signalled, base);
      case DoLockAndLook => LoopHeadCounts(q.(w := q.w.(ready := true)), 0, base);
      case DoRelock => RelockCounts(q, base);
      case DoFinish => FinishCounts(q, base);
      case _ =>
    }
  }

  lemma InTurn(q: Queue)
    requires Inv(q) && q.w.pc.Attempted?
    ensures q.w.pc.n < MAX_PER_EVENT
  {
  }

  lemma {:induction false} RunCounts(q: Queue, steps: seq<Step>, base: nat)
    requires Inv(q) && Counted(q, base) && forall i: nat | i < |steps| :: !steps[i].DoWorkEvent?
    ensures Counted(Run(q, steps), base)
    decreases |steps|
  {
    hide Inv, Apply, Counted;
    if steps != [] {
      StepCounts(q, steps[0], base);
      RunCounts(Apply(q, steps[0]), steps[1..], base);
    }
  }

  /** However many messages clients publish or overwrite meanwhile: a handler that has drained the work event attempts
      at most 64 messages, and asks to be scheduled again exactly after it has published 64 and something is still
      outstanding. */
  lemma AtMostSixtyFourPerEvent(q: Queue, steps: seq<Step>)
    requires Inv(q) && q.w.pc.WorkDrained? && forall i: nat | i < |steps| :: !steps[i].DoWorkEvent?
    ensures var r := Run(q, steps);
            && (r.w.pc.Attempting? ==> |r.published| < |q.published| + 64)
            && (r.w.pc.Rescheduling? ==> |r.published| == |q.published| + 64 && Line(r) != [])
  {
    hide Run, AcceptedOk, LineOk, DoneOk, RingOk, LandedOk, AheadOk, Landed, LeftOk;
    RunCounts(q, steps, |q.published|);
  }
}

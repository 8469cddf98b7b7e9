/** What holds in every run of the publish queue, for every interleaving of clients and worker. */
module QueueRuns {
  import opened Layout
  import opened Bytes
  import opened PublishQueue
  import opened QueueInvariant

  ghost function Apply(q: Queue, step: Step): (r: Queue)
    requires Inv(q)
    ensures Inv(r)
  {
    hide Inv;
    if !Enabled(q, step) then q else
      match step
      case DoClientPublish(payload, signalled) =>
        ClientPublishKeeps(q, payload, signalled);
        ClientPublish(q, payload, signalled)
      case DoLockAndLook => LockAndLookKeeps(q); LockAndLook(q)
      case DoAttempt(outcome) => AttemptKeeps(q, outcome); Attempt(q, outcome)
      case DoRelock => RelockKeeps(q); Relock(q)
      case DoFinish => FinishKeeps(q); Finish(q)
      case _ => PlainKeeps(q, step); q.(w := Plain(q, step))
  }

  predicate IsPlain(step: Step) {
    !step.DoClientPublish? && !step.DoLockAndLook? && !step.DoAttempt? && !step.DoRelock? && !step.DoFinish?
  }

  /** The steps that touch no message. */
  function Plain(q: Queue, step: Step): Worker
    requires IsPlain(step) && Enabled(q, step)
  {
    match step
    case DoRequestStop(intent) => RequestStop(q.w, intent)
    case DoRestart => Restart(q.w)
    case DoWorkEvent(drained) => WorkEvent(q.w, drained)
    case DoReschedule(signalled) => Reschedule(q.w, signalled)
    case DoRoomEvent(handled) => RoomEvent(q.w, handled)
    case DoLook => q.w.(pc := Checking(NextInLine(q)))
    case DoVerdict(hasRoom) => Verdict(q.w, hasRoom)
    case DoResume(signalled) => Resume(q.w, signalled)
    case DoShutdownEvent(drained) => ShutdownEvent(q.w, drained)
    case DoWaitFails => Fails(q.w)
    case DoDeactivate => Deactivate(q.w)
  }

  lemma PlainKeeps(q: Queue, step: Step)
    requires Inv(q) && IsPlain(step) && Enabled(q, step)
    ensures Inv(q.(w := Plain(q, step)))
  {
    hide AcceptedOk, LineOk, DoneOk, AheadOk, LandedOk, RingOk, Outstanding;
    FlagsKeep(q, Plain(q, step));
  }

  ghost function Run(q: Queue, steps: seq<Step>): (r: Queue)
    requires Inv(q)
    ensures Inv(r)
    decreases |steps|
  {
    if steps == [] then q else Run(Apply(q, steps[0]), steps[1..])
  }

  ghost function FromStart(steps: seq<Step>): (q: Queue)
    ensures Inv(q)
  {
    InitOk();
    Run(Init(), steps)
  }

  // ---------- Exactly-once completion ----------

  /** In every reachable state an accepted message is outstanding or completed, never both; once a worker
      that is not handing over has finished, every accepted message is completed. */
  lemma ExactlyOnce(steps: seq<Step>, id: nat)
    requires id < |FromStart(steps).accepted|
    ensures var q := FromStart(steps);
            if q.settled then id in q.done else (id in q.done <==> !InLineAt(Line(q), id))
  {
    hide FromStart, AcceptedOk, LineOk, AheadOk, LandedOk, RingOk, Outstanding;
    var q := FromStart(steps);
    if InLineAt(Line(q), id) {
      var i: nat :| i < |Line(q)| && Line(q)[i].id == id;
    }
  }

  /** A completion is never revised, and nothing accepted is forgotten. */
  ghost predicate Extends(q: Queue, r: Queue) {
    && (forall id | id in q.done :: id in r.done && r.done[id] == q.done[id])
    && q.accepted <= r.accepted && q.published <= r.published
  }

  lemma ClientExtends(q: Queue, payload: seq<Byte>, signalled: bool)
    requires !Refuses(q, payload) && Full(q) ==> Victim(q).id !in q.done
    ensures Extends(q, ClientPublish(q, payload, signalled))
  {
  }

  lemma RelockExtends(q: Queue)
    requires q.w.pc.Attempted? && q.fly.Flight? && q.fly.msg.id !in q.done
    ensures Extends(q, Relock(q))
  {
    hide LoopHead;
    if q.w.pc.succeeded {
      LoopHeadSame(LandedState(q), q.w.pc.n + 1);
    }
  }

  lemma LoopHeadSame(q: Queue, n: nat)
    ensures var r := LoopHead(q, n); r.done == q.done && r.accepted == q.accepted && r.published == q.published
  {
    if n < MAX_PER_EVENT && (q.pending != [] || q.fly.Flight?) {
    } else {
    }
  }

  lemma LockSame(q: Queue)
    ensures var r := LockAndLook(q); r.done == q.done && r.accepted == q.accepted && r.published == q.published
  {
    hide LoopHead;
    LoopHeadSame(q.(w := q.w.(ready := true)), 0);
  }

  lemma FinishExtends(q: Queue)
    requires Inv(q) && q.w.pc.Inactive?
    ensures Extends(q, Apply(q, DoFinish))
  {
    hide Inv, SettleAll, Outstanding;
    FinishKeeps(q);
  }

  lemma ApplyExtends(q: Queue, step: Step)
    requires Inv(q)
    ensures Extends(q, Apply(q, step))
  {
    hide Inv, ClientPublish, Relock, Finish, Extends, Plain, LockAndLook, Attempt;
    Unchanged(q, q);
    if Enabled(q, step) {
      match step
      case DoRelock => RelockKeeps(q); RelockExtends(q);
      case DoFinish => FinishExtends(q);
      case DoClientPublish(payload, signalled) =>
        ClientPublishKeeps(q, payload, signalled);
        ClientExtends(q, payload, signalled);
      case DoAttempt(outcome) => AttemptExtends(q, outcome);
      case DoLockAndLook => LockSame(q); Unchanged(q, LockAndLook(q));
      case _ => Unchanged(q, q.(w := Plain(q, step)));
    }
  }

  lemma Unchanged(q: Queue, r: Queue)
    requires r.done == q.done && r.accepted == q.accepted && r.published == q.published
    ensures Extends(q, r)
  {
  }

  lemma AttemptExtends(q: Queue, outcome: Outcome)
    requires q.w.pc.Attempting?
    ensures Extends(q, Attempt(q, outcome))
  {
  }

  lemma {:induction false} RunExtends(q: Queue, steps: seq<Step>)
    requires Inv(q)
    ensures Extends(q, Run(q, steps))
    decreases |steps|
  {
    hide Apply, Inv;
    if steps != [] {
      ApplyExtends(q, steps[0]);
      RunExtends(Apply(q, steps[0]), steps[1..]);
    }
  }

  /** A message that was overwritten has not entered the ring and never will. */
  lemma OverwrittenNeverPublished(q: Queue, id: nat, steps: seq<Step>)
    requires Inv(q) && id in q.done && q.done[id] == Overwritten
    ensures forall i: nat | i < |Run(q, steps).published| :: Run(q, steps).published[i].id != id
  {
    hide Run, AcceptedOk, LineOk, AheadOk, Outstanding, SchedOk;
    RunExtends(q, steps);
    var r := Run(q, steps);
    forall i: nat | i < |r.published|
      ensures r.published[i].id != id
    {
      CompletionOfPublished(r, i);
      if r.published[i].id == id && r.inRing {
        FlightIsFirst(r);
      }
    }
  }

  lemma FlightIsFirst(q: Queue)
    requires Inv(q) && q.fly.Flight? && q.inRing
    ensures q.fly.msg.id in q.done ==> q.done[q.fly.msg.id] == WorkerFailed
  {
    hide AcceptedOk, LineOk, AheadOk, LandedOk, Outstanding, SchedOk, WorkerOk;
    if !q.settled {
      NotDone(q);
    }
  }

  lemma LastIsNotAmong(msgs: seq<Message>)
    requires Increasing(msgs) && msgs != []
    ensures !InLineAt(msgs[..|msgs| - 1], msgs[|msgs| - 1].id)
  {
    var rest := msgs[..|msgs| - 1];
    assert forall k: nat | k < |rest| :: rest[k] == msgs[k];
  }

  /** Exactly which published messages are completed as Published: all but one still in flight, which only a
      worker that failed after its message entered the ring leaves behind. */
  lemma CompletionOfPublished(q: Queue, i: nat)
    requires Inv(q) && i < |q.published|
    ensures (q.published[i].id in q.done && q.done[q.published[i].id] == Published) <==>
      !(q.inRing && i == |q.published| - 1)
    ensures q.inRing && !q.w.pc.Attempted? ==> q.w.pc in {Stopping(Failed), Inactive(Failed), Exited(Failed)}
  {
    hide AcceptedOk, LineOk, AheadOk, Outstanding, DoneOk, SchedOk;
    var landed := Landed(q.published, q.inRing);
    if i < |landed| {
      assert landed[i] == q.published[i];
    } else {
      LastIsNotAmong(q.published);
    }
  }

  // ---------- Order, bound, the in-flight message ----------

  /** Messages enter the ring in the order they were accepted, and what is outstanding comes later in that
      order than all that landed. */
  lemma PublishedInOrder(steps: seq<Step>, i: nat, j: nat)
    requires i < j < |FromStart(steps).published|
    ensures var q := FromStart(steps);
            && q.published[i].id < q.published[j].id < |q.accepted|
            && q.accepted[q.published[i].id] == q.published[i] && q.accepted[q.published[j].id] == q.published[j]
            && forall k: nat | k < |Line(q)| :: q.published[i].id < Line(q)[k].id
  {
    hide FromStart, AcceptedOk, Outstanding, DoneOk, SchedOk, LandedOk, WorkerOk;
    var q := FromStart(steps);
    assert Landed(q.published, q.inRing)[i] == q.published[i];
  }

  /** Never more than 64 messages are outstanding, the in-flight one included, and these in the order of acceptance. */
  lemma AtMostSixtyFour(steps: seq<Step>)
    ensures var q := FromStart(steps);
            |Line(q)| <= 64 && forall i, j | 0 <= i < j < |Line(q)| :: Line(q)[i].id < Line(q)[j].id
  {
    hide FromStart, AcceptedOk, Outstanding, DoneOk, SchedOk, LandedOk, WorkerOk, AheadOk, RingOk;
  }

  /** The attempt is always made on the oldest outstanding message. */
  lemma AttemptsTheOldest(q: Queue)
    requires Inv(q) && q.w.pc.Attempting?
    ensures Line(q) != [] && Line(q)[0] == q.w.pc.view && !q.fly.blocked
    ensures Attempt(q, Succeeded).published == q.published + [Line(q)[0]]
  {
  }

  predicate ClientSteps(steps: seq<Step>) {
    forall i: nat | i < |steps| :: steps[i].DoClientPublish? || steps[i].DoRequestStop?
  }

  /** While the worker runs without the mutex on a message, clients - however many, whatever they publish or
      overwrite - neither replace nor remove it: it is still the in-flight message when the mutex is taken back. */
  lemma {:induction false} InFlightIsUntouched(q: Queue, steps: seq<Step>)
    requires Inv(q) && (q.w.pc.Attempting? || q.w.pc.Attempted?) && ClientSteps(steps)
    ensures var r := Run(q, steps);
            r.w.pc == q.w.pc && r.fly == Flight(q.w.pc.view, false) && r.fly == q.fly && r.fly.msg.id !in r.done
    decreases |steps|
  {
    hide Inv, Apply;
    FlightIsView(q);
    if steps != [] {
      ClientLeavesFlight(q, steps[0]);
      InFlightIsUntouched(Apply(q, steps[0]), steps[1..]);
    }
  }

  lemma FlightIsView(q: Queue)
    requires Inv(q) && (q.w.pc.Attempting? || q.w.pc.Attempted?)
    ensures q.fly == Flight(q.w.pc.view, false) && q.fly.msg.id !in q.done && q.w.active && q.w.ready
  {
    hide AcceptedOk, LineOk, AheadOk, LandedOk, RingOk, Outstanding, DoneOk, SchedOk;
    NotDone(q);
  }

  lemma ClientLeavesFlight(q: Queue, step: Step)
    requires Inv(q) && (q.w.pc.Attempting? || q.w.pc.Attempted?) && (step.DoClientPublish? || step.DoRequestStop?)
    ensures var r := Apply(q, step); r.w.pc == q.w.pc && r.fly == q.fly
  {
    hide Inv;
    FlightIsView(q);
    if step.DoClientPublish? {
      ClientPublishKeeps(q, step.payload, step.signalled);
    }
  }

  /** Clients get a ticket exactly when the message was accepted, and are told whether that cost the oldest one - with
      64 outstanding - or else which of the three obstacles came first. */
  lemma TicketMeansAccepted(q: Queue, payload: seq<Byte>, signalled: bool)
    requires Inv(q)
    ensures |Line(q)| <= 64
    ensures var r := ClientResult(q, payload, signalled);
            && (r == PayloadTooLarge <==> |payload| > 1016)
            && (r == WorkerExited <==> |payload| <= 1016 && !q.w.active)
            && (r == NotificationFailed <==> |payload| <= 1016 && q.w.active && !signalled)
            && (r == Enqueued(|q.accepted|) <==> |payload| <= 1016 && q.w.active && signalled && |Line(q)| < 64)
            && (r == EnqueuedOverOldest(|q.accepted|) <==>
                |payload| <= 1016 && q.w.active && signalled && |Line(q)| == 64)
    ensures var r := Apply(q, DoClientPublish(payload, signalled));
            match ClientResult(q, payload, signalled)
            case Enqueued(id) => r.accepted == q.accepted + [Message(id, payload)] && r.done == q.done
              && Line(r) == Line(q) + [Message(id, payload)]
            case EnqueuedOverOldest(id) =>
              && r.accepted == q.accepted + [Message(id, payload)] && |Line(q)| == 64
              && VictimAt(q) < |Line(q)| && r.done == q.done[Line(q)[VictimAt(q)].id := Overwritten]
              && Line(r) == Removed(Line(q), VictimAt(q)) + [Message(id, payload)]
            case _ => r.accepted == q.accepted && r.done == q.done && Line(r) == Line(q)
  {
    hide Inv, Removed, Outstanding;
    InvLine(q);
    ClientPublishKeeps(q, payload, signalled);
    if !Refuses(q, payload) {
      if Full(q) {
        VictimInLine(q);
        RefusalRestores(q);
        var r := WithoutVictim(q);
        AppendLine(r.fly, r.pending, Message(|q.accepted|, payload));
      } else {
        AppendLine(q.fly, q.pending, Message(|q.accepted|, payload));
      }
    }
  }

  lemma InvLine(q: Queue)
    requires Inv(q)
    ensures |Line(q)| <= MAX_OUTSTANDING
  {
    hide Outstanding;
  }

  lemma AppendLine(fly: Flight, pending: seq<Message>, m: Message)
    ensures Outstanding(fly, pending + [m]) == Outstanding(fly, pending) + [m]
  {
  }

  // ---------- Scheduling ----------

  /** No work is forgotten: a worker waiting for events while a message is outstanding has the work event
      pending, or was refused room for the very message that is next in line. */
  lemma NoForgottenWork(steps: seq<Step>)
    ensures var q := FromStart(steps);
            q.w.pc.Waiting? && Line(q) != [] ==> q.w.work || q.refused == Line(q)[0].id
  {
    hide FromStart, AcceptedOk, LineOk, AheadOk, LandedOk, RingOk, Outstanding, DoneOk, WorkerOk;
  }

  // ---------- The end of a worker ----------

  /** When a worker that is not handing over has finished, no accepted message is left without completion,
      and nothing a client or a later stop does changes a completion or accepts another message. */
  lemma {:induction false} FinishedIsFinal(q: Queue, steps: seq<Step>)
    requires Inv(q) && q.w.pc.Exited? && (q.w.pc.exit.Failed? || q.w.stop != Transfer)
    ensures var r := Run(q, steps);
            r.done == q.done && r.accepted == q.accepted && r.published == q.published && r.w.pc == q.w.pc
    ensures forall id: nat | id < |q.accepted| :: id in q.done
    decreases |steps|
  {
    hide Inv, Apply;
    FinishedAll(q);
    if steps != [] {
      FinishedStays(q, steps[0]);
      FinishedIsFinal(Apply(q, steps[0]), steps[1..]);
    }
  }

  lemma FinishedAll(q: Queue)
    requires Inv(q) && q.w.pc.Exited? && (q.w.pc.exit.Failed? || q.w.stop != Transfer)
    ensures q.settled && !q.w.active && forall id: nat | id < |q.accepted| :: id in q.done
  {
    hide AcceptedOk, LineOk, AheadOk, LandedOk, RingOk, Outstanding, SchedOk;
  }

  lemma FinishedStays(q: Queue, step: Step)
    requires Inv(q) && q.w.pc.Exited? && !q.w.active && (q.w.pc.exit.Failed? || q.w.stop != Transfer)
    ensures Apply(q, step) == q
  {
    hide Inv;
  }

  lemma RunOne(q: Queue, step: Step)
    requires Inv(q)
    ensures Run(q, [step]) == Apply(q, step)
  {
    hide Inv, Apply;
  }

  lemma {:induction false} RunMore(q: Queue, steps: seq<Step>, step: Step)
    requires Inv(q)
    ensures Run(q, steps + [step]) == Apply(Run(q, steps), step)
    decreases |steps|
  {
    hide Inv, Apply;
    if steps == [] {
      assert [] + [step] == [step];
    } else {
      assert (steps + [step])[1..] == steps[1..] + [step];
      RunMore(Apply(q, steps[0]), steps[1..], step);
    }
  }

  lemma {:induction false} RunConcat(q: Queue, a: seq<Step>, b: seq<Step>)
    requires Inv(q)
    ensures Run(q, a + b) == Run(Run(q, a), b)
    decreases |a|
  {
    hide Inv, Apply;
    if a == [] {
      assert a + b == b;
    } else {
      assert (a + b)[1..] == a[1..] + b;
      RunConcat(Apply(q, a[0]), a[1..], b);
    }
  }

  lemma RunFive(q: Queue, a: Step, b: Step, c: Step, d: Step, e: Step)
    requires Inv(q)
    ensures Run(q, [a, b, c, d, e]) == Apply(Apply(Apply(Apply(Apply(q, a), b), c), d), e)
  {
    hide Inv, Apply;
    RunOne(q, a);
    RunMore(q, [a], b);
    RunMore(q, [a, b], c);
    RunMore(q, [a, b, c], d);
    RunMore(q, [a, b, c, d], e);
    assert [a] + [b] == [a, b] && [a, b] + [c] == [a, b, c] && [a, b, c] + [d] == [a, b, c, d];
    assert [a, b, c, d] + [e] == [a, b, c, d, e];
  }

  /** A finished worker that does not hand over has completed everything outstanding, by how it left its loop. */
  lemma FinishCompletesTheLine(q: Queue)
    requires Inv(q) && q.w.pc.Inactive? && (q.w.pc.exit.Failed? || q.w.stop != Transfer)
    ensures var r := Apply(q, DoFinish);
            && (forall id: nat | InLineAt(Line(q), id) ::
               Completed(r, id, if q.w.pc.exit.Failed? then WorkerFailed else WorkerStopped))
            && Extends(q, r)
  {
    hide Inv, Outstanding, SettleAll;
    FinishKeeps(q);
    FinishExtends(q);
    forall id: nat | InLineAt(Line(q), id)
      ensures id !in q.done
    {
      var i: nat :| i < |Line(q)| && Line(q)[i].id == id;
    }
  }

  predicate Completed(q: Queue, id: nat, how: Completion) {
    id in q.done && q.done[id] == how
  }
}

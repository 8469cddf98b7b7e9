/** What a wake-up is for: a waiting worker that handles one puts the message first in line into the ring. */
module SystemProgress {
  import opened Layout
  import opened Bytes
  import Pool
  import PoolRuns
  import PoolSignals
  import Q = PublishQueue
  import QueueInvariant
  import QueueRuns
  import QueueStops
  import opened PublisherSystem
  import opened SystemLimits

  /** The worker handles the space event, looks, finds room and schedules its own work. */
  const WAKE := [SpaceEvent(true), Worker(Q.DoLook), Verdict(AT_ONCE), Worker(Q.DoResume(true))]

  /** The worker handles the work event as far as its first message. */
  const FIRST := [Worker(Q.DoWorkEvent(true)), Worker(Q.DoLockAndLook), Attempt(AT_ONCE, true), Worker(Q.DoRelock)]

  lemma RunFour(sys: System, a: Step, b: Step, c: Step, d: Step)
    requires Inv(sys)
    ensures Run(sys, [a, b, c, d]) == Next(Next(Next(Next(sys, a), b), c), d)
  {
    hide Inv, Next;
    RunThree(sys, a, b, c);
    RunMore(sys, [a, b, c], d);
    assert [a, b, c] + [d] == [a, b, c, d];
  }

  // ---------- The queue's part ----------

  lemma FirstIsNext(q: Q.Queue)
    requires QueueInvariant.Line(q) != []
    ensures Q.NextInLine(q) == Q.First(QueueInvariant.Line(q)[0])
  {
  }

  lemma QueueWakes(q: Q.Queue)
    requires Q.Inv(q) && q.w.pc.Waiting? && QueueInvariant.Line(q) != []
    ensures var q1 := QueueRuns.Apply(q, Q.DoRoomEvent(true));
            var q2 := QueueRuns.Apply(q1, Q.DoLook);
            var q3 := QueueRuns.Apply(q2, Q.DoVerdict(true));
            && q1 == q.(w := q.w.(pc := Q.Looking))
            && q2 == q.(w := q.w.(pc := Q.Checking(Q.First(QueueInvariant.Line(q)[0]))))
            && q3 == q.(w := q.w.(ready := true, pc := Q.Resuming))
            && QueueRuns.Apply(q3, Q.DoResume(true)) == q.(w := q.w.(ready := true, work := true, pc := Q.Waiting))
  {
    hide Q.Inv, QueueRuns.Apply, QueueInvariant.Line, Q.NextInLine;
    FirstIsNext(q);
    var q1 := QueueRuns.Apply(q, Q.DoRoomEvent(true));
    QueueStops.PlainIs(q, Q.DoRoomEvent(true));
    var q2 := QueueRuns.Apply(q1, Q.DoLook);
    QueueStops.PlainIs(q1, Q.DoLook);
    assert Q.NextInLine(q1) == Q.NextInLine(q) by { SameNext(q, q1); }
    QueueStops.PlainIs(q2, Q.DoVerdict(true));
    QueueStops.PlainIs(QueueRuns.Apply(q2, Q.DoVerdict(true)), Q.DoResume(true));
  }

  lemma SameNext(q: Q.Queue, r: Q.Queue)
    requires r.fly == q.fly && r.pending == q.pending
    ensures Q.NextInLine(r) == Q.NextInLine(q)
  {
  }

  lemma LockTakesFirst(q: Q.Queue)
    requires Q.Inv(q) && q.w.pc.WorkDrained? && q.w.ready && QueueInvariant.Line(q) != []
    ensures var line := QueueInvariant.Line(q);
            QueueRuns.Apply(q, Q.DoLockAndLook) ==
              q.(fly := Q.Flight(line[0], false), pending := line[1..], w := q.w.(pc := Q.Attempting(0, line[0])))
  {
    hide Q.Inv;
  }

  lemma AttemptEnters(q: Q.Queue)
    requires Q.Inv(q) && q.w.pc.Attempting?
    ensures QueueRuns.Apply(q, Q.DoAttempt(Q.Succeeded)) ==
      q.(published := q.published + [q.w.pc.view], inRing := true,
         w := q.w.(pc := Q.Attempted(q.w.pc.n, q.w.pc.view, true)))
  {
    hide Q.Inv;
  }

  lemma RelockLands(q: Q.Queue)
    requires Q.Inv(q) && q.w.pc.Attempted? && q.w.pc.succeeded
    ensures q.fly.Flight?
    ensures var r := QueueRuns.Apply(q, Q.DoRelock);
            && r.published == q.published && r.done == q.done[q.fly.msg.id := Q.Published]
            && QueueInvariant.Line(r) == q.pending
  {
    hide Q.Inv, Q.LoopHead;
    QueueRuns.FlightIsView(q);
    LoopHeadKeepsLine(QueueInvariant.LandedState(q), q.w.pc.n + 1);
  }

  lemma LoopHeadKeepsLine(q: Q.Queue, n: nat)
    ensures var r := Q.LoopHead(q, n);
            r.published == q.published && r.done == q.done && QueueInvariant.Line(r) == QueueInvariant.Line(q)
  {
  }

  lemma QueuePublishes(q: Q.Queue)
    requires Q.Inv(q) && q.w.pc.Waiting? && q.w.ready && QueueInvariant.Line(q) != []
    ensures var line := QueueInvariant.Line(q);
            var q1 := QueueRuns.Apply(q, Q.DoWorkEvent(true));
            var q2 := QueueRuns.Apply(q1, Q.DoLockAndLook);
            var q3 := QueueRuns.Apply(q2, Q.DoAttempt(Q.Succeeded));
            var q4 := QueueRuns.Apply(q3, Q.DoRelock);
            && q1.w.pc.WorkDrained? && q2.w.pc == Q.Attempting(0, line[0]) && q3.w.pc.Attempted?
            && q4.published == q.published + [line[0]] && QueueInvariant.Line(q4) == line[1..]
            && q4.done == q.done[line[0].id := Q.Published]
  {
    hide Q.Inv, QueueRuns.Apply;
    QueueStops.PlainIs(q, Q.DoWorkEvent(true));
    var q1 := QueueRuns.Apply(q, Q.DoWorkEvent(true));
    LockTakesFirst(q1);
    var q2 := QueueRuns.Apply(q1, Q.DoLockAndLook);
    AttemptEnters(q2);
    RelockLands(QueueRuns.Apply(q2, Q.DoAttempt(Q.Succeeded)));
  }

  // ---------- The whole system ----------

  lemma NextSpaceEvent(sys: System)
    requires Inv(sys) && sys.queue.w.pc.Waiting?
    ensures Q.Inv(sys.queue) && !sys.control
    ensures Next(sys, SpaceEvent(true)) ==
            sys.(queue := QueueRuns.Apply(sys.queue, Q.DoRoomEvent(true)), space := false, seen := [])
  {
    hide Pool.Inv, Q.Inv, WakeOk, SameLog, SeenOk, QueueRuns.Apply;
  }

  lemma NextVerdict(sys: System)
    requires Inv(sys) && sys.queue.w.pc.Checking? && sys.queue.w.pc.candidate.First? && sys.seen == []
    requires Pool.Shape(sys.pool) && HasRoom(sys.pool, sys.queue.w.pc.candidate.msg.payload)
    ensures Q.Inv(sys.queue)
    ensures Next(sys, Verdict(AT_ONCE)) ==
            sys.(queue := QueueRuns.Apply(sys.queue, Q.DoVerdict(true)), seen := [])
  {
    hide Pool.Inv, Q.Inv, WakeOk, SameLog, SeenOk, QueueRuns.Apply, HasRoom, FindsRoom;
    AtOnce(sys, sys.queue.w.pc.candidate.msg.payload);
  }

  /** There is room for the message first in line, and the worker waits. */
  ghost predicate RoomForFirst(sys: System) {
    && Inv(sys) && Pool.Shape(sys.pool) && sys.queue.w.pc.Waiting? && QueueInvariant.Line(sys.queue) != []
    && HasRoom(sys.pool, QueueInvariant.Line(sys.queue)[0].payload)
  }

  lemma Wakes(sys: System)
    requires RoomForFirst(sys)
    ensures Run(sys, WAKE) ==
      sys.(queue := sys.queue.(w := sys.queue.w.(ready := true, work := true, pc := Q.Waiting)), space := false,
           seen := [])
  {
    hide Inv, Pool.Inv, Q.Inv, QueueRuns.Apply, HasRoom, Next, Run;
    QueueOf(sys);
    NextSpaceEvent(sys);
    QueueWakes(sys.queue);
    var s1 := Next(sys, WAKE[0]);
    NextWorker(s1, Q.DoLook);
    var s2 := Next(s1, WAKE[1]);
    NextVerdict(s2);
    var s3 := Next(s2, WAKE[2]);
    NextWorker(s3, Q.DoResume(true));
    RunFour(sys, WAKE[0], WAKE[1], WAKE[2], WAKE[3]);
  }

  lemma PublishesFirst(sys: System)
    requires RoomForFirst(sys) && sys.queue.w.ready
    ensures FirstIsIn(sys, Run(sys, FIRST))
  {
    hide Inv, Pool.Inv, Q.Inv, QueueRuns.Apply, HasRoom, Next, Run, PoolRuns.Apply;
    QueueOf(sys);
    NotInControl(sys);
    QueuePublishes(sys.queue);
    NextWorker(sys, Q.DoWorkEvent(true));
    var s1 := Next(sys, FIRST[0]);
    NextWorker(s1, Q.DoLockAndLook);
    var s2 := Next(s1, FIRST[1]);
    NextAttempt(s2);
    var s3 := Next(s2, FIRST[2]);
    NextWorker(s3, Q.DoRelock);
    RunFour(sys, FIRST[0], FIRST[1], FIRST[2], FIRST[3]);
  }

  lemma NotInControl(sys: System)
    requires Inv(sys) && sys.queue.w.pc.Waiting?
    ensures !sys.control
  {
    hide Pool.Inv, Q.Inv, WakeOk, SameLog, SeenOk;
  }

  /** The first message of the line is in the ring, completed as Published, and the others are still in line. */
  ghost predicate FirstIsIn(sys: System, r: System) {
    var line := QueueInvariant.Line(sys.queue);
    && line != [] && r.queue.published == sys.queue.published + [line[0]]
    && QueueInvariant.Line(r.queue) == line[1..] && r.queue.done == sys.queue.done[line[0].id := Q.Published]
    && Inv(r)
  }

  /** In every run: if the worker waits and there is room for the message first in line, then once it handles a space
      event - NoLostSpaceWakeUp says that one is due unless work is pending - steps of its own alone put that message
      into the ring and complete it as Published. */
  lemma WakeUpDelivers(start: System, steps: seq<Step>)
    requires IsStart(start) && RoomForFirst(FromStart(start, steps))
    ensures FirstIsIn(FromStart(start, steps), Run(FromStart(start, steps), WAKE + FIRST))
  {
    hide Inv, Run, HasRoom;
    var sys := FromStart(start, steps);
    Wakes(sys);
    PublishesFirst(Run(sys, WAKE));
    RunConcat(sys, WAKE, FIRST);
  }

  // ---------- Both machines at work ----------

  /** The queue machine's part of a step: what the pool has to say decides the outcome of an attempt and a verdict. */
  function QueuePart(sys: System, step: Step): seq<Q.Step> {
    match step
    case Client(payload, signalled) => [Q.DoClientPublish(payload, signalled)]
    case Stop(intent) => [Q.DoRequestStop(intent)]
    case Worker(q) => if sys.control || !WorkerOwn(q) then [] else [q]
    case Attempt(scan, signalled) =>
      if !sys.queue.w.pc.Attempting? then []
      else [Q.DoAttempt(AttemptOutcome(FindsRoom(sys, scan, sys.queue.w.pc.view.payload), signalled))]
    case SpaceEvent(drained) => [Q.DoRoomEvent(drained)]
    case ControlEvent(handled) => [Q.DoRoomEvent(handled)]
    case Verdict(scan) =>
      if !sys.queue.w.pc.Checking? then []
      else
        var c := sys.queue.w.pc.candidate;
        [Q.DoVerdict(c.First? && FindsRoom(sys, scan, c.msg.payload))]
    case _ => []
  }

  /** The pool machine's part. */
  function PoolPart(sys: System, step: Step): seq<PoolRuns.Step> {
    match step
    case Subscriber(p) => if PoolSignals.SubscriberStep(p) then [p] else []
    case Control(p) => if sys.control && ControlStep(p) then [p] else []
    case Attempt(scan, _) =>
      if sys.queue.w.pc.Attempting? && FindsRoom(sys, scan, sys.queue.w.pc.view.payload)
      then [PoolRuns.DoPublish(sys.queue.w.pc.view.payload)] else []
    case _ => []
  }

  lemma PartsOfStep(sys: System, step: Step)
    requires Inv(sys)
    ensures Q.Inv(sys.queue) && Pool.Inv(sys.pool)
    ensures Next(sys, step).queue == QueueRuns.Run(sys.queue, QueuePart(sys, step))
    ensures Next(sys, step).pool == PoolRuns.Run(sys.pool, PoolPart(sys, step))
  {
    hide Pool.Inv, Q.Inv, WakeOk, SameLog, SeenOk, QueueRuns.Apply, PoolRuns.Apply, FindsRoom, QueueRuns.Run,
         PoolRuns.Run;
    QueueParts(sys.queue, QueuePart(sys, step));
    PoolParts(sys.pool, PoolPart(sys, step));
    match step
    case Worker(q) => if !Q.Enabled(sys.queue, q) { QueueStops.NotEnabled(sys.queue, q); }
    case SpaceEvent(drained) => DisabledEvent(sys.queue, drained);
    case ControlEvent(handled) => DisabledEvent(sys.queue, handled);
    case _ =>
  }

  lemma DisabledEvent(q: Q.Queue, handled: bool)
    requires Q.Inv(q)
    ensures !q.w.pc.Waiting? ==> QueueRuns.Apply(q, Q.DoRoomEvent(handled)) == q
  {
    hide Q.Inv;
  }

  lemma QueueParts(q: Q.Queue, steps: seq<Q.Step>)
    requires Q.Inv(q) && |steps| <= 1
    ensures QueueRuns.Run(q, steps) == if steps == [] then q else QueueRuns.Apply(q, steps[0])
  {
    hide Q.Inv, QueueRuns.Apply;
    if steps != [] {
      assert steps[1..] == [];
    }
  }

  lemma PoolParts(a: Pool.State, steps: seq<PoolRuns.Step>)
    requires Pool.Inv(a) && |steps| <= 1
    ensures PoolRuns.Run(a, steps) == if steps == [] then a else PoolRuns.Apply(a, steps[0])
  {
    hide Pool.Inv, PoolRuns.Apply;
    if steps != [] {
      assert steps[1..] == [];
    }
  }

  ghost function QueueRunOf(sys: System, steps: seq<Step>): seq<Q.Step>
    requires Inv(sys)
    decreases |steps|
  {
    hide Inv, Next;
    if steps == [] then [] else QueuePart(sys, steps[0]) + QueueRunOf(Next(sys, steps[0]), steps[1..])
  }

  ghost function PoolRunOf(sys: System, steps: seq<Step>): seq<PoolRuns.Step>
    requires Inv(sys)
    decreases |steps|
  {
    hide Inv, Next;
    if steps == [] then [] else PoolPart(sys, steps[0]) + PoolRunOf(Next(sys, steps[0]), steps[1..])
  }

  /** Every run of the whole system is a run of the queue and a run of the pool, each with every step of its own clients
      and subscribers, so what is proved of their runs holds in it. */
  lemma {:induction false} RunOfBoth(sys: System, steps: seq<Step>)
    requires Inv(sys)
    ensures Q.Inv(sys.queue) && Pool.Inv(sys.pool)
    ensures Run(sys, steps).queue == QueueRuns.Run(sys.queue, QueueRunOf(sys, steps))
    ensures Run(sys, steps).pool == PoolRuns.Run(sys.pool, PoolRunOf(sys, steps))
    decreases |steps|
  {
    hide Inv, Next, Q.Inv, Pool.Inv, QueueRuns.Run, PoolRuns.Run, QueuePart, PoolPart;
    QueueOf(sys);
    if steps == [] {
      QueueParts(sys.queue, []);
      PoolParts(sys.pool, []);
    } else {
      var next := Next(sys, steps[0]);
      PartsOfStep(sys, steps[0]);
      RunOfBoth(next, steps[1..]);
      QueueRuns.RunConcat(sys.queue, QueuePart(sys, steps[0]), QueueRunOf(next, steps[1..]));
      PoolRuns.RunConcat(sys.pool, PoolPart(sys, steps[0]), PoolRunOf(next, steps[1..]));
    }
  }
}

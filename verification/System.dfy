/** The publish queue on top of the chunk pool: the worker's attempts and rechecks are decided by the
    pool, and subscribers wake the worker through the space event. */
module PublisherSystem {
  import opened Layout
  import opened Bytes
  import Pool
  import PoolInvariant
  import PoolRuns
  import PoolSignals
  import PoolCounting
  import PublishQueue
  import QueueInvariant
  import QueueRuns

  /** `control`: the worker is in the middle of the broker's control messages. `seen` records what the pool was at each
      moment since the worker last did something other than look: what a scan under way may have loaded. */
  datatype System = System(pool: Pool.State, queue: PublishQueue.Queue, space: bool, control: bool,
                           seen: seq<Pool.State>)

  /** At which of these moments a scan loads each slot's read index and the end of the free list. */
  datatype Scan = Scan(times: seq<nat>, listed: nat)

  datatype Step =
    | Subscriber(p: PoolRuns.Step)
    | Client(payload: seq<Byte>, signalled: bool)
    | Stop(intent: PublishQueue.Intent)
    | Worker(q: PublishQueue.Step)            // steps the pool has no say in
    | Attempt(scan: Scan, signalled: bool)    // `signalled`: every reader's data event could be written
    | SpaceEvent(drained: bool)
    | ControlEvent(handled: bool)
    | Control(p: PoolRuns.Step)               // a join, or a step of a reap
    | EndControl
    | Verdict(scan: Scan)

  predicate WorkerOwn(q: PublishQueue.Step) {
    !q.DoClientPublish? && !q.DoRequestStop? && !q.DoAttempt? && !q.DoRoomEvent? && !q.DoVerdict?
  }

  predicate ControlStep(p: PoolRuns.Step) {
    || p.DoJoin? || p.DoBeginReap? || p.DoReapClear? || p.DoReapUnmark? || p.DoReapLink? || p.DoReapReturn?
    || p.DoEndReap?
  }

  predicate HasRoom(pool: Pool.State, payload: seq<Byte>)
    requires Pool.Shape(pool)
  {
    |payload| <= MAX_PAYLOAD && Pool.CanPublish(pool, Pool.PayloadClass(payload))
  }

  function Moment(sys: System, t: nat): Pool.State {
    if t < |sys.seen| then sys.seen[t] else sys.pool
  }

  /** The pool when the scan loads slot `s`'s index. */
  function LoadedAt(sys: System, scan: Scan, s: nat): Pool.State {
    if s < |scan.times| then Moment(sys, scan.times[s]) else sys.pool
  }

  predicate Tracked(pool: Pool.State, s: nat) {
    s < |pool.slots| && pool.slots[s].Used?
  }

  /** What a scan concludes from its loads. They are not of one moment: subscribers go on while it runs. */
  predicate FindsRoom(sys: System, scan: Scan, payload: seq<Byte>) {
    && |payload| <= MAX_PAYLOAD
    && (exists s: nat :: s < SLOTS && Tracked(LoadedAt(sys, scan, s), s))
    && (forall s: nat | s < SLOTS && Tracked(LoadedAt(sys, scan, s), s) ::
      PoolSignals.LeavesRoom(LoadedAt(sys, scan, s), s))
    && PoolSignals.ListsTwo(Moment(sys, scan.listed), Pool.PayloadClass(payload))
  }

  /** The attempt enters the ring exactly when its scan found room. */
  function AttemptOutcome(found: bool, signalled: bool): PublishQueue.Outcome {
    if !found then PublishQueue.Blocked else if signalled then PublishQueue.Succeeded else PublishQueue.FailedAfter
  }

  ghost function Apply(sys: System, step: Step): System
    requires Pool.Inv(sys.pool) && PublishQueue.Inv(sys.queue)
  {
    hide Pool.Inv, PublishQueue.Inv;
    PoolShape(sys.pool);
    match step
    case Subscriber(p) =>
      if !PoolSignals.SubscriberStep(p) then sys
      else sys.(pool := PoolRuns.Apply(sys.pool, p),
                space := sys.space || (p.DoSignal? && PoolRuns.Enabled(sys.pool, p)),
                seen := sys.seen + [sys.pool])
    case Client(payload, signalled) =>
      sys.(queue := QueueRuns.Apply(sys.queue, PublishQueue.DoClientPublish(payload, signalled)))
    case Stop(intent) => sys.(queue := QueueRuns.Apply(sys.queue, PublishQueue.DoRequestStop(intent)))
    case Worker(q) =>
      if sys.control || !WorkerOwn(q) || !PublishQueue.Enabled(sys.queue, q) then sys
      else sys.(queue := QueueRuns.Apply(sys.queue, q), seen := if q.DoLook? then sys.seen else [])
    case Attempt(scan, signalled) =>
      if !sys.queue.w.pc.Attempting? then sys
      else
        var payload := sys.queue.w.pc.view.payload;
        var found := FindsRoom(sys, scan, payload);
        sys.(queue := QueueRuns.Apply(sys.queue, PublishQueue.DoAttempt(AttemptOutcome(found, signalled))),
             pool := if found then PoolRuns.Apply(sys.pool, PoolRuns.DoPublish(payload)) else sys.pool,
             seen := [])
    case SpaceEvent(drained) =>
      if !sys.queue.w.pc.Waiting? then sys
      else sys.(queue := QueueRuns.Apply(sys.queue, PublishQueue.DoRoomEvent(drained)), space := sys.space && !drained,
                seen := [])
    case ControlEvent(handled) =>
      if !sys.queue.w.pc.Waiting? then sys
      else sys.(queue := QueueRuns.Apply(sys.queue, PublishQueue.DoRoomEvent(handled)), control := handled, seen := [])
    case Control(p) =>
      if sys.control && ControlStep(p) then sys.(pool := PoolRuns.Apply(sys.pool, p), seen := []) else sys
    case EndControl => if sys.control && sys.pool.pub.Ready? then sys.(control := false, seen := []) else sys
    case Verdict(scan) =>
      if !sys.queue.w.pc.Checking? then sys
      else
        var c := sys.queue.w.pc.candidate;
        var found := c.First? && FindsRoom(sys, scan, c.msg.payload);
        sys.(queue := QueueRuns.Apply(sys.queue, PublishQueue.DoVerdict(found)), seen := [])
  }

  lemma PoolShape(pool: Pool.State)
    requires Pool.Inv(pool)
    ensures Pool.Shape(pool)
  {
  }

  // ---------- Invariant ----------

  /** A space event is pending or due, or there is no room for `payload`. */
  ghost predicate Covered(pool: Pool.State, space: bool, payload: seq<Byte>)
    requires Pool.Shape(pool)
  {
    space || PoolSignals.SignalDue(pool) || !HasRoom(pool, payload)
  }

  predicate Resting(pc: PublishQueue.Pc) {
    || pc.Waiting? || pc == PublishQueue.Stopping(PublishQueue.Clean)
    || pc == PublishQueue.Inactive(PublishQueue.Clean) || pc == PublishQueue.Exited(PublishQueue.Clean)
  }

  /** What a worker in each position relies on to be woken for the message first in line. */
  ghost predicate WakeOk(pool: Pool.State, space: bool, w: PublishQueue.Worker, fly: PublishQueue.Flight,
                         line: seq<PublishQueue.Message>)
    requires Pool.Shape(pool)
  {
    && (Resting(w.pc) && line != [] ==> w.work || Covered(pool, space, line[0].payload))
    && (Resting(w.pc) || w.pc.WorkDrained? ==>
      (!w.ready && fly.Flight? && fly.blocked ==> Covered(pool, space, fly.msg.payload)))
    && (w.pc.Attempted? && !w.pc.succeeded ==> Covered(pool, space, w.pc.view.payload))
    && (w.pc.Rescheduling? || w.pc.Resuming? ==> w.ready)
    && (w.pc.Checking? ==>
      && (w.work || (if line == [] then w.pc.candidate.Nobody? else w.pc.candidate == PublishQueue.First(line[0])))
      && (!w.ready && fly.Flight? && fly.blocked ==> w.pc.candidate == PublishQueue.First(fly.msg)))
  }

  /** What subscribers change between two moments only makes room, and leaves the ring alone. */
  ghost predicate Earlier(before: Pool.State, now: Pool.State)
    requires Pool.Shape(now)
  {
    && Pool.Shape(before) && |before.log| == |now.log|
    && (forall s: nat | s < SLOTS ::
      && before.slots[s].Used? == now.slots[s].Used?
      && (now.slots[s].Used? ==> before.slots[s].next <= now.slots[s].next))
    && forall k: nat | k < CLASSES :: |before.free[k]| <= |now.free[k]|
  }

  /** Whatever found no room at that moment is covered now. */
  ghost predicate GoodMoment(before: Pool.State, pool: Pool.State, space: bool)
    requires Pool.Shape(pool)
  {
    Earlier(before, pool) && forall payload | !HasRoom(before, payload) :: Covered(pool, space, payload)
  }

  ghost predicate SeenOk(seen: seq<Pool.State>, pool: Pool.State, space: bool)
    requires Pool.Shape(pool)
  {
    forall i: nat | i < |seen| :: GoodMoment(seen[i], pool, space)
  }

  /** The ring's log is what the queue published. */
  ghost predicate SameLog(log: seq<Pool.Entry>, published: seq<PublishQueue.Message>) {
    |log| == |published| && forall i: nat | i < |log| :: log[i].payload == published[i].payload
  }

  ghost predicate Inv(sys: System) {
    && Pool.Inv(sys.pool) && Pool.Shape(sys.pool) && PublishQueue.Inv(sys.queue)
    && SameLog(sys.pool.log, sys.queue.published) && SeenOk(sys.seen, sys.pool, sys.space)
    && (sys.control ==> sys.queue.w.pc.Looking?) && (!sys.control ==> sys.pool.pub.Ready?)
    && WakeOk(sys.pool, sys.space, sys.queue.w, sys.queue.fly, QueueInvariant.Line(sys.queue))
  }

  // ---------- Steps of the subscribers ----------

  lemma CoveredStays(pool: Pool.State, space: bool, p: PoolRuns.Step, payload: seq<Byte>)
    requires Pool.Inv(pool) && Pool.Shape(pool) && PoolSignals.SubscriberStep(p) && Covered(pool, space, payload)
    ensures var pool' := PoolRuns.Apply(pool, p);
            && Pool.Shape(pool')
            && Covered(pool', space || (p.DoSignal? && PoolRuns.Enabled(pool, p)), payload)
  {
    hide Pool.Inv, PoolSignals.SignalDue, Pool.CanPublish, PoolRuns.Apply;
    PoolShape(PoolRuns.Apply(pool, p));
    if PoolSignals.SignalDue(pool) {
      if !p.DoSignal? {
        PoolSignals.DueSignalStaysDue(pool, p);
      } else if !PoolRuns.Enabled(pool, p) {
        Disabled(pool, p);
      }
    } else if !HasRoom(pool, payload) && HasRoom(PoolRuns.Apply(pool, p), payload) {
      PoolSignals.UnblockingLeavesASignalDue(pool, p, Pool.PayloadClass(payload));
    }
  }

  lemma EarlierStays(before: Pool.State, pool: Pool.State, p: PoolRuns.Step)
    requires Pool.Inv(pool) && Pool.Shape(pool) && PoolSignals.SubscriberStep(p) && Earlier(before, pool)
    ensures Pool.Shape(PoolRuns.Apply(pool, p)) && Earlier(before, PoolRuns.Apply(pool, p))
  {
    hide Pool.Inv, PoolRuns.Apply;
    var pool' := PoolRuns.Apply(pool, p);
    PoolShape(pool');
    forall s: nat, k: nat | s < SLOTS && k < CLASSES
      ensures before.slots[s].Used? == pool'.slots[s].Used?
      ensures pool'.slots[s].Used? ==> before.slots[s].next <= pool'.slots[s].next
      ensures |before.log| == |pool'.log| && |before.free[k]| <= |pool'.free[k]|
    {
      PoolSignals.StepKeepsRoom(pool, p, s, k);
    }
    PoolSignals.StepKeepsRoom(pool, p, 0, 0);
  }

  /** A scan under way may go on after a subscriber's step. */
  lemma SeenStays(seen: seq<Pool.State>, pool: Pool.State, space: bool, p: PoolRuns.Step)
    requires Pool.Inv(pool) && Pool.Shape(pool) && PoolSignals.SubscriberStep(p) && SeenOk(seen, pool, space)
    ensures var pool' := PoolRuns.Apply(pool, p);
            && Pool.Shape(pool')
            && SeenOk(seen + [pool], pool', space || (p.DoSignal? && PoolRuns.Enabled(pool, p)))
  {
    hide Pool.Inv, PoolRuns.Apply, Covered, HasRoom;
    var pool', space' := PoolRuns.Apply(pool, p), space || (p.DoSignal? && PoolRuns.Enabled(pool, p));
    PoolShape(pool');
    GoodNow(pool, space);
    forall i: nat | i < |seen + [pool]|
      ensures GoodMoment((seen + [pool])[i], pool', space')
    {
      var before := (seen + [pool])[i];
      assert GoodMoment(before, pool, space);
      EarlierStays(before, pool, p);
      forall payload | !HasRoom(before, payload)
        ensures Covered(pool', space', payload)
      {
        CoveredStays(pool, space, p, payload);
      }
    }
  }

  lemma GoodNow(pool: Pool.State, space: bool)
    requires Pool.Shape(pool)
    ensures GoodMoment(pool, pool, space)
  {
  }

  lemma Disabled(pool: Pool.State, p: PoolRuns.Step)
    requires Pool.Inv(pool) && Pool.Shape(pool) && !PoolRuns.Enabled(pool, p)
    ensures PoolRuns.Apply(pool, p) == pool
  {
    hide Pool.Inv;
  }

  lemma SubscriberLeaves(pool: Pool.State, p: PoolRuns.Step)
    requires Pool.Inv(pool) && (PoolSignals.SubscriberStep(p) || ControlStep(p))
    ensures var pool' := PoolRuns.Apply(pool, p);
            pool'.log == pool.log && (PoolSignals.SubscriberStep(p) ==> pool'.pub == pool.pub)
  {
    hide Pool.HoldersOk, Pool.FreshOk, Pool.LooseOk, Pool.InboxOk, Pool.PooledOk;
  }

  lemma SubscriberKeeps(sys: System, p: PoolRuns.Step)
    requires Inv(sys)
    ensures Inv(Apply(sys, Subscriber(p)))
  {
    hide Pool.Inv, PublishQueue.Inv, Covered, SameLog, PoolRuns.Apply, QueueInvariant.Line, PoolRuns.Enabled, SeenOk;
    if PoolSignals.SubscriberStep(p) {
      SubscriberLeaves(sys.pool, p);
      PoolShape(PoolRuns.Apply(sys.pool, p));
      SeenStays(sys.seen, sys.pool, sys.space, p);
      var pool', space' := PoolRuns.Apply(sys.pool, p), sys.space || (p.DoSignal? && PoolRuns.Enabled(sys.pool, p));
      forall payload | Covered(sys.pool, sys.space, payload)
        ensures Covered(pool', space', payload)
      {
        CoveredStays(sys.pool, sys.space, p, payload);
      }
    }
  }

  // ---------- Steps of the clients ----------

  lemma ClientEffect(q: PublishQueue.Queue, payload: seq<Byte>, signalled: bool)
    requires PublishQueue.Inv(q)
    ensures var r := QueueRuns.Apply(q, PublishQueue.DoClientPublish(payload, signalled));
            && r.published == q.published && r.w == q.w.(work := r.w.work) && (r.fly == q.fly || r.fly.NoFlight?)
            && (r.w.work || (QueueInvariant.Line(r) == QueueInvariant.Line(q) && r.w.work == q.w.work))
  {
    hide PublishQueue.Inv, PublishQueue.Outstanding;
    QueueInvariant.ClientPublishKeeps(q, payload, signalled);
    if PublishQueue.Full(q) && !PublishQueue.Refuses(q, payload) {
      QueueInvariant.RefusalRestores(q);
    }
  }

  lemma ClientKeeps(sys: System, payload: seq<Byte>, signalled: bool)
    requires Inv(sys)
    ensures Inv(Apply(sys, Client(payload, signalled)))
  {
    hide Pool.Inv, PublishQueue.Inv, Covered, SameLog, QueueRuns.Apply, QueueInvariant.Line, SeenOk;
    ClientEffect(sys.queue, payload, signalled);
  }

  lemma StopKeeps(sys: System, intent: PublishQueue.Intent)
    requires Inv(sys)
    ensures Inv(Apply(sys, Stop(intent)))
  {
    hide Pool.Inv, PublishQueue.Inv, Covered, SameLog, SeenOk;
  }

  // ---------- Steps of the worker ----------

  lemma FlightLeads(q: PublishQueue.Queue)
    requires q.fly.Flight?
    ensures QueueInvariant.Line(q) != [] && QueueInvariant.Line(q)[0] == q.fly.msg
  {
  }

  lemma NextLeads(q: PublishQueue.Queue)
    ensures var line := QueueInvariant.Line(q);
            PublishQueue.NextInLine(q) == if line == [] then PublishQueue.Nobody else PublishQueue.First(line[0])
  {
  }

  /** Where the head of the publish loop leaves the worker. */
  lemma LoopHeadEffect(q: PublishQueue.Queue, n: nat)
    requires q.w.ready
    ensures var r := PublishQueue.LoopHead(q, n);
            && r.published == q.published && r.w == q.w.(pc := r.w.pc)
            && (r.w.pc.Attempting? || r.w.pc.Rescheduling? || (r.w.pc.Waiting? && QueueInvariant.Line(r) == []))
  {
  }

  lemma LockKeeps(sys: System)
    requires Inv(sys) && !sys.control && sys.queue.w.pc.WorkDrained?
    ensures Inv(Apply(sys, Worker(PublishQueue.DoLockAndLook)))
  {
    hide Pool.Inv, PublishQueue.Inv, Pool.Shape, Covered, SameLog, QueueInvariant.Line, PublishQueue.LoopHead;
    var a := sys.queue;
    if !a.w.ready && PublishQueue.TakesFlight(a) {
      FlightLeads(a);
      FlightLeads(QueueRuns.Apply(a, PublishQueue.DoLockAndLook));
    } else {
      LoopHeadEffect(a.(w := a.w.(ready := true)), 0);
    }
  }

  lemma RelockKeeps(sys: System)
    requires Inv(sys) && !sys.control && sys.queue.w.pc.Attempted?
    ensures Inv(Apply(sys, Worker(PublishQueue.DoRelock)))
  {
    hide Pool.Inv, PublishQueue.Inv, Pool.Shape, Covered, SameLog, QueueInvariant.Line, PublishQueue.LoopHead;
    var a := sys.queue;
    QueueInvariant.RelockKeeps(a);
    QueueRuns.FlightIsView(a);
    if a.w.pc.succeeded {
      LoopHeadEffect(QueueInvariant.LandedState(a), a.w.pc.n + 1);
    } else {
      FlightLeads(QueueRuns.Apply(a, PublishQueue.DoRelock));
    }
  }

  lemma FinishEffect(q: PublishQueue.Queue)
    requires PublishQueue.Inv(q) && q.w.pc.Inactive?
    ensures var r := QueueRuns.Apply(q, PublishQueue.DoFinish);
            r.published == q.published && r.fly == q.fly && r.pending == q.pending
            && r.w == q.w.(pc := PublishQueue.Exited(q.w.pc.exit))
  {
    hide PublishQueue.Inv, PublishQueue.SettleAll;
    QueueInvariant.FinishKeeps(q);
  }

  /** Steps that touch no message keep what the worker relies on. */
  lemma PlainWakes(pool: Pool.State, space: bool, q: PublishQueue.Queue, step: PublishQueue.Step)
    requires Pool.Shape(pool) && PublishQueue.Enabled(q, step) && WorkerOwn(step) && QueueRuns.IsPlain(step)
    requires WakeOk(pool, space, q.w, q.fly, QueueInvariant.Line(q))
    ensures WakeOk(pool, space, QueueRuns.Plain(q, step), q.fly, QueueInvariant.Line(q))
  {
    hide Covered, PublishQueue.Outstanding, Pool.Shape;
    NextLeads(q);
    if q.fly.Flight? {
      FlightLeads(q);
    }
  }

  lemma WorkerKeeps(sys: System, q: PublishQueue.Step)
    requires Inv(sys)
    ensures Inv(Apply(sys, Worker(q)))
  {
    hide Pool.Inv, PublishQueue.Inv, Pool.Shape, Covered, SameLog, PublishQueue.Outstanding, PublishQueue.LockAndLook,
         PublishQueue.Relock, PublishQueue.Finish, WakeOk, QueueRuns.Plain;
    if !sys.control && WorkerOwn(q) && PublishQueue.Enabled(sys.queue, q) {
      if q.DoLockAndLook? {
        LockKeeps(sys);
      } else if q.DoRelock? {
        RelockKeeps(sys);
      } else if q.DoFinish? {
        FinishStep(sys);
      } else {
        PlainWakes(sys.pool, sys.space, sys.queue, q);
      }
    }
  }

  lemma FinishStep(sys: System)
    requires Inv(sys) && !sys.control && sys.queue.w.pc.Inactive?
    ensures Inv(Apply(sys, Worker(PublishQueue.DoFinish)))
  {
    hide Pool.Inv, PublishQueue.Inv, Pool.Shape, Covered, SameLog, PublishQueue.Outstanding, PublishQueue.Finish;
    FinishEffect(sys.queue);
  }

  lemma AttemptEffect(q: PublishQueue.Queue, outcome: PublishQueue.Outcome)
    requires PublishQueue.Inv(q) && q.w.pc.Attempting?
    ensures var r := QueueRuns.Apply(q, PublishQueue.DoAttempt(outcome));
            && r.fly == q.fly && r.pending == q.pending
            && r.published == (if outcome.Succeeded? || outcome.FailedAfter? then q.published + [q.w.pc.view]
                               else q.published)
            && r.w.pc == (if outcome.Succeeded? || outcome.Blocked?
                          then PublishQueue.Attempted(q.w.pc.n, q.w.pc.view, outcome.Succeeded?)
                          else PublishQueue.Stopping(PublishQueue.Failed))
  {
    hide PublishQueue.Inv;
  }

  lemma PublishEffect(pool: Pool.State, payload: seq<Byte>)
    requires Pool.Inv(pool) && Pool.Shape(pool) && pool.pub.Ready?
    ensures var pool' := PoolRuns.Apply(pool, PoolRuns.DoPublish(payload));
            && Pool.Shape(pool') && pool'.pub.Ready?
            && if HasRoom(pool, payload)
               then |pool'.log| == |pool.log| + 1 && pool'.log[..|pool.log|] == pool.log
                 && pool'.log[|pool.log|].payload == payload
               else pool' == pool
  {
    hide Pool.Inv, Pool.CanPublish;
    PoolShape(PoolRuns.Apply(pool, PoolRuns.DoPublish(payload)));
    if HasRoom(pool, payload) {
      PoolPublish(pool, payload);
    }
  }

  lemma PoolPublish(pool: Pool.State, payload: seq<Byte>)
    requires Pool.Inv(pool) && pool.pub.Ready? && |payload| <= MAX_PAYLOAD
      && Pool.CanPublish(pool, Pool.PayloadClass(payload))
    ensures var pool' := PoolRuns.Apply(pool, PoolRuns.DoPublish(payload));
            && pool'.log == pool.log + [pool'.log[|pool.log|]] && pool'.log[|pool.log|].payload == payload
            && pool'.pub == pool.pub
  {
    hide Pool.LogOk, Pool.OwnerOk, Pool.HoldersOk, Pool.FreshOk, Pool.LooseOk, Pool.InboxOk, Pool.PooledOk, Pool.HeldOk,
         Pool.SlotsOk, Pool.FreeOk;
  }

  // ---------- What a scan tells ----------

  /** Every moment a scan may load from is a good one. */
  lemma MomentIsGood(sys: System, t: nat)
    requires Pool.Shape(sys.pool) && SeenOk(sys.seen, sys.pool, sys.space)
    ensures GoodMoment(Moment(sys, t), sys.pool, sys.space)
  {
    hide Covered, HasRoom, Earlier;
    GoodNow(sys.pool, sys.space);
  }

  lemma LoadedIsGood(sys: System, scan: Scan, s: nat)
    requires Pool.Shape(sys.pool) && SeenOk(sys.seen, sys.pool, sys.space)
    ensures GoodMoment(LoadedAt(sys, scan, s), sys.pool, sys.space)
  {
    hide Covered, HasRoom, Earlier, SeenOk;
    GoodNow(sys.pool, sys.space);
    if s < |scan.times| {
      MomentIsGood(sys, scan.times[s]);
    }
  }

  /** A scan that finds no room saw a moment at which there was none. */
  lemma BlindMoment(sys: System, scan: Scan, payload: seq<Byte>) returns (before: Pool.State)
    requires Pool.Shape(sys.pool) && SeenOk(sys.seen, sys.pool, sys.space) && !FindsRoom(sys, scan, payload)
    ensures GoodMoment(before, sys.pool, sys.space) && !HasRoom(before, payload)
  {
    hide Covered, LoadedAt, Moment, SeenOk, Pool.PayloadClass;
    before := sys.pool;
    GoodNow(sys.pool, sys.space);
    if |payload| <= MAX_PAYLOAD {
      if s: nat :| s < SLOTS && Tracked(LoadedAt(sys, scan, s), s)
                   && !PoolSignals.LeavesRoom(LoadedAt(sys, scan, s), s) {
        before := LoadedAt(sys, scan, s);
        LoadedIsGood(sys, scan, s);
        assert Pool.RingBlocked(before);
      } else if s: nat :| s < SLOTS && Tracked(LoadedAt(sys, scan, s), s) {
        before := Moment(sys, scan.listed);
        MomentIsGood(sys, scan.listed);
      } else {
        forall s: nat | s < SLOTS
          ensures sys.pool.slots[s].Vacant?
        {
          LoadedIsGood(sys, scan, s);
          assert !Tracked(LoadedAt(sys, scan, s), s);
        }
        assert Pool.RingBlocked(before);
      }
    }
  }

  /** What a scan concludes, however long it takes and whatever subscribers do meanwhile: if it found room, there is
      room; if it did not, there is none, or a space event is pending or due. */
  lemma ScanTells(sys: System, scan: Scan, payload: seq<Byte>)
    requires Pool.Shape(sys.pool) && SeenOk(sys.seen, sys.pool, sys.space)
    ensures if FindsRoom(sys, scan, payload) then HasRoom(sys.pool, payload)
            else Covered(sys.pool, sys.space, payload)
  {
    hide Covered;
    if FindsRoom(sys, scan, payload) {
      FoundStays(sys, scan, payload);
    } else {
      hide FindsRoom, HasRoom, SeenOk;
      var before := BlindMoment(sys, scan, payload);
    }
  }

  lemma FoundStays(sys: System, scan: Scan, payload: seq<Byte>)
    requires Pool.Shape(sys.pool) && SeenOk(sys.seen, sys.pool, sys.space) && FindsRoom(sys, scan, payload)
    ensures HasRoom(sys.pool, payload)
  {
    hide Covered, Moment, LoadedAt, Pool.PayloadClass, SeenOk;
    var s0: nat :| s0 < SLOTS && Tracked(LoadedAt(sys, scan, s0), s0);
    LoadedIsGood(sys, scan, s0);
    MomentIsGood(sys, scan.listed);
    forall s: nat | s < SLOTS && sys.pool.slots[s].Used?
      ensures sys.pool.slots[s].next + RING > |sys.pool.log| + 1
    {
      LoadedIsGood(sys, scan, s);
    }
  }

  lemma AttemptKeeps(sys: System, scan: Scan, signalled: bool)
    requires Inv(sys)
    ensures Inv(Apply(sys, Attempt(scan, signalled)))
  {
    hide Pool.Inv, PublishQueue.Inv, PoolSignals.SignalDue, Pool.CanPublish, PoolRuns.Apply, QueueRuns.Apply,
         QueueInvariant.Line, FindsRoom, HasRoom, Covered;
    if sys.queue.w.pc.Attempting? {
      var payload := sys.queue.w.pc.view.payload;
      ScanTells(sys, scan, payload);
      AttemptEffect(sys.queue, AttemptOutcome(FindsRoom(sys, scan, payload), signalled));
      PublishEffect(sys.pool, payload);
    }
  }

  lemma VerdictKeeps(sys: System, scan: Scan)
    requires Inv(sys)
    ensures Inv(Apply(sys, Verdict(scan)))
  {
    hide Pool.Inv, PublishQueue.Inv, Covered, FindsRoom, HasRoom, SameLog, PublishQueue.Outstanding, Pool.Shape;
    if sys.queue.fly.Flight? {
      FlightLeads(sys.queue);
    }
    if sys.queue.w.pc.Checking? && sys.queue.w.pc.candidate.First? {
      ScanTells(sys, scan, sys.queue.w.pc.candidate.msg.payload);
    }
  }

  lemma EventKeeps(sys: System, step: Step)
    requires Inv(sys) && (step.SpaceEvent? || step.ControlEvent?)
    ensures Inv(Apply(sys, step))
  {
    hide Pool.Inv, PublishQueue.Inv, Covered, SameLog, PublishQueue.Outstanding, Pool.Shape;
  }

  lemma ControlKeeps(sys: System, step: Step)
    requires Inv(sys) && (step.Control? || step.EndControl?)
    ensures Inv(Apply(sys, step))
  {
    hide Pool.Inv, PublishQueue.Inv, Covered, SameLog, PublishQueue.Outstanding, PoolRuns.Apply, Pool.Shape;
    if step.Control? && ControlStep(step.p) {
      SubscriberLeaves(sys.pool, step.p);
      PoolShape(PoolRuns.Apply(sys.pool, step.p));
    }
  }

  // ---------- Runs ----------

  lemma ApplyKeeps(sys: System, step: Step)
    requires Inv(sys)
    ensures Inv(Apply(sys, step))
  {
    hide Inv, Apply;
    match step
    case Subscriber(p) => SubscriberKeeps(sys, p);
    case Client(payload, signalled) => ClientKeeps(sys, payload, signalled);
    case Stop(intent) => StopKeeps(sys, intent);
    case Worker(q) => WorkerKeeps(sys, q);
    case Attempt(scan, signalled) => AttemptKeeps(sys, scan, signalled);
    case SpaceEvent(_) => EventKeeps(sys, step);
    case ControlEvent(_) => EventKeeps(sys, step);
    case Control(_) => ControlKeeps(sys, step);
    case EndControl => ControlKeeps(sys, step);
    case Verdict(scan) => VerdictKeeps(sys, scan);
  }

  ghost function Next(sys: System, step: Step): (r: System)
    requires Inv(sys)
    ensures Inv(r)
  {
    ApplyKeeps(sys, step);
    Apply(sys, step)
  }

  ghost function Run(sys: System, steps: seq<Step>): (r: System)
    requires Inv(sys)
    ensures Inv(r)
    decreases |steps|
  {
    hide Inv, Next;
    if steps == [] then sys else Run(Next(sys, steps[0]), steps[1..])
  }

  /** A worker starts on a fresh queue; the subscribers the broker announced are tracked already. */
  ghost predicate IsStart(sys: System) {
    && Pool.Inv(sys.pool) && sys.pool.pub.Ready? && sys.pool.log == []
    && sys.queue == PublishQueue.Init() && !sys.control && sys.seen == []
  }

  ghost function FromStart(start: System, steps: seq<Step>): (sys: System)
    requires IsStart(start)
    ensures Inv(sys)
  {
    StartOk(start);
    Run(start, steps)
  }

  lemma StartOk(start: System)
    requires IsStart(start)
    ensures Inv(start)
  {
    hide Pool.Inv, Covered;
    PoolShape(start.pool);
    PublishQueue.InitOk();
  }

  /** No lost space wake-up: whenever the worker sleeps on a message the pool has room for, an event is pending - work
      or space -, or a live subscriber has a signal to give or a message to read, or a dead one has chunks to be
      reaped, and then RecheckFollows. DueOrGiven says that without a reap a space signal follows. Attempts and checks
      may scan as slowly as they like. */
  lemma NoLostSpaceWakeUp(start: System, steps: seq<Step>)
    requires IsStart(start)
    ensures var sys := FromStart(start, steps);
            var line := QueueInvariant.Line(sys.queue);
            && Pool.Shape(sys.pool)
            && (sys.queue.w.pc.Waiting? && line != [] && HasRoom(sys.pool, line[0].payload) ==>
                sys.queue.w.work || sys.space || PoolSignals.LiveDue(sys.pool) || PoolSignals.ReapDue(sys.pool))
  {
    PoolSignals.DueFromSomeone(FromStart(start, steps).pool);
    hide FromStart, PoolSignals.LiveDue, PoolSignals.ReapDue, Pool.Inv, PublishQueue.Inv, Pool.CanPublish,
         PoolSignals.SignalDue, QueueInvariant.Line;
  }

  /** Whatever a control message changes in the pool, the worker takes a verdict before it waits again or does anything
      else, and everything its scan loads is later than the change. */
  lemma RecheckFollows(sys: System, p: PoolRuns.Step, steps: seq<Step>)
    requires Inv(sys) && Apply(sys, Control(p)).pool != sys.pool
    ensures Inv(Apply(sys, Control(p)))
    ensures var after := Apply(sys, Control(p));
            || Run(after, steps).queue.w.pc.Looking? || Run(after, steps).queue.w.pc.Checking?
            || exists n: nat :: n < |steps| && VerdictAt(after, steps, n)
  {
    ControlKeeps(sys, Control(p));
    ControlLooks(sys, p);
    hide Inv, Apply, VerdictAt, Run;
    LooksUntilVerdict(Apply(sys, Control(p)), steps);
  }

  lemma ControlLooks(sys: System, p: PoolRuns.Step)
    requires Inv(sys) && Apply(sys, Control(p)).pool != sys.pool
    ensures Apply(sys, Control(p)).queue.w.pc.Looking? && Apply(sys, Control(p)).seen == []
  {
    hide Pool.Inv, PublishQueue.Inv, WakeOk, SameLog, SeenOk, PoolRuns.Apply;
  }

  /** Step `n` of the run is the verdict on a candidate, and what its scan can load are moments of this run. */
  ghost predicate VerdictAt(sys: System, steps: seq<Step>, n: nat)
    requires Inv(sys) && n < |steps|
  {
    var at := Run(sys, steps[..n]);
    && steps[n].Verdict? && at.queue.w.pc.Checking?
    && forall t: nat :: IsPast(sys, steps, n, t)
  }

  /** What a scan can load as moment `t` was the pool at some point of the run. */
  ghost predicate IsPast(sys: System, steps: seq<Step>, n: nat, t: nat)
    requires Inv(sys) && n <= |steps|
  {
    exists i: nat :: i <= n && Moment(Run(sys, steps[..n]), t) == Run(sys, steps[..i]).pool
  }

  lemma {:induction false} LooksUntilVerdict(sys: System, steps: seq<Step>)
    requires Inv(sys) && (sys.queue.w.pc.Looking? || sys.queue.w.pc.Checking?) && sys.seen == []
    ensures || Run(sys, steps).queue.w.pc.Looking? || Run(sys, steps).queue.w.pc.Checking?
            || exists n: nat :: n < |steps| && VerdictAt(sys, steps, n)
    decreases |steps|
  {
    hide Inv, Next, VerdictAt;
    if steps != [] {
      var n := |steps| - 1;
      LooksUntilVerdict(sys, steps[..n]);
      RunSnoc(sys, steps);
      if m: nat :| m < n && VerdictAt(sys, steps[..n], m) {
        SameVerdict(sys, steps, m);
      } else {
        StillLooks(Run(sys, steps[..n]), steps[n]);
        if steps[n].Verdict? && Run(sys, steps[..n]).queue.w.pc.Checking? {
          VerdictHere(sys, steps, n);
        }
      }
    }
  }

  lemma SameVerdict(sys: System, steps: seq<Step>, m: nat)
    requires Inv(sys) && m < |steps| - 1 && VerdictAt(sys, steps[..|steps| - 1], m)
    ensures VerdictAt(sys, steps, m)
  {
    hide Inv, Run;
    var short := steps[..|steps| - 1];
    assert short[..m] == steps[..m];
    forall t: nat
      ensures IsPast(sys, steps, m, t)
    {
      assert IsPast(sys, short, m, t);
      var i: nat :| i <= m && Moment(Run(sys, short[..m]), t) == Run(sys, short[..i]).pool;
      assert short[..i] == steps[..i];
    }
  }

  lemma VerdictHere(sys: System, steps: seq<Step>, n: nat)
    requires Inv(sys) && n < |steps| && steps[n].Verdict? && Run(sys, steps[..n]).queue.w.pc.Checking?
    requires sys.seen == []
    ensures VerdictAt(sys, steps, n)
  {
    hide Inv, Run, IsPast;
    forall t: nat
      ensures IsPast(sys, steps, n, t)
    {
      SeenIsPast(sys, steps, n, t);
    }
  }

  lemma {:induction false} RunSnoc(sys: System, steps: seq<Step>)
    requires Inv(sys) && steps != []
    ensures Run(sys, steps) == Next(Run(sys, steps[..|steps| - 1]), steps[|steps| - 1])
    decreases |steps|
  {
    hide Inv, Next;
    if |steps| == 1 {
      assert steps[1..] == [];
    } else {
      RunSnoc(Next(sys, steps[0]), steps[1..]);
      assert steps[1..][..|steps| - 2] == steps[..|steps| - 1][1..];
    }
  }

  /** A worker that looks does nothing but look until its verdict. */
  lemma StillLooks(sys: System, step: Step)
    requires Inv(sys) && (sys.queue.w.pc.Looking? || sys.queue.w.pc.Checking?)
    ensures var r := Next(sys, step).queue.w.pc;
            r.Looking? || r.Checking? || (step.Verdict? && sys.queue.w.pc.Checking?)
  {
    hide Pool.Inv, PublishQueue.Inv, WakeOk, SameLog, SeenOk, PoolRuns.Apply, PublishQueue.LockAndLook,
         PublishQueue.Relock, PublishQueue.Finish, PublishQueue.Attempt, FindsRoom;
    match step
    case Client(payload, signalled) => ClientEffect(sys.queue, payload, signalled);
    case _ =>
  }

  /** What is recorded as seen along a run are moments of the run. */
  lemma {:induction false} SeenIsPast(sys: System, steps: seq<Step>, n: nat, t: nat)
    requires Inv(sys) && sys.seen == [] && n <= |steps|
    ensures IsPast(sys, steps, n, t)
  {
    hide Inv, Next, Moment, Run;
    var end := Run(sys, steps[..n]);
    if t >= |end.seen| {
      NowIs(end, t);
    } else if n > 0 {
      assert steps[..n][..n - 1] == steps[..n - 1];
      RunSnoc(sys, steps[..n]);
      SeenBefore(Run(sys, steps[..n - 1]), steps[n - 1], t);
      SeenIsPast(sys, steps, n - 1, t);
    } else {
      RunNothing(sys, steps[..0]);
    }
  }

  lemma RunNothing(sys: System, none: seq<Step>)
    requires Inv(sys) && none == []
    ensures Run(sys, none) == sys
  {
    hide Inv;
  }

  lemma NowIs(sys: System, t: nat)
    requires t >= |sys.seen|
    ensures Moment(sys, t) == sys.pool
  {
  }

  lemma SeenBefore(sys: System, step: Step, t: nat)
    requires Inv(sys) && t < |Next(sys, step).seen|
    ensures Moment(Next(sys, step), t) == Moment(sys, t)
  {
    hide Pool.Inv, PublishQueue.Inv, WakeOk, SameLog, SeenOk, PoolRuns.Apply, QueueRuns.Apply, FindsRoom;
  }

  /** Nothing pending, nobody reading or dying, every message read. */
  ghost predicate Asleep(sys: System)
    requires Pool.Shape(sys.pool)
  {
    && sys.queue.w.pc.Waiting? && !sys.queue.w.work && !sys.space && PoolCounting.AtRest(sys.pool)
    && forall s: nat | s < SLOTS && sys.pool.slots[s].Used? :: sys.pool.slots[s].phase.Idle?
  }

  /** All but one of the class's chunks were lost, each with another subscriber. */
  ghost predicate ClassIsLost(pool: Pool.State, k: nat)
    requires Pool.Shape(pool) && k < CLASSES
  {
    |PoolCounting.LostOfClass(pool, k)| == ClassChunks(k) - 1 <= pool.deaths
  }

  /** When everything has come to rest with a reader attached, messages are outstanding only if all but one
      of the chunks of the next one's class went with dead subscribers. */
  lemma AsleepMeansDelivered(start: System, steps: seq<Step>, s: nat)
    requires IsStart(start) && Pool.Shape(FromStart(start, steps).pool) && Asleep(FromStart(start, steps))
    requires s < SLOTS && FromStart(start, steps).pool.slots[s].Used?
    ensures var sys := FromStart(start, steps);
            var line := QueueInvariant.Line(sys.queue);
            line != [] ==> |line[0].payload| <= MAX_PAYLOAD && ClassIsLost(sys.pool, Pool.PayloadClass(line[0].payload))
  {
    hide Run, FromStart, Pool.Inv, PublishQueue.Inv, Pool.CanPublish, PoolSignals.SignalDue, QueueInvariant.Line,
         PoolCounting.LostOfClass;
    var sys := FromStart(start, steps);
    var line := QueueInvariant.Line(sys.queue);
    if line != [] {
      LineFits(sys.queue);
      NoLostSpaceWakeUp(start, steps);
      PoolSignals.NothingDueAtRest(sys.pool);
      PoolSignals.DueFromSomeone(sys.pool);
      var k := Pool.PayloadClass(line[0].payload);
      PoolCounting.AtRestCanPublishIff(sys.pool, k, s);
      PoolCounting.DeathsBoundLosses(sys.pool, k);
      LostFitTheClass(sys.pool, k);
    }
  }

  lemma LineFits(q: PublishQueue.Queue)
    requires PublishQueue.Inv(q) && QueueInvariant.Line(q) != []
    ensures |QueueInvariant.Line(q)[0].payload| <= MAX_PAYLOAD
  {
    hide PublishQueue.Outstanding, PublishQueue.DoneOk, PublishQueue.RingOk;
  }

  /** A free list never runs dry, so a class never loses its last chunk. */
  lemma LostFitTheClass(pool: Pool.State, k: nat)
    requires Pool.Inv(pool) && Pool.Shape(pool) && k < CLASSES
    ensures |PoolCounting.LostOfClass(pool, k)| <= ClassChunks(k) - 1
  {
    PoolCounting.Conservation(pool, k);
    ListNotEmpty(pool, k);
    hide Pool.Inv;
    assert PoolCounting.LostOfClass(pool, k) <= PoolCounting.Stray(pool, k);
    LostAreStray(pool, k);
  }

  lemma ListNotEmpty(pool: Pool.State, k: nat)
    requires Pool.Inv(pool) && Pool.Shape(pool) && k < CLASSES
    ensures |pool.free[k]| >= 1
  {
    assert Pool.ListOk(k, pool.free[k]);
  }

  lemma LostAreStray(pool: Pool.State, k: nat)
    requires Pool.Shape(pool) && k < CLASSES
    ensures |PoolCounting.LostOfClass(pool, k)| <= |PoolCounting.Stray(pool, k)|
  {
    PoolInvariant.SubsetSize(PoolCounting.LostOfClass(pool, k), PoolCounting.Stray(pool, k));
  }

  /** No step of the system but the start of its reap takes a slot from its subscriber. */
  lemma ApplyKeepsStart(sys: System, s: nat, step: Step)
    requires Inv(sys) && s < SLOTS && Pool.Active(sys.pool.slots, sys.pool.pub, s)
    requires step != Control(PoolRuns.DoBeginReap(s))
    ensures var pool' := Next(sys, step).pool;
            Pool.Shape(pool') && Pool.Active(pool'.slots, pool'.pub, s)
              && pool'.slots[s].start == sys.pool.slots[s].start
  {
    hide Pool.Inv, PublishQueue.Inv, WakeOk, SameLog, SeenOk, PoolRuns.Apply, QueueRuns.Apply, Pool.CanPublish,
         FindsRoom;
    match step
    case Subscriber(p) =>
      if PoolSignals.SubscriberStep(p) {
        PoolRuns.ApplyKeepsStart(sys.pool, s, p);
      }
    case Control(p) =>
      if ControlStep(p) {
        PoolRuns.ApplyKeepsStart(sys.pool, s, p);
      }
    case Attempt(_, _) =>
      if sys.queue.w.pc.Attempting? {
        PoolRuns.ApplyKeepsStart(sys.pool, s, PoolRuns.DoPublish(sys.queue.w.pc.view.payload));
      }
    case _ =>
  }

  lemma {:induction false} RunKeepsStart(sys: System, s: nat, steps: seq<Step>)
    requires Inv(sys) && s < SLOTS && Pool.Active(sys.pool.slots, sys.pool.pub, s)
    requires forall i: nat | i < |steps| :: steps[i] != Control(PoolRuns.DoBeginReap(s))
    ensures var pool' := Run(sys, steps).pool;
            Pool.Shape(pool') && Pool.Active(pool'.slots, pool'.pub, s)
              && pool'.slots[s].start == sys.pool.slots[s].start
    decreases |steps|
  {
    hide Inv, Next, Pool.Active;
    InvShape(Run(sys, steps));
    if steps != [] {
      InvShape(sys);
      ApplyKeepsStart(sys, s, steps[0]);
      RunKeepsStart(Next(sys, steps[0]), s, steps[1..]);
    }
  }

  lemma InvShape(sys: System)
    requires Inv(sys)
    ensures Pool.Shape(sys.pool)
  {
  }

  /** From `publish` to delivery, tied to the join: whoever is tracked in any state is given exactly the accepted
      messages that enter the ring from then on, in order, whatever else happens until its slot is reaped. */
  lemma JoinerReceivesAccepted(sys: System, s: nat, steps: seq<Step>)
    requires Inv(sys) && sys.control && sys.pool.pub.Ready? && s < SLOTS && sys.pool.slots[s].Vacant?
    requires forall i: nat | i < |steps| :: steps[i] != Control(PoolRuns.DoBeginReap(s))
    ensures var end := Run(Next(sys, Control(PoolRuns.DoJoin(s))), steps);
            && Pool.Shape(end.pool) && |sys.queue.published| + |end.pool.inbox[s]| <= |end.queue.published|
            && PublishQueue.Increasing(end.queue.published)
            && forall j: nat | j < |end.pool.inbox[s]| ::
                 IsPayloadOf(end.queue, |sys.queue.published| + j, end.pool.inbox[s][j])
  {
    hide Run, Next, Inv;
    Joined(sys, s);
    var sys1 := Next(sys, Control(PoolRuns.DoJoin(s)));
    RunKeepsStart(sys1, s, steps);
    Delivered(Run(sys1, steps), s);
  }

  /** Message `i` of the ring was accepted with this payload. */
  ghost predicate IsPayloadOf(q: PublishQueue.Queue, i: nat, payload: seq<Byte>) {
    && i < |q.published| && q.published[i].id < |q.accepted| && q.accepted[q.published[i].id].payload == payload
  }

  lemma Joined(sys: System, s: nat)
    requires Inv(sys) && sys.control && sys.pool.pub.Ready? && s < SLOTS && sys.pool.slots[s].Vacant?
    ensures var sys' := Next(sys, Control(PoolRuns.DoJoin(s)));
            && Pool.Shape(sys'.pool) && Pool.Active(sys'.pool.slots, sys'.pool.pub, s)
            && sys'.pool.slots[s].start == |sys.queue.published|
  {
    hide Pool.Inv, PublishQueue.Inv, WakeOk;
  }

  lemma Delivered(sys: System, s: nat)
    requires Inv(sys) && s < SLOTS && sys.pool.slots[s].Used?
    ensures Pool.Shape(sys.pool)
    ensures var start, inbox := sys.pool.slots[s].start, sys.pool.inbox[s];
            && start + |inbox| <= |sys.queue.published| && PublishQueue.Increasing(sys.queue.published)
            && forall j: nat | j < |inbox| :: IsPayloadOf(sys.queue, start + j, inbox[j])
  {
    hide WakeOk, Pool.HoldersOk, Pool.OwnerOk, Pool.FreshOk, Pool.LogOk, Pool.PooledOk, Pool.LooseOk, Pool.HeldOk,
         Pool.FreeOk, Pool.LostChunks, Pool.SlotsOk, Pool.TailOk, Pool.FreedOk, SeenOk, PublishQueue.DoneOk,
         PublishQueue.LineOk, PublishQueue.AcceptedOk;
  }
}

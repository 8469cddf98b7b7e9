/** The silent unblock as the worker sees it. */
module SystemLimits {
  import opened Layout
  import opened Bytes
  import Pool
  import PoolRuns
  import PoolSignals
  import PoolLimits
  import Q = PublishQueue
  import QueueInvariant
  import QueueRuns
  import opened PublisherSystem

  const IDLE_WORKER := Q.Worker(true, false, true, Q.Waiting, Q.Destroy, false)
  const BLOCKED_WORKER := Q.Worker(true, false, false, Q.Waiting, Q.Destroy, false)

  /** Two readers, `n` small messages in the ring, nothing outstanding and nothing pending. */
  ghost predicate Level(sys: System, n: nat) {
    && Inv(sys) && PoolLimits.Filled(sys.pool, 2, 0, n) && !sys.space && !sys.control
    && sys.queue.fly == Q.NoFlight && sys.queue.pending == [] && sys.queue.w == IDLE_WORKER
  }

  /** The worker waits with a blocked message and no event pending. */
  ghost predicate AsleepOnBlocked(sys: System) {
    && Inv(sys) && !sys.space && !sys.control
    && sys.queue.fly.Flight? && sys.queue.fly.blocked && sys.queue.fly.msg.payload == []
    && sys.queue.pending == [] && sys.queue.w == BLOCKED_WORKER
  }

  /** A scan that takes no time. */
  const AT_ONCE := Scan([], 0)

  /** A client publishes and the worker's handler attempts it. */
  const ROUND := [Client([], true), Worker(Q.DoWorkEvent(true)),
                  Worker(Q.DoLockAndLook), Attempt(AT_ONCE, true), Worker(Q.DoRelock)]

  /** The queue's part of a round. */
  lemma QueueRound(q: Q.Queue, outcome: Q.Outcome)
    requires Q.Inv(q) && q.fly == Q.NoFlight && q.pending == [] && q.w == IDLE_WORKER
    requires outcome.Succeeded? || outcome.Blocked?
    ensures var m := Q.Message(|q.accepted|, []);
            var q1 := QueueRuns.Apply(q, Q.DoClientPublish([], true));
            var q2 := QueueRuns.Apply(q1, Q.DoWorkEvent(true));
            var q3 := QueueRuns.Apply(q2, Q.DoLockAndLook);
            var q4 := QueueRuns.Apply(q3, Q.DoAttempt(outcome));
            var q5 := QueueRuns.Apply(q4, Q.DoRelock);
            && q1.w.pc.Waiting? && q2.w.pc.WorkDrained? && q3.w.pc == Q.Attempting(0, m) && q4.w.pc.Attempted?
            && q5.pending == [] && q5.fly == (if outcome.Blocked? then Q.Flight(m, true) else Q.NoFlight)
            && q5.w == if outcome.Blocked? then BLOCKED_WORKER else IDLE_WORKER
  {
    hide Q.Inv;
    QueueInvariant.ClientPublishKeeps(q, [], true);
    var q1 := QueueRuns.Apply(q, Q.DoClientPublish([], true));
    assert q1.pending == [Q.Message(|q.accepted|, [])];
    var q2 := QueueRuns.Apply(q1, Q.DoWorkEvent(true));
    var q3 := QueueRuns.Apply(q2, Q.DoLockAndLook);
    var q4 := QueueRuns.Apply(q3, Q.DoAttempt(outcome));
    QueueInvariant.RelockKeeps(q4);
  }

  lemma RunFive(sys: System, a: Step, b: Step, c: Step, d: Step, e: Step)
    requires Inv(sys)
    ensures Run(sys, [a, b, c, d, e]) == Next(Next(Next(Next(Next(sys, a), b), c), d), e)
  {
    hide Inv, Next;
    RunOne(sys, a);
    RunMore(sys, [a], b);
    RunMore(sys, [a, b], c);
    RunMore(sys, [a, b, c], d);
    RunMore(sys, [a, b, c, d], e);
    assert [a] + [b] == [a, b] && [a, b] + [c] == [a, b, c] && [a, b, c] + [d] == [a, b, c, d];
    assert [a, b, c, d] + [e] == [a, b, c, d, e];
  }

  lemma RunOne(sys: System, step: Step)
    requires Inv(sys)
    ensures Run(sys, [step]) == Next(sys, step)
  {
    hide Inv, Next;
  }

  lemma RunMore(sys: System, steps: seq<Step>, step: Step)
    requires Inv(sys)
    ensures Run(sys, steps + [step]) == Next(Run(sys, steps), step)
  {
    hide Inv, Next, Run;
    RunConcat(sys, steps, [step]);
    RunOne(Run(sys, steps), step);
  }

  lemma RunThree(sys: System, a: Step, b: Step, c: Step)
    requires Inv(sys)
    ensures Run(sys, [a, b]) == Next(Next(sys, a), b)
    ensures Run(sys, [a, b, c]) == Next(Next(Next(sys, a), b), c)
  {
    hide Inv, Next;
    RunOne(sys, a);
    RunMore(sys, [a], b);
    RunMore(sys, [a, b], c);
    assert [a] + [b] == [a, b] && [a, b] + [c] == [a, b, c];
  }

  lemma {:induction false} RunConcat(sys: System, a: seq<Step>, b: seq<Step>)
    requires Inv(sys)
    ensures Run(sys, a + b) == Run(Run(sys, a), b)
    decreases |a|
  {
    hide Next, Inv;
    if a == [] {
      assert a + b == b;
    } else {
      assert (a + b)[1..] == a[1..] + b;
      RunConcat(Next(sys, a[0]), a[1..], b);
    }
  }

  lemma QueueOf(sys: System)
    requires Inv(sys)
    ensures Pool.Inv(sys.pool) && Pool.Shape(sys.pool) && Q.Inv(sys.queue)
  {
  }

  lemma NextClient(sys: System)
    requires Inv(sys)
    ensures Q.Inv(sys.queue)
    ensures Next(sys, Client([], true)) == sys.(queue := QueueRuns.Apply(sys.queue, Q.DoClientPublish([], true)))
  {
    hide Pool.Inv, Q.Inv, WakeOk, SameLog, SeenOk, QueueRuns.Apply;
  }

  lemma NextWorker(sys: System, q: Q.Step)
    requires Inv(sys) && !sys.control && WorkerOwn(q) && Q.Enabled(sys.queue, q)
    ensures Q.Inv(sys.queue)
    ensures Next(sys, Worker(q)) ==
            sys.(queue := QueueRuns.Apply(sys.queue, q), seen := if q.DoLook? then sys.seen else [])
  {
    hide Pool.Inv, Q.Inv, WakeOk, SameLog, SeenOk, QueueRuns.Apply;
  }

  /** With nothing recorded since, a scan is as good as one step. */
  lemma AtOnce(sys: System, payload: seq<Byte>)
    requires Pool.Shape(sys.pool) && sys.seen == []
    ensures FindsRoom(sys, AT_ONCE, payload) <==> HasRoom(sys.pool, payload)
  {
    hide Pool.PayloadClass;
    assert forall s: nat :: LoadedAt(sys, AT_ONCE, s) == sys.pool;
    if HasRoom(sys.pool, payload) {
      var s: nat :| s < SLOTS && sys.pool.slots[s].Used?;
      assert Tracked(LoadedAt(sys, AT_ONCE, s), s);
    }
    if FindsRoom(sys, AT_ONCE, payload) {
      forall s: nat | s < SLOTS && sys.pool.slots[s].Used?
        ensures sys.pool.slots[s].next + RING > |sys.pool.log| + 1
      {
        assert Tracked(LoadedAt(sys, AT_ONCE, s), s);
      }
    }
  }

  lemma NextAttempt(sys: System)
    requires Inv(sys) && sys.queue.w.pc.Attempting? && sys.seen == []
    ensures Pool.Inv(sys.pool) && Pool.Shape(sys.pool) && Q.Inv(sys.queue)
    ensures var payload := sys.queue.w.pc.view.payload;
            var outcome := AttemptOutcome(HasRoom(sys.pool, payload), true);
            Next(sys, Attempt(AT_ONCE, true)) == sys.(queue := QueueRuns.Apply(sys.queue, Q.DoAttempt(outcome)),
                                                      pool := PoolRuns.Apply(sys.pool, PoolRuns.DoPublish(payload)))
  {
    hide Pool.Inv, Q.Inv, WakeOk, SameLog, SeenOk, QueueRuns.Apply, PoolRuns.Apply, HasRoom, FindsRoom;
    var payload := sys.queue.w.pc.view.payload;
    AtOnce(sys, payload);
    if !HasRoom(sys.pool, payload) {
      NothingPublished(sys.pool, payload);
    }
  }

  lemma NothingPublished(pool: Pool.State, payload: seq<Byte>)
    requires Pool.Inv(pool) && Pool.Shape(pool) && !HasRoom(pool, payload)
    ensures PoolRuns.Apply(pool, PoolRuns.DoPublish(payload)) == pool
  {
    Disabled(pool, PoolRuns.DoPublish(payload));
  }

  /** The first steps of a round: the worker has the message in hand and starts its attempt. */
  lemma Taken(sys: System, n: nat)
    requires Level(sys, n)
    ensures Pool.Inv(sys.pool) && Pool.Shape(sys.pool) && Q.Inv(sys.queue)
    ensures var q1 := QueueRuns.Apply(sys.queue, Q.DoClientPublish([], true));
            var q2 := QueueRuns.Apply(q1, Q.DoWorkEvent(true));
            Next(Next(Next(sys, ROUND[0]), ROUND[1]), ROUND[2])
              == sys.(queue := QueueRuns.Apply(q2, Q.DoLockAndLook), seen := [])
  {
    hide Inv, Pool.Inv, Q.Inv, QueueRuns.Apply, PoolRuns.Apply, HasRoom, PoolLimits.Filled, Next;
    QueueOf(sys);
    QueueRound(sys.queue, Q.Blocked);
    NextClient(sys);
    var s1 := Next(sys, ROUND[0]);
    NextWorker(s1, Q.DoWorkEvent(true));
    NextWorker(Next(s1, ROUND[1]), Q.DoLockAndLook);
  }

  /** The whole round, with the queue's and the pool's parts. */
  lemma RoundIs(sys: System, n: nat)
    requires Level(sys, n) && n < RING
    ensures var r := Run(sys, ROUND);
            var m := Q.Message(|sys.queue.accepted|, []);
            var blocked := !HasRoom(sys.pool, []);
            && Inv(r) && !r.space && !r.control && r.queue.pending == []
            && r.pool == PoolRuns.Apply(sys.pool, PoolRuns.DoPublish([]))
            && r.queue.fly == (if blocked then Q.Flight(m, true) else Q.NoFlight)
            && r.queue.w == if blocked then BLOCKED_WORKER else IDLE_WORKER
  {
    hide Inv, Pool.Inv, Q.Inv, QueueRuns.Apply, PoolRuns.Apply, Run, HasRoom, PoolLimits.Filled, Next;
    QueueOf(sys);
    QueueRound(sys.queue, AttemptOutcome(HasRoom(sys.pool, []), true));
    Taken(sys, n);
    var s3 := Next(Next(Next(sys, ROUND[0]), ROUND[1]), ROUND[2]);
    var s4 := Next(s3, ROUND[3]);
    NextAttempt(s3);
    var s5 := Next(s4, ROUND[4]);
    NextWorker(s4, Q.DoRelock);
    RunFive(sys, ROUND[0], ROUND[1], ROUND[2], ROUND[3], ROUND[4]);
  }

  lemma OneRound(sys: System, n: nat)
    requires Level(sys, n) && n < RING - 1
    ensures Level(Run(sys, ROUND), n + 1)
  {
    hide Inv, Run, PoolRuns.Apply, Pool.Inv;
    RoundIs(sys, n);
    QueueOf(sys);
    PoolLimits.SmallPayload();
    RoomFor(sys.pool, n);
    PoolLimits.FillOne(sys.pool, 2, [], n);
  }

  lemma RoomFor(pool: Pool.State, n: nat)
    requires Pool.Inv(pool) && PoolLimits.Filled(pool, 2, 0, n) && n < RING && Pool.PayloadClass([]) == 0
    ensures Pool.Shape(pool) && (HasRoom(pool, []) <==> n < RING - 1)
    ensures n == RING - 1 ==> PoolRuns.Apply(pool, PoolRuns.DoPublish([])) == pool
  {
    hide Pool.OwnerOk, Pool.FreshOk, Pool.LogOk, Pool.PooledOk, Pool.LooseOk, Pool.HeldOk, Pool.FreeOk, Pool.LostChunks,
         Pool.InboxOk, Pool.HoldersOk, Pool.TailOk, Pool.FreedOk, Pool.PayloadClass;
    assert pool.slots[0].Used?;
  }

  /** The sixteenth message finds the ring full. */
  lemma LastRound(sys: System)
    requires Level(sys, RING - 1)
    ensures AsleepOnBlocked(Run(sys, ROUND)) && Run(sys, ROUND).pool == sys.pool
  {
    hide Inv, Run, PoolRuns.Apply, Pool.Inv;
    RoundIs(sys, RING - 1);
    QueueOf(sys);
    PoolLimits.SmallPayload();
    RoomFor(sys.pool, RING - 1);
  }

  ghost function Rounds(n: nat): seq<Step> {
    if n == 0 then [] else Rounds(n - 1) + ROUND
  }

  lemma {:induction false} AfterRounds(sys: System, n: nat)
    requires Level(sys, 0) && n < RING
    ensures Level(Run(sys, Rounds(n)), n)
  {
    hide Inv, Apply, Level;
    LevelInv(sys, 0);
    if n > 0 {
      AfterRounds(sys, n - 1);
      RunConcat(sys, Rounds(n - 1), ROUND);
      OneRound(Run(sys, Rounds(n - 1)), n - 1);
    }
  }

  lemma LevelInv(sys: System, n: nat)
    requires Level(sys, n)
    ensures Inv(sys)
  {
  }

  function Lift(ps: seq<PoolRuns.Step>): (steps: seq<Step>)
    ensures |steps| == |ps| && forall i: nat | i < |ps| :: steps[i] == Subscriber(ps[i])
  {
    seq(|ps|, i requires 0 <= i < |ps| => Subscriber(ps[i]))
  }

  /** Subscriber steps leave the queue alone. */
  lemma {:induction false} LiftedRun(sys: System, ps: seq<PoolRuns.Step>)
    requires Inv(sys) && Pool.Inv(sys.pool) && forall i: nat | i < |ps| :: PoolSignals.SubscriberStep(ps[i])
    ensures var r := Run(sys, Lift(ps));
            Inv(r) && r.queue == sys.queue && r.control == sys.control && r.pool == PoolRuns.Run(sys.pool, ps)
    decreases |ps|
  {
    hide Inv, Pool.Inv, PoolRuns.Apply, Next;
    if ps != [] {
      SubscriberIs(sys, ps[0]);
      QueueOf(Next(sys, Subscriber(ps[0])));
      assert Lift(ps)[1..] == Lift(ps[1..]);
      LiftedRun(Next(sys, Subscriber(ps[0])), ps[1..]);
    }
  }

  lemma SubscriberIs(sys: System, p: PoolRuns.Step)
    requires Inv(sys) && PoolSignals.SubscriberStep(p)
    ensures Pool.Inv(sys.pool)
    ensures var r := Next(sys, Subscriber(p));
            r.queue == sys.queue && r.control == sys.control && r.pool == PoolRuns.Apply(sys.pool, p)
    ensures !p.DoSignal? ==> Next(sys, Subscriber(p)).space == sys.space
  {
    hide Pool.Inv, Q.Inv, WakeOk, SameLog, SeenOk, PoolRuns.Apply;
  }

  /** The worker handles the space event, finds no room and waits again. */
  const RECHECK := [SpaceEvent(true), Worker(Q.DoLook), Verdict(AT_ONCE)]

  lemma Rechecked(sys: System)
    requires Inv(sys) && !sys.control && sys.queue.pending == [] && sys.queue.w == BLOCKED_WORKER
    requires sys.queue.fly.Flight? && sys.queue.fly.blocked && sys.queue.fly.msg.payload == []
    requires Pool.Shape(sys.pool) && !HasRoom(sys.pool, [])
    ensures AsleepOnBlocked(Run(sys, RECHECK)) && Run(sys, RECHECK).pool == sys.pool
    ensures Run(sys, RECHECK).queue.fly == sys.queue.fly
  {
    hide Inv, Pool.Inv, Q.Inv, HasRoom, PoolRuns.Apply, Run, FindsRoom;
    QueueOf(sys);
    var s1 := Next(sys, SpaceEvent(true));
    assert s1 == sys.(queue := s1.queue, space := false, seen := []);
    assert s1.queue == sys.queue.(w := sys.queue.w.(pc := Q.Looking));
    QueueOf(s1);
    var s2 := Next(s1, Worker(Q.DoLook));
    assert s2 == s1.(queue := s1.queue.(w := s1.queue.w.(pc := Q.Checking(Q.First(sys.queue.fly.msg)))));
    QueueOf(s2);
    AtOnce(s2, []);
    var s3 := Next(s2, Verdict(AT_ONCE));
    assert s3 == s2.(queue := s2.queue.(w := BLOCKED_WORKER));
    RunThree(sys, SpaceEvent(true), Worker(Q.DoLook), Verdict(AT_ONCE));
  }

  /** Two readers are tracked when the worker starts. */
  lemma Start() returns (start: System)
    ensures IsStart(start) && PoolLimits.Filled(start.pool, 2, 0, 0) && !start.space
  {
    hide Pool.Inv, PoolRuns.Run;
    PoolLimits.SmallPayload();
    var joins := PoolLimits.FillUp(2, [], 0);
    start := System(PoolRuns.FromStart(joins), Q.Init(), false, false, []);
  }

  /** The first work event finds nothing to do. */
  const SETTLE := [Worker(Q.DoWorkEvent(true)), Worker(Q.DoLockAndLook)]

  lemma Settled(start: System)
    requires IsStart(start) && PoolLimits.Filled(start.pool, 2, 0, 0) && !start.space
    ensures Inv(start) && Level(Run(start, SETTLE), 0)
  {
    hide Inv, Pool.Inv, PoolLimits.Filled, PoolRuns.Apply, Q.Inv, Run;
    StartOk(start);
    QueueOf(start);
    var s1 := Next(start, SETTLE[0]);
    assert s1 == start.(queue := start.queue.(w := Q.Worker(true, false, true, Q.WorkDrained, Q.Destroy, false)));
    QueueOf(s1);
    var s2 := Next(s1, SETTLE[1]);
    assert s2 == start.(queue := start.queue.(w := IDLE_WORKER));
    RunThree(start, SETTLE[0], SETTLE[1], Verdict(AT_ONCE));
  }

  /** A reachable state of the whole system: the worker sleeps on a blocked message, no event is pending and the ring is
      full; a reader that was not the last holder stores its read index; then there is room, and still no event is
      pending and no subscriber is on its way to signal. RoomIsAnnouncedIff says exactly when this happens,
      NoLostSpaceWakeUp why the worker does not sleep for good. */
  lemma RoomCanAppearWhileAsleep() returns (start: System, steps: seq<Step>)
    ensures IsStart(start)
    ensures var sys := FromStart(start, steps);
            && AsleepOnBlocked(sys) && Pool.Shape(sys.pool) && !HasRoom(sys.pool, sys.queue.fly.msg.payload)
            && var sys' := Next(sys, Subscriber(PoolRuns.DoStoreRead(0)));
            && sys'.queue == sys.queue && !sys'.space && Pool.Shape(sys'.pool)
            && HasRoom(sys'.pool, sys.queue.fly.msg.payload) && PoolSignals.LiveDue(sys'.pool)
            && forall s: nat | s < SLOTS && sys'.pool.slots[s].Used? :: sys'.pool.slots[s].phase.Idle?
  {
    start := Start();
    Settled(start);
    var level := Run(start, SETTLE);
    AfterRounds(level, RING - 1);
    var full := Run(level, Rounds(RING - 1));
    LastRound(full);
    var asleep := Run(full, ROUND);
    Overtake(asleep);
    var overtaken := Run(asleep, Lift(PoolLimits.OVERTAKING));
    Rechecked(overtaken);
    steps := SETTLE + Rounds(RING - 1) + ROUND + Lift(PoolLimits.OVERTAKING) + RECHECK;
    hide Inv, Next, Run, Level, AsleepOnBlocked, Rounds, HasRoom, PoolLimits.HasOvertaken, IsStart;
    RunConcat(start, SETTLE, Rounds(RING - 1));
    RunConcat(start, SETTLE + Rounds(RING - 1), ROUND);
    RunConcat(start, SETTLE + Rounds(RING - 1) + ROUND, Lift(PoolLimits.OVERTAKING));
    RunConcat(start, SETTLE + Rounds(RING - 1) + ROUND + Lift(PoolLimits.OVERTAKING), RECHECK);
    Silent(FromStart(start, steps));
  }

  /** The readers' steps of PoolLimits, seen from the system. */
  lemma Overtake(sys: System)
    requires AsleepOnBlocked(sys) && Pool.Inv(sys.pool) && PoolLimits.Filled(sys.pool, 2, 0, RING - 1)
    ensures var r := Run(sys, Lift(PoolLimits.OVERTAKING));
            && Inv(r) && !r.control && r.queue == sys.queue && Pool.Inv(r.pool) && Pool.Shape(r.pool)
            && PoolLimits.HasOvertaken(r.pool) && !HasRoom(r.pool, [])
  {
    hide Inv, Pool.Inv, PoolRuns.Run, Run, PoolLimits.HasOvertaken, PoolLimits.Filled, Pool.CanPublish;
    PoolLimits.Overtaken(sys.pool);
    LiftedRun(sys, PoolLimits.OVERTAKING);
    QueueOf(Run(sys, Lift(PoolLimits.OVERTAKING)));
    PoolLimits.SmallPayload();
    PoolLimits.RoomAfterOvertaking(PoolRuns.Run(sys.pool, PoolLimits.OVERTAKING));
  }

  lemma Silent(sys: System)
    requires AsleepOnBlocked(sys) && Pool.Inv(sys.pool) && PoolLimits.HasOvertaken(sys.pool)
    ensures Pool.Shape(sys.pool) && !HasRoom(sys.pool, sys.queue.fly.msg.payload)
    ensures var sys' := Next(sys, Subscriber(PoolRuns.DoStoreRead(0)));
            && sys'.queue == sys.queue && !sys'.space && Pool.Shape(sys'.pool)
            && HasRoom(sys'.pool, sys.queue.fly.msg.payload) && PoolSignals.LiveDue(sys'.pool)
            && forall s: nat | s < SLOTS && sys'.pool.slots[s].Used? :: sys'.pool.slots[s].phase.Idle?
  {
    hide Inv, Pool.Inv, PoolRuns.Apply, PoolSignals.LiveDue, Pool.CanPublish, PoolLimits.HasOvertaken;
    QueueOf(sys);
    PoolLimits.SmallPayload();
    PoolLimits.RoomAfterOvertaking(sys.pool);
    SubscriberIs(sys, PoolRuns.DoStoreRead(0));
    QueueOf(Next(sys, Subscriber(PoolRuns.DoStoreRead(0))));
  }
}

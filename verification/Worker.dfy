/** The asynchronous publisher: the queue's fields, the critical sections that update them, and the
    worker's handler on top of the publishing side of the shared mapping. */
module WorkerSide {
  import opened Layout
  import opened Bytes
  import opened PublishQueue
  import opened QueueInvariant
  import opened QueueRuns
  import Pool
  import PoolInvariant
  import opened SharedMapping
  import PublisherSide

  datatype LoopEnd = Idle | More | AttemptFailed

  predicate Ticket(r: PublishResult) {
    r.Enqueued? || r.EnqueuedOverOldest?
  }

  /** What an attempt means to the queue: any error comes with the message in the ring. */
  function OutcomeOf(attempt: PublisherSide.Attempt): Outcome {
    match attempt
    case Succeeded => PublishQueue.Succeeded
    case Blocked => PublishQueue.Blocked
    case _ => FailedAfter
  }

  /** The worker takes the mutex back after an attempt, unless it failed. */
  ghost function StepsOf(outcome: Outcome): seq<Step> {
    if outcome.FailedAfter? then [DoAttempt(outcome)] else [DoAttempt(outcome), DoRelock]
  }

  ghost function AfterAttempt(q: Queue, outcome: Outcome): (r: Queue)
    requires Inv(q)
    ensures Inv(r)
  {
    hide Inv, Apply;
    if outcome.FailedAfter? then Apply(q, DoAttempt(outcome)) else Apply(Apply(q, DoAttempt(outcome)), DoRelock)
  }

  class AsyncPublisher {
    const pub: PublisherSide.Publisher
    var pending: seq<Message>        // pending_messages_
    var inFlight: Flight             // in_flight_message_
    var active: bool                 // run_thread_active_
    var work: bool                   // the work event's counter is not zero
    var done: map<nat, Completion>   // fulfilled completion promises
    var nextId: nat                  // tells messages apart

    /** The queue machine's state, of which the fields above are the part the program keeps. */
    ghost var abs: Queue

    ghost predicate Agrees(q: Queue)
      reads this
    {
      && pending == q.pending && inFlight == q.fly && done == q.done && nextId == |q.accepted|
      && active == q.w.active && work == q.w.work
    }

    /** The publishing side of the mapping is in order and between two operations. */
    ghost predicate DataPlane()
      reads pub, pub.shm.Repr()
    {
      pub.Valid() && Pool.Shape(pub.shm.abs) && pub.shm.abs.pub.Ready?
    }

    ghost predicate Separate() {
      (this as object) !in {pub as object} + pub.shm.Repr()
    }

    ghost predicate Valid()
      reads this, pub, pub.shm.Repr()
    {
      Separate() && DataPlane() && Inv(abs) && Agrees(abs)
    }

    /** The publisher waits for room for the message it has in flight. */
    predicate HeldBack(ready: bool)
      reads `inFlight
    {
      !ready && inFlight.Flight? && inFlight.blocked
    }

    constructor ()
      ensures Valid() && abs == Init() && fresh(pub) && fresh(pub.shm.Repr())
    {
      hide Pool.Inv, Pool.Shape, Inv, SharedData.Shaped, PublisherSide.TablesOk;
      pub := new PublisherSide.Publisher();
      pending, inFlight, active, work, done, nextId := [], NoFlight, true, true, map[], 0;
      abs := Init();
      new;
      InitOk();
      ShapeOfInit();
    }

    /** `publish`: reject, make room, enqueue, announce - or take it all back. Which of these happens, what the client
        is told, and what is outstanding afterwards. */
    method Publish(payload: seq<Byte>, signalled: bool) returns (r: PublishResult)
      requires Valid()
      modifies `pending, `inFlight, `work, `done, `nextId, `abs
      ensures Valid() && r == ClientResult(old(abs), payload, signalled)
      ensures abs == Apply(old(abs), DoClientPublish(payload, signalled))
      ensures r == PayloadTooLarge <==> |payload| > 1016
      ensures r == WorkerExited <==> |payload| <= 1016 && !old(active)
      ensures r == NotificationFailed <==> |payload| <= 1016 && old(active) && !signalled
      ensures r.Enqueued? || r.EnqueuedOverOldest? <==> |payload| <= 1016 && old(active) && signalled
      ensures r.EnqueuedOverOldest? <==>
        |payload| <= 1016 && old(active) && signalled && |old(Outstanding(inFlight, pending))| == 64
      ensures Ticket(r) ==>
        && r.id == old(nextId) && nextId == old(nextId) + 1 && work
        && abs.accepted == old(abs.accepted) + [Message(old(nextId), payload)]
      ensures r.Enqueued? ==>
        && Outstanding(inFlight, pending) == old(Outstanding(inFlight, pending)) + [Message(old(nextId), payload)]
        && done == old(done)
      ensures r.EnqueuedOverOldest? ==>
        var line, v := old(Outstanding(inFlight, pending)), if old(inFlight.Flight? && !inFlight.blocked) then 1 else 0;
        && v < |line| && done == old(done)[line[v].id := Overwritten]
        && Outstanding(inFlight, pending) == line[..v] + line[v + 1..] + [Message(old(nextId), payload)]
      ensures !Ticket(r) ==>
        && Outstanding(inFlight, pending) == old(Outstanding(inFlight, pending)) && done == old(done)
        && nextId == old(nextId) && work == old(work) && abs.accepted == old(abs.accepted)
      ensures old(inFlight.Flight? && !inFlight.blocked) ==> inFlight == old(inFlight)
    {
      hide Inv, DataPlane, Outstanding, Apply, ClientResult;
      RefusalChangesNothing(abs, payload, signalled);
      TicketMeansAccepted(abs, payload, signalled);
      if |payload| > MAX_PAYLOAD {
        return PayloadTooLarge;
      }
      if !active {
        return WorkerExited;
      }
      r := Enqueue(payload, signalled);
    }

    /** Make room, enqueue and announce, or take it back. */
    method Enqueue(payload: seq<Byte>, signalled: bool) returns (r: PublishResult)
      requires Inv(abs) && Agrees(abs) && |payload| <= MAX_PAYLOAD && active
      modifies `pending, `inFlight, `work, `done, `nextId, `abs
      ensures Inv(abs) && Agrees(abs) && r == ClientResult(old(abs), payload, signalled)
      ensures abs == Apply(old(abs), DoClientPublish(payload, signalled))
      ensures old(inFlight.Flight? && !inFlight.blocked) ==> inFlight == old(inFlight)
      ensures !Ticket(r) ==> done == old(done) && nextId == old(nextId) && work == old(work)
      ensures Ticket(r) ==> nextId == old(nextId) + 1 && work
    {
      hide Inv, Outstanding, Apply, Full, Victim, WithoutVictim;
      ghost var q := abs;
      ClientFields(q, payload, signalled);
      abs := Apply(q, DoClientPublish(payload, signalled));
      LineLengthIs(inFlight, pending);
      var victim: seq<Message> := [];
      if |pending| + (if inFlight.Flight? then 1 else 0) >= MAX_OUTSTANDING {
        if inFlight.Flight? && inFlight.blocked {
          victim := [inFlight.msg];
          inFlight := NoFlight;
        } else {
          victim := [pending[0]];
          pending := pending[1..];
        }
      }
      pending := pending + [Message(nextId, payload)];
      if !signalled {
        pending := victim + pending[..|pending| - 1];
        return NotificationFailed;
      }
      work := true;
      r := if victim != [] then EnqueuedOverOldest(nextId) else Enqueued(nextId);
      nextId := nextId + 1;
      if victim != [] {
        done := done[victim[0].id := Overwritten];
      }
    }

    /** The next message goes in flight, if none is. */
    method PutInFlight(ghost q: Queue, ghost n: nat)
      requires Agrees(q) && n < MAX_PER_EVENT && (pending != [] || inFlight.Flight?)
      modifies `pending, `inFlight
      ensures Agrees(LoopHead(q, n)) && inFlight.Flight? && !inFlight.blocked
    {
      hide LoopHead;
      AttemptFields(q, n);
      if inFlight.NoFlight? {
        inFlight := Flight(pending[0], false);
        pending := pending[1..];
      }
      inFlight := inFlight.(blocked := false);
    }

    method TryPublish(payload: seq<Byte>, broken: set<int>) returns (attempt: PublisherSide.Attempt)
      requires DataPlane() && |payload| <= MAX_PAYLOAD
      modifies pub`seqNo, pub`signalled, pub.shm, pub.shm.ring, pub.shm.head, pub.shm.data, pub.shm.masks,
               pub.shm.inUse
      ensures DataPlane() && pub.shm.abs.slots == old(pub.shm.abs.slots)
      ensures attempt == if !old(Pool.CanPublish(pub.shm.abs, Pool.PayloadClass(payload))) then PublisherSide.Blocked
                         else if PublisherSide.AllWritable(pub.eventFds, broken) then PublisherSide.Succeeded
                         else PublisherSide.PublishAttemptFailed
      ensures Logged(old(pub.shm.abs.log), pub.shm.abs.log, !attempt.Blocked?, payload)
      ensures attempt.Blocked? ==> NoRoom(pub.shm.abs, payload)
    {
      hide Pool.Inv, PublisherSide.Publisher.Valid, Pool.CanPublish, Pool.Publish, Pool.PayloadClass;
      ghost var pool := pub.shm.abs;
      PubState(pub);
      attempt := pub.TryPublishOne(payload, broken);
      PubState(pub);
      if attempt != PublisherSide.Blocked {
        PublishedLog(pool, payload);
      }
    }

    /** One attempt, with the mutex released, and what is recorded when it is taken back. An error leaves the run
        loop with the mutex still released. `broken`: the event fds whose write fails. */
    method AttemptNext(broken: set<int>) returns (attempt: PublisherSide.Attempt, ghost outcome: Outcome)
      requires Valid() && abs.w.pc.Attempting?
      modifies `inFlight, `done, `abs, pub`seqNo, pub`signalled, pub.shm, pub.shm.ring, pub.shm.head, pub.shm.data,
               pub.shm.masks, pub.shm.inUse
      ensures DataPlane() && Inv(abs) && pub.shm.abs.slots == old(pub.shm.abs.slots)
      ensures outcome == OutcomeOf(attempt) && abs == AfterAttempt(old(abs), outcome)
      ensures SameTail(old(pub.shm.abs.log), pub.shm.abs.log, old(abs).published, abs.published)
      ensures outcome == Succeeded ==> AfterSuccess(old(abs), abs) && Agrees(LandedQueue(old(abs)))
      ensures outcome == Blocked ==> Agrees(abs) && abs.w.pc == Waiting && !abs.w.ready
      ensures outcome == FailedAfter ==> Agrees(abs) && abs.w.pc == Stopping(Failed) && abs.w.ready == old(abs).w.ready
      ensures outcome == FailedAfter ==> !PublisherSide.AllWritable(pub.eventFds, broken)
      ensures old(abs).fly.Flight? && (outcome == Blocked ==> NoRoom(pub.shm.abs, old(abs).fly.msg.payload))
    {
      hide Inv, DataPlane, Apply, SameTail, LandedQueue, AfterSuccess, NoRoom;
      SucceededFields(abs);
      FlightFits(abs);
      BlockedFields(abs);
      FailedFields(abs);
      ghost var log := pub.shm.abs.log;
      attempt := TryPublish(inFlight.msg.payload, broken);
      outcome := OutcomeOf(attempt);
      OneMoreLogged(log, pub.shm.abs.log, abs.published, inFlight.msg);
      if attempt == PublisherSide.Blocked {
        inFlight := inFlight.(blocked := true);
      } else if attempt == PublisherSide.Succeeded {
        done := done[inFlight.msg.id := Published];
        inFlight := NoFlight;
      }
      abs := AfterAttempt(abs, outcome);
    }

    /** One turn of the publish loop. */
    method OneTurn(broken: set<int>, ghost q: Queue, ghost n: nat)
      returns (attempt: PublisherSide.Attempt, ghost q': Queue, ghost outcome: Outcome)
      requires Separate() && DataPlane() && Inv(abs) && abs == LoopHead(q, n) && Agrees(q) && q.w.ready
      requires n < MAX_PER_EVENT && (pending != [] || inFlight.Flight?)
      modifies `pending, `inFlight, `done, `abs, pub`seqNo, pub`signalled, pub.shm, pub.shm.ring, pub.shm.head,
               pub.shm.data, pub.shm.masks, pub.shm.inUse
      ensures DataPlane() && Inv(abs) && pub.shm.abs.slots == old(pub.shm.abs.slots)
      ensures outcome == OutcomeOf(attempt) && abs == AfterAttempt(old(abs), outcome)
      ensures SameTail(old(pub.shm.abs.log), pub.shm.abs.log, old(abs).published, abs.published)
      ensures outcome == Succeeded ==> abs == LoopHead(q', n + 1) && Agrees(q') && q'.w.ready
      ensures outcome == Blocked ==> Agrees(abs) && abs.w.pc == Waiting && !abs.w.ready
      ensures outcome == FailedAfter ==> Agrees(abs) && abs.w.pc == Stopping(Failed) && abs.w.ready
      ensures outcome == FailedAfter ==> !PublisherSide.AllWritable(pub.eventFds, broken)
      ensures outcome == Succeeded ==> Lands(q, q')
      ensures outcome == Blocked ==> Stays(q, abs, true) && abs.published == q.published
      ensures outcome == Blocked ==> Line(q) != [] && NoRoom(pub.shm.abs, Line(q)[0].payload)
      ensures outcome == FailedAfter ==> Stays(q, abs, false) && abs.published == q.published + [Line(q)[0]]
    {
      hide Inv, DataPlane, Apply, LoopHead, SameTail, LandedQueue, AfterSuccess, AfterAttempt, NoRoom, Lands, Stays;
      AttemptFields(q, n);
      PutInFlight(q, n);
      ghost var mid := abs;
      TurnEffect(q, n);
      attempt, outcome := AttemptNext(broken);
      q' := q;
      if outcome == Succeeded {
        Succeeding(mid, abs);
        q' := LandedQueue(mid);
      }
    }

    /** At most 64 attempts, oldest message first, until the queue is empty or an attempt is blocked or fails.
        `faults`: which event fds cannot be written at each attempt. */
    method PublishLoop(faults: nat -> set<int>, ghost q: Queue, ghost start: Queue, ghost before: seq<Step>)
      returns (end: LoopEnd, nowReady: bool, ghost steps: seq<Step>)
      requires Separate() && DataPlane() && Inv(abs) && Inv(start) && abs == Run(start, before)
      requires abs == LoopHead(q, 0) && Agrees(q) && q.w.ready
      modifies `pending, `inFlight, `done, `abs, pub`seqNo, pub`signalled, pub.shm, pub.shm.ring, pub.shm.head,
               pub.shm.data, pub.shm.masks, pub.shm.inUse
      ensures Valid() && abs == Run(start, steps) && nowReady == abs.w.ready
      ensures abs.w.pc == match end
                          case Idle => Waiting case More => Rescheduling case AttemptFailed => Stopping(Failed)
      ensures end.AttemptFailed? ==> exists n: nat :: !PublisherSide.AllWritable(pub.eventFds, faults(n))
      ensures SameTail(old(pub.shm.abs.log), pub.shm.abs.log, old(abs).published, abs.published)
      ensures pub.shm.abs.slots == old(pub.shm.abs.slots)
      ensures !end.AttemptFailed? ==> Handed(Line(q), Line(abs), q.published, abs.published, q.done, abs.done)
      ensures match end
              case Idle => if nowReady then Line(abs) == [] else WaitsForRoom(inFlight, pub.shm.abs)
              case More => nowReady && |Line(q)| - |Line(abs)| == 64 && Line(abs) != []
              case AttemptFailed =>
                nowReady && HandedAndOne(Line(q), Line(abs), q.published, abs.published, q.done, abs.done)
    {
      hide Inv, DataPlane, Apply, LoopHead, Run, SameTail, AfterAttempt, NoRoom, Lands, Stays, Handed, HandedAndOne;
      steps := before;
      HandedNone(Line(q), q.published, q.done);
      ghost var pre := q;
      ghost var log0, published0, slots0 := pub.shm.abs.log, abs.published, pub.shm.abs.slots;
      NothingNew(pub.shm.abs.log, abs.published);
      var n := 0;
      while n < MAX_PER_EVENT && (pending != [] || inFlight.Flight?)
        invariant DataPlane() && Inv(abs) && abs == Run(start, steps)
        invariant 0 <= n <= MAX_PER_EVENT && abs == LoopHead(pre, n) && Agrees(pre) && pre.w.ready
        invariant SameTail(log0, pub.shm.abs.log, published0, abs.published) && pub.shm.abs.slots == slots0
        invariant |Line(q)| - |Line(pre)| == n
        invariant Handed(Line(q), Line(pre), q.published, pre.published, q.done, pre.done)
        decreases MAX_PER_EVENT - n
      {
        ghost var log, published := pub.shm.abs.log, abs.published;
        ghost var outcome;
        var attempt;
        ghost var was := pre;
        attempt, pre, outcome := OneTurn(faults(n), pre, n);
        HandedOne(q, was, pre, abs, outcome);
        TurnSteps(start, steps, outcome);
        steps := steps + StepsOf(outcome);
        TailsAdd(log0, log, pub.shm.abs.log, published0, published, abs.published);
        if attempt == PublisherSide.Blocked {
          return Idle, false, steps;
        }
        if attempt != PublisherSide.Succeeded {
          return AttemptFailed, true, steps;
        }
        n := n + 1;
      }
      ExitFields(pre, n);
      LineIsEmpty(pre);
      nowReady := true;
      end := if pending != [] || inFlight.Flight? then More else Idle;
    }

    /** Read the event, take the mutex, and see whether there is anything to attempt. */
    method TakeWork(ready: bool) returns (idle: bool, ghost q: Queue)
      requires Inv(abs) && Agrees(abs) && abs.w.pc.Waiting? && ready == abs.w.ready
      modifies `work, `abs
      ensures Inv(abs) && abs == Apply(Apply(old(abs), DoWorkEvent(true)), DoLockAndLook)
      ensures abs.published == old(abs).published
      ensures idle <==> !ready && inFlight.Flight? && inFlight.blocked
      ensures !work && abs.published == old(abs.published) && abs.done == old(abs.done)
      ensures idle ==> Agrees(abs) && abs.w.pc == Waiting && abs.w.ready == ready
      ensures !idle ==> abs == LoopHead(q, 0) && Agrees(q) && q.w.ready
      ensures !idle ==> q.published == old(abs.published) && q.done == old(abs.done) && Line(q) == old(Line(abs))
    {
      hide Inv, Apply, LoopHead;
      WorkEventFields(abs, true);
      abs := Apply(abs, DoWorkEvent(true));
      work := false;
      LockFields(abs);
      q := abs.(w := abs.w.(ready := true));
      abs := Apply(abs, DoLockAndLook);
      idle := !ready && inFlight.Flight? && inFlight.blocked;
    }

    /** More is outstanding than one event may publish: write the event again. */
    method Reschedule(signalled: bool)
      requires Inv(abs) && Agrees(abs) && abs.w.pc.Rescheduling?
      modifies `work, `abs
      ensures Inv(abs) && Agrees(abs) && abs == Apply(old(abs), DoReschedule(signalled))
      ensures abs.w.pc == (if signalled then Waiting else Stopping(Failed)) && abs.w.ready == old(abs).w.ready
      ensures abs.published == old(abs).published && abs.done == old(abs.done) && Line(abs) == Line(old(abs))
      ensures signalled ==> work
    {
      hide Inv, Apply;
      RescheduleFields(abs, signalled);
      abs := Apply(abs, DoReschedule(signalled));
      work := work || signalled;
    }

    ghost method FailToDrain()
      requires Inv(abs) && Agrees(abs) && abs.w.pc.Waiting?
      modifies `abs
      ensures Inv(abs) && Agrees(abs) && abs == Apply(old(abs), DoWorkEvent(false))
      ensures abs.w.pc == Stopping(Failed) && abs.w.ready == old(abs).w.ready && abs.published == old(abs).published
    {
      hide Inv, Apply;
      WorkEventFields(abs, false);
      abs := Apply(abs, DoWorkEvent(false));
    }

    /** The handler from its first attempt on. */
    method PublishAndReschedule(faults: nat -> set<int>, signalled: bool, ghost q: Queue, ghost start: Queue,
                                ghost before: seq<Step>)
      returns (ok: bool, nowReady: bool, ghost steps: seq<Step>)
      requires Separate() && DataPlane() && Inv(abs) && Inv(start) && abs == Run(start, before)
      requires abs == LoopHead(q, 0) && Agrees(q) && q.w.ready
      modifies `pending, `inFlight, `done, `work, `abs, pub`seqNo, pub`signalled, pub.shm, pub.shm.ring, pub.shm.head,
               pub.shm.data, pub.shm.masks, pub.shm.inUse
      ensures Valid() && abs == Run(start, steps) && nowReady == abs.w.ready
      ensures abs.w.pc == if ok then Waiting else Stopping(Failed)
      ensures signalled && (forall n: nat :: PublisherSide.AllWritable(pub.eventFds, faults(n))) ==> ok
      ensures SameTail(old(pub.shm.abs.log), pub.shm.abs.log, old(abs).published, abs.published)
      ensures pub.shm.abs.slots == old(pub.shm.abs.slots)
      ensures ok ==> Handed(Line(q), Line(abs), q.published, abs.published, q.done, abs.done)
      ensures ok ==> if !nowReady then WaitsForRoom(inFlight, pub.shm.abs) && work == old(work) else
                     if Line(abs) == [] then work == old(work) else work && |Line(q)| - |Line(abs)| == 64
      ensures !ok ==> (!signalled && Handed(Line(q), Line(abs), q.published, abs.published, q.done, abs.done)
                       && |Line(q)| - |Line(abs)| == 64)
                      || HandedAndOne(Line(q), Line(abs), q.published, abs.published, q.done, abs.done)
    {
      hide Inv, DataPlane, Apply, LoopHead, Run, SameTail, PublisherSide.AllWritable, NoRoom, Handed, HandedAndOne;
      var end;
      end, nowReady, steps := PublishLoop(faults, q, start, before);
      if end != More {
        return end.Idle?, nowReady, steps;
      }
      RunMore(start, steps, DoReschedule(signalled));
      steps := steps + [DoReschedule(signalled)];
      Reschedule(signalled);
      ok := signalled;
    }

    /** The worker's handler of the work event, run without a client or subscriber step in between. `ready` is
        the run loop's flag; the drain, the attempts and the final write of the event may fail.

        An event that cannot be read ends the worker; a publisher waiting for room with its message in flight does
        nothing. Otherwise the oldest messages are published and their promises fulfilled, until none is left, or the
        next one finds no room, or 64 were published and the event is written again. */
    method HandlePublishWorkEvent(ready: bool, drained: bool, faults: nat -> set<int>, signalled: bool)
      returns (ok: bool, nowReady: bool, ghost steps: seq<Step>)
      requires Valid() && abs.w.pc.Waiting? && ready == abs.w.ready
      modifies this, pub`seqNo, pub`signalled, pub.shm, pub.shm.ring, pub.shm.head, pub.shm.data, pub.shm.masks,
               pub.shm.inUse
      ensures Valid() && abs == Run(old(abs), steps) && nowReady == abs.w.ready
      ensures abs.w.pc == if ok then Waiting else Stopping(Failed)
      ensures drained && signalled && (forall n: nat :: PublisherSide.AllWritable(pub.eventFds, faults(n))) ==> ok
      ensures SameTail(old(pub.shm.abs.log), pub.shm.abs.log, old(abs).published, abs.published)
      ensures pub.shm.abs.slots == old(pub.shm.abs.slots)
      ensures !drained ==> !ok
      ensures !drained || old(HeldBack(ready)) ==>
        && nowReady == ready && pending == old(pending) && inFlight == old(inFlight) && done == old(done)
        && active == old(active) && abs.published == old(abs.published) && work == (old(work) && !drained)
      ensures drained && old(HeldBack(ready)) ==> ok
      ensures drained && !old(HeldBack(ready)) && ok ==>
        Handed(old(Outstanding(inFlight, pending)), Outstanding(inFlight, pending), old(abs.published), abs.published,
               old(done), done)
      ensures drained && !old(HeldBack(ready)) && ok ==>
        || (nowReady && Outstanding(inFlight, pending) == [] && !work)
        || (!nowReady && WaitsForRoom(inFlight, pub.shm.abs) && !work)
        || (nowReady && |old(Outstanding(inFlight, pending))| - |Outstanding(inFlight, pending)| == 64
            && Outstanding(inFlight, pending) != [] && work)
      ensures drained && !ok ==>
        || (!signalled && |old(Outstanding(inFlight, pending))| - |Outstanding(inFlight, pending)| == 64
            && Handed(old(Outstanding(inFlight, pending)), Outstanding(inFlight, pending), old(abs.published),
                      abs.published, old(done), done))
        || HandedAndOne(old(Outstanding(inFlight, pending)), Outstanding(inFlight, pending), old(abs.published),
                        abs.published, old(done), done)
    {
      hide Inv, DataPlane, Apply, LoopHead, Run, SameTail, PublisherSide.Publisher.Valid, PublisherSide.AllWritable,
           Handed, HandedAndOne, NoRoom;
      ghost var start := abs;
      nowReady := ready;
      NothingNew(pub.shm.abs.log, abs.published);
      if !drained {
        RunOne(start, DoWorkEvent(false));
        FailToDrain();
        return false, nowReady, [DoWorkEvent(false)];
      }
      RunOne(start, DoWorkEvent(true));
      RunMore(start, [DoWorkEvent(true)], DoLockAndLook);
      steps := [DoWorkEvent(true)] + [DoLockAndLook];
      ghost var pre;
      var idle;
      idle, pre := TakeWork(ready);
      if idle {
        return true, nowReady, steps;
      }
      ok, nowReady, steps := PublishAndReschedule(faults, signalled, pre, start, steps);
    }

    /** There is room for the message next in line. */
    ghost predicate RoomForNext()
      reads `inFlight, `pending, pub, pub.shm.Repr()
    {
      var line := Outstanding(inFlight, pending);
      && Pool.Shape(pub.shm.abs) && line != [] && PayloadFits(line[0])
      && Pool.CanPublish(pub.shm.abs, Pool.PayloadClass(line[0].payload))
    }

    /** The recheck: the size of the message next in line, taken under the mutex, and whether it has room now. */
    method CanPublishNextMessage() returns (room: bool)
      requires Valid()
      ensures room <==> RoomForNext()
      ensures room ==> Outstanding(inFlight, pending) != []
    {
      hide Inv, PublisherSide.Publisher.Valid, Pool.CanPublish, Pool.Shape;
      FirstFits(abs);
      var next := PublisherSide.Nothing;
      if inFlight.Flight? {
        next := PublisherSide.Candidate(|inFlight.msg.payload|);
      } else if pending != [] {
        next := PublisherSide.Candidate(|pending[0].payload|);
      }
      var r := pub.CanPublishNext(next);
      room := r.HasRoom?;
    }

    /** If there is room, take up publishing again: set the flag and write the work event. */
    method TakeUp(room: bool, ready: bool, signalled: bool, ghost start: Queue, ghost before: seq<Step>)
      returns (ok: bool, nowReady: bool, ghost steps: seq<Step>)
      requires Inv(abs) && Agrees(abs) && Inv(start) && abs == Run(start, before)
      requires abs.w.pc.Looking? && ready == abs.w.ready && (room ==> Outstanding(inFlight, pending) != [])
      modifies `work, `abs
      ensures Inv(abs) && Agrees(abs) && abs == Run(start, steps) && nowReady == abs.w.ready
      ensures abs.w.pc == if ok then Waiting else Stopping(Failed)
      ensures ok <==> !room || signalled
      ensures nowReady <==> ready || room
      ensures work <==> old(work) || (room && signalled)
    {
      hide Inv, Apply, Run, Outstanding;
      LookRun(start, before, abs, room, signalled);
      steps := before + LookSteps(room, signalled);
      abs := abs.(w := LookEnd(abs.w, room, signalled));
      if !room {
        return true, ready, steps;
      }
      work := work || signalled;
      ok, nowReady := signalled, true;
    }

    /** The worker's handler of the space event, run without a client or subscriber step in between. An event that
        cannot be read ends the worker; otherwise publishing is taken up again exactly if the message next in line has
        room. */
    method HandleSpaceAvailableEvent(ready: bool, drained: bool, signalled: bool)
      returns (ok: bool, nowReady: bool, ghost steps: seq<Step>)
      requires Valid() && abs.w.pc.Waiting? && ready == abs.w.ready
      modifies `work, `abs
      ensures Valid() && abs == Run(old(abs), steps) && nowReady == abs.w.ready
      ensures abs.w.pc == if ok then Waiting else Stopping(Failed)
      ensures ok <==> drained && (old(RoomForNext()) ==> signalled)
      ensures nowReady <==> ready || (drained && old(RoomForNext()))
      ensures work <==> old(work) || (drained && old(RoomForNext()) && signalled)
    {
      hide Inv, Apply, Run, DataPlane, RoomForNext, Outstanding;
      ghost var start := abs;
      var room := false;
      if drained {
        room := CanPublishNextMessage();
      }
      RunOne(start, DoRoomEvent(drained));
      RoomEventIs(start, drained);
      abs := Apply(start, DoRoomEvent(drained));
      if !drained {
        return false, ready, [DoRoomEvent(drained)];
      }
      ok, nowReady, steps := TakeUp(room, ready, signalled, start, [DoRoomEvent(drained)]);
    }

    /** Fulfil every outstanding promise; the queue itself is left as it is. */
    method CompleteOutstanding(how: Completion)
      requires Increasing(Outstanding(inFlight, pending)) && NoneIn(Outstanding(inFlight, pending), done)
      modifies `done
      ensures done == SettleAll(old(done), Outstanding(inFlight, pending), how)
    {
      hide SettleAll, Increasing, NoneIn, Outstanding;
      if inFlight.Flight? {
        FlightFirst(inFlight, pending);
        SettleFirst(done, inFlight.msg, pending, how);
        done := done[inFlight.msg.id := how];
      } else {
        NoFlightLine(pending);
      }
      done := SettleEach(done, pending, how);
    }
  }

  method SettleEach(done: map<nat, Completion>, msgs: seq<Message>, how: Completion) returns (r: map<nat, Completion>)
    requires Increasing(msgs) && NoneIn(msgs, done)
    ensures r == SettleAll(done, msgs, how)
  {
    hide SettleAll, Increasing, NoneIn;
    r := done;
    assert msgs[0..] == msgs;
    for i := 0 to |msgs|
      invariant Increasing(msgs[i..]) && NoneIn(msgs[i..], r)
        && SettleAll(r, msgs[i..], how) == SettleAll(done, msgs, how)
    {
      assert msgs[i..] == [msgs[i]] + msgs[i + 1..];
      SettleFirst(r, msgs[i], msgs[i + 1..], how);
      r := r[msgs[i].id := how];
    }
    SettleNone(r, msgs[|msgs|..], how);
  }

  lemma SettleNone(done: map<nat, Completion>, none: seq<Message>, how: Completion)
    requires none == []
    ensures Increasing(none) && NoneIn(none, done) && SettleAll(done, none, how) == done
  {
  }

  lemma SettleFirst(done: map<nat, Completion>, m: Message, msgs: seq<Message>, how: Completion)
    requires Increasing([m] + msgs) && NoneIn([m] + msgs, done)
    ensures m.id !in done && Increasing(msgs) && NoneIn(msgs, done[m.id := how])
    ensures SettleAll(done, [m] + msgs, how) == SettleAll(done[m.id := how], msgs, how)
  {
    var line := [m] + msgs;
    assert line[1..] == msgs && line[0] == m;
    SettledRest(line, done, how);
  }

  lemma SettledRest(line: seq<Message>, done: map<nat, Completion>, how: Completion)
    requires Increasing(line) && NoneIn(line, done) && line != []
    ensures line[0].id !in done && Increasing(line[1..]) && NoneIn(line[1..], done[line[0].id := how])
  {
  }

  /** What a publish leaves in the fields a client can touch. */
  lemma ClientFields(q: Queue, payload: seq<Byte>, signalled: bool)
    requires Inv(q)
    ensures Full(q) <==> |q.pending| + (if q.fly.Flight? then 1 else 0) >= MAX_OUTSTANDING
    ensures var r := Apply(q, DoClientPublish(payload, signalled));
            if Refuses(q, payload) then r == q
            else
              var rest := if Full(q) && !TakesFlight(q) && q.pending != [] then q.pending[1..] else q.pending;
              && r.fly == (if Full(q) && TakesFlight(q) then NoFlight else q.fly)
              && if signalled then
                   && r.pending == rest + [Message(|q.accepted|, payload)] && |r.accepted| == |q.accepted| + 1
                   && r.w.work && r.w.active
                      && r.done == if Full(q) then q.done[Victim(q).id := Overwritten] else q.done
                 else
                   && r.pending == (if Full(q) then [Victim(q)] + rest else rest) && r.accepted == q.accepted
                   && r.w == q.w && r.done == q.done
    ensures Full(q) ==> Victim(q) == if TakesFlight(q) then q.fly.msg else if q.pending != [] then q.pending[0]
      else q.fly.msg
    ensures Full(q) ==> q.pending != []
  {
    hide Inv, Outstanding;
    LineLengthIs(q.fly, q.pending);
    ClientPublishKeeps(q, payload, signalled);
  }

  lemma RefusalChangesNothing(q: Queue, payload: seq<Byte>, signalled: bool)
    requires Inv(q)
    ensures Refuses(q, payload) ==> Apply(q, DoClientPublish(payload, signalled)) == q
    ensures Refuses(q, payload) ==>
      ClientResult(q, payload, signalled) == if |payload| > MAX_PAYLOAD then PayloadTooLarge else WorkerExited
  {
    hide Inv;
  }

  lemma ShapeOfInit()
    ensures Pool.Shape(Pool.Init()) && Pool.Init().pub.Ready?
  {
  }

  lemma LineLengthIs(fly: Flight, pending: seq<Message>)
    ensures |Outstanding(fly, pending)| == |pending| + if fly.Flight? then 1 else 0
  {
  }

  /** The messages published since then are the entries logged since then. */
  ghost predicate SameTail(log: seq<Pool.Entry>, log': seq<Pool.Entry>, published: seq<Message>,
                           published': seq<Message>) {
    && log <= log' && published <= published' && |log'| - |log| == |published'| - |published|
    && forall i: nat | |log| <= i < |log'| :: log'[i].payload == published'[i - |log| + |published|].payload
  }

  predicate PayloadFits(msg: Message) {
    |msg.payload| <= MAX_PAYLOAD
  }

  lemma FirstFits(q: Queue)
    requires Inv(q)
    ensures Line(q) != [] ==> PayloadFits(Line(q)[0])
  {
    hide Outstanding, DoneOk, RingOk;
  }

  /** Looking up the message next in line, the verdict on it, and taking up publishing again if there is room. */
  function LookSteps(room: bool, signalled: bool): seq<Step> {
    if room then [DoLook, DoVerdict(true), DoResume(signalled)] else [DoLook, DoVerdict(false)]
  }

  function LookEnd(w: Worker, room: bool, signalled: bool): Worker {
    if !room then w.(pc := Waiting)
    else if signalled then w.(ready := true, work := true, pc := Waiting)
    else w.(ready := true, pc := Stopping(Failed))
  }

  lemma LookRun(start: Queue, before: seq<Step>, q: Queue, room: bool, signalled: bool)
    requires Inv(start) && Inv(q) && q == Run(start, before) && q.w.pc.Looking? && (room ==> Line(q) != [])
    ensures Run(start, before + LookSteps(room, signalled)) == q.(w := LookEnd(q.w, room, signalled))
    ensures Inv(q.(w := LookEnd(q.w, room, signalled)))
  {
    hide Inv, Apply, Run, Outstanding;
    var q1, two := Apply(q, DoLook), before + [DoLook] + [DoVerdict(room)];
    LookIs(q);
    LineIsNext(q);
    RunMore(start, before, DoLook);
    VerdictIs(q1, room);
    RunMore(start, before + [DoLook], DoVerdict(room));
    if room {
      ResumeIs(Apply(q1, DoVerdict(room)), signalled);
      RunMore(start, two, DoResume(signalled));
      assert two + [DoResume(signalled)] == before + LookSteps(room, signalled);
    } else {
      assert two == before + LookSteps(room, signalled);
    }
  }

  lemma LookIs(q: Queue)
    requires Inv(q) && q.w.pc.Looking?
    ensures Apply(q, DoLook) == q.(w := q.w.(pc := Checking(NextInLine(q))))
  {
    hide Inv;
  }

  lemma VerdictIs(q: Queue, room: bool)
    requires Inv(q) && q.w.pc.Checking? && (room ==> q.w.pc.candidate.First?)
    ensures Apply(q, DoVerdict(room)) ==
      q.(w := if room then q.w.(ready := true, pc := Resuming) else q.w.(pc := Waiting))
  {
    hide Inv;
  }

  lemma ResumeIs(q: Queue, signalled: bool)
    requires Inv(q) && q.w.pc.Resuming?
    ensures Apply(q, DoResume(signalled)) ==
      q.(w := if signalled then q.w.(work := true, pc := Waiting) else q.w.(pc := Stopping(Failed)))
  {
    hide Inv;
  }

  lemma RoomEventIs(q: Queue, handled: bool)
    requires Inv(q) && q.w.pc.Waiting?
    ensures Apply(q, DoRoomEvent(handled)) == q.(w := q.w.(pc := if handled then Looking else Stopping(Failed)))
  {
    hide Inv;
  }

  lemma LineIsNext(q: Queue)
    ensures NextInLine(q).First? <==> Line(q) != []
  {
  }

  predicate NoRoom(pool: Pool.State, payload: seq<Byte>) {
    Pool.Shape(pool) && |payload| <= MAX_PAYLOAD && !Pool.CanPublish(pool, Pool.PayloadClass(payload))
  }

  /** The in-flight message was refused for want of room. */
  predicate WaitsForRoom(fly: Flight, pool: Pool.State) {
    fly.Flight? && fly.blocked && NoRoom(pool, fly.msg.payload)
  }

  /** Of the messages in `line` all but `rest`, the first ones, entered the ring and were completed as Published; the
      others are still outstanding, and nothing else was completed. */
  ghost predicate Handed(line: seq<Message>, rest: seq<Message>, published: seq<Message>, published': seq<Message>,
                         done: map<nat, Completion>, done': map<nat, Completion>) {
    && |rest| <= |line| && rest == line[|line| - |rest|..] && published' == published + line[..|line| - |rest|]
    && (forall id: nat {:trigger id in done'} ::
      id in done' <==> id in done || InLineAt(line[..|line| - |rest|], id))
    && forall id: nat | id in done' :: done'[id] == if id in done then done[id] else Published
  }

  /** So they did, and then one more entered the ring and was not completed. */
  ghost predicate HandedAndOne(line: seq<Message>, rest: seq<Message>, published: seq<Message>,
                               published': seq<Message>, done: map<nat, Completion>, done': map<nat, Completion>) {
    && rest != [] && published' != [] && published'[|published'| - 1] == rest[0]
    && Handed(line, rest, published, published'[..|published'| - 1], done, done')
  }

  lemma HandedNone(line: seq<Message>, published: seq<Message>, done: map<nat, Completion>)
    ensures Handed(line, line, published, published, done, done)
  {
    assert line[..0] == [];
    assert forall id: nat :: !InLineAt(line[..0], id);
  }

  /** The first in line entered the ring and was completed as Published. */
  ghost predicate Lands(q: Queue, r: Queue) {
    && Line(q) != [] && Line(q)[0].id !in q.done && Line(r) == Line(q)[1..]
    && r.published == q.published + [Line(q)[0]] && r.done == q.done[Line(q)[0].id := Published]
  }

  /** The first in line is in flight, and nothing was completed. */
  ghost predicate Stays(q: Queue, r: Queue, blocked: bool) {
    Line(q) != [] && Line(r) == Line(q) && r.done == q.done && r.fly == Flight(Line(q)[0], blocked)
  }

  lemma LandedHanded(line: seq<Message>, rest: seq<Message>, published: seq<Message>, published': seq<Message>,
                     done: map<nat, Completion>, done': map<nat, Completion>)
    requires Handed(line, rest, published, published', done, done') && rest != [] && rest[0].id !in done'
    ensures Handed(line, rest[1..], published, published' + [rest[0]], done, done'[rest[0].id := Published])
  {
    var n := |line| - |rest|;
    var m := rest[0];
    assert line[..n + 1] == line[..n] + [m];
    forall id: nat
      ensures InLineAt(line[..n + 1], id) <==> InLineAt(line[..n], id) || id == m.id
    {
      OneMoreInLine(line[..n], m, id);
    }
  }

  lemma OneMoreInLine(msgs: seq<Message>, m: Message, id: nat)
    ensures InLineAt(msgs + [m], id) <==> InLineAt(msgs, id) || id == m.id
  {
    assert (msgs + [m])[|msgs|] == m;
    if i: nat :| i < |msgs| && msgs[i].id == id {
      assert (msgs + [m])[i].id == id;
    }
  }

  /** What one turn adds to what was handed to the ring before. */
  lemma HandedOne(q: Queue, was: Queue, pre: Queue, r: Queue, outcome: Outcome)
    requires Handed(Line(q), Line(was), q.published, was.published, q.done, was.done)
    requires outcome == Succeeded ==> Lands(was, pre)
    requires outcome == Blocked ==> Stays(was, r, true) && r.published == was.published
    requires outcome == FailedAfter ==> Stays(was, r, false) && r.published == was.published + [Line(was)[0]]
    ensures outcome == Succeeded ==>
      && Handed(Line(q), Line(pre), q.published, pre.published, q.done, pre.done) && |Line(was)| == |Line(pre)| + 1
    ensures outcome == Blocked ==>
      && Handed(Line(q), Line(r), q.published, r.published, q.done, r.done)
      && r.fly.Flight? && r.fly.blocked && r.fly.msg == Line(was)[0]
    ensures outcome == FailedAfter ==> HandedAndOne(Line(q), Line(r), q.published, r.published, q.done, r.done)
  {
    hide Handed, Outstanding;
    if outcome == Succeeded {
      LandedHanded(Line(q), Line(was), q.published, was.published, q.done, was.done);
    } else if outcome == FailedAfter {
      assert r.published[..|r.published| - 1] == was.published;
    }
  }

  lemma LineIsEmpty(q: Queue)
    ensures Line(q) == [] <==> q.pending == [] && q.fly.NoFlight?
  {
  }

  lemma NothingNew(log: seq<Pool.Entry>, published: seq<Message>)
    ensures SameTail(log, log, published, published)
  {
  }

  function LandedQueue(q: Queue): Queue
    requires q.w.pc.Attempting? && q.fly.Flight? && q.fly.msg.id !in q.done
  {
    LandedState(Attempt(q, Succeeded))
  }

  /** `r` is where the loop's head takes the worker after the attempt in `q` succeeded. */
  ghost predicate AfterSuccess(q: Queue, r: Queue) {
    && q.w.pc.Attempting? && q.fly.Flight? && q.fly.msg.id !in q.done
    && LandedQueue(q).w.ready && r == LoopHead(LandedQueue(q), q.w.pc.n + 1)
  }

  lemma Succeeding(q: Queue, r: Queue)
    requires AfterSuccess(q, r)
    ensures q.w.pc.Attempting? && q.fly.Flight? && q.fly.msg.id !in q.done
    ensures LandedQueue(q).w.ready && r == LoopHead(LandedQueue(q), q.w.pc.n + 1)
  {
  }

  /** An attempt logs one entry with the payload, or none. */
  ghost predicate Logged(log: seq<Pool.Entry>, log': seq<Pool.Entry>, succeeded: bool, payload: seq<Byte>) {
    if succeeded then |log'| == |log| + 1 && log <= log' && log'[|log|].payload == payload else log' == log
  }

  lemma OneMoreLogged(log: seq<Pool.Entry>, log': seq<Pool.Entry>, published: seq<Message>, m: Message)
    ensures Logged(log, log', true, m.payload) ==> SameTail(log, log', published, published + [m])
    ensures Logged(log, log', false, m.payload) ==> SameTail(log, log', published, published)
  {
  }

  lemma TailsAdd(log: seq<Pool.Entry>, log': seq<Pool.Entry>, log'': seq<Pool.Entry>,
                 published: seq<Message>, published': seq<Message>, published'': seq<Message>)
    requires SameTail(log, log', published, published') && SameTail(log', log'', published', published'')
    ensures SameTail(log, log'', published, published'')
  {
    forall i: nat | |log| <= i < |log''|
      ensures log''[i].payload == published''[i - |log| + |published|].payload
    {
      if i < |log'| {
        assert log''[i] == log'[i] && published''[i - |log| + |published|] == published'[i - |log| + |published|];
      }
    }
  }

  lemma PublishedLog(a: Pool.State, payload: seq<Byte>)
    requires Pool.Inv(a) && Pool.Shape(a) && a.pub.Ready? && |payload| <= MAX_PAYLOAD
    requires Pool.CanPublish(a, Pool.PayloadClass(payload))
    ensures a.free[Pool.PayloadClass(payload)][0] < CHUNKS
    ensures var b := Pool.Publish(a, payload);
            && |b.log| == |a.log| + 1 && a.log <= b.log && b.log[|a.log|].payload == payload && b.slots == a.slots
  {
    hide Pool.Inv;
    PoolInvariant.PublishKeeps(a, payload);
  }

  lemma PubState(pub: PublisherSide.Publisher)
    requires pub.Valid()
    ensures Pool.Inv(pub.shm.abs) && Pool.Shape(pub.shm.abs)
  {
    hide Pool.Inv;
  }

  // ---------- What the steps do to the fields ----------

  lemma TurnSteps(q: Queue, steps: seq<Step>, outcome: Outcome)
    requires Inv(q)
    ensures Run(q, steps + StepsOf(outcome)) == AfterAttempt(Run(q, steps), outcome)
  {
    hide Inv, Apply, Run;
    RunMore(q, steps, DoAttempt(outcome));
    if !outcome.FailedAfter? {
      assert steps + [DoAttempt(outcome), DoRelock] == steps + [DoAttempt(outcome)] + [DoRelock];
      RunMore(q, steps + [DoAttempt(outcome)], DoRelock);
    }
  }

  lemma WorkEventFields(q: Queue, drained: bool)
    requires Inv(q) && q.w.pc.Waiting?
    ensures Apply(q, DoWorkEvent(drained))
         == q.(w := if drained then q.w.(work := false, pc := WorkDrained) else q.w.(pc := Stopping(Failed)))
  {
    hide Inv;
  }

  lemma LockFields(q: Queue)
    requires Inv(q) && q.w.pc.WorkDrained?
    ensures Apply(q, DoLockAndLook).published == q.published && Apply(q, DoLockAndLook).done == q.done
    ensures Apply(q, DoLockAndLook)
         == if !q.w.ready && TakesFlight(q) then q.(w := q.w.(pc := Waiting))
           else LoopHead(q.(w := q.w.(ready := true)), 0)
  {
    hide Inv;
  }

  lemma AttemptFields(q: Queue, n: nat)
    requires n < MAX_PER_EVENT && (q.pending != [] || q.fly.Flight?)
    ensures var r := LoopHead(q, n);
            var m := if q.fly.Flight? then q.fly.msg else q.pending[0];
            && r.fly == Flight(m, false) && r.pending == (if q.fly.Flight? then q.pending else q.pending[1..])
            && r.w == q.w.(pc := Attempting(n, m))
            && r.done == q.done && r.accepted == q.accepted && r.published == q.published
  {
  }

  lemma FlightFits(q: Queue)
    requires Inv(q) && q.fly.Flight?
    ensures |q.fly.msg.payload| <= MAX_PAYLOAD
  {
    hide DoneOk, RingOk, LandedOk, AheadOk;
    assert Line(q)[0] == q.fly.msg;
  }

  lemma BlockedFields(q: Queue)
    requires Inv(q) && q.w.pc.Attempting?
    ensures var r := Apply(Apply(q, DoAttempt(Blocked)), DoRelock);
            && q.fly.Flight? && r.fly == Flight(q.fly.msg, true) && r.w == q.w.(ready := false, pc := Waiting)
            && r.pending == q.pending && r.done == q.done && r.accepted == q.accepted && r.published == q.published
  {
    hide Inv;
    FlightIsView(q);
  }

  lemma FailedFields(q: Queue)
    requires Inv(q) && q.w.pc.Attempting?
    ensures q.fly.Flight?
    ensures Apply(q, DoAttempt(FailedAfter))
         == q.(published := q.published + [q.fly.msg], inRing := true, w := q.w.(pc := Stopping(Failed)))
  {
    hide Inv;
    FlightIsView(q);
  }

  lemma SucceededFields(q: Queue)
    requires Inv(q) && q.w.pc.Attempting?
    ensures var r := Apply(Apply(q, DoAttempt(Succeeded)), DoRelock);
            && AfterSuccess(q, r) && r.published == q.published + [q.fly.msg]
    ensures q.fly.Flight? && q.fly.msg.id !in q.done
    ensures var pre := LandedQueue(q);
            && pre.fly == NoFlight && pre.pending == q.pending && pre.done == q.done[q.fly.msg.id := Published]
            && pre.accepted == q.accepted && pre.w.active == q.w.active && pre.w.work == q.w.work
  {
    hide Inv, LoopHead;
    FlightIsView(q);
    RelockKeeps(Apply(q, DoAttempt(Succeeded)));
    LoopHeadSame(LandedQueue(q), q.w.pc.n + 1);
  }

  /** The loop's head puts the first in line in flight. */
  lemma TurnStart(q: Queue, n: nat)
    requires n < MAX_PER_EVENT && (q.pending != [] || q.fly.Flight?)
    ensures var mid := LoopHead(q, n);
            && Line(q) != [] && mid.fly == Flight(Line(q)[0], false) && mid.w.pc.Attempting? && Line(mid) == Line(q)
            && mid.done == q.done && mid.published == q.published && mid.pending == Line(q)[1..]
  {
    AttemptFields(q, n);
    HeadOfLine(q);
    hide LoopHead, Outstanding;
    FlightFirst(LoopHead(q, n).fly, LoopHead(q, n).pending);
  }

  /** What an attempt on the first in line makes of the queue whose loop head it follows. */
  lemma TurnEffect(q: Queue, n: nat)
    requires n < MAX_PER_EVENT && (q.pending != [] || q.fly.Flight?) && Inv(LoopHead(q, n))
    ensures var mid := LoopHead(q, n);
            && mid.w.pc.Attempting? && mid.fly.Flight? && mid.fly.msg.id !in mid.done && Lands(q, LandedQueue(mid))
            && Stays(q, AfterAttempt(mid, FailedAfter), false)
            && AfterAttempt(mid, FailedAfter).published == q.published + [Line(q)[0]]
            && Stays(q, AfterAttempt(mid, Blocked), true) && AfterAttempt(mid, Blocked).published == q.published
  {
    hide Inv, LoopHead, Outstanding, Stays, Lands, AfterAttempt;
    TurnStart(q, n);
    LandingTurn(q, LoopHead(q, n));
    FailingTurn(q, LoopHead(q, n));
    BlockedTurn(q, LoopHead(q, n));
  }

  lemma LandingTurn(q: Queue, mid: Queue)
    requires Inv(mid) && mid.w.pc.Attempting? && Line(q) != [] && mid.fly == Flight(Line(q)[0], false)
    requires mid.done == q.done && mid.published == q.published && mid.pending == Line(q)[1..]
    ensures mid.fly.msg.id !in mid.done && Lands(q, LandedQueue(mid))
  {
    hide Inv, Outstanding;
    FlightIsView(mid);
    NoFlightLine(mid.pending);
  }

  lemma FailingTurn(q: Queue, mid: Queue)
    requires Inv(mid) && mid.w.pc.Attempting? && Line(q) != [] && mid.fly == Flight(Line(q)[0], false)
    requires mid.done == q.done && mid.published == q.published && Line(mid) == Line(q)
    ensures var r := AfterAttempt(mid, FailedAfter);
            Stays(q, r, false) && r.published == q.published + [Line(q)[0]]
  {
    hide Inv, Outstanding, Apply;
    FailedFields(mid);
  }

  lemma BlockedTurn(q: Queue, mid: Queue)
    requires Inv(mid) && mid.w.pc.Attempting? && Line(q) != [] && mid.fly == Flight(Line(q)[0], false)
    requires mid.done == q.done && mid.published == q.published && Line(mid) == Line(q)
    ensures var r := AfterAttempt(mid, Blocked); Stays(q, r, true) && r.published == q.published
  {
    hide Inv, Outstanding, Apply;
    BlockedFields(mid);
    FlightFirst(mid.fly, mid.pending);
  }

  lemma HeadOfLine(q: Queue)
    requires q.pending != [] || q.fly.Flight?
    ensures Line(q) == if q.fly.Flight? then [q.fly.msg] + q.pending else [q.pending[0]] + q.pending[1..]
  {
  }

  lemma ExitFields(q: Queue, n: nat)
    requires !(n < MAX_PER_EVENT && (q.pending != [] || q.fly.Flight?)) && q.w.ready
    ensures LoopHead(q, n) == q.(w := q.w.(pc := if q.pending == [] && !q.fly.Flight? then Waiting else Rescheduling))
  {
  }

  lemma RescheduleFields(q: Queue, signalled: bool)
    requires Inv(q) && q.w.pc.Rescheduling?
    ensures Apply(q, DoReschedule(signalled))
         == q.(w := if signalled then q.w.(work := true, pc := Waiting) else q.w.(pc := Stopping(Failed)))
  {
    hide Inv;
  }
}

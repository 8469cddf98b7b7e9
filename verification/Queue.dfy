/** The asynchronous publish queue and its worker thread as a state machine.

    One step is one region the code runs without a chance for another thread to come between: a
    critical section of the queue's mutex, one event read or write, one publish attempt (made with
    the mutex released), one atomic store. Client threads publish between any two of them.
    `accepted`, `done`, `published`, `refused`, `inRing` and `settled` record history. */
module PublishQueue {
  import opened Layout
  import opened Bytes

  const MAX_OUTSTANDING := 64
  const MAX_PER_EVENT := 64

  datatype Message = Message(id: nat, payload: seq<Byte>)
  datatype Flight = NoFlight | Flight(msg: Message, blocked: bool)
  datatype Completion = Published | Overwritten | WorkerStopped | WorkerFailed
  datatype Exit = Clean | Failed
  datatype Intent = Destroy | Transfer
  datatype InLine = Nobody | First(msg: Message)
  datatype Outcome = Succeeded | Blocked | FailedBefore | FailedAfter
  datatype PublishResult = PayloadTooLarge | WorkerExited | NotificationFailed | Enqueued(id: nat)
    | EnqueuedOverOldest(id: nat)

  /** Where the worker stands.
      WorkDrained: the work event is read, the mutex not yet taken. Attempting and Attempted: mutex
      released, before and after the attempt on `view`. Rescheduling: about to write the work event.
      Looking and Checking: a space or broker event is handled, before and after the message next in
      line is looked up. Resuming: room was found, about to write the work event. Stopping: the run
      loop is left; Inactive: and clients can see it; Exited: and the thread is done. */
  datatype Pc =
    | Waiting
    | WorkDrained
    | Attempting(n: nat, view: Message)
    | Attempted(n: nat, view: Message, succeeded: bool)
    | Rescheduling
    | Looking
    | Checking(candidate: InLine)
    | Resuming
    | Stopping(exit: Exit)
    | Inactive(exit: Exit)
    | Exited(exit: Exit)

  datatype Worker = Worker(
    active: bool,                // run_thread_active_
    work: bool,                  // the work event is signalled
    ready: bool,                 // publisher_ready
    pc: Pc,
    stop: Intent,
    shutdown: bool)              // the shutdown event is signalled

  datatype Queue = Queue(
    pending: seq<Message>,
    fly: Flight,
    w: Worker,
    accepted: seq<Message>,      // in the order publish accepted them
    done: map<nat, Completion>,  // fulfilled promises, by message
    published: seq<Message>,     // in the order they entered the ring
    refused: int,                // the last message an attempt found blocked, or -1
    inRing: bool,                // the in-flight message is in the ring
    settled: bool)               // a finished worker completed what was outstanding

  function Outstanding(fly: Flight, pending: seq<Message>): seq<Message> {
    (if fly.Flight? then [fly.msg] else []) + pending
  }

  function NextInLine(q: Queue): InLine {
    if q.fly.Flight? then First(q.fly.msg) else if q.pending != [] then First(q.pending[0]) else Nobody
  }

  /** Fulfil one promise; fulfilling it twice is an error the code must never make. */
  function Settle(done: map<nat, Completion>, id: nat, how: Completion): map<nat, Completion>
    requires id !in done
  {
    done[id := how]
  }

  ghost predicate InLineAt(line: seq<Message>, id: nat) {
    exists i: nat :: i < |line| && line[i].id == id
  }

  lemma FirstInLine(msgs: seq<Message>, id: nat)
    requires msgs != []
    ensures InLineAt(msgs, id) <==> id == msgs[0].id || InLineAt(msgs[1..], id)
  {
    var rest := msgs[1..];
    if i: nat :| i < |msgs| && msgs[i].id == id {
      assert i > 0 ==> rest[i - 1].id == id;
    }
    if i: nat :| i < |rest| && rest[i].id == id {
      assert msgs[i + 1].id == id;
    }
  }

  ghost predicate NoneIn(msgs: seq<Message>, done: map<nat, Completion>) {
    forall i: nat | i < |msgs| :: msgs[i].id !in done
  }

  /** In order, the oldest first. */
  ghost function SettleAll(done: map<nat, Completion>, msgs: seq<Message>, how: Completion): (r: map<nat, Completion>)
    requires Increasing(msgs) && NoneIn(msgs, done)
    ensures forall id: nat {:trigger id in r} :: id in r <==> id in done || InLineAt(msgs, id)
    ensures forall id: nat | id in r :: r[id] == if id in done then done[id] else how
    decreases |msgs|
  {
    if msgs == [] then done
    else
      assert forall id: nat :: InLineAt(msgs, id) <==> id == msgs[0].id || InLineAt(msgs[1..], id) by {
        forall id: nat ensures InLineAt(msgs, id) <==> id == msgs[0].id || InLineAt(msgs[1..], id) {
          FirstInLine(msgs, id);
        }
      }
      SettleAll(Settle(done, msgs[0].id, how), msgs[1..], how)
  }

  ghost predicate Increasing(msgs: seq<Message>) {
    forall i, j | 0 <= i < j < |msgs| :: msgs[i].id < msgs[j].id
  }

  // ---------- Clients ----------

  predicate Full(q: Queue) {
    |Outstanding(q.fly, q.pending)| >= MAX_OUTSTANDING
  }

  /** The in-flight message is overwritten only while it is blocked; otherwise the oldest pending one is. */
  predicate TakesFlight(q: Queue) {
    q.fly.Flight? && q.fly.blocked
  }

  function Victim(q: Queue): Message
    requires Full(q)
  {
    if TakesFlight(q) then q.fly.msg else q.pending[0]
  }

  function WithoutVictim(q: Queue): Queue
    requires Full(q)
  {
    if TakesFlight(q) then q.(fly := NoFlight) else q.(pending := q.pending[1..])
  }

  predicate Refuses(q: Queue, payload: seq<Byte>) {
    |payload| > MAX_PAYLOAD || !q.w.active
  }

  /** `publish`, with the mutex held throughout; `signalled` is whether the work event could be written. */
  function ClientPublish(q: Queue, payload: seq<Byte>, signalled: bool): Queue
    requires !Refuses(q, payload) && Full(q) ==> Victim(q).id !in q.done
  {
    if Refuses(q, payload) then q
    else if !signalled then
      if Full(q) then WithoutVictim(q).(pending := [Victim(q)] + WithoutVictim(q).pending) else q
    else
      var m := Message(|q.accepted|, payload);
      var r := if Full(q) then WithoutVictim(q) else q;
      r.(pending := r.pending + [m], w := q.w.(work := true), accepted := q.accepted + [m],
         done := if Full(q) then Settle(q.done, Victim(q).id, Overwritten) else q.done)
  }

  function ClientResult(q: Queue, payload: seq<Byte>, signalled: bool): PublishResult {
    if |payload| > MAX_PAYLOAD then PayloadTooLarge
    else if !q.w.active then WorkerExited
    else if !signalled then NotificationFailed
    else if Full(q) then EnqueuedOverOldest(|q.accepted|)
    else Enqueued(|q.accepted|)
  }

  // ---------- The worker: steps that touch no message ----------

  /** `stop_run_thread` up to the join. */
  function RequestStop(w: Worker, intent: Intent): Worker {
    if w.active then w.(stop := intent, shutdown := true) else w
  }

  /** The new owner starts a worker on the queue it took over. */
  function Restart(w: Worker): Worker {
    w.(active := true, ready := true, pc := Waiting, stop := Destroy, shutdown := false)
  }

  function Fails(w: Worker): Worker {
    w.(pc := Stopping(Failed))
  }

  function WorkEvent(w: Worker, drained: bool): Worker {
    if drained then w.(work := false, pc := WorkDrained) else Fails(w)
  }

  function Reschedule(w: Worker, signalled: bool): Worker {
    if signalled then w.(work := true, pc := Waiting) else Fails(w)
  }

  /** A space event, or a broker event whose control messages are processed. */
  function RoomEvent(w: Worker, handled: bool): Worker {
    if handled then w.(pc := Looking) else Fails(w)
  }

  function Verdict(w: Worker, hasRoom: bool): Worker
    requires w.pc.Checking?
  {
    if w.pc.candidate.First? && hasRoom then w.(ready := true, pc := Resuming) else w.(pc := Waiting)
  }

  function Resume(w: Worker, signalled: bool): Worker {
    if signalled then w.(work := true, pc := Waiting) else Fails(w)
  }

  function ShutdownEvent(w: Worker, drained: bool): Worker {
    if drained then w.(shutdown := false, pc := Stopping(Clean)) else Fails(w)
  }

  function Deactivate(w: Worker): Worker
    requires w.pc.Stopping?
  {
    w.(active := false, pc := Inactive(w.pc.exit))
  }

  // ---------- The worker: steps that handle messages ----------

  /** The head of the publish loop and what follows its exit, within one critical section. */
  function LoopHead(q: Queue, n: nat): Queue {
    if n < MAX_PER_EVENT && (q.pending != [] || q.fly.Flight?) then
      var msg := if q.fly.Flight? then q.fly.msg else q.pending[0];
      q.(fly := Flight(msg, false), pending := if q.fly.Flight? then q.pending else q.pending[1..],
         w := q.w.(pc := Attempting(n, msg)))
    else if !q.w.ready || (q.pending == [] && !q.fly.Flight?) then q.(w := q.w.(pc := Waiting))
    else q.(w := q.w.(pc := Rescheduling))
  }

  function LockAndLook(q: Queue): Queue {
    if !q.w.ready && TakesFlight(q) then q.(w := q.w.(pc := Waiting))
    else LoopHead(q.(w := q.w.(ready := true)), 0)
  }

  /** One publish attempt. FailedAfter: the message is in the ring, but a reader could not be signalled. */
  function Attempt(q: Queue, outcome: Outcome): Queue
    requires q.w.pc.Attempting?
  {
    var entered := if outcome.Succeeded? || outcome.FailedAfter?
                   then q.(published := q.published + [q.w.pc.view], inRing := true) else q;
    entered.(w := if outcome.Succeeded? || outcome.Blocked?
                  then q.w.(pc := Attempted(q.w.pc.n, q.w.pc.view, outcome.Succeeded?)) else Fails(q.w))
  }

  function Relock(q: Queue): Queue
    requires q.w.pc.Attempted? && q.fly.Flight? && q.fly.msg.id !in q.done
  {
    if !q.w.pc.succeeded then
      q.(w := q.w.(ready := false, pc := Waiting), fly := q.fly.(blocked := true), refused := q.fly.msg.id)
    else
      LoopHead(q.(done := Settle(q.done, q.fly.msg.id, Published), fly := NoFlight, inRing := false), q.w.pc.n + 1)
  }

  /** Whatever is outstanding is completed, unless the queue is about to move to a new owner. */
  ghost function Finish(q: Queue): Queue
    requires q.w.pc.Inactive?
    requires Increasing(Outstanding(q.fly, q.pending))
    requires NoneIn(Outstanding(q.fly, q.pending), q.done)
  {
    var completes := q.w.pc.exit.Failed? || q.w.stop != Transfer;
    var how := if q.w.pc.exit.Failed? then WorkerFailed else WorkerStopped;
    q.(done := if completes then SettleAll(q.done, Outstanding(q.fly, q.pending), how) else q.done,
       settled := completes, w := q.w.(pc := Exited(q.w.pc.exit)))
  }

  // ---------- Steps and runs ----------

  datatype Step =
    | DoClientPublish(payload: seq<Byte>, signalled: bool)
    | DoRequestStop(intent: Intent)
    | DoRestart
    | DoWorkEvent(drained: bool)
    | DoLockAndLook
    | DoAttempt(outcome: Outcome)
    | DoRelock
    | DoReschedule(signalled: bool)
    | DoRoomEvent(handled: bool)
    | DoLook
    | DoVerdict(hasRoom: bool)
    | DoResume(signalled: bool)
    | DoShutdownEvent(drained: bool)
    | DoWaitFails
    | DoDeactivate
    | DoFinish

  predicate Enabled(q: Queue, step: Step) {
    match step
    case DoClientPublish(_, _) => true
    case DoRequestStop(_) => true
    case DoRestart => q.w.pc == Exited(Clean) && q.w.stop == Transfer
    case DoWorkEvent(_) => q.w.pc.Waiting?
    case DoLockAndLook => q.w.pc.WorkDrained?
    case DoAttempt(_) => q.w.pc.Attempting?
    case DoRelock => q.w.pc.Attempted?
    case DoReschedule(_) => q.w.pc.Rescheduling?
    case DoRoomEvent(_) => q.w.pc.Waiting?
    case DoLook => q.w.pc.Looking?
    case DoVerdict(_) => q.w.pc.Checking?
    case DoResume(_) => q.w.pc.Resuming?
    case DoShutdownEvent(_) => q.w.pc.Waiting? && q.w.shutdown
    case DoWaitFails => q.w.pc.Waiting?
    case DoDeactivate => q.w.pc.Stopping?
    case DoFinish => q.w.pc.Inactive?
  }

  // ---------- Invariant ----------

  ghost predicate AcceptedOk(accepted: seq<Message>) {
    forall i: nat | i < |accepted| :: accepted[i].id == i && |accepted[i].payload| <= MAX_PAYLOAD
  }

  /** What is outstanding was accepted, in this order, and is at most 64 messages. */
  ghost predicate LineOk(line: seq<Message>, accepted: seq<Message>) {
    && |line| <= MAX_OUTSTANDING && Increasing(line)
    && forall i: nat | i < |line| :: line[i].id < |accepted| && accepted[line[i].id] == line[i]
  }

  /** Every accepted message is outstanding or completed - not both, until a finished worker completed all. */
  ghost predicate DoneOk(line: seq<Message>, accepted: seq<Message>, done: map<nat, Completion>, settled: bool) {
    && (forall id | id in done :: id < |accepted|)
    && (forall id: nat | id < |accepted| :: id in done || InLineAt(line, id))
    && (!settled ==> forall i: nat | i < |line| :: line[i].id !in done)
    && (settled ==> forall id: nat | id < |accepted| :: id in done)
  }

  /** What entered the ring and is not in flight any more. */
  function Landed(published: seq<Message>, inRing: bool): seq<Message>
    requires inRing ==> published != []
  {
    if inRing then published[..|published| - 1] else published
  }

  /** Messages enter the ring in the order of acceptance, the last of them possibly still in flight. */
  ghost predicate RingOk(published: seq<Message>, inRing: bool, fly: Flight, accepted: seq<Message>) {
    && (inRing ==> published != [] && fly.Flight? && !fly.blocked && published[|published| - 1] == fly.msg)
    && Increasing(published)
    && forall i: nat | i < |published| :: published[i].id < |accepted| && accepted[published[i].id] == published[i]
  }

  /** The messages completed as Published are exactly those that landed. */
  ghost predicate LandedOk(landed: seq<Message>, done: map<nat, Completion>) {
    && (forall i: nat | i < |landed| :: landed[i].id in done && done[landed[i].id] == Published)
    && (forall id: nat | id in done && done[id] == Published :: InLineAt(landed, id))
  }

  /** What landed was accepted before everything outstanding. */
  ghost predicate AheadOk(landed: seq<Message>, line: seq<Message>) {
    forall i: nat, j: nat | i < |landed| && j < |line| :: landed[i].id < line[j].id
  }

  /** The worker's view of the in-flight message is that message, and only a failed worker leaves one in the ring. */
  ghost predicate WorkerOk(w: Worker, fly: Flight, inRing: bool, settled: bool) {
    var pc := w.pc;
    && (w.active <==> !pc.Inactive? && !pc.Exited?)
    && (pc.Attempting? ==> w.ready && pc.n < MAX_PER_EVENT && fly == Flight(pc.view, false) && !inRing)
    && (pc.Attempted? ==>
      w.ready && pc.n < MAX_PER_EVENT && fly == Flight(pc.view, false) && (inRing <==> pc.succeeded))
    && (inRing ==> pc.Attempted? || pc == Stopping(Failed) || pc == Inactive(Failed) || pc == Exited(Failed))
    && (settled ==> pc.Exited?)
    && (pc.Exited? ==> (settled <==> pc.exit.Failed? || w.stop != Transfer))
  }

  /** A message that a failing worker left in the ring is reported as failed. */
  ghost predicate LeftOk(settled: bool, inRing: bool, fly: Flight, done: map<nat, Completion>) {
    settled && inRing ==> fly.Flight? && fly.msg.id in done && done[fly.msg.id] == WorkerFailed
  }

  /** Between handlers, or leaving the run loop in good order. */
  predicate Quiet(pc: Pc) {
    || pc.Waiting? || pc.Looking? || pc.Checking?
    || pc == Stopping(Clean) || pc == Inactive(Clean) || pc == Exited(Clean)
  }

  /** No work is forgotten: the work event is pending, or the first message in line was refused for want of room. */
  ghost predicate SchedOk(pc: Pc, fly: Flight, line: seq<Message>, work: bool, refused: int) {
    && (fly.Flight? && fly.blocked ==> refused == fly.msg.id)
    && (Quiet(pc) && line != [] ==> work || refused == line[0].id)
    && (pc.Rescheduling? ==> line != [])
  }

  ghost predicate Inv(q: Queue) {
    var line := Outstanding(q.fly, q.pending);
    && AcceptedOk(q.accepted) && LineOk(line, q.accepted) && DoneOk(line, q.accepted, q.done, q.settled)
    && RingOk(q.published, q.inRing, q.fly, q.accepted)
    && LandedOk(Landed(q.published, q.inRing), q.done) && AheadOk(Landed(q.published, q.inRing), line)
    && WorkerOk(q.w, q.fly, q.inRing, q.settled)
    && SchedOk(q.w.pc, q.fly, line, q.w.work, q.refused) && LeftOk(q.settled, q.inRing, q.fly, q.done)
  }

  /** A new publisher: nothing queued, and the work event written once. */
  function Init(): Queue {
    Queue([], NoFlight, Worker(true, true, true, Waiting, Destroy, false), [], map[], [], -1, false, false)
  }

  lemma InitOk()
    ensures Inv(Init())
  {
  }
}

/** Every step of the publish queue and its worker keeps the invariant. */
module QueueInvariant {
  import opened Layout
  import opened Bytes
  import opened PublishQueue

  function Line(q: Queue): seq<Message> {
    Outstanding(q.fly, q.pending)
  }

  /** The part of the invariant that speaks of messages, not of the worker's position. */
  ghost predicate Core(q: Queue) {
    && AcceptedOk(q.accepted) && LineOk(Line(q), q.accepted) && DoneOk(Line(q), q.accepted, q.done, q.settled)
    && RingOk(q.published, q.inRing, q.fly, q.accepted)
    && LandedOk(Landed(q.published, q.inRing), q.done) && AheadOk(Landed(q.published, q.inRing), Line(q))
  }

  // ---------- The line ----------

  lemma FlightFirst(fly: Flight, pending: seq<Message>)
    requires fly.Flight?
    ensures Outstanding(fly, pending) == [fly.msg] + pending
    ensures forall b :: Outstanding(Flight(fly.msg, b), pending) == Outstanding(fly, pending)
  {
  }

  lemma NoFlightLine(pending: seq<Message>)
    ensures Outstanding(NoFlight, pending) == pending
    ensures pending != [] ==> forall b :: Outstanding(Flight(pending[0], b), pending[1..]) == pending
  {
  }

  function Removed(line: seq<Message>, v: nat): (r: seq<Message>)
    requires v < |line|
    ensures |r| == |line| - 1 && forall i: nat | i < |r| :: r[i] == line[if i < v then i else i + 1]
  {
    line[..v] + line[v + 1..]
  }

  /** A message leaves the line with its promise fulfilled. */
  lemma RemoveKeeps(line: seq<Message>, v: nat, accepted: seq<Message>, done: map<nat, Completion>, how: Completion)
    requires v < |line| && LineOk(line, accepted) && DoneOk(line, accepted, done, false)
    ensures line[v].id !in done
    ensures LineOk(Removed(line, v), accepted)
    ensures DoneOk(Removed(line, v), accepted, done[line[v].id := how], false)
  {
    hide Removed;
    var rest := Removed(line, v);
    forall id: nat | id < |accepted|
      ensures id in done[line[v].id := how] || InLineAt(rest, id)
    {
      if id !in done && id != line[v].id {
        var i: nat :| i < |line| && line[i].id == id;
        assert rest[if i < v then i else i - 1] == line[i];
      }
    }
  }

  lemma RemoveAhead(landed: seq<Message>, line: seq<Message>, v: nat)
    requires v < |line| && AheadOk(landed, line)
    ensures AheadOk(landed, Removed(line, v))
  {
    hide Removed;
  }

  /** A new message joins the line. */
  lemma AppendKeeps(line: seq<Message>, accepted: seq<Message>, done: map<nat, Completion>, m: Message)
    requires LineOk(line, accepted) && DoneOk(line, accepted, done, false) && AcceptedOk(accepted)
    requires |line| < MAX_OUTSTANDING && m.id == |accepted| && |m.payload| <= MAX_PAYLOAD
    ensures LineOk(line + [m], accepted + [m]) && AcceptedOk(accepted + [m])
    ensures DoneOk(line + [m], accepted + [m], done, false)
  {
    var line' := line + [m];
    forall id: nat | id < |accepted| + 1
      ensures id in done || InLineAt(line', id)
    {
      if id == |accepted| {
        assert line'[|line|].id == id;
      } else if id !in done {
        var i: nat :| i < |line| && line[i].id == id;
        assert line'[i] == line[i];
      }
    }
  }

  lemma AppendRing(published: seq<Message>, inRing: bool, fly: Flight, accepted: seq<Message>, line: seq<Message>,
                   m: Message)
    requires RingOk(published, inRing, fly, accepted) && AheadOk(Landed(published, inRing), line) && m.id == |accepted|
    ensures RingOk(published, inRing, fly, accepted + [m]) && AheadOk(Landed(published, inRing), line + [m])
  {
    var landed := Landed(published, inRing);
    forall i: nat, j: nat | i < |landed| && j < |line| + 1
      ensures landed[i].id < (line + [m])[j].id
    {
      assert landed[i] == published[i];
    }
  }

  // ---------- The worker's handlers ----------

  lemma LoopHeadKeeps(q: Queue, n: nat)
    requires Core(q) && q.w.active && q.w.ready && !q.inRing && !q.settled
    requires n < MAX_PER_EVENT || q.fly.NoFlight?
    ensures Inv(LoopHead(q, n))
  {
    hide LineOk, DoneOk, AcceptedOk, LandedOk, AheadOk, Outstanding, Landed;
    NoFlightLine(q.pending);
    if q.fly.Flight? {
      FlightFirst(q.fly, q.pending);
    }
    assert Line(LoopHead(q, n)) == Line(q);
  }

  lemma LockAndLookKeeps(q: Queue)
    requires Inv(q) && q.w.pc.WorkDrained?
    ensures Inv(LockAndLook(q))
  {
    hide LineOk, DoneOk, RingOk, AcceptedOk, LandedOk, AheadOk, LoopHead, Landed;
    if !q.w.ready && TakesFlight(q) {
      FlightFirst(q.fly, q.pending);
    } else {
      LoopHeadKeeps(q.(w := q.w.(ready := true)), 0);
    }
  }

  lemma EnterRing(q: Queue)
    requires Inv(q) && q.w.pc.Attempting?
    ensures RingOk(q.published + [q.w.pc.view], true, q.fly, q.accepted)
    ensures Landed(q.published + [q.w.pc.view], true) == Landed(q.published, q.inRing)
  {
    hide AcceptedOk, SchedOk, DoneOk, LandedOk;
    FlightFirst(q.fly, q.pending);
    assert Line(q)[0] == q.w.pc.view;
  }

  lemma AttemptKeeps(q: Queue, outcome: Outcome)
    requires Inv(q) && q.w.pc.Attempting?
    ensures Inv(Attempt(q, outcome))
  {
    EnterRing(q);
    hide LineOk, DoneOk, RingOk, AcceptedOk, LandedOk, AheadOk, Landed, Outstanding;
  }

  function LandedState(q: Queue): Queue
    requires q.fly.Flight? && q.fly.msg.id !in q.done
  {
    q.(done := Settle(q.done, q.fly.msg.id, Published), fly := NoFlight, inRing := false)
  }

  /** The attempt succeeded: the in-flight message leaves the line and its promise is fulfilled. */
  lemma LandKeeps(q: Queue)
    requires Inv(q) && q.w.pc.Attempted? && q.w.pc.succeeded
    ensures q.fly.Flight? && q.fly.msg.id !in q.done && Core(LandedState(q))
  {
    hide AcceptedOk, SchedOk, LineOk, DoneOk, AheadOk, LandedOk, Outstanding, Removed;
    var line := Line(q);
    FlightFirst(q.fly, q.pending);
    NoFlightLine(q.pending);
    RemoveKeeps(line, 0, q.accepted, q.done, Published);
    assert Removed(line, 0) == q.pending;
    LandOne(q.published, q.fly.msg, q.done);
    AheadOfRest(q.published, line, q.accepted);
  }

  lemma LandOne(published: seq<Message>, m: Message, done: map<nat, Completion>)
    requires published != [] && published[|published| - 1] == m && m.id !in done
    requires LandedOk(Landed(published, true), done)
    ensures LandedOk(Landed(published, false), done[m.id := Published])
  {
    var done', last, landed := done[m.id := Published], |published| - 1, Landed(published, true);
    forall i: nat | i < |published|
      ensures published[i].id in done' && done'[published[i].id] == Published
    {
      assert i < last ==> published[i] == landed[i];
    }
    forall id: nat | id in done' && done'[id] == Published
      ensures InLineAt(published, id)
    {
      if id == m.id {
        assert published[last].id == id;
      } else {
        var i: nat :| i < last && landed[i].id == id;
        assert published[i].id == id;
      }
    }
  }

  lemma AheadOfRest(published: seq<Message>, line: seq<Message>, accepted: seq<Message>)
    requires published != [] && line != [] && published[|published| - 1] == line[0] && LineOk(line, accepted)
    requires Increasing(published)
    ensures AheadOk(Landed(published, false), line[1..])
  {
  }

  lemma RelockKeeps(q: Queue)
    requires Inv(q) && q.w.pc.Attempted?
    ensures q.fly.Flight? && q.fly.msg.id !in q.done && Inv(Relock(q))
  {
    NotDone(q);
    hide LineOk, DoneOk, AcceptedOk, LandedOk, AheadOk, LoopHead, Outstanding, Landed;
    if q.w.pc.succeeded {
      LandKeeps(q);
      LoopHeadKeeps(LandedState(q), q.w.pc.n + 1);
    } else {
      FlightFirst(q.fly, q.pending);
    }
  }

  lemma NotDone(q: Queue)
    requires Inv(q) && !q.settled
    ensures forall i: nat | i < |Line(q)| :: Line(q)[i].id !in q.done
    ensures q.fly.Flight? ==> q.fly.msg.id !in q.done
  {
    hide RingOk, AheadOk, LandedOk, SchedOk, WorkerOk, Outstanding, LineOk;
    if q.fly.Flight? {
      FlightFirst(q.fly, q.pending);
      assert Line(q)[0] == q.fly.msg;
    }
  }

  // ---------- Clients ----------

  /** The place in line of the message that makes room: the first the worker does not hold. */
  function VictimAt(q: Queue): nat {
    if q.fly.Flight? && !q.fly.blocked then 1 else 0
  }

  lemma VictimInLine(q: Queue)
    requires Full(q)
    ensures VictimAt(q) < |Line(q)| && Line(q)[VictimAt(q)] == Victim(q)
    ensures Line(WithoutVictim(q)) == Removed(Line(q), VictimAt(q))
  {
  }

  /** A publish that cannot be announced leaves the same messages in the same order. */
  lemma RefusalRestores(q: Queue)
    requires Full(q)
    ensures var r := WithoutVictim(q).(pending := [Victim(q)] + WithoutVictim(q).pending);
            && Line(r) == Line(q) && (r.fly == q.fly || (q.fly.Flight? && q.fly.blocked && r.fly == NoFlight))
  {
    hide Full, Outstanding;
    PendingExists(q);
    if TakesFlight(q) {
      RestoredFlight(q.fly, q.pending);
    } else {
      RestoredPending(q.pending);
    }
  }

  lemma RestoredFlight(fly: Flight, pending: seq<Message>)
    requires fly.Flight?
    ensures Outstanding(NoFlight, [fly.msg] + pending) == Outstanding(fly, pending)
  {
  }

  lemma RestoredPending(pending: seq<Message>)
    requires pending != []
    ensures [pending[0]] + pending[1..] == pending
  {
  }

  lemma PendingExists(q: Queue)
    requires Full(q)
    ensures q.pending != []
  {
  }

  lemma RefusedKeeps(q: Queue)
    requires Inv(q) && q.w.active && Full(q)
    ensures Inv(WithoutVictim(q).(pending := [Victim(q)] + WithoutVictim(q).pending))
  {
    hide LineOk, DoneOk, AcceptedOk, LandedOk, AheadOk, Outstanding, Landed, Full;
    RefusalRestores(q);
  }

  /** The state after the victim is taken out and its promise fulfilled. */
  function Overwrite(q: Queue): Queue
    requires Full(q) && Victim(q).id !in q.done
  {
    WithoutVictim(q).(done := Settle(q.done, Victim(q).id, Overwritten))
  }

  lemma OverwriteKeeps(q: Queue)
    requires Inv(q) && q.w.active && Full(q)
    ensures Victim(q).id !in q.done
    ensures var r := Overwrite(q);
            && Core(r) && |Line(r)| < MAX_OUTSTANDING && !q.settled
            && WorkerOk(r.w, r.fly, r.inRing, r.settled)
            && (r.fly.Flight? ==> r.fly == q.fly && !r.fly.blocked)
            && r.accepted == q.accepted
  {
    hide AcceptedOk, LineOk, DoneOk, AheadOk, LandedOk, Outstanding, Removed, Landed, Full;
    VictimInLine(q);
    LineLength(Line(q), q.accepted);
    RemoveKeeps(Line(q), VictimAt(q), q.accepted, q.done, Overwritten);
    RemoveAhead(Landed(q.published, q.inRing), Line(q), VictimAt(q));
    LandedAside(Landed(q.published, q.inRing), q.done, Victim(q).id, Overwritten);
  }

  lemma LineLength(line: seq<Message>, accepted: seq<Message>)
    requires LineOk(line, accepted)
    ensures |line| <= MAX_OUTSTANDING
  {
  }

  lemma LandedAside(landed: seq<Message>, done: map<nat, Completion>, id: nat, how: Completion)
    requires LandedOk(landed, done) && id !in done && how != Published
    ensures LandedOk(landed, done[id := how])
  {
  }

  lemma EnqueueKeeps(q: Queue, payload: seq<Byte>)
    requires Core(q) && |Line(q)| < MAX_OUTSTANDING && !q.settled && |payload| <= MAX_PAYLOAD
    requires WorkerOk(q.w, q.fly, q.inRing, q.settled)
    requires q.fly.Flight? && q.fly.blocked ==> q.refused == q.fly.msg.id
    ensures var m := Message(|q.accepted|, payload);
            Inv(q.(pending := q.pending + [m], w := q.w.(work := true), accepted := q.accepted + [m]))
  {
    hide AcceptedOk, LineOk, DoneOk, AheadOk, LandedOk, Landed, RingOk;
    var m := Message(|q.accepted|, payload);
    assert Outstanding(q.fly, q.pending + [m]) == Line(q) + [m];
    AppendKeeps(Line(q), q.accepted, q.done, m);
    AppendRing(q.published, q.inRing, q.fly, q.accepted, Line(q), m);
  }

  lemma ClientPublishKeeps(q: Queue, payload: seq<Byte>, signalled: bool)
    requires Inv(q)
    ensures !Refuses(q, payload) && Full(q) ==> Victim(q).id !in q.done
    ensures Inv(ClientPublish(q, payload, signalled))
  {
    hide AcceptedOk, LineOk, DoneOk, AheadOk, LandedOk, RingOk, Landed, Outstanding;
    if !Refuses(q, payload) {
      if Full(q) {
        OverwriteKeeps(q);
        if signalled {
          EnqueueKeeps(Overwrite(q), payload);
        } else {
          RefusedKeeps(q);
        }
      } else if signalled {
        EnqueueKeeps(q, payload);
      }
    }
  }

  // ---------- The end of a worker ----------

  lemma FinishKeeps(q: Queue)
    requires Inv(q) && q.w.pc.Inactive?
    ensures Increasing(Line(q)) && NoneIn(Line(q), q.done)
    ensures Inv(Finish(q))
  {
    hide AcceptedOk, AheadOk, LandedOk, Landed, Outstanding, DoneOk, LineOk, SettleAll;
    NotDone(q);
    InOrder(Line(q), q.accepted);
    var r := Finish(q);
    if r.settled {
      SettledAll(Line(q), q.accepted, q.done, r.done);
      LandedAfter(Landed(q.published, q.inRing), q.done, r.done);
      LeftBehind(q, r.done);
    }
  }

  lemma LeftBehind(q: Queue, done: map<nat, Completion>)
    requires Inv(q) && q.w.pc.Inactive?
    requires forall id: nat {:trigger id in done} :: id in done <==> id in q.done || InLineAt(Line(q), id)
    requires q.w.pc.exit.Failed? ==> forall id: nat | id in done && id !in q.done :: done[id] == WorkerFailed
    ensures LeftOk(true, q.inRing, q.fly, done)
  {
    hide AcceptedOk, AheadOk, LandedOk, Landed, DoneOk, LineOk;
    NotDone(q);
    if q.fly.Flight? {
      assert Line(q)[0] == q.fly.msg;
    }
  }

  lemma InOrder(line: seq<Message>, accepted: seq<Message>)
    requires LineOk(line, accepted)
    ensures Increasing(line)
  {
  }

  lemma SettledAll(line: seq<Message>, accepted: seq<Message>, done: map<nat, Completion>, done': map<nat, Completion>)
    requires LineOk(line, accepted) && DoneOk(line, accepted, done, false)
    requires forall id: nat {:trigger id in done'} :: id in done' <==> id in done || InLineAt(line, id)
    ensures DoneOk(line, accepted, done', true)
  {
    forall id: nat | id < |accepted|
      ensures id in done'
    {
    }
  }

  lemma LandedAfter(landed: seq<Message>, done: map<nat, Completion>, done': map<nat, Completion>)
    requires LandedOk(landed, done)
    requires forall id: nat | id in done' :: if id in done then done'[id] == done[id] else done'[id] != Published
    requires forall id: nat | id in done :: id in done'
    ensures LandedOk(landed, done')
  {
  }

  // ---------- Steps that touch no message ----------

  lemma FlagsKeep(q: Queue, w: Worker)
    requires Inv(q) && WorkerOk(w, q.fly, q.inRing, q.settled) && SchedOk(w.pc, q.fly, Line(q), w.work, q.refused)
    ensures Inv(q.(w := w))
  {
    hide AcceptedOk, LineOk, DoneOk, AheadOk, LandedOk, RingOk, Outstanding;
  }
}

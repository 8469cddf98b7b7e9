/** A publisher handles its control messages: what the broker sends it is what keeps its tables in step. */
module ControlChannel {
  import opened Layout
  import opened Pool
  import opened PoolInvariant
  import opened Memory
  import opened SharedMapping
  import opened PublisherSide
  import Broker
  import BrokerRuns

  /** The publisher's tables and the shared read indices hold exactly these slots and event fds. */
  ghost predicate Tracks(slots: seq<Slot>, fdBySlot: seq<int>, events: map<nat, nat>)
    requires |slots| == |fdBySlot| == SLOTS
  {
    && (forall s | s in events :: s < SLOTS)
    && forall s: nat | s < SLOTS :: (slots[s].Used? <==> s in events) && (s in events ==> fdBySlot[s] == events[s])
  }

  ghost predicate InStep(pub: PublisherSide.Publisher, table: Broker.Table)
    reads pub, pub.shm.Repr()
  {
    && pub.Valid() && Shape(pub.shm.abs) && pub.shm.abs.pub.Ready? && table.Table?
    && Tracks(pub.shm.abs.slots, pub.fdBySlot, table.events)
  }

  /** Nothing was published, and of the slots only this one changed. */
  ghost predicate Only(a: State, b: State, slot: nat, now: Slot) {
    b.log == a.log && slot < |a.slots| && b.slots == a.slots[slot := now]
  }

  /** A live subscriber that is to be given whatever is published from now on. */
  function StartsHere<T>(log: seq<T>): Slot {
    Used(|log|, |log|, Idle, true)
  }

  /** One registration or disconnect. A registration starts the subscriber at the write index, a disconnect vacates its
      slot. Neither is rejected if the slot table accepts it. */
  method HandleControl(pub: PublisherSide.Publisher, m: Broker.PubMsg, ghost table: Broker.Table) returns (ok: bool)
    requires InStep(pub, table) && Broker.Track(table, m).Table?
    modifies pub, pub.shm, pub.shm.rd, pub.shm.masks, pub.shm.inUse, pub.shm.data, pub.shm.tail
    ensures ok && InStep(pub, Broker.Track(table, m))
    ensures !m.Count?
    ensures Only(old(pub.shm.abs), pub.shm.abs, m.slot, if m.Registered? then StartsHere(pub.shm.abs.log) else Vacant)
  {
    match m
    case Registered(event, slot) =>
      ok := Register(pub, event, slot, table);
    case SubscriberGone(slot) =>
      ok := Forget(pub, slot, table);
    case Count(_) =>
      ok := false;
  }

  method Register(pub: PublisherSide.Publisher, event: nat, slot: nat, ghost table: Broker.Table) returns (ok: bool)
    requires InStep(pub, table) && Broker.Track(table, Broker.Registered(event, slot)).Table?
    modifies pub, pub.shm, pub.shm.rd
    ensures ok && InStep(pub, Broker.Track(table, Broker.Registered(event, slot)))
    ensures Only(old(pub.shm.abs), pub.shm.abs, slot, StartsHere(pub.shm.abs.log))
  {
    hide Inv, Represents, TablesOk, Tracks;
    ghost var a := pub.shm.abs;
    NotYetTracked(pub.eventFds, pub.slotByFd, pub.fdBySlot, a.slots, table.events, event, slot);
    SlotsHaveFds(pub.eventFds, pub.slotByFd, pub.fdBySlot, a.slots);
    ghost var fdBySlot, slotByFd := pub.fdBySlot, pub.slotByFd;
    var r := pub.TrackSubscriber(event, slot);
    NowTracked(slotByFd, fdBySlot, a.slots, pub.eventFds, pub.fdBySlot, pub.shm.abs.slots, table.events, event, slot);
    ok := r == Tracked;
  }

  lemma NotYetTracked(eventFds: seq<int>, slotByFd: map<int, nat>, fdBySlot: seq<int>, slots: seq<Slot>,
                      events: map<nat, nat>,
                      event: nat, slot: nat)
    requires |slots| == |fdBySlot| == SLOTS && TablesOk(eventFds, slotByFd, fdBySlot, slots)
      && Tracks(slots, fdBySlot, events)
    requires slot < SLOTS && slot !in events && event !in events.Values
    ensures slots[slot].Vacant? && event !in slotByFd
  {
  }

  lemma NowTracked(slotByFd: map<int, nat>, fdBySlot: seq<int>, slots: seq<Slot>, eventFds: seq<int>,
                   fdBySlot': seq<int>,
                   slots': seq<Slot>, events: map<nat, nat>, event: nat, slot: nat)
    requires |slots| == |slots'| == |fdBySlot| == |fdBySlot'| == SLOTS && Tracks(slots, fdBySlot, events)
    requires slot < SLOTS && event !in slotByFd && slots' == slots[slot := slots'[slot]] && slots'[slot].Used?
    requires forall s: nat | s < SLOTS && slots[s].Used? :: fdBySlot[s] in slotByFd && slotByFd[fdBySlot[s]] == s
    requires TablesOk(eventFds, slotByFd[event := slot], fdBySlot', slots')
    ensures Tracks(slots', fdBySlot', events[slot := event])
  {
    var slotByFd' := slotByFd[event := slot];
    assert event in slotByFd' && slotByFd'[event] == slot;
    forall s: nat | s < SLOTS && slots[s].Used? && s != slot
      ensures fdBySlot'[s] == fdBySlot[s]
    {
      assert fdBySlot[s] in slotByFd' && slotByFd'[fdBySlot[s]] == s;
    }
  }

  lemma SlotsHaveFds(eventFds: seq<int>, slotByFd: map<int, nat>, fdBySlot: seq<int>, slots: seq<Slot>)
    requires |slots| == |fdBySlot| == SLOTS && TablesOk(eventFds, slotByFd, fdBySlot, slots)
    ensures forall s: nat | s < SLOTS && slots[s].Used? :: fdBySlot[s] in slotByFd && slotByFd[fdBySlot[s]] == s
  {
  }

  /** The broker's word that the subscriber is gone: if the machine still has it alive, it died since. */
  ghost method Bury(shm: SharedData, slot: nat)
    requires shm.Valid() && slot < SLOTS && shm.abs.slots[slot].Used? && shm.abs.pub.Ready?
    modifies shm`abs
    ensures shm.Valid() && shm.abs.pub.Ready? && !shm.abs.slots[slot].alive
      && |shm.abs.slots| == |old(shm.abs).slots| == SLOTS
    ensures shm.abs == Crash(old(shm.abs), slot)
  {
    hide Inv, Represents;
    InvShape(shm.abs);
    CrashKeeps(shm.abs, slot);
    InvShape(Crash(shm.abs, slot));
    SameWordsRepresent(shm.Snap(), shm.abs, Crash(shm.abs, slot));
    shm.abs := Crash(shm.abs, slot);
  }

  lemma CrashKeepsTables(eventFds: seq<int>, slotByFd: map<int, nat>, fdBySlot: seq<int>, slots: seq<Slot>,
                         slots': seq<Slot>,
                         events: map<nat, nat>)
    requires |slots| == |slots'| == |fdBySlot| == SLOTS && TablesOk(eventFds, slotByFd, fdBySlot, slots)
    requires Tracks(slots, fdBySlot, events) && forall s: nat | s < SLOTS :: slots[s].Used? == slots'[s].Used?
    ensures TablesOk(eventFds, slotByFd, fdBySlot, slots') && Tracks(slots', fdBySlot, events)
  {
  }

  method Forget(pub: PublisherSide.Publisher, slot: nat, ghost table: Broker.Table) returns (ok: bool)
    requires InStep(pub, table) && Broker.Track(table, Broker.SubscriberGone(slot)).Table?
    modifies pub, pub.shm, pub.shm.rd, pub.shm.masks, pub.shm.inUse, pub.shm.data, pub.shm.tail
    ensures ok && InStep(pub, Broker.Track(table, Broker.SubscriberGone(slot)))
    ensures Only(old(pub.shm.abs), pub.shm.abs, slot, Vacant)
  {
    hide Inv, Represents, TablesOk, Tracks, Crash, ReapAll, ReapSteps;
    ghost var a := pub.shm.abs;
    StillTracked(a.slots, pub.fdBySlot, table.events, slot);
    CrashFacts(a, slot);
    CrashKeepsTables(pub.eventFds, pub.slotByFd, pub.fdBySlot, a.slots, Crash(a, slot).slots, table.events);
    Bury(pub.shm, slot);
    ghost var slots := pub.shm.abs.slots;
    ReapAllIs(pub.shm.abs, slot);
    var r := pub.ReapDeadSubscriber(slot);
    InvShape(pub.shm.abs);
    NowForgotten(slots, pub.fdBySlot, table.events, slot);
    ok := r == None;
  }

  lemma StillTracked(slots: seq<Slot>, fdBySlot: seq<int>, events: map<nat, nat>, slot: nat)
    requires |slots| == |fdBySlot| == SLOTS && Tracks(slots, fdBySlot, events) && slot in events
    ensures slot < SLOTS && slots[slot].Used?
  {
  }

  lemma CrashFacts(a: State, slot: nat)
    requires Shape(a) && slot < SLOTS && a.slots[slot].Used?
    ensures Shape(Crash(a, slot)) && Crash(a, slot).log == a.log && Crash(a, slot).pub == a.pub
    ensures forall s: nat | s < SLOTS :: a.slots[s].Used? == Crash(a, slot).slots[s].Used?
    ensures Crash(a, slot).slots[slot := Vacant] == a.slots[slot := Vacant]
  {
  }

  lemma NowForgotten(slots: seq<Slot>, fdBySlot: seq<int>, events: map<nat, nat>, slot: nat)
    requires |slots| == |fdBySlot| == SLOTS && Tracks(slots, fdBySlot, events) && slot < SLOTS
    ensures Tracks(slots[slot := Vacant], fdBySlot, events - {slot})
  {
  }

  /** Everything received so far was handled without an error, so everything that follows is too, as long as the
      slot table accepts it - which is what the broker's messages are proved to satisfy. */
  method ProcessControl(pub: PublisherSide.Publisher, msgs: seq<Broker.PubMsg>, ghost before: seq<Broker.PubMsg>)
    returns (ok: bool)
    requires InStep(pub, Broker.Replay(before)) && Broker.Replay(before + msgs).Table?
    modifies pub, pub.shm, pub.shm.rd, pub.shm.masks, pub.shm.inUse, pub.shm.data, pub.shm.tail
    ensures ok && InStep(pub, Broker.Replay(before + msgs))
    ensures OthersStay(old(pub.shm.abs), pub.shm.abs, msgs)
  {
    hide InStep, Broker.Replay, Broker.Track, Only, OthersStay;
    assert before + msgs[..0] == before;
    ok := true;
    NoneConcerned(pub.shm.abs, msgs[..0]);
    for i := 0 to |msgs|
      invariant ok && InStep(pub, Broker.Replay(before + msgs[..i]))
      invariant OthersStay(old(pub.shm.abs), pub.shm.abs, msgs[..i])
    {
      ghost var was := pub.shm.abs;
      NextAccepted(before, msgs, i);
      ok := HandleControl(pub, msgs[i], Broker.Replay(before + msgs[..i]));
      OneConcerned(old(pub.shm.abs), was, pub.shm.abs, msgs, i);
    }
    assert msgs[..|msgs|] == msgs;
  }

  predicate About(msgs: seq<Broker.PubMsg>, slot: nat) {
    exists i: nat :: i < |msgs| && !msgs[i].Count? && msgs[i].slot == slot
  }

  /** Nothing was published, and slots that no message is about are as they were. */
  ghost predicate OthersStay(a: State, b: State, msgs: seq<Broker.PubMsg>) {
    && b.log == a.log && |b.slots| == |a.slots|
    && forall slot: nat | slot < |a.slots| && !About(msgs, slot) :: b.slots[slot] == a.slots[slot]
  }

  lemma NoneConcerned(a: State, none: seq<Broker.PubMsg>)
    ensures OthersStay(a, a, none)
  {
  }

  lemma OneConcerned(a: State, b: State, c: State, msgs: seq<Broker.PubMsg>, i: nat)
    requires i < |msgs| && OthersStay(a, b, msgs[..i]) && !msgs[i].Count?
    requires Only(b, c, msgs[i].slot, if msgs[i].Registered? then StartsHere(c.log) else Vacant)
    ensures OthersStay(a, c, msgs[..i + 1])
  {
    var longer := msgs[..i + 1];
    assert longer[i] == msgs[i];
    forall slot: nat | slot < |a.slots| && About(msgs[..i], slot)
      ensures About(longer, slot)
    {
      var j: nat :| j < i && !msgs[..i][j].Count? && msgs[..i][j].slot == slot;
      assert longer[j] == msgs[..i][j];
    }
  }

  lemma NextAccepted(before: seq<Broker.PubMsg>, msgs: seq<Broker.PubMsg>, i: nat)
    requires i < |msgs| && Broker.Replay(before + msgs).Table?
    ensures Broker.Track(Broker.Replay(before + msgs[..i]), msgs[i]) == Broker.Replay(before + msgs[..i + 1])
    ensures Broker.Replay(before + msgs[..i + 1]).Table?
  {
    var long := before + msgs[..i + 1];
    assert long[..|long| - 1] == before + msgs[..i] && long[|long| - 1] == msgs[i];
    assert (before + msgs)[..|before| + i + 1] == long;
    hide Broker.Replay;
    BrokerRuns.ReplayPrefix(before + msgs, |before| + i + 1);
  }
}

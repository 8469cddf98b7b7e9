/** One publisher's chunk pool as a state machine.

    Indices are unbounded here (the ring stores them modulo 16), a chunk is named by its index and
    a free list is the sequence of its chunks. A subscriber's consumption of one descriptor is split
    at the program points where its process can die: clear the holder bit, store the read index,
    clear the chunk's mark, link the old tail to it, move the tail, signal. The publisher's reap of a
    dead subscriber is split at the same points, descriptor by descriptor, and live subscribers
    interleave with it. `owner`, `place`, `inbox` and `deaths` record history. */
module Pool {
  import opened Layout
  import opened Bytes

  datatype Entry = Entry(chunk: nat, payload: seq<Byte>)

  /** Where a subscriber stands between two descriptors.
      Cleared: its bit is gone, the read index is not stored yet; `last` says the mask held no other bit.
      Returning: the read index is stored and the chunk is being appended to its free list.
      Signalling: the chunk is appended and the space event is about to be written. */
  datatype Phase = Idle | Cleared(last: bool) | Returning(chunk: nat, at: Progress) | Signalling

  /** How far an append has come: nothing done; the chunk no longer marked in use; the old tail linked to the chunk. */
  datatype Progress = Marked | Unmarked | OnTail

  datatype Slot = Vacant | Used(start: nat, next: nat, phase: Phase, alive: bool) {
    /** The first message whose bit this slot has not cleared. */
    function Unread(): nat
      requires Used?
    {
      if phase.Cleared? then next + 1 else next
    }
  }

  /** Between two operations, or reaping the dead subscriber of a slot; `pos` is the descriptor it is at. */
  datatype Publisher = Ready | Reaping(slot: nat, pos: nat, release: Release) {
    /** The first message the reap has still to clear the slot's bit on. */
    function Ahead(): nat
      requires Reaping?
    {
      if release.Freeing? then pos + 1 else pos
    }
  }

  /** Freeing: the dead slot's bit was the last on the descriptor's chunk, which is being appended to its free list. */
  datatype Release = Sweeping | Freeing(chunk: nat, at: Progress)

  /** Loose: a subscriber took the chunk out of circulation; Freed: the reap did. */
  datatype Place = InPool | Held | Loose(slot: nat) | Freed | Lost

  datatype State = State(
    log: seq<Entry>,             // every message published
    slots: seq<Slot>,
    holders: seq<set<nat>>,      // per chunk, the slots whose bit is set
    free: seq<seq<nat>>,         // per class, head to tail
    pub: Publisher,
    owner: seq<int>,             // per chunk, the last message written into it, or -1
    place: seq<Place>,           // per chunk
    inbox: seq<seq<seq<Byte>>>,  // per slot, the payloads its present subscriber was given
    deaths: nat)                 // reaps completed

  // ---------- Steps ----------

  function UsedSlots(st: State): set<nat>
    requires |st.slots| == SLOTS
  {
    set s: nat | s < SLOTS && st.slots[s].Used?
  }

  /** No active reader, or a reader whose window is full. */
  predicate RingBlocked(st: State)
    requires |st.slots| == SLOTS
  {
    || (forall s: nat | s < SLOTS :: st.slots[s].Vacant?)
    || (exists s: nat :: s < SLOTS && st.slots[s].Used? && st.slots[s].next + RING <= |st.log| + 1)
  }

  predicate CanPublish(st: State, k: nat)
    requires |st.slots| == SLOTS && |st.free| == CLASSES && k < CLASSES
  {
    !RingBlocked(st) && |st.free[k]| >= 2
  }

  function Publish(st: State, payload: seq<Byte>): State
    requires Shape(st) && |payload| <= MAX_PAYLOAD
    requires CanPublish(st, PayloadClass(payload))
    requires st.free[PayloadClass(payload)][0] < CHUNKS
  {
    var k := PayloadClass(payload);
    var c := st.free[k][0];
    st.(log := st.log + [Entry(c, payload)],
        holders := st.holders[c := UsedSlots(st)],
        free := st.free[k := st.free[k][1..]],
        owner := st.owner[c := |st.log|],
        place := st.place[c := Held])
  }

  function PayloadClass(payload: seq<Byte>): (k: nat)
    requires |payload| <= MAX_PAYLOAD
    ensures k < CLASSES && k == SizeClass(HEADER_BYTES + |payload|)
  {
    EveryPayloadHasAClass(|payload|);
    SizeClass(HEADER_BYTES + |payload|)
  }

  function Join(st: State, s: nat): State
    requires Shape(st) && s < SLOTS
  {
    var w := |st.log|;
    st.(slots := st.slots[s := Used(w, w, Idle, true)], inbox := st.inbox[s := []])
  }

  /** Read the next message out of its chunk, then clear the slot's bit. What the chunk holds is
      the last message written into it. */
  function Clear(st: State, s: nat): State
    requires Shape(st) && s < SLOTS && CanClear(st, s) && st.log[st.slots[s].next].chunk < CHUNKS
    requires 0 <= st.owner[st.log[st.slots[s].next].chunk] < |st.log|
  {
    var slot := st.slots[s];
    var c := st.log[slot.next].chunk;
    var last := st.holders[c] == {s};
    st.(slots := st.slots[s := slot.(phase := Cleared(last))],
        holders := st.holders[c := st.holders[c] - {s}],
        place := if last then st.place[c := Loose(s)] else st.place,
        inbox := st.inbox[s := st.inbox[s] + [st.log[st.owner[c]].payload]])
  }

  function StoreRead(st: State, s: nat): State
    requires Shape(st) && s < SLOTS && CanStoreRead(st, s)
  {
    var slot := st.slots[s];
    var after := if slot.phase.last then Returning(st.log[slot.next].chunk, Marked) else Idle;
    st.(slots := st.slots[s := slot.(next := slot.next + 1, phase := after)])
  }

  /** The debug table no longer marks the chunk. */
  function Unmark(st: State, s: nat): State
    requires Shape(st) && s < SLOTS && CanUnmark(st, s)
  {
    st.(slots := st.slots[s := st.slots[s].(phase := Returning(st.slots[s].phase.chunk, Unmarked))])
  }

  /** The tail is read and the chunk it names linked to the one that returns. */
  function Link(st: State, s: nat): State
    requires Shape(st) && s < SLOTS && CanLink(st, s)
  {
    st.(slots := st.slots[s := st.slots[s].(phase := Returning(st.slots[s].phase.chunk, OnTail))])
  }

  /** The tail is moved: from here on the chunk is on its list. */
  function Return(st: State, s: nat): State
    requires Shape(st) && s < SLOTS && CanReturn(st, s)
  {
    var c := st.slots[s].phase.chunk;
    var k := ClassOf(c);
    st.(slots := st.slots[s := st.slots[s].(phase := Signalling)],
        free := st.free[k := st.free[k] + [c]],
        place := st.place[c := InPool])
  }

  function Signal(st: State, s: nat): State
    requires Shape(st) && s < SLOTS && st.slots[s].Used?
  {
    st.(slots := st.slots[s := st.slots[s].(phase := Idle)])
  }

  function Crash(st: State, s: nat): State
    requires Shape(st) && s < SLOTS && st.slots[s].Used?
  {
    st.(slots := st.slots[s := st.slots[s].(alive := false)])
  }

  function BeginReap(st: State, s: nat): State
    requires Shape(st) && s < SLOTS && st.slots[s].Used?
  {
    st.(pub := Reaping(s, st.slots[s].next, Sweeping))
  }

  /** Clear the dead slot's bit on one descriptor. If it was the only holder, the chunk is to be appended. */
  function ReapClear(st: State): State
    requires Shape(st) && CanReapClear(st) && st.log[st.pub.pos].chunk < CHUNKS
  {
    var s := st.pub.slot;
    var c := st.log[st.pub.pos].chunk;
    var last := st.holders[c] == {s};
    st.(pub := if last then st.pub.(release := Freeing(c, Marked)) else st.pub.(pos := st.pub.pos + 1),
        holders := st.holders[c := st.holders[c] - {s}],
        place := if last then st.place[c := Freed] else st.place)
  }

  function ReapUnmark(st: State): State
    requires Shape(st) && Frees(st, Marked)
  {
    st.(pub := st.pub.(release := Freeing(st.pub.release.chunk, Unmarked)))
  }

  function ReapLink(st: State): State
    requires Shape(st) && Frees(st, Unmarked)
  {
    st.(pub := st.pub.(release := Freeing(st.pub.release.chunk, OnTail)))
  }

  /** The tail is moved, and the reap goes on to the next descriptor. */
  function ReapReturn(st: State): State
    requires Shape(st) && Frees(st, OnTail)
  {
    var c := st.pub.release.chunk;
    var k := ClassOf(c);
    st.(pub := Reaping(st.pub.slot, st.pub.pos + 1, Sweeping),
        free := st.free[k := st.free[k] + [c]],
        place := st.place[c := InPool])
  }

  function EndReap(st: State): State
    requires Shape(st) && st.pub.Reaping? && st.pub.slot < SLOTS
  {
    var s := st.pub.slot;
    st.(pub := Ready,
        slots := st.slots[s := Vacant],
        place := seq(CHUNKS, c requires 0 <= c < CHUNKS => if st.place[c] == Loose(s) then Lost else st.place[c]),
        deaths := st.deaths + 1)
  }

  // ---------- Guards ----------

  predicate Live(st: State, s: nat)
    requires |st.slots| == SLOTS && s < SLOTS
  {
    st.slots[s].Used? && st.slots[s].alive
  }

  predicate CanClear(st: State, s: nat)
    requires |st.slots| == SLOTS && s < SLOTS
  {
    Live(st, s) && st.slots[s].phase.Idle? && st.slots[s].next < |st.log|
  }

  predicate CanStoreRead(st: State, s: nat)
    requires |st.slots| == SLOTS && s < SLOTS
  {
    Live(st, s) && st.slots[s].phase.Cleared? && st.slots[s].next < |st.log|
  }

  predicate Returns(st: State, s: nat, at: Progress)
    requires |st.slots| == SLOTS && s < SLOTS
  {
    && Live(st, s) && st.slots[s].phase.Returning? && st.slots[s].phase.at == at
    && st.slots[s].phase.chunk < CHUNKS
  }

  predicate CanUnmark(st: State, s: nat)
    requires |st.slots| == SLOTS && s < SLOTS
  {
    Returns(st, s, Marked)
  }

  predicate CanLink(st: State, s: nat)
    requires |st.slots| == SLOTS && s < SLOTS
  {
    Returns(st, s, Unmarked)
  }

  predicate CanReturn(st: State, s: nat)
    requires |st.slots| == SLOTS && s < SLOTS
  {
    Returns(st, s, OnTail)
  }

  predicate CanReapClear(st: State) {
    st.pub.Reaping? && st.pub.release.Sweeping? && st.pub.pos < |st.log|
  }

  predicate Frees(st: State, at: Progress) {
    && st.pub.Reaping? && st.pub.release.Freeing? && st.pub.release.at == at
    && st.pub.release.chunk < CHUNKS
  }

  predicate CanEndReap(st: State) {
    st.pub.Reaping? && st.pub.release.Sweeping? && st.pub.pos == |st.log|
  }

  // ---------- Invariant ----------

  predicate Shape(st: State)
  {
    && |st.slots| == |st.inbox| == SLOTS
    && |st.holders| == |st.owner| == |st.place| == CHUNKS
    && |st.free| == CLASSES
  }

  /** The descriptor names a chunk of the class its length maps to. */
  predicate EntryOk(e: Entry)
  {
    && e.chunk < CHUNKS && |e.payload| <= MAX_PAYLOAD
    && SizeClass(HEADER_BYTES + |e.payload|) == ClassOf(e.chunk)
  }

  ghost predicate LogOk(log: seq<Entry>)
  {
    forall i: nat | i < |log| :: EntryOk(log[i])
  }

  ghost predicate OwnerOk(log: seq<Entry>, owner: seq<int>)
    requires |owner| == CHUNKS
  {
    && (forall c: nat | c < CHUNKS :: -1 <= owner[c] < |log|)
    && (forall c: nat | c < CHUNKS && owner[c] >= 0 :: log[owner[c]].chunk == c)
    && (forall i: nat | i < |log| && log[i].chunk < CHUNKS :: i <= owner[log[i].chunk])
  }

  /** What a subscriber returns is the chunk of the message it read last. */
  predicate SlotOk(log: seq<Entry>, slot: Slot)
    requires slot.Used?
  {
    && slot.start <= slot.next <= |log| < slot.next + RING
    && (slot.phase.Cleared? ==> slot.next < |log|)
    && (slot.phase.Returning? ==>
      slot.phase.chunk < CHUNKS && slot.start < slot.next && log[slot.next - 1].chunk == slot.phase.chunk)
  }

  ghost predicate SlotsOk(log: seq<Entry>, slots: seq<Slot>, pub: Publisher)
    requires |slots| == SLOTS
  {
    && (forall s: nat | s < SLOTS && slots[s].Used? :: SlotOk(log, slots[s]))
    && (pub.Reaping? ==> ReapOk(log, slots, pub))
  }

  /** A dead slot is reaped from its read index on, and what is freed is the chunk of the descriptor the reap is at,
      which the dead subscriber had not acknowledged. */
  predicate ReapOk(log: seq<Entry>, slots: seq<Slot>, pub: Publisher)
    requires |slots| == SLOTS && pub.Reaping?
  {
    && pub.slot < SLOTS && slots[pub.slot].Used? && !slots[pub.slot].alive
    && slots[pub.slot].next <= pub.pos <= |log|
    && (pub.release.Freeing? ==>
      && slots[pub.slot].Unread() <= pub.pos < |log|
      && pub.release.chunk < CHUNKS && log[pub.pos].chunk == pub.release.chunk)
  }

  predicate InUse(slots: seq<Slot>, s: nat)
    requires |slots| == SLOTS
  {
    s < SLOTS && slots[s].Used?
  }

  /** In use and not being reaped. */
  predicate Active(slots: seq<Slot>, pub: Publisher, s: nat)
    requires |slots| == SLOTS && s < SLOTS
  {
    slots[s].Used? && !(pub.Reaping? && pub.slot == s)
  }

  /** The first message whose bit slot `s` has: its first unread one, or the first a reap has still to visit. */
  function FirstBit(slots: seq<Slot>, pub: Publisher, s: nat): nat
    requires |slots| == SLOTS && s < SLOTS && slots[s].Used?
  {
    if pub.Reaping? && pub.slot == s && pub.Ahead() > slots[s].Unread() then pub.Ahead() else slots[s].Unread()
  }

  /** A slot's bit is set on a chunk exactly when the chunk's last message is one it has the bit of. */
  ghost predicate HoldersOk(slots: seq<Slot>, pub: Publisher, owner: seq<int>, holders: seq<set<nat>>)
    requires |slots| == SLOTS && |holders| == |owner| == CHUNKS
  {
    && (forall c: nat, s: nat {:trigger s in holders[c]} | c < CHUNKS && s in holders[c] :: InUse(slots, s))
    && (forall c: nat, s: nat {:trigger s in holders[c]} | c < CHUNKS && InUse(slots, s) ::
      s in holders[c] <==> FirstBit(slots, pub, s) <= owner[c])
  }

  /** No chunk has been overwritten from any slot's read index on: not the unread ones, not the one whose bit is
      cleared and whose read index is still to be stored, not those of a slot being reaped. */
  ghost predicate FreshOk(log: seq<Entry>, slots: seq<Slot>, owner: seq<int>)
    requires |slots| == SLOTS && |owner| == CHUNKS
  {
    forall s: nat, i: nat | InUse(slots, s) && slots[s].next <= i < |log| ::
      log[i].chunk < CHUNKS && owner[log[i].chunk] == i
  }

  predicate NoDup(xs: seq<nat>)
  {
    forall i, j | 0 <= i < j < |xs| :: xs[i] != xs[j]
  }

  predicate AreChunks(xs: seq<nat>)
  {
    forall i: nat | i < |xs| :: xs[i] < CHUNKS
  }

  /** A free list of class `k`: never empty, no chunk twice, no chunk of another class. */
  ghost predicate ListOk(k: nat, xs: seq<nat>)
  {
    |xs| >= 1 && NoDup(xs) && AreChunks(xs) && forall i: nat | i < |xs| :: ClassOf(xs[i]) == k
  }

  ghost predicate FreeOk(free: seq<seq<nat>>)
    requires |free| == CLASSES
  {
    forall k: nat | k < CLASSES :: ListOk(k, free[k])
  }

  /** A chunk that is half consumed - the reader's bit is cleared, its index not stored - and already back on its free
      list is the last of that list. A publish, which leaves one chunk behind, cannot take it. */
  ghost predicate TailOk(log: seq<Entry>, slots: seq<Slot>, pub: Publisher, free: seq<seq<nat>>)
    requires |slots| == SLOTS && |free| == CLASSES
  {
    forall s: nat | s < SLOTS && Active(slots, pub, s) && HalfRead(log, slots[s]) ::
      AtMostTail(free, log[slots[s].next].chunk)
  }

  predicate HalfRead(log: seq<Entry>, slot: Slot) {
    slot.Used? && slot.phase.Cleared? && slot.next < |log|
  }

  /** Where the chunk is in its list, nothing follows it. */
  predicate AtMostTail(free: seq<seq<nat>>, c: nat)
    requires |free| == CLASSES
  {
    c < CHUNKS ==> forall i: nat | i < |free[ClassOf(c)]| - 1 :: free[ClassOf(c)][i] != c
  }

  /** The chunk a subscriber took out of circulation and has still to append. */
  predicate Carries(log: seq<Entry>, slot: Slot, c: nat)
  {
    && slot.Used?
    && (|| (slot.phase == Cleared(true) && slot.next < |log| && log[slot.next].chunk == c)
        || (slot.phase.Returning? && slot.phase.chunk == c))
  }

  // Every chunk is in its class's free list, held, carried by one subscriber, being freed by the reap, or lost - never
  // two of these.

  ghost predicate HeldOk(place: seq<Place>, holders: seq<set<nat>>)
    requires |place| == |holders| == CHUNKS
  {
    forall c: nat | c < CHUNKS :: place[c] == Held <==> holders[c] != {}
  }

  ghost predicate PooledOk(place: seq<Place>, free: seq<seq<nat>>)
    requires |place| == CHUNKS && |free| == CLASSES
  {
    forall c: nat | c < CHUNKS :: place[c] == InPool <==> c in free[ClassOf(c)]
  }

  ghost predicate LooseOk(place: seq<Place>, log: seq<Entry>, slots: seq<Slot>)
    requires |place| == CHUNKS && |slots| == SLOTS
  {
    && (forall c: nat, s: nat | c < CHUNKS && s < SLOTS :: place[c] == Loose(s) <==> Carries(log, slots[s], c))
    && (forall c: nat | c < CHUNKS && place[c].Loose? :: place[c].slot < SLOTS)
  }

  ghost predicate FreedOk(place: seq<Place>, pub: Publisher)
    requires |place| == CHUNKS
  {
    forall c: nat | c < CHUNKS :: place[c] == Freed <==> BringsBack(pub, c)
  }

  predicate BringsBack(pub: Publisher, c: nat) {
    pub.Reaping? && pub.release.Freeing? && pub.release.chunk == c
  }

  ghost predicate InboxOk(log: seq<Entry>, slots: seq<Slot>, inbox: seq<seq<seq<Byte>>>)
    requires |slots| == |inbox| == SLOTS
  {
    forall s: nat | s < SLOTS && slots[s].Used? ::
      && slots[s].start + |inbox[s]| == slots[s].Unread() <= |log|
      && forall j: nat | j < |inbox[s]| :: inbox[s][j] == log[slots[s].start + j].payload
  }

  ghost function LostChunks(place: seq<Place>): set<nat>
    requires |place| == CHUNKS
  {
    set c: nat | c < CHUNKS && place[c] == Lost
  }

  ghost predicate Inv(st: State)
  {
    && Shape(st) && LogOk(st.log) && OwnerOk(st.log, st.owner) && SlotsOk(st.log, st.slots, st.pub)
    && HoldersOk(st.slots, st.pub, st.owner, st.holders) && FreshOk(st.log, st.slots, st.owner)
    && TailOk(st.log, st.slots, st.pub, st.free)
    && FreeOk(st.free) && HeldOk(st.place, st.holders) && PooledOk(st.place, st.free)
    && LooseOk(st.place, st.log, st.slots) && FreedOk(st.place, st.pub) && InboxOk(st.log, st.slots, st.inbox)
    && |LostChunks(st.place)| <= st.deaths
  }

  // ---------- Initial state ----------

  function ClassList(k: nat): (xs: seq<nat>)
    requires k < CLASSES
    ensures |xs| == ClassChunks(k) && forall i: nat | i < |xs| :: xs[i] == IndexBase(k) + i
  {
    seq<nat>(ClassChunks(k), (i: nat) => IndexBase(k) + i)
  }

  function Init(): State
  {
    State([], seq(SLOTS, i => Vacant), seq(CHUNKS, i => {}), seq(CLASSES, k requires 0 <= k < CLASSES => ClassList(k)),
          Ready, seq(CHUNKS, i => -1), seq(CHUNKS, i => InPool), seq(SLOTS, i => []), 0)
  }

  lemma InitOk()
    ensures Inv(Init())
  {
    var st := Init();
    assert LostChunks(st.place) == {};
    forall c: nat | c < CHUNKS
      ensures c in st.free[ClassOf(c)]
    {
      assert ClassList(ClassOf(c))[c - IndexBase(ClassOf(c))] == c;
    }
  }
}

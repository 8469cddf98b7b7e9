/** Who can be inside a tail append: the code has no lock there, and needs none. */
module PoolCarriers {
  import opened Layout
  import opened Bytes
  import opened Pool

  lemma ShapeOf(st: State)
    requires Inv(st)
    ensures Shape(st)
  {
  }

  /** From a slot's first bit on every message is in place, and its chunk has the slot's bit. */
  lemma BitIsSet(st: State, t: nat, i: nat)
    requires Inv(st) && InUse(st.slots, t) && FirstBit(st.slots, st.pub, t) <= i < |st.log|
    ensures st.log[i].chunk < CHUNKS && st.owner[st.log[i].chunk] == i && t in st.holders[st.log[i].chunk]
    ensures st.place[st.log[i].chunk] == Held
  {
    hide LogOk, OwnerOk, SlotsOk, FreeOk, PooledOk, LooseOk, FreedOk, TailOk, InboxOk, LostChunks;
    assert st.slots[t].next <= i;
  }

  /** The chunk of message `i` is held by nobody: every slot's first bit lies behind it. */
  lemma NobodyHolds(st: State, i: nat, t: nat)
    requires Inv(st) && i < |st.log| && st.log[i].chunk < CHUNKS && st.place[st.log[i].chunk] != Held
    requires InUse(st.slots, t)
    ensures FirstBit(st.slots, st.pub, t) > i
  {
    hide Inv, FirstBit;
    ShapeOf(st);
    if FirstBit(st.slots, st.pub, t) <= i {
      BitIsSet(st, t, i);
    }
  }

  // ---------- Subscribers that carry a chunk ----------

  /** The chunk a subscriber carries is that of the last message it acknowledged. */
  lemma CarriedIsLastRead(st: State, s: nat, c: nat)
    requires Inv(st) && s < SLOTS && c < CHUNKS && st.place[c] == Loose(s)
    ensures st.slots[s].Used? && 0 < st.slots[s].Unread() <= |st.log| && st.log[st.slots[s].Unread() - 1].chunk == c
  {
    hide LogOk, OwnerOk, FreshOk, InboxOk, LostChunks, HoldersOk, HeldOk, PooledOk, FreeOk, TailOk, FreedOk;
    assert Carries(st.log, st.slots[s], c);
  }

  /** Whoever carries a chunk is as far behind as anyone: nobody else can be the last reader of an earlier message,
      and the last reader of a later one has to wait. */
  lemma CarrierIsSlowest(st: State, s: nat, c: nat, t: nat)
    requires Inv(st) && s < SLOTS && c < CHUNKS && st.place[c] == Loose(s)
    requires t < SLOTS && Active(st.slots, st.pub, t)
    ensures st.slots[s].Used? && st.slots[t].Unread() >= st.slots[s].Unread()
  {
    hide Inv;
    ShapeOf(st);
    CarriedIsLastRead(st, s, c);
    NobodyHolds(st, st.slots[s].Unread() - 1, t);
  }

  /** At most one subscriber that is not being reaped carries a chunk. */
  lemma OneCarrier(st: State, c: nat, d: nat)
    requires Inv(st) && c < CHUNKS && d < CHUNKS && st.place[c].Loose? && st.place[d].Loose?
    ensures var s, t := st.place[c].slot, st.place[d].slot;
            s < SLOTS && t < SLOTS && (Active(st.slots, st.pub, s) && Active(st.slots, st.pub, t) ==> c == d)
            && (s == t ==> c == d)
  {
    hide LogOk, FreshOk, InboxOk, LostChunks, PooledOk, FreeOk, SlotsOk, OwnerOk, HoldersOk, HeldOk, TailOk, FreedOk;
    var s, t := st.place[c].slot, st.place[d].slot;
    CarriedIsLastRead(st, s, c);
    CarriedIsLastRead(st, t, d);
    if Active(st.slots, st.pub, s) && Active(st.slots, st.pub, t) {
      CarrierIsSlowest(st, s, c, t);
      CarrierIsSlowest(st, t, d, s);
    }
  }

  // ---------- A reap that frees a chunk ----------

  /** What the reap frees is the chunk of the message it is at, and every reader has read that. */
  lemma FreedIsRead(st: State, t: nat)
    requires Inv(st) && st.pub.Reaping? && st.pub.release.Freeing? && InUse(st.slots, t)
    ensures st.pub.slot < SLOTS && st.slots[st.pub.slot].Used? && st.pub.pos < |st.log|
    ensures st.pub.release.chunk < CHUNKS && st.log[st.pub.pos].chunk == st.pub.release.chunk
    ensures st.place[st.pub.release.chunk] == Freed
    ensures FirstBit(st.slots, st.pub, t) > st.pub.pos
    ensures FirstBit(st.slots, st.pub, st.pub.slot) == st.pub.pos + 1
  {
    hide LogOk, FreshOk, InboxOk, LostChunks, PooledOk, FreeOk, OwnerOk, HoldersOk, HeldOk, TailOk, LooseOk;
    assert st.place[st.pub.release.chunk] == Freed;
    NobodyHolds(st, st.pub.pos, t);
  }

  /** While the reap frees a chunk, every other message from there on still has the dead slot's bit. */
  lemma DeadSlotHolds(st: State, t: nat)
    requires Inv(st) && st.pub.Reaping? && st.pub.release.Freeing? && t < SLOTS && Active(st.slots, st.pub, t)
    requires 0 < st.slots[t].Unread() <= |st.log|
    ensures var c := st.log[st.slots[t].Unread() - 1].chunk; c < CHUNKS && st.place[c] in {Held, Freed}
  {
    hide Inv, FirstBit;
    ShapeOf(st);
    FreedIsRead(st, t);
    ActiveFirstBit(st, t);
    var i := st.slots[t].Unread() - 1;
    if i > st.pub.pos {
      BitIsSet(st, st.pub.slot, i);
    }
  }

  lemma ActiveFirstBit(st: State, t: nat)
    requires Inv(st) && t < SLOTS && Active(st.slots, st.pub, t)
    ensures FirstBit(st.slots, st.pub, t) == st.slots[t].Unread()
  {
    hide Inv;
    ShapeOf(st);
  }

  /** While the reap frees a chunk, no subscriber but the one being reaped carries any. */
  lemma FreeingAlone(st: State, t: nat, c: nat)
    requires Inv(st) && st.pub.Reaping? && st.pub.release.Freeing?
    requires t < SLOTS && Active(st.slots, st.pub, t) && c < CHUNKS
    ensures st.place[c] != Loose(t)
  {
    hide Inv;
    ShapeOf(st);
    if st.place[c] == Loose(t) {
      CarriedIsLastRead(st, t, c);
      DeadSlotHolds(st, t);
    }
  }

  // ---------- One append at a time ----------

  datatype Process = Reader(slot: nat) | ThePublisher

  /** The process has taken a chunk out of circulation and has not finished appending it. */
  predicate Appending(st: State, p: Process)
    requires |st.slots| == SLOTS
  {
    match p
    case Reader(s) => s < SLOTS && Live(st, s) && st.slots[s].phase.Returning?
    case ThePublisher => st.pub.Reaping? && st.pub.release.Freeing?
  }

  lemma AppenderCarries(st: State, s: nat)
    requires Inv(st) && s < SLOTS && Live(st, s) && st.slots[s].phase.Returning?
    ensures Active(st.slots, st.pub, s)
    ensures st.slots[s].phase.chunk < CHUNKS && st.place[st.slots[s].phase.chunk] == Loose(s)
  {
    hide LogOk, FreshOk, InboxOk, LostChunks, PooledOk, FreeOk, OwnerOk, HoldersOk, HeldOk, TailOk, FreedOk;
    assert SlotOk(st.log, st.slots[s]);
    assert Carries(st.log, st.slots[s], st.slots[s].phase.chunk);
  }

  /** At most one process at a time is inside a tail append, the publisher's reap included - of any class, and from the
      moment the read index is stored or the dead slot's last bit cleared. */
  lemma OneAppender(st: State, p: Process, q: Process)
    requires Inv(st) && Appending(st, p) && Appending(st, q)
    ensures p == q
  {
    hide Inv;
    ShapeOf(st);
    match (p, q)
    case (Reader(s), Reader(t)) =>
      AppenderCarries(st, s);
      AppenderCarries(st, t);
      OneCarrier(st, st.slots[s].phase.chunk, st.slots[t].phase.chunk);
    case (Reader(s), ThePublisher) =>
      AppenderCarries(st, s);
      FreeingAlone(st, s, st.slots[s].phase.chunk);
    case (ThePublisher, Reader(t)) =>
      AppenderCarries(st, t);
      FreeingAlone(st, t, st.slots[t].phase.chunk);
    case (ThePublisher, ThePublisher) =>
  }

  // ---------- Half-consumed chunks ----------

  /** While a reader brings a chunk back, no other chunk on a free list is half consumed. */
  lemma HalfReadWaitsForReader(st: State, s: nat, c: nat, t: nat)
    requires Inv(st) && s < SLOTS && c < CHUNKS && st.place[c] == Loose(s) && Active(st.slots, st.pub, s)
    requires t < SLOTS && Active(st.slots, st.pub, t) && HalfRead(st.log, st.slots[t])
    ensures var d := st.log[st.slots[t].next].chunk; d < CHUNKS ==> st.place[d] != InPool
  {
    hide Inv, FirstBit;
    ShapeOf(st);
    CarriedIsLastRead(st, s, c);
    CarrierIsSlowest(st, s, c, t);
    ActiveFirstBit(st, s);
    if st.slots[t].next >= st.slots[s].Unread() {
      BitIsSet(st, s, st.slots[t].next);
    }
  }

  /** While the reap frees a chunk, no chunk on a free list is half consumed. */
  lemma HalfReadWaitsForReap(st: State, t: nat)
    requires Inv(st) && st.pub.Reaping? && st.pub.release.Freeing?
    requires t < SLOTS && Active(st.slots, st.pub, t) && HalfRead(st.log, st.slots[t])
    ensures var d := st.log[st.slots[t].next].chunk; d < CHUNKS && st.place[d] != InPool
  {
    hide Inv;
    ShapeOf(st);
    DeadSlotHolds(st, t);
  }
}

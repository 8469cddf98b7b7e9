/** Every step of the pool machine keeps its invariant. */
module PoolInvariant {
  import opened Layout
  import opened Bytes
  import opened Pool
  import opened PoolCarriers

  // ---------- Publish ----------

  lemma PublishLog(log: seq<Entry>, owner: seq<int>, e: Entry)
    requires LogOk(log) && |owner| == CHUNKS && OwnerOk(log, owner) && EntryOk(e)
    ensures LogOk(log + [e]) && OwnerOk(log + [e], owner[e.chunk := |log|])
  {
  }

  lemma PublishSlots(log: seq<Entry>, slots: seq<Slot>, e: Entry)
    requires |slots| == SLOTS && SlotsOk(log, slots, Ready)
    requires forall s: nat | s < SLOTS && slots[s].Used? :: |log| + 1 < slots[s].next + RING
    ensures SlotsOk(log + [e], slots, Ready)
  {
  }

  lemma PublishHolders(st: State, c: nat)
    requires Shape(st) && c < CHUNKS && st.pub.Ready? && SlotsOk(st.log, st.slots, st.pub)
    requires HoldersOk(st.slots, st.pub, st.owner, st.holders)
    ensures HoldersOk(st.slots, st.pub, st.owner[c := |st.log|], st.holders[c := UsedSlots(st)])
  {
  }

  /** The chunk a publish takes is in nobody's window, not even as a half-consumed one: that would be its list's
      last. */
  lemma PublishFresh(st: State, e: Entry, k: nat)
    requires Shape(st) && k < CLASSES && |st.free[k]| >= 2 && ListOk(k, st.free[k]) && e.chunk == st.free[k][0]
    requires st.pub.Ready? && st.holders[e.chunk] == {} && OwnerOk(st.log, st.owner)
    requires HoldersOk(st.slots, st.pub, st.owner, st.holders) && FreshOk(st.log, st.slots, st.owner)
    requires TailOk(st.log, st.slots, st.pub, st.free)
    ensures FreshOk(st.log + [e], st.slots, st.owner[e.chunk := |st.log|])
  {
    forall s: nat, i: nat | InUse(st.slots, s) && st.slots[s].next <= i < |st.log|
      ensures st.log[i].chunk < CHUNKS && st.owner[st.log[i].chunk] == i && st.log[i].chunk != e.chunk
    {
      if i >= st.slots[s].Unread() {
        assert s in st.holders[st.log[i].chunk];
      } else {
        assert Active(st.slots, st.pub, s) && HalfRead(st.log, st.slots[s]);
        assert AtMostTail(st.free, st.log[i].chunk);
      }
    }
  }

  lemma PublishTail(st: State, e: Entry, k: nat)
    requires Shape(st) && k < CLASSES && |st.free[k]| >= 1
    requires TailOk(st.log, st.slots, st.pub, st.free) && SlotsOk(st.log, st.slots, st.pub)
    ensures TailOk(st.log + [e], st.slots, st.pub, st.free[k := st.free[k][1..]])
  {
    var free := st.free[k := st.free[k][1..]];
    forall s: nat | s < SLOTS && Active(st.slots, st.pub, s) && HalfRead(st.log + [e], st.slots[s])
      ensures AtMostTail(free, (st.log + [e])[st.slots[s].next].chunk)
    {
      assert HalfRead(st.log, st.slots[s]);
      assert AtMostTail(st.free, st.log[st.slots[s].next].chunk);
    }
  }

  lemma PublishFree(free: seq<seq<nat>>, place: seq<Place>, k: nat)
    requires |free| == CLASSES && |place| == CHUNKS && k < CLASSES
    requires FreeOk(free) && PooledOk(place, free) && |free[k]| >= 2
    ensures var c := free[k][0];
            && c < CHUNKS && ClassOf(c) == k && place[c] == InPool
            && FreeOk(free[k := free[k][1..]]) && PooledOk(place[c := Held], free[k := free[k][1..]])
  {
    var c := free[k][0];
    assert c in free[k];
    var rest := free[k][1..];
    assert forall d :: d in rest <==> d in free[k] && d != c;
  }

  lemma PublishLoose(place: seq<Place>, log: seq<Entry>, slots: seq<Slot>, e: Entry)
    requires |place| == CHUNKS && |slots| == SLOTS && e.chunk < CHUNKS && !place[e.chunk].Loose?
    requires LooseOk(place, log, slots) && SlotsOk(log, slots, Ready)
    ensures LooseOk(place[e.chunk := Held], log + [e], slots)
  {
    forall c: nat, s: nat | c < CHUNKS && s < SLOTS
      ensures Carries(log + [e], slots[s], c) <==> Carries(log, slots[s], c)
    {
    }
  }

  lemma PublishInbox(log: seq<Entry>, slots: seq<Slot>, inbox: seq<seq<seq<Byte>>>, e: Entry)
    requires |slots| == |inbox| == SLOTS && InboxOk(log, slots, inbox)
    ensures InboxOk(log + [e], slots, inbox)
  {
  }

  lemma ListOfClass(free: seq<seq<nat>>, k: nat)
    requires |free| == CLASSES && FreeOk(free) && k < CLASSES
    ensures ListOk(k, free[k])
  {
  }

  lemma PlaceUpdate(place: seq<Place>, c: nat, p: Place)
    requires |place| == CHUNKS && c < CHUNKS && place[c] != Lost && p != Lost
    ensures LostChunks(place[c := p]) == LostChunks(place)
  {
  }

  lemma PublishKeeps(st: State, payload: seq<Byte>)
    requires Inv(st) && st.pub.Ready? && |payload| <= MAX_PAYLOAD && CanPublish(st, PayloadClass(payload))
    ensures st.free[PayloadClass(payload)][0] < CHUNKS && Inv(Publish(st, payload))
  {
    hide LogOk, OwnerOk, HoldersOk, FreshOk, FreeOk, PooledOk, LooseOk, InboxOk, LostChunks, TailOk;
    var k := PayloadClass(payload);
    var c := st.free[k][0];
    var e := Entry(c, payload);
    assert ListOk(k, st.free[k]) by { ListOfClass(st.free, k); }
    PublishFree(st.free, st.place, k);
    PublishLog(st.log, st.owner, e);
    PublishSlots(st.log, st.slots, e);
    PublishHolders(st, c);
    PublishFresh(st, e, k);
    PublishTail(st, e, k);
    PublishLoose(st.place, st.log, st.slots, e);
    PublishInbox(st.log, st.slots, st.inbox, e);
    PlaceUpdate(st.place, c, Held);
    assert HeldOk(st.place[c := Held], st.holders[c := UsedSlots(st)]) by {
      var s: nat :| s < SLOTS && st.slots[s].Used?;
      assert s in UsedSlots(st);
    }
  }

  // ---------- Slot changes that move no window ----------

  /** Same slots in use, same unread windows, and nobody starts or stops being reaped. */
  ghost predicate SameWindows(slots: seq<Slot>, slots': seq<Slot>)
    requires |slots| == |slots'| == SLOTS
  {
    forall s: nat | s < SLOTS ::
      && slots[s].Used? == slots'[s].Used?
      && (slots[s].Used? ==>
        && slots[s].Unread() == slots'[s].Unread() && slots[s].start == slots'[s].start
        && slots[s].next <= slots'[s].next)
  }

  lemma SameWindowsKeep(st: State, slots: seq<Slot>)
    requires Inv(st) && |slots| == SLOTS && SameWindows(st.slots, slots)
    ensures HoldersOk(slots, st.pub, st.owner, st.holders) && FreshOk(st.log, slots, st.owner)
    ensures InboxOk(st.log, slots, st.inbox)
  {
    hide LogOk, OwnerOk, FreeOk, PooledOk, LooseOk, HeldOk, SlotsOk, LostChunks, FreedOk, TailOk;
    SameHolders(st.slots, slots, st.pub, st.owner, st.holders);
    SameFresh(st.log, st.slots, slots, st.owner);
  }

  lemma SameHolders(slots: seq<Slot>, slots': seq<Slot>, pub: Publisher, owner: seq<int>, holders: seq<set<nat>>)
    requires |slots| == |slots'| == SLOTS && SameWindows(slots, slots')
    requires |holders| == |owner| == CHUNKS && HoldersOk(slots, pub, owner, holders)
    ensures HoldersOk(slots', pub, owner, holders)
  {
  }

  lemma SameFresh(log: seq<Entry>, slots: seq<Slot>, slots': seq<Slot>, owner: seq<int>)
    requires |slots| == |slots'| == SLOTS && SameWindows(slots, slots')
    requires |owner| == CHUNKS && FreshOk(log, slots, owner)
    ensures FreshOk(log, slots', owner)
  {
  }

  /** One slot changes, and it does not become half consumed. */
  lemma SameTail(log: seq<Entry>, slots: seq<Slot>, pub: Publisher, free: seq<seq<nat>>, s: nat, slot: Slot)
    requires |slots| == SLOTS && |free| == CLASSES && TailOk(log, slots, pub, free) && s < SLOTS && slots[s].Used?
    requires HalfRead(log, slot) ==> HalfRead(log, slots[s]) && slot.next == slots[s].next
    ensures TailOk(log, slots[s := slot], pub, free)
  {
  }

  lemma SameLoose(place: seq<Place>, log: seq<Entry>, slots: seq<Slot>, slots': seq<Slot>)
    requires |place| == CHUNKS && |slots| == |slots'| == SLOTS && LooseOk(place, log, slots)
    requires forall s: nat, c: nat | s < SLOTS && c < CHUNKS :: Carries(log, slots[s], c) <==>
      Carries(log, slots'[s], c)
    ensures LooseOk(place, log, slots')
  {
  }

  lemma StoreReadKeeps(st: State, s: nat)
    requires Inv(st) && s < SLOTS && CanStoreRead(st, s)
    ensures Inv(StoreRead(st, s))
  {
    hide OwnerOk, HoldersOk, FreshOk, FreeOk, HeldOk, PooledOk, LooseOk, InboxOk, LostChunks, TailOk, FreedOk;
    var slots := StoreRead(st, s).slots;
    assert EntryOk(st.log[st.slots[s].next]);
    SameWindowsKeep(st, slots);
    SameLoose(st.place, st.log, st.slots, slots);
    SameTail(st.log, st.slots, st.pub, st.free, s, slots[s]);
  }

  lemma SignalKeeps(st: State, s: nat)
    requires Inv(st) && s < SLOTS && st.slots[s].Used? && st.slots[s].phase.Signalling?
    ensures Inv(Signal(st, s))
  {
    hide LogOk, OwnerOk, HoldersOk, FreshOk, FreeOk, HeldOk, PooledOk, LooseOk, InboxOk, LostChunks, TailOk, FreedOk;
    var slots := Signal(st, s).slots;
    SameWindowsKeep(st, slots);
    SameLoose(st.place, st.log, st.slots, slots);
    SameTail(st.log, st.slots, st.pub, st.free, s, slots[s]);
  }

  lemma CrashKeeps(st: State, s: nat)
    requires Inv(st) && s < SLOTS && st.slots[s].Used?
    ensures Inv(Crash(st, s))
  {
    hide LogOk, OwnerOk, HoldersOk, FreshOk, FreeOk, HeldOk, PooledOk, LooseOk, InboxOk, LostChunks, TailOk, FreedOk;
    var slots := Crash(st, s).slots;
    SameWindowsKeep(st, slots);
    SameLoose(st.place, st.log, st.slots, slots);
    SameTail(st.log, st.slots, st.pub, st.free, s, slots[s]);
  }

  // ---------- Appending a chunk to its free list ----------

  lemma AppendFree(free: seq<seq<nat>>, place: seq<Place>, c: nat)
    requires |free| == CLASSES && |place| == CHUNKS && c < CHUNKS && place[c] != InPool
    requires FreeOk(free) && PooledOk(place, free)
    ensures var k := ClassOf(c);
            FreeOk(free[k := free[k] + [c]]) && PooledOk(place[c := InPool], free[k := free[k] + [c]])
  {
    var k := ClassOf(c);
    assert c !in free[k];
    assert forall d :: d in free[k] + [c] <==> d in free[k] || d == c;
  }

  lemma UnmarkKeeps(st: State, s: nat)
    requires Inv(st) && s < SLOTS && CanUnmark(st, s)
    ensures Inv(Unmark(st, s))
  {
    hide LogOk, OwnerOk, HoldersOk, FreshOk, FreeOk, HeldOk, PooledOk, LooseOk, InboxOk, LostChunks, TailOk, FreedOk;
    var slots := Unmark(st, s).slots;
    SameWindowsKeep(st, slots);
    SameLoose(st.place, st.log, st.slots, slots);
    SameTail(st.log, st.slots, st.pub, st.free, s, slots[s]);
  }

  lemma LinkKeeps(st: State, s: nat)
    requires Inv(st) && s < SLOTS && CanLink(st, s)
    ensures Inv(Link(st, s))
  {
    hide LogOk, OwnerOk, HoldersOk, FreshOk, FreeOk, HeldOk, PooledOk, LooseOk, InboxOk, LostChunks, TailOk, FreedOk;
    var slots := Link(st, s).slots;
    SameWindowsKeep(st, slots);
    SameLoose(st.place, st.log, st.slots, slots);
    SameTail(st.log, st.slots, st.pub, st.free, s, slots[s]);
  }

  lemma ReturnKeeps(st: State, s: nat)
    requires Inv(st) && s < SLOTS && CanReturn(st, s)
    ensures Inv(Return(st, s))
  {
    hide LogOk, OwnerOk, HoldersOk, FreshOk, FreeOk, PooledOk, InboxOk, LostChunks, LooseOk, TailOk, FreedOk;
    var c := st.slots[s].phase.chunk;
    var slots := Return(st, s).slots;
    SameWindowsKeep(st, slots);
    assert st.place[c] == Loose(s) by { CarriedIsLoose(st.place, st.log, st.slots, s, c); }
    AppendFree(st.free, st.place, c);
    PlaceUpdate(st.place, c, InPool);
    DropLoose(st.place, st.log, st.slots, slots, s, c, InPool);
    ReturnTail(st, s);
    FreedUpdate(st.place, st.pub, c, InPool);
  }

  lemma FreedUpdate(place: seq<Place>, pub: Publisher, c: nat, p: Place)
    requires |place| == CHUNKS && c < CHUNKS && FreedOk(place, pub) && place[c] != Freed && p != Freed
    ensures FreedOk(place[c := p], pub)
  {
  }

  /** An append leaves half-consumed chunks at the ends of their lists, as long as none of them was on a list before:
      the only one that can be is the appended one. */
  lemma AppendTail(log: seq<Entry>, slots: seq<Slot>, pub: Publisher, place: seq<Place>, free: seq<seq<nat>>, c: nat,
                   slots': seq<Slot>, pub': Publisher)
    requires |slots| == |slots'| == SLOTS && |place| == CHUNKS && |free| == CLASSES && c < CHUNKS && place[c] != InPool
    requires PooledOk(place, free)
    requires forall t: nat | t < SLOTS && Active(slots, pub, t) && HalfRead(log, slots[t]) ::
      NotPooled(place, log[slots[t].next].chunk)
    requires forall t: nat | t < SLOTS && Active(slots', pub', t) && HalfRead(log, slots'[t]) ::
      Active(slots, pub, t) && HalfRead(log, slots[t]) && slots'[t].next == slots[t].next
    ensures TailOk(log, slots', pub', free[ClassOf(c) := free[ClassOf(c)] + [c]])
  {
    var free' := free[ClassOf(c) := free[ClassOf(c)] + [c]];
    forall t: nat | t < SLOTS && Active(slots', pub', t) && HalfRead(log, slots'[t])
      ensures AtMostTail(free', log[slots'[t].next].chunk)
    {
      var d := log[slots[t].next].chunk;
      assert NotPooled(place, d);
      if d < CHUNKS {
        assert d !in free[ClassOf(d)];
      }
    }
  }

  predicate NotPooled(place: seq<Place>, c: nat)
    requires |place| == CHUNKS
  {
    c < CHUNKS ==> place[c] != InPool
  }

  lemma ReturnTail(st: State, s: nat)
    requires Inv(st) && s < SLOTS && CanReturn(st, s)
    ensures TailOk(st.log, Return(st, s).slots, st.pub, Return(st, s).free)
  {
    hide Inv, ClassOf, TailOk, PooledOk;
    ShapeOf(st);
    AppenderCarries(st, s);
    forall t: nat | t < SLOTS && Active(st.slots, st.pub, t) && HalfRead(st.log, st.slots[t])
      ensures NotPooled(st.place, st.log[st.slots[t].next].chunk)
    {
      HalfReadWaitsForReader(st, s, st.slots[s].phase.chunk, t);
    }
    Pooled(st);
    AppendTail(st.log, st.slots, st.pub, st.place, st.free, st.slots[s].phase.chunk, Return(st, s).slots, st.pub);
  }

  lemma Pooled(st: State)
    requires Inv(st)
    ensures Shape(st) && PooledOk(st.place, st.free)
  {
  }

  lemma CarriedIsLoose(place: seq<Place>, log: seq<Entry>, slots: seq<Slot>, s: nat, c: nat)
    requires |place| == CHUNKS && |slots| == SLOTS && s < SLOTS && c < CHUNKS
    requires LooseOk(place, log, slots) && Carries(log, slots[s], c)
    ensures place[c] == Loose(s)
  {
  }

  /** Slot `s` gives up the one chunk it carried. */
  lemma DropLoose(place: seq<Place>, log: seq<Entry>, slots: seq<Slot>, slots': seq<Slot>, s: nat, c: nat, p: Place)
    requires |place| == CHUNKS && |slots| == |slots'| == SLOTS && s < SLOTS && c < CHUNKS
    requires LooseOk(place, log, slots) && Carries(log, slots[s], c) && !p.Loose?
    requires forall d: nat | d < CHUNKS :: !Carries(log, slots'[s], d)
    requires forall t: nat | t < SLOTS && t != s :: slots'[t] == slots[t]
    ensures LooseOk(place[c := p], log, slots')
  {
    forall d: nat, t: nat | d < CHUNKS && t < SLOTS
      ensures place[c := p][d] == Loose(t) <==> Carries(log, slots'[t], d)
    {
      assert place[c] == Loose(s);
      if t != s {
        assert place[d] == Loose(t) <==> Carries(log, slots[t], d);
      } else if d != c {
        assert place[d] == Loose(s) <==> Carries(log, slots[s], d);
      }
    }
  }

  // ---------- Joining ----------

  lemma JoinKeeps(st: State, s: nat)
    requires Inv(st) && s < SLOTS && st.slots[s].Vacant?
    ensures Inv(Join(st, s))
  {
    hide LogOk, OwnerOk, HoldersOk, FreshOk, FreeOk, HeldOk, PooledOk, LooseOk, InboxOk, LostChunks, TailOk, FreedOk;
    var st' := Join(st, s);
    JoinHolders(st, s);
    JoinFresh(st, s);
    JoinInbox(st, s);
    SameLoose(st.place, st.log, st.slots, st'.slots);
    JoinTail(st, s);
  }

  lemma JoinHolders(st: State, s: nat)
    requires Shape(st) && s < SLOTS && st.slots[s].Vacant? && OwnerOk(st.log, st.owner)
    requires SlotsOk(st.log, st.slots, st.pub) && HoldersOk(st.slots, st.pub, st.owner, st.holders)
    ensures HoldersOk(Join(st, s).slots, st.pub, st.owner, st.holders)
  {
  }

  lemma JoinFresh(st: State, s: nat)
    requires Shape(st) && s < SLOTS && FreshOk(st.log, st.slots, st.owner)
    ensures FreshOk(st.log, Join(st, s).slots, st.owner)
  {
  }

  lemma JoinTail(st: State, s: nat)
    requires Shape(st) && s < SLOTS && TailOk(st.log, st.slots, st.pub, st.free) && st.slots[s].Vacant?
    ensures TailOk(st.log, Join(st, s).slots, st.pub, st.free)
  {
  }

  lemma JoinInbox(st: State, s: nat)
    requires Shape(st) && s < SLOTS && InboxOk(st.log, st.slots, st.inbox)
    ensures InboxOk(st.log, Join(st, s).slots, Join(st, s).inbox)
  {
  }

  // ---------- Clearing a holder bit ----------

  lemma ClearedChunk(st: State, s: nat)
    requires Inv(st) && s < SLOTS && CanClear(st, s)
    ensures var c := st.log[st.slots[s].next].chunk;
            c < CHUNKS && st.owner[c] == st.slots[s].next && s in st.holders[c] && st.place[c] == Held
  {
    hide OwnerOk, FreeOk, PooledOk, LooseOk, InboxOk, LostChunks, TailOk, FreedOk;
    assert EntryOk(st.log[st.slots[s].next]);
    assert Active(st.slots, st.pub, s);
  }

  lemma ClearHolders(st: State, s: nat, slots: seq<Slot>, c: nat)
    requires Shape(st) && s < SLOTS && c < CHUNKS && |slots| == SLOTS && OwnerOk(st.log, st.owner)
    requires HoldersOk(st.slots, st.pub, st.owner, st.holders) && Active(st.slots, st.pub, s)
    requires st.slots[s].Unread() == st.owner[c]
    requires slots == st.slots[s := slots[s]] && slots[s].Used? && slots[s].Unread() == st.slots[s].Unread() + 1
    ensures HoldersOk(slots, st.pub, st.owner, st.holders[c := st.holders[c] - {s}])
  {
  }

  lemma ClearFresh(st: State, s: nat, slots: seq<Slot>)
    requires Shape(st) && s < SLOTS && |slots| == SLOTS && FreshOk(st.log, st.slots, st.owner)
    requires slots == st.slots[s := slots[s]] && st.slots[s].Used?
    requires slots[s].Used? && slots[s].next == st.slots[s].next
    ensures FreshOk(st.log, slots, st.owner)
  {
  }

  /** A chunk whose bit is cleared is in no list yet. */
  lemma ClearTail(st: State, s: nat, slot: Slot)
    requires Shape(st) && s < SLOTS && CanClear(st, s) && TailOk(st.log, st.slots, st.pub, st.free)
    requires slot.Used? && slot.next == st.slots[s].next && PooledOk(st.place, st.free)
    requires st.log[slot.next].chunk < CHUNKS && st.place[st.log[slot.next].chunk] != InPool
    ensures TailOk(st.log, st.slots[s := slot], st.pub, st.free)
  {
    assert st.log[slot.next].chunk !in st.free[ClassOf(st.log[slot.next].chunk)];
  }

  lemma ClearInbox(st: State, s: nat, slots: seq<Slot>, payload: seq<Byte>)
    requires Shape(st) && s < SLOTS && |slots| == SLOTS && InboxOk(st.log, st.slots, st.inbox)
    requires slots == st.slots[s := slots[s]] && st.slots[s].Used? && st.slots[s].Unread() < |st.log|
    requires slots[s].Used? && slots[s].start == st.slots[s].start && slots[s].Unread() == st.slots[s].Unread() + 1
    requires payload == st.log[st.slots[s].Unread()].payload
    ensures InboxOk(st.log, slots, st.inbox[s := st.inbox[s] + [payload]])
  {
  }

  lemma TakeLoose(place: seq<Place>, log: seq<Entry>, slots: seq<Slot>, slots': seq<Slot>, s: nat, c: nat)
    requires |place| == CHUNKS && |slots| == |slots'| == SLOTS && s < SLOTS && c < CHUNKS && !place[c].Loose?
    requires LooseOk(place, log, slots)
    requires forall d: nat | d < CHUNKS :: !Carries(log, slots[s], d)
    requires forall d: nat | d < CHUNKS :: Carries(log, slots'[s], d) <==> d == c
    requires forall t: nat | t < SLOTS && t != s :: slots'[t] == slots[t]
    ensures LooseOk(place[c := Loose(s)], log, slots')
  {
    forall d: nat, t: nat | d < CHUNKS && t < SLOTS
      ensures place[c := Loose(s)][d] == Loose(t) <==> Carries(log, slots'[t], d)
    {
      assert place[d] == Loose(t) <==> Carries(log, slots[t], d);
    }
  }

  lemma HeldUpdate(place: seq<Place>, holders: seq<set<nat>>, c: nat, p: Place, hs: set<nat>)
    requires |place| == |holders| == CHUNKS && c < CHUNKS && HeldOk(place, holders) && (p == Held <==> hs != {})
    ensures HeldOk(place[c := p], holders[c := hs])
  {
  }

  lemma PooledUpdate(place: seq<Place>, free: seq<seq<nat>>, c: nat, p: Place)
    requires |place| == CHUNKS && |free| == CLASSES && c < CHUNKS && PooledOk(place, free)
    requires place[c] != InPool && p != InPool
    ensures PooledOk(place[c := p], free)
  {
  }

  lemma ClearKeeps(st: State, s: nat)
    requires Inv(st) && s < SLOTS && CanClear(st, s)
    ensures var c := st.log[st.slots[s].next].chunk; c < CHUNKS && 0 <= st.owner[c] < |st.log| && Inv(Clear(st, s))
  {
    hide LogOk, OwnerOk, HoldersOk, FreshOk, FreeOk, HeldOk, PooledOk, LooseOk, InboxOk, LostChunks, TailOk, FreedOk;
    ClearedChunk(st, s);
    var c := st.log[st.slots[s].next].chunk;
    var st' := Clear(st, s);
    ClearHolders(st, s, st'.slots, c);
    ClearFresh(st, s, st'.slots);
    ClearInbox(st, s, st'.slots, st.log[st.slots[s].next].payload);
    ClearTail(st, s, st'.slots[s]);
    if st.holders[c] == {s} {
      assert st.holders[c] - {s} == {};
      TakeLoose(st.place, st.log, st.slots, st'.slots, s, c);
      PooledUpdate(st.place, st.free, c, Loose(s));
      PlaceUpdate(st.place, c, Loose(s));
      HeldUpdate(st.place, st.holders, c, Loose(s), {});
      FreedUpdate(st.place, st.pub, c, Loose(s));
    } else {
      assert st.holders[c] - {s} != {};
      SameLoose(st.place, st.log, st.slots, st'.slots);
      HeldUpdate(st.place, st.holders, c, Held, st.holders[c] - {s});
      assert st.place[c := Held] == st.place;
    }
  }

  // ---------- Reaping ----------

  lemma BeginReapHolders(st: State, s: nat)
    requires Shape(st) && s < SLOTS && st.slots[s].Used? && st.pub.Ready?
    requires HoldersOk(st.slots, st.pub, st.owner, st.holders)
    ensures HoldersOk(st.slots, Reaping(s, st.slots[s].next, Sweeping), st.owner, st.holders)
  {
  }

  lemma BeginReapKeeps(st: State, s: nat)
    requires Inv(st) && s < SLOTS && st.slots[s].Used? && !st.slots[s].alive && st.pub.Ready?
    ensures Inv(BeginReap(st, s))
  {
    hide LogOk, OwnerOk, HoldersOk, FreshOk, FreeOk, HeldOk, PooledOk, LooseOk, InboxOk, LostChunks, TailOk, FreedOk;
    BeginReapHolders(st, s);
    FewerActive(st.log, st.slots, st.pub, st.free, st.slots, BeginReap(st, s).pub);
    assert FreedOk(st.place, BeginReap(st, s).pub) by { SameFreed(st.place, st.pub, BeginReap(st, s).pub); }
  }

  lemma FewerActive(log: seq<Entry>, slots: seq<Slot>, pub: Publisher, free: seq<seq<nat>>, slots': seq<Slot>,
                    pub': Publisher)
    requires |slots| == |slots'| == SLOTS && |free| == CLASSES && TailOk(log, slots, pub, free)
    requires forall s: nat | s < SLOTS && Active(slots', pub', s) :: Active(slots, pub, s) && slots'[s] == slots[s]
    ensures TailOk(log, slots', pub', free)
  {
  }

  lemma SameFreed(place: seq<Place>, pub: Publisher, pub': Publisher)
    requires |place| == CHUNKS && FreedOk(place, pub)
    requires forall c: nat :: BringsBack(pub, c) <==> BringsBack(pub', c)
    ensures FreedOk(place, pub')
  {
    forall c: nat | c < CHUNKS
      ensures place[c] == Freed <==> BringsBack(pub', c)
    {
      assert BringsBack(pub, c) <==> BringsBack(pub', c);
    }
  }

  /** The dead slot's first bit, where it still has one on the descriptor the reap is at. */
  lemma ReapedChunk(st: State)
    requires Inv(st) && CanReapClear(st)
    ensures st.pub.slot < SLOTS && st.slots[st.pub.slot].Used?
    ensures var c := st.log[st.pub.pos].chunk;
            && c < CHUNKS && st.owner[c] == st.pub.pos
            && (st.pub.slot in st.holders[c] ==> st.slots[st.pub.slot].Unread() <= st.pub.pos)
  {
    hide OwnerOk, FreeOk, HeldOk, PooledOk, LooseOk, InboxOk, LostChunks, TailOk, FreedOk;
    assert EntryOk(st.log[st.pub.pos]);
    assert InUse(st.slots, st.pub.slot);
  }

  lemma ReapClearHolders(st: State, c: nat)
    requires Shape(st) && c < CHUNKS && CanReapClear(st) && OwnerOk(st.log, st.owner)
    requires st.pub.slot < SLOTS && st.slots[st.pub.slot].Used? && st.owner[c] == st.pub.pos
    requires HoldersOk(st.slots, st.pub, st.owner, st.holders) && c == st.log[st.pub.pos].chunk
    ensures HoldersOk(st.slots, ReapClear(st).pub, st.owner, ReapClear(st).holders)
  {
    var pub, holders := ReapClear(st).pub, ReapClear(st).holders;
    forall d: nat, s: nat | d < CHUNKS && InUse(st.slots, s)
      ensures s in holders[d] <==> FirstBit(st.slots, pub, s) <= st.owner[d]
    {
      assert s in st.holders[d] <==> FirstBit(st.slots, st.pub, s) <= st.owner[d];
      if d != c && s == st.pub.slot && st.owner[d] >= 0 {
        assert st.log[st.owner[d]].chunk == d;
      }
    }
    forall d: nat, s: nat | d < CHUNKS && s in holders[d]
      ensures InUse(st.slots, s)
    {
      assert s in st.holders[d];
    }
  }

  lemma LooseUpdate(place: seq<Place>, log: seq<Entry>, slots: seq<Slot>, c: nat, p: Place)
    requires |place| == CHUNKS && |slots| == SLOTS && c < CHUNKS && LooseOk(place, log, slots)
    requires !place[c].Loose? && !p.Loose?
    ensures LooseOk(place[c := p], log, slots)
  {
  }

  lemma HeldHere(place: seq<Place>, holders: seq<set<nat>>, c: nat)
    requires |place| == |holders| == CHUNKS && c < CHUNKS && HeldOk(place, holders)
    ensures place[c] == Held <==> holders[c] != {}
  {
  }

  /** A reap's first step on a descriptor, whether or not the dead reader had cleared its bit. */
  lemma ReapClearKeeps(st: State)
    requires Inv(st) && CanReapClear(st)
    ensures st.log[st.pub.pos].chunk < CHUNKS && Inv(ReapClear(st))
  {
    hide LogOk, OwnerOk, HoldersOk, FreshOk, FreeOk, HeldOk, PooledOk, LooseOk, InboxOk, LostChunks, TailOk, FreedOk;
    ReapedChunk(st);
    var s := st.pub.slot;
    var c := st.log[st.pub.pos].chunk;
    var st' := ReapClear(st);
    ReapClearHolders(st, c);
    FewerActive(st.log, st.slots, st.pub, st.free, st.slots, st'.pub);
    HeldHere(st.place, st.holders, c);
    if st.holders[c] == {s} {
      assert st.holders[c] - {s} == {};
      PooledUpdate(st.place, st.free, c, Freed);
      PlaceUpdate(st.place, c, Freed);
      LooseUpdate(st.place, st.log, st.slots, c, Freed);
      HeldUpdate(st.place, st.holders, c, Freed, {});
      NowFreed(st.place, st.pub, c, st'.pub);
    } else {
      assert st.holders[c] - {s} == {} <==> st.holders[c] == {};
      HeldUpdate(st.place, st.holders, c, st.place[c], st.holders[c] - {s});
      assert st.place[c := st.place[c]] == st.place;
      SameFreed(st.place, st.pub, st'.pub);
    }
  }

  lemma NowFreed(place: seq<Place>, pub: Publisher, c: nat, pub': Publisher)
    requires |place| == CHUNKS && c < CHUNKS && FreedOk(place, pub)
    requires forall d: nat :: !BringsBack(pub, d)
    requires forall d: nat :: BringsBack(pub', d) <==> d == c
    ensures FreedOk(place[c := Freed], pub')
  {
    forall d: nat | d < CHUNKS
      ensures place[c := Freed][d] == Freed <==> BringsBack(pub', d)
    {
      assert !BringsBack(pub, d) && (BringsBack(pub', d) <==> d == c);
    }
  }

  lemma NoLongerFreed(place: seq<Place>, pub: Publisher, c: nat, pub': Publisher)
    requires |place| == CHUNKS && c < CHUNKS && FreedOk(place, pub)
    requires forall d: nat :: BringsBack(pub, d) <==> d == c
    requires forall d: nat :: !BringsBack(pub', d)
    ensures FreedOk(place[c := InPool], pub')
  {
    forall d: nat | d < CHUNKS
      ensures place[c := InPool][d] == Freed <==> BringsBack(pub', d)
    {
      assert !BringsBack(pub', d) && (BringsBack(pub, d) <==> d == c);
    }
  }

  /** The reap moves on within an append. */
  lemma SameReap(st: State, pub: Publisher)
    requires Inv(st) && st.pub.Reaping? && st.pub.release.Freeing?
    requires pub.Reaping? && pub.release.Freeing?
    requires pub == st.pub.(release := Freeing(st.pub.release.chunk, pub.release.at))
    ensures Inv(st.(pub := pub))
  {
    hide LogOk, OwnerOk, HoldersOk, FreshOk, FreeOk, HeldOk, PooledOk, LooseOk, InboxOk, LostChunks, TailOk, FreedOk;
    SameAhead(st.slots, st.pub, pub, st.owner, st.holders);
    FewerActive(st.log, st.slots, st.pub, st.free, st.slots, pub);
    SameFreed(st.place, st.pub, pub);
  }

  lemma SameAhead(slots: seq<Slot>, pub: Publisher, pub': Publisher, owner: seq<int>, holders: seq<set<nat>>)
    requires |slots| == SLOTS && |owner| == |holders| == CHUNKS && HoldersOk(slots, pub, owner, holders)
    requires pub.Reaping? && pub'.Reaping? && pub.slot == pub'.slot && pub.Ahead() == pub'.Ahead()
    ensures HoldersOk(slots, pub', owner, holders)
  {
    forall c: nat, s: nat | c < CHUNKS && InUse(slots, s)
      ensures s in holders[c] <==> FirstBit(slots, pub', s) <= owner[c]
    {
      assert FirstBit(slots, pub', s) == FirstBit(slots, pub, s);
    }
  }

  lemma ReapUnmarkKeeps(st: State)
    requires Inv(st) && Frees(st, Marked)
    ensures Inv(ReapUnmark(st))
  {
    hide Inv;
    ShapeOf(st);
    SameReap(st, ReapUnmark(st).pub);
  }

  lemma ReapLinkKeeps(st: State)
    requires Inv(st) && Frees(st, Unmarked)
    ensures Inv(ReapLink(st))
  {
    hide Inv;
    ShapeOf(st);
    SameReap(st, ReapLink(st).pub);
  }

  lemma FreedHere(st: State)
    requires Inv(st) && st.pub.Reaping? && st.pub.release.Freeing?
    ensures var c := st.pub.release.chunk; c < CHUNKS && st.place[c] == Freed && st.holders[c] == {}
  {
    hide LogOk, OwnerOk, HoldersOk, FreshOk, FreeOk, PooledOk, LooseOk, InboxOk, LostChunks, TailOk;
    HeldHere(st.place, st.holders, st.pub.release.chunk);
  }

  lemma ReapReturnTail(st: State)
    requires Inv(st) && Frees(st, OnTail)
    ensures TailOk(st.log, st.slots, ReapReturn(st).pub, ReapReturn(st).free)
  {
    hide Inv, ClassOf, TailOk, PooledOk;
    ShapeOf(st);
    FreedHere(st);
    forall t: nat | t < SLOTS && Active(st.slots, st.pub, t) && HalfRead(st.log, st.slots[t])
      ensures NotPooled(st.place, st.log[st.slots[t].next].chunk)
    {
      HalfReadWaitsForReap(st, t);
    }
    Pooled(st);
    AppendTail(st.log, st.slots, st.pub, st.place, st.free, st.pub.release.chunk, st.slots, ReapReturn(st).pub);
  }

  lemma ReapReturnKeeps(st: State)
    requires Inv(st) && Frees(st, OnTail)
    ensures Inv(ReapReturn(st))
  {
    hide LogOk, OwnerOk, HoldersOk, FreshOk, FreeOk, HeldOk, PooledOk, LooseOk, InboxOk, LostChunks, TailOk, FreedOk;
    var c := st.pub.release.chunk;
    var pub := ReapReturn(st).pub;
    FreedHere(st);
    SameAhead(st.slots, st.pub, pub, st.owner, st.holders);
    ReapReturnTail(st);
    AppendFree(st.free, st.place, c);
    PlaceUpdate(st.place, c, InPool);
    LooseUpdate(st.place, st.log, st.slots, c, InPool);
    HeldUpdate(st.place, st.holders, c, InPool, {});
    assert st.holders[c := {}] == st.holders;
    NoLongerFreed(st.place, st.pub, c, pub);
  }

  lemma EndReapHolders(st: State)
    requires Shape(st) && CanEndReap(st) && st.pub.slot < SLOTS && st.slots[st.pub.slot].Used?
    requires OwnerOk(st.log, st.owner) && HoldersOk(st.slots, st.pub, st.owner, st.holders)
    ensures HoldersOk(EndReap(st).slots, Ready, st.owner, st.holders)
  {
    var slots := EndReap(st).slots;
    forall c: nat, s: nat | c < CHUNKS && s in st.holders[c]
      ensures InUse(slots, s)
    {
      assert InUse(st.slots, s) && FirstBit(st.slots, st.pub, s) <= st.owner[c];
    }
    forall c: nat, s: nat | c < CHUNKS && InUse(slots, s)
      ensures s in st.holders[c] <==> FirstBit(slots, Ready, s) <= st.owner[c]
    {
      assert s in st.holders[c] <==> FirstBit(st.slots, st.pub, s) <= st.owner[c];
    }
  }

  lemma EndReapFresh(st: State)
    requires Shape(st) && st.pub.Reaping? && st.pub.slot < SLOTS && FreshOk(st.log, st.slots, st.owner)
    ensures FreshOk(st.log, EndReap(st).slots, st.owner)
  {
  }

  lemma EndReapLoose(st: State)
    requires Shape(st) && st.pub.Reaping? && st.pub.slot < SLOTS && LooseOk(st.place, st.log, st.slots)
    ensures LooseOk(EndReap(st).place, st.log, EndReap(st).slots)
  {
  }

  lemma EndReapFreed(st: State)
    requires Shape(st) && CanEndReap(st) && st.pub.slot < SLOTS && FreedOk(st.place, st.pub)
    ensures FreedOk(EndReap(st).place, Ready)
  {
  }

  /** A slot carries at most one chunk, so a finished reap loses at most one. */
  lemma EndReapLost(st: State)
    requires Shape(st) && st.pub.Reaping? && st.pub.slot < SLOTS && LooseOk(st.place, st.log, st.slots)
    ensures |LostChunks(EndReap(st).place)| <= |LostChunks(st.place)| + 1
  {
    var s := st.pub.slot;
    var lost, lost' := LostChunks(st.place), LostChunks(EndReap(st).place);
    if c: nat :| c < CHUNKS && st.place[c] == Loose(s) {
      forall d | d in lost'
        ensures d in lost + {c}
      {
        if st.place[d] == Loose(s) {
          assert Carries(st.log, st.slots[s], c) && Carries(st.log, st.slots[s], d);
        }
      }
      SubsetSize(lost', lost + {c});
    } else {
      assert lost' == lost;
    }
  }

  lemma SubsetSize(a: set<nat>, b: set<nat>)
    requires a <= b
    ensures |a| <= |b|
  {
    if a != {} {
      var x :| x in a;
      SubsetSize(a - {x}, b - {x});
    }
  }

  lemma EndReapKeeps(st: State)
    requires Inv(st) && CanEndReap(st)
    ensures Inv(EndReap(st))
  {
    hide LogOk, OwnerOk, HoldersOk, FreshOk, FreeOk, LooseOk, LostChunks, TailOk, FreedOk;
    EndReapHolders(st);
    EndReapFresh(st);
    EndReapLoose(st);
    EndReapFreed(st);
    EndReapLost(st);
    FewerActive(st.log, st.slots, st.pub, st.free, EndReap(st).slots, Ready);
  }
}

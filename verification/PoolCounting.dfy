/** How many chunks can be out of the free lists at once, and when the publisher can be blocked. */
module PoolCounting {
  import opened Layout
  import opened Bytes
  import opened Pool
  import opened PoolCarriers
  import opened PoolInvariant
  import opened PoolRuns

  function ChunksOfClass(k: nat): set<nat>
    requires k < CLASSES
  {
    set c: nat | c < CHUNKS && ClassOf(c) == k
  }

  predicate OnItsWay(place: Place) {
    place.Loose? || place.Freed?
  }

  ghost function HeldChunks(st: State): set<nat>
    requires Shape(st)
  {
    set c: nat | c < CHUNKS && st.holders[c] != {}
  }

  /** Chunks of class `k` taken out of circulation: on their way back in some process's hands, or lost with a dead
      subscriber. */
  ghost function Stray(st: State, k: nat): set<nat>
    requires Shape(st) && k < CLASSES
  {
    set c: nat | c < CHUNKS && ClassOf(c) == k && (OnItsWay(st.place[c]) || st.place[c].Lost?)
  }

  ghost function HeldOfClass(st: State, k: nat): set<nat>
    requires Shape(st) && k < CLASSES
  {
    set c: nat | c < CHUNKS && ClassOf(c) == k && st.holders[c] != {}
  }

  function Range(a: nat, n: nat): (r: set<nat>)
    ensures |r| == n && forall c: nat :: c in r <==> a <= c < a + n
  {
    if n == 0 then {} else Range(a, n - 1) + {a + n - 1}
  }

  function Elements(xs: seq<nat>): (r: set<nat>)
    ensures forall x :: x in r <==> x in xs
    ensures NoDup(xs) ==> |r| == |xs|
  {
    if xs == [] then {}
    else
      assert NoDup(xs) ==> NoDup(xs[..|xs| - 1]) && xs[|xs| - 1] !in xs[..|xs| - 1];
      Elements(xs[..|xs| - 1]) + {xs[|xs| - 1]}
  }

  lemma ClassSizeInChunks(k: nat)
    requires k < CLASSES
    ensures |ChunksOfClass(k)| == ClassChunks(k)
  {
    assert ChunksOfClass(k) == Range(IndexBase(k), ClassChunks(k));
  }

  lemma OneOfThree(st: State, k: nat, c: nat)
    requires Shape(st) && k < CLASSES && c < CHUNKS && ClassOf(c) == k
    requires HeldOk(st.place, st.holders) && PooledOk(st.place, st.free)
    ensures c in Elements(st.free[k]) <==> st.place[c] == InPool
    ensures c in HeldOfClass(st, k) <==> st.place[c] == Held
    ensures c in Stray(st, k) <==> OnItsWay(st.place[c]) || st.place[c].Lost?
  {
  }

  lemma ThreeParts(all: set<nat>, x: set<nat>, y: set<nat>, z: set<nat>)
    requires forall c :: c in all <==> c in x || c in y || c in z
    requires forall c | c in x :: c !in y && c !in z
    requires forall c | c in y :: c !in z
    ensures |all| == |x| + |y| + |z|
  {
    assert all == x + y + z;
    assert x !! y && (x + y) !! z;
  }

  /** Where a chunk is says which of the three sets it belongs to. */
  lemma Whereabouts(st: State, k: nat, c: nat)
    requires Inv(st) && k < CLASSES
    ensures c in Elements(st.free[k]) <==> c < CHUNKS && ClassOf(c) == k && st.place[c] == InPool
    ensures c in HeldOfClass(st, k) <==> c < CHUNKS && ClassOf(c) == k && st.place[c] == Held
    ensures c in Stray(st, k) <==> c < CHUNKS && ClassOf(c) == k && (OnItsWay(st.place[c]) || st.place[c].Lost?)
  {
    hide LogOk, OwnerOk, SlotsOk, HoldersOk, FreshOk, InboxOk, LostChunks, LooseOk, TailOk, FreedOk;
    assert ListOk(k, st.free[k]);
    if c < CHUNKS && ClassOf(c) == k {
      OneOfThree(st, k, c);
    }
  }

  lemma FreeListSize(st: State, k: nat)
    requires Inv(st) && k < CLASSES
    ensures Shape(st) && |Elements(st.free[k])| == |st.free[k]| && NoDup(st.free[k])
  {
    hide LogOk, OwnerOk, SlotsOk, HoldersOk, FreshOk, InboxOk, LostChunks, LooseOk, HeldOk, PooledOk, TailOk, FreedOk;
    assert ListOk(k, st.free[k]);
  }

  /** Conservation: in every state a class's chunks are its free list, the held ones and the stray ones; these are
      disjoint, and the list names no chunk twice. */
  lemma Conservation(st: State, k: nat)
    requires Inv(st) && k < CLASSES
    ensures Elements(st.free[k]) + HeldOfClass(st, k) + Stray(st, k) == ChunksOfClass(k) && NoDup(st.free[k])
    ensures Elements(st.free[k]) !! HeldOfClass(st, k) !! Stray(st, k)
    ensures |st.free[k]| + |HeldOfClass(st, k)| + |Stray(st, k)| == ClassChunks(k)
  {
    hide Inv, HeldOfClass, Stray, Elements;
    FreeListSize(st, k);
    ClassSizeInChunks(k);
    var free, held, stray := Elements(st.free[k]), HeldOfClass(st, k), Stray(st, k);
    forall c: nat
      ensures c in ChunksOfClass(k) <==> c in free || c in held || c in stray
      ensures !(c in free && c in held) && !(c in free && c in stray) && !(c in held && c in stray)
    {
      Whereabouts(st, k, c);
    }
    ThreeParts(ChunksOfClass(k), free, held, stray);
  }

  /** The chunks of the messages from `lo` on: no more chunks than messages. */
  ghost function WindowChunks(log: seq<Entry>, lo: nat): (r: set<nat>)
    requires lo <= |log|
    ensures |r| <= |log| - lo && forall i: nat | lo <= i < |log| :: log[i].chunk in r
    decreases |log| - lo
  {
    if lo == |log| then {} else WindowChunks(log, lo + 1) + {log[lo].chunk}
  }

  /** Held chunks inject into the slowest reader's window. */
  lemma HeldFitTheSlowestWindow(st: State, lo: nat)
    requires Inv(st) && lo <= |st.log|
    requires forall s: nat | s < SLOTS && st.slots[s].Used? :: lo <= st.slots[s].next
    ensures |HeldChunks(st)| <= |st.log| - lo
  {
    hide LogOk, FreshOk, InboxOk, LostChunks, LooseOk, PooledOk, HeldOk, FreeOk, TailOk, FreedOk;
    var image := WindowChunks(st.log, lo);
    forall c | c in HeldChunks(st)
      ensures c in image
    {
      var s :| s in st.holders[c];
      assert InUse(st.slots, s) && FirstBit(st.slots, st.pub, s) <= st.owner[c];
      assert st.log[st.owner[c]].chunk == c;
    }
    SubsetSize(HeldChunks(st), image);
  }

  /** A reader every other reader is level with or ahead of. */
  predicate IsSlowest(st: State, s: nat)
    requires Shape(st) && s < SLOTS
  {
    st.slots[s].Used? && forall t: nat | t < SLOTS && st.slots[t].Used? :: st.slots[s].next <= st.slots[t].next
  }

  lemma {:induction false} SlowestExists(st: State, n: nat, seen: nat) returns (s: nat)
    requires Shape(st) && n <= SLOTS && seen < n && st.slots[seen].Used?
    ensures s < n && st.slots[s].Used? && forall t: nat | t < n && st.slots[t].Used? ::
      st.slots[s].next <= st.slots[t].next
  {
    if t: nat :| t < n - 1 && st.slots[t].Used? {
      s := SlowestExists(st, n - 1, t);
      if st.slots[n - 1].Used? && st.slots[n - 1].next < st.slots[s].next {
        s := n - 1;
      }
    } else {
      s := seen;
    }
  }

  /** With a reader in use at most 15 chunks are held: one fewer than the ring has slots. */
  lemma AtMostFifteenHeld(st: State, s: nat)
    requires Inv(st) && s < SLOTS && st.slots[s].Used?
    ensures |HeldChunks(st)| <= RING - 1
  {
    hide LogOk, FreshOk, InboxOk, LostChunks, LooseOk, PooledOk, HeldOk, FreeOk, HoldersOk, OwnerOk, TailOk, FreedOk;
    var t := SlowestExists(st, SLOTS, s);
    HeldFitTheSlowestWindow(st, st.slots[t].next);
  }

  lemma HeldOfClassIsHeld(st: State, k: nat)
    requires Shape(st) && k < CLASSES
    ensures |HeldOfClass(st, k)| <= |HeldChunks(st)|
  {
    SubsetSize(HeldOfClass(st, k), HeldChunks(st));
  }

  // ---------- Chunks on their way back ----------

  ghost function LostOfClass(st: State, k: nat): set<nat>
    requires Shape(st) && k < CLASSES
  {
    set c: nat | c < CHUNKS && ClassOf(c) == k && st.place[c] == Lost
  }

  /** Chunks of class `k` that a subscriber or the reap has taken out of circulation and not appended yet. */
  ghost function CarriedOfClass(st: State, k: nat): set<nat>
    requires Shape(st) && k < CLASSES
  {
    set c: nat | c < CHUNKS && ClassOf(c) == k && OnItsWay(st.place[c])
  }

  /** How many chunks can be carried at once. */
  function Carriers(st: State): nat {
    if st.pub.Ready? then 1 else 2
  }

  lemma AtMostOne(xs: set<nat>)
    requires forall x, y | x in xs && y in xs :: x == y
    ensures |xs| <= 1
  {
    if xs != {} {
      var x :| x in xs;
      assert xs == {x};
    }
  }

  /** Never more than one chunk is on its way back, and one more with a dead subscriber being reaped: the chunk that
      subscriber died with. */
  lemma FewCarried(st: State, k: nat)
    requires Inv(st) && k < CLASSES
    ensures |CarriedOfClass(st, k)| <= Carriers(st)
  {
    hide Inv;
    ShapeOf(st);
    var all := CarriedOfClass(st, k);
    var dying := set c | c in all && st.pub.Reaping? && st.place[c] == Loose(st.pub.slot);
    forall x, y | x in all && y in all
      ensures (x in dying <==> y in dying) ==> x == y
    {
      if x in dying <==> y in dying {
        SameCarrier(st, x, y);
      }
    }
    AtMostOne(dying);
    AtMostOne(all - dying);
    assert all == dying + (all - dying);
  }

  /** Two chunks on their way back are the same, unless the reaped subscriber carries one of them. */
  lemma SameCarrier(st: State, c: nat, d: nat)
    requires Inv(st) && c < CHUNKS && d < CHUNKS && OnItsWay(st.place[c]) && OnItsWay(st.place[d])
    requires st.pub.Reaping? ==> (st.place[c] == Loose(st.pub.slot) <==> st.place[d] == Loose(st.pub.slot))
    ensures c == d
  {
    hide Inv;
    WhoCarries(st, c);
    WhoCarries(st, d);
    if st.place[c].Loose? && st.place[d].Loose? {
      OneCarrier(st, c, d);
    } else if st.place[c].Loose? {
      FreeingAlone(st, st.place[c].slot, c);
    } else if st.place[d].Loose? {
      FreeingAlone(st, st.place[d].slot, d);
    }
  }

  lemma WhoCarries(st: State, c: nat)
    requires Inv(st) && c < CHUNKS && OnItsWay(st.place[c])
    ensures Shape(st) && (st.place[c].Loose? ==> InUse(st.slots, st.place[c].slot))
    ensures st.place[c].Freed? ==> st.pub.Reaping? && st.pub.release.Freeing? && st.pub.release.chunk == c
  {
    hide LogOk, FreshOk, InboxOk, LostChunks, PooledOk, FreeOk, SlotsOk, OwnerOk, HoldersOk, HeldOk, TailOk;
    if st.place[c].Loose? {
      CarriedIsLastRead(st, st.place[c].slot, c);
    }
  }

  lemma StrayParts(st: State, k: nat)
    requires Shape(st) && k < CLASSES
    ensures |Stray(st, k)| == |CarriedOfClass(st, k)| + |LostOfClass(st, k)|
  {
    assert Stray(st, k) == CarriedOfClass(st, k) + LostOfClass(st, k);
    assert CarriedOfClass(st, k) !! LostOfClass(st, k);
  }

  // ---------- When the publisher is blocked ----------

  /** In every state with a reader attached, a class runs short only of what deaths took from it and of 16 or 17
      chunks that readers hold or bring back. */
  lemma LargeClassesNeverBlock(st: State, k: nat, s: nat)
    requires Inv(st) && k < CLASSES && s < SLOTS && st.slots[s].Used?
    ensures |LostOfClass(st, k)| + RING + Carriers(st) < ClassChunks(k) ==> |st.free[k]| >= 2
    ensures !RingBlocked(st) && |LostOfClass(st, k)| + RING + Carriers(st) <= ClassChunks(k) ==> CanPublish(st, k)
  {
    hide LogOk, FreshOk, InboxOk, LostChunks, LooseOk, PooledOk, HeldOk, HoldersOk, OwnerOk, Stray, CarriedOfClass,
         LostOfClass, HeldOfClass, HeldChunks, TailOk, FreedOk;
    Conservation(st, k);
    StrayParts(st, k);
    FewCarried(st, k);
    HeldOfClassIsHeld(st, k);
    var t := SlowestExists(st, SLOTS, s);
    HeldFitTheSlowestWindow(st, st.slots[t].next);
  }

  /** A publisher blocked while a reader is attached, by a class that deaths have left three chunks or more - four
      during a reap -, has a reader with an unread message: consumption, and with it a wake-up, is still to come. */
  lemma BlockedMeansSomeoneHasUnread(st: State, k: nat, s: nat)
    requires Inv(st) && k < CLASSES && s < SLOTS && st.slots[s].Used? && !CanPublish(st, k)
    requires |LostOfClass(st, k)| + Carriers(st) < ClassChunks(k) - 1
    ensures exists t: nat :: t < SLOTS && st.slots[t].Used? && st.slots[t].next < |st.log|
  {
    hide Inv, Stray, CarriedOfClass, LostOfClass;
    ShapeOf(st);
    FewCarried(st, k);
    SlotsAreOk(st);
    if forall t: nat | t < SLOTS && st.slots[t].Used? :: st.slots[t].next == |st.log| {
      AllReadCanPublishIff(st, k, s);
    }
  }

  lemma SlotsAreOk(st: State)
    requires Inv(st)
    ensures forall s: nat | s < SLOTS && st.slots[s].Used? :: SlotOk(st.log, st.slots[s])
  {
  }

  lemma NothingHeld(st: State, k: nat, s: nat)
    requires Inv(st) && k < CLASSES && s < SLOTS && st.slots[s].Used?
    requires forall t: nat | t < SLOTS && st.slots[t].Used? :: st.slots[t].next == |st.log|
    ensures |HeldOfClass(st, k)| == 0 && !RingBlocked(st)
  {
    hide Inv, HeldOfClass, HeldChunks;
    ShapeOf(st);
    HeldOfClassIsHeld(st, k);
    HeldFitTheSlowestWindow(st, |st.log|);
  }

  /** With every message read, a publish finds room exactly when readers and deaths have left the class two chunks. */
  lemma AllReadCanPublishIff(st: State, k: nat, s: nat)
    requires Inv(st) && k < CLASSES && s < SLOTS && st.slots[s].Used?
    requires forall t: nat | t < SLOTS && st.slots[t].Used? :: st.slots[t].next == |st.log|
    ensures CanPublish(st, k) <==> |CarriedOfClass(st, k)| + |LostOfClass(st, k)| < ClassChunks(k) - 1
  {
    hide Inv, CarriedOfClass, LostOfClass, Stray, HeldOfClass, Elements, RingBlocked;
    ShapeOf(st);
    NothingHeld(st, k, s);
    Conservation(st, k);
    StrayParts(st, k);
  }

  // ---------- Exactly when the publisher is blocked ----------

  /** How many of the messages from `lo` on are in chunks of class `k`. */
  ghost function CountOfClass(log: seq<Entry>, lo: nat, k: nat): (n: nat)
    requires lo <= |log| && LogOk(log)
    ensures n <= |log| - lo
    ensures n == |log| - lo <==> forall i: nat | lo <= i < |log| :: ClassOf(log[i].chunk) == k
    decreases |log| - lo
  {
    if lo == |log| then 0
    else
      assert EntryOk(log[lo]);
      CountOfClass(log, lo + 1, k) + if ClassOf(log[lo].chunk) == k then 1 else 0
  }

  ghost predicate InWindow(log: seq<Entry>, lo: nat, k: nat, c: nat) {
    c < CHUNKS && ClassOf(c) == k && exists i: nat :: lo <= i < |log| && log[i].chunk == c
  }

  /** When the messages from `lo` on are in different chunks, as many chunks of class `k` as messages. */
  lemma {:induction false} ClassWindow(log: seq<Entry>, lo: nat, k: nat, chunks: set<nat>)
    requires lo <= |log| && LogOk(log)
    requires forall i, j: nat | lo <= i < j < |log| :: log[i].chunk != log[j].chunk
    requires forall c: nat :: c in chunks <==> InWindow(log, lo, k, c)
    ensures |chunks| == CountOfClass(log, lo, k)
    decreases |log| - lo
  {
    if lo < |log| {
      hide ClassOf, LogOk;
      var e := log[lo].chunk;
      var rest := if EntryClass(log, lo) == k then chunks - {e} else chunks;
      forall c: nat
        ensures c in rest <==> InWindow(log, lo + 1, k, c)
      {
        WindowStep(log, lo, k, c);
      }
      WindowStep(log, lo, k, e);
      ClassWindow(log, lo + 1, k, rest);
    } else {
      assert forall c: nat :: !InWindow(log, lo, k, c);
      assert chunks == {};
    }
  }

  ghost function EntryClass(log: seq<Entry>, i: nat): nat
    requires LogOk(log) && i < |log|
  {
    assert EntryOk(log[i]);
    ClassOf(log[i].chunk)
  }

  lemma WindowStep(log: seq<Entry>, lo: nat, k: nat, c: nat)
    requires lo < |log| && LogOk(log)
    requires forall i: nat | lo < i < |log| :: log[i].chunk != log[lo].chunk
    ensures InWindow(log, lo, k, c) <==> InWindow(log, lo + 1, k, c) || (c == log[lo].chunk && EntryClass(log, lo) == k)
    ensures !InWindow(log, lo + 1, k, log[lo].chunk)
  {
    assert EntryOk(log[lo]);
  }

  /** A reader whose bit is still set on as many messages as anyone's. */
  predicate IsLast(st: State, s: nat)
    requires Shape(st) && s < SLOTS
  {
    st.slots[s].Used? && forall t: nat | t < SLOTS && st.slots[t].Used? :: st.slots[s].Unread() <= st.slots[t].Unread()
  }

  lemma {:induction false} LastExists(st: State, n: nat, seen: nat) returns (s: nat)
    requires Shape(st) && n <= SLOTS && seen < n && st.slots[seen].Used?
    ensures s < n && st.slots[s].Used?
    ensures forall t: nat | t < n && st.slots[t].Used? :: st.slots[s].Unread() <= st.slots[t].Unread()
  {
    if t: nat :| t < n - 1 && st.slots[t].Used? {
      s := LastExists(st, n - 1, t);
      if st.slots[n - 1].Used? && st.slots[n - 1].Unread() < st.slots[s].Unread() {
        s := n - 1;
      }
    } else {
      s := seen;
    }
  }

  /** With a reader attached there is a last one. */
  lemma SomeoneIsLast(st: State, seen: nat) returns (s: nat)
    requires Shape(st) && seen < SLOTS && st.slots[seen].Used?
    ensures s < SLOTS && IsLast(st, s)
  {
    s := LastExists(st, SLOTS, seen);
  }

  lemma HeldIsOwned(st: State, s: nat, c: nat)
    requires Inv(st) && st.pub.Ready? && s < SLOTS && IsLast(st, s) && c < CHUNKS && st.holders[c] != {}
    ensures st.slots[s].Unread() <= st.owner[c] < |st.log| && st.log[st.owner[c]].chunk == c
  {
    hide FreeOk, PooledOk, LooseOk, InboxOk, LostChunks, FreshOk, LogOk, HeldOk, SlotsOk, TailOk, FreedOk;
    var t :| t in st.holders[c];
    assert InUse(st.slots, t) && FirstBit(st.slots, st.pub, t) <= st.owner[c];
  }

  /** What is held are exactly the chunks of the messages the last reader has not acknowledged. */
  lemma HeldAreUnread(st: State, s: nat, k: nat)
    requires Inv(st) && st.pub.Ready? && s < SLOTS && IsLast(st, s) && k < CLASSES
    ensures LogOk(st.log) && st.slots[s].Unread() <= |st.log|
    ensures |HeldOfClass(st, k)| == CountOfClass(st.log, st.slots[s].Unread(), k)
  {
    var lo := st.slots[s].Unread();
    hide FreeOk, PooledOk, LooseOk, InboxOk, LostChunks, TailOk, FreedOk;
    forall i: nat | lo <= i < |st.log|
      ensures st.log[i].chunk < CHUNKS && st.owner[st.log[i].chunk] == i && s in st.holders[st.log[i].chunk]
    {
      UnreadMessageIsIntact(st, s, i);
    }
    forall c: nat
      ensures c in HeldOfClass(st, k) <==> InWindow(st.log, lo, k, c)
    {
      if c in HeldOfClass(st, k) {
        HeldIsOwned(st, s, c);
      }
    }
    ClassWindow(st.log, lo, k, HeldOfClass(st, k));
  }

  /** Exactly when a publisher between two operations is blocked, in every state with a reader attached: the ring is
      full, or unread messages, a chunk on its way back and losses leave the class a single chunk. */
  lemma BlockedIff(st: State, s: nat, k: nat)
    requires Inv(st) && st.pub.Ready? && s < SLOTS && IsLast(st, s) && k < CLASSES
    ensures LogOk(st.log) && st.slots[s].Unread() <= |st.log| && |CarriedOfClass(st, k)| <= 1
    ensures !CanPublish(st, k) <==>
      || RingBlocked(st)
      || CountOfClass(st.log, st.slots[s].Unread(), k) + |CarriedOfClass(st, k)| + |LostOfClass(st, k)|
         >= ClassChunks(k) - 1
  {
    hide Inv, Stray, CarriedOfClass, LostOfClass, HeldOfClass, RingBlocked, CountOfClass, LogOk, Elements, IsLast;
    ShapeOf(st);
    HeldAreUnread(st, s, k);
    Conservation(st, k);
    StrayParts(st, k);
    FewCarried(st, k);
  }

  /** The class of 16 chunks, while none of it is lost, is short with the ring not full exactly when the last reader
      has 14 unread messages, all of this class, and a fifteenth chunk is on its way back. */
  lemma SixteenBlockedIff(st: State, s: nat, k: nat)
    requires Inv(st) && st.pub.Ready? && s < SLOTS && IsLast(st, s) && k < CLASSES && ClassChunks(k) == RING
    requires LostOfClass(st, k) == {} && !RingBlocked(st)
    ensures !CanPublish(st, k) <==>
      && |st.log| == st.slots[s].Unread() + RING - 2 && CarriedOfClass(st, k) != {}
      && forall i: nat | st.slots[s].Unread() <= i < |st.log| :: ClassOf(st.log[i].chunk) == k
  {
    hide Inv, CarriedOfClass, LostOfClass;
    BlockedIff(st, s, k);
    SlotsAreOk(st);
  }

  /** Nobody is reading, dying or being reaped, and every message is read. */
  predicate AtRest(st: State)
    requires Shape(st)
  {
    st.pub.Ready? && forall s: nat | s < SLOTS && st.slots[s].Used? ::
      (st.slots[s].phase.Idle? || st.slots[s].phase.Signalling?) && st.slots[s].next == |st.log|
  }

  /** Exactly when a publisher with readers at rest can publish: not all but one of the class's
      chunks were lost with dead subscribers. */
  lemma AtRestCanPublishIff(st: State, k: nat, s: nat)
    requires Inv(st) && AtRest(st) && k < CLASSES && s < SLOTS && st.slots[s].Used?
    ensures CanPublish(st, k) <==> |LostOfClass(st, k)| < ClassChunks(k) - 1
  {
    hide LogOk, FreshOk, InboxOk, LostChunks, PooledOk, HeldOk, HoldersOk, OwnerOk, TailOk;
    AllReadCanPublishIff(st, k, s);
    assert CarriedOfClass(st, k) == {};
  }

  /** Lost chunks are paid for by deaths, so a class of n chunks survives n - 2 of them. */
  lemma DeathsBoundLosses(st: State, k: nat)
    requires Inv(st) && k < CLASSES
    ensures |LostOfClass(st, k)| <= st.deaths
  {
    SubsetSize(LostOfClass(st, k), LostChunks(st.place));
  }
}

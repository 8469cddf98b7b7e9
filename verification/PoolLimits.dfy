/** Three runs that show where the pool's promises end. */
module PoolLimits {
  import opened Layout
  import opened Bytes
  import opened Pool
  import opened PoolInvariant
  import opened PoolRuns
  import opened PoolCounting
  import opened PoolSignals

  // ---------- Filling the ring ----------

  /** The first `r` slots read, `n` messages of class `k` are published and none is read. */
  ghost predicate Filled(st: State, r: nat, k: nat, n: nat)
    requires Inv(st) && k < CLASSES
  {
    && st.pub.Ready? && st.deaths == 0 && |st.log| == n && |st.free[k]| == ClassChunks(k) - n
    && forall s: nat | s < SLOTS :: st.slots[s] == if s < r then Used(0, 0, Idle, true) else Vacant
  }

  lemma {:induction false} FillUp(r: nat, payload: seq<Byte>, n: nat) returns (steps: seq<Step>)
    requires 1 <= r <= 2 && |payload| <= MAX_PAYLOAD && n <= RING - 1 && n < ClassChunks(PayloadClass(payload))
    ensures Filled(FromStart(steps), r, PayloadClass(payload), n)
  {
    hide HoldersOk, OwnerOk, FreshOk, LogOk, PooledOk, LooseOk, HeldOk, FreeOk, LostChunks, InboxOk, TailOk, FreedOk;
    InitOk();
    if n == 0 {
      steps := [DoJoin(0)];
      RunAppend(Init(), [], DoJoin(0));
      assert [] + [DoJoin(0)] == steps;
      if r == 2 {
        RunAppend(Init(), steps, DoJoin(1));
        steps := steps + [DoJoin(1)];
      }
    } else {
      var before := FillUp(r, payload, n - 1);
      steps := before + [DoPublish(payload)];
      RunAppend(Init(), before, DoPublish(payload));
      FillOne(FromStart(before), r, payload, n - 1);
    }
  }

  lemma FillOne(st: State, r: nat, payload: seq<Byte>, n: nat)
    requires Inv(st) && 1 <= r <= 2 && |payload| <= MAX_PAYLOAD && n < RING - 1
    requires n + 1 < ClassChunks(PayloadClass(payload)) && Filled(st, r, PayloadClass(payload), n)
    ensures Filled(Apply(st, DoPublish(payload)), r, PayloadClass(payload), n + 1)
  {
    hide HoldersOk, OwnerOk, FreshOk, LogOk, PooledOk, LooseOk, HeldOk, FreeOk, LostChunks, InboxOk,
         PayloadClass, TailOk, FreedOk;
    assert st.slots[0].Used?;
    assert CanPublish(st, PayloadClass(payload));
  }

  // ---------- A class short while the ring has room ----------

  const MEDIUM: seq<Byte> := seq(200, i => 0)

  lemma SmallPayload()
    ensures PayloadClass([]) == 0
  {
  }

  lemma MediumPayload()
    ensures |MEDIUM| == 200 && PayloadClass(MEDIUM) == 2
  {
  }

  /** A reachable state in which the class of 16 chunks is short although nothing was lost and the ring is not full:
      15 messages of the class, and the first of them acknowledged but not appended yet. SixteenBlockedIff says exactly
      when this happens. */
  lemma SixteenCanBeShort() returns (steps: seq<Step>)
    ensures var st := FromStart(steps);
            st.pub.Ready? && st.deaths == 0 && !RingBlocked(st) && !CanPublish(st, 2)
  {
    hide OwnerOk, FreshOk, LogOk, PooledOk, LooseOk, HeldOk, FreeOk, LostChunks, InboxOk, HoldersOk, Run, TailOk,
         FreedOk;
    InitOk();
    MediumPayload();
    var fill := FillUp(1, MEDIUM, RING - 1);
    steps := fill + [DoClear(0)] + [DoStoreRead(0)];
    RunAppend(Init(), fill, DoClear(0));
    RunAppend(Init(), fill + [DoClear(0)], DoStoreRead(0));
    var st := FromStart(fill);
    ClearedChunk(st, 0);
    var st1 := Apply(st, DoClear(0));
    assert Apply(st1, DoStoreRead(0)).slots[0].next == 1;
  }

  // ---------- A silent unblock ----------

  /** Slot 0 clears, then slot 1 clears as the last holder, stores, appends and signals. */
  const OVERTAKING :=
    [DoClear(0), DoClear(1), DoStoreRead(1), DoUnmark(1), DoLink(1), DoReturn(1), DoSignal(1)]

  /** Slot 0 has cleared the bit of message 0 but not stored its index; slot 1 is done with it. */
  ghost predicate HasOvertaken(st: State)
    requires Inv(st)
  {
    && st.slots[0] == Used(0, 0, Cleared(false), true) && st.slots[1] == Used(0, 1, Idle, true)
    && |st.log| == RING - 1 && |st.free[0]| >= 2 && forall s: nat | 2 <= s < SLOTS :: st.slots[s].Vacant?
  }

  lemma Overtaken(st: State)
    requires Inv(st) && Filled(st, 2, 0, RING - 1)
    ensures HasOvertaken(Run(st, OVERTAKING))
  {
    hide OwnerOk, FreshOk, LogOk, PooledOk, LooseOk, HeldOk, FreeOk, LostChunks, InboxOk, HoldersOk, Run,
         HasOvertaken, Filled, TailOk, FreedOk;
    BothRead(st);
    var st1 := Apply(st, DoClear(0));
    var st2 := Apply(st1, DoClear(1));
    var st3 := Apply(st2, DoStoreRead(1));
    var st4 := Apply(st3, DoUnmark(1));
    var st5 := Apply(st4, DoLink(1));
    ReturnAlone(st3);
    var first, rest := [DoClear(0), DoClear(1), DoStoreRead(1), DoUnmark(1), DoLink(1)], [DoReturn(1), DoSignal(1)];
    assert OVERTAKING == first + rest;
    RunFive(st, DoClear(0), DoClear(1), DoStoreRead(1), DoUnmark(1), DoLink(1));
    RunTwo(st5, DoReturn(1), DoSignal(1));
    RunConcat(st, first, rest);
  }

  /** Slot 1 has acknowledged message 0 as its last holder, slot 0 has cleared its bit. */
  ghost predicate BothCleared(st: State)
    requires Inv(st)
  {
    && st.slots[0] == Used(0, 0, Cleared(false), true) && |st.log| == RING - 1 && |st.free[0]| >= 2
    && st.log[0].chunk < CHUNKS
    && st.slots[1] == Used(0, 1, Returning(st.log[0].chunk, Marked), true)
    && forall s: nat | 2 <= s < SLOTS :: st.slots[s].Vacant?
  }

  lemma BothRead(st: State)
    requires Inv(st) && Filled(st, 2, 0, RING - 1)
    ensures BothCleared(Apply(Apply(Apply(st, DoClear(0)), DoClear(1)), DoStoreRead(1)))
  {
    hide OwnerOk, FreshOk, LogOk, PooledOk, LooseOk, HeldOk, FreeOk, LostChunks, InboxOk, HoldersOk, TailOk, FreedOk;
    ClearedChunk(st, 0);
    var c := st.log[0].chunk;
    BothHold(st, c);
    var st1 := Apply(st, DoClear(0));
    ClearedChunk(st1, 1);
    assert st1.holders[c] == {1};
    var st2 := Apply(st1, DoClear(1));
    StoredChunkInRange(st2, 1);
  }

  lemma ReturnAlone(st: State)
    requires Inv(st) && BothCleared(st)
    ensures HasOvertaken(Apply(Apply(Apply(Apply(st, DoUnmark(1)), DoLink(1)), DoReturn(1)), DoSignal(1)))
  {
    hide OwnerOk, FreshOk, LogOk, PooledOk, LooseOk, HeldOk, FreeOk, LostChunks, InboxOk, HoldersOk, TailOk, FreedOk;
    var st1 := Apply(st, DoUnmark(1));
    assert CanLink(st1, 1);
    var st2 := Apply(st1, DoLink(1));
    var st3 := Apply(st2, DoReturn(1));
    assert st3.slots[1] == Used(0, 1, Signalling, true);
  }

  lemma BothHold(st: State, c: nat)
    requires Inv(st) && Filled(st, 2, 0, RING - 1) && c < CHUNKS && st.owner[c] == 0
    ensures st.holders[c] == {0, 1}
  {
    hide OwnerOk, FreshOk, LogOk, PooledOk, LooseOk, HeldOk, FreeOk, LostChunks, InboxOk, TailOk, FreedOk;
    assert Active(st.slots, st.pub, 0) && Active(st.slots, st.pub, 1);
    assert forall s | s in st.holders[c] :: InUse(st.slots, s);
  }

  lemma RunFive(st: State, a: Step, b: Step, c: Step, d: Step, e: Step)
    requires Inv(st)
    ensures Run(st, [a, b, c, d, e]) == Apply(Apply(Apply(Apply(Apply(st, a), b), c), d), e)
  {
    hide Apply, Inv;
    var none: seq<Step> := [];
    assert none + [a] == [a] && [a] + [b] == [a, b] && [a, b] + [c] == [a, b, c];
    assert [a, b, c] + [d] == [a, b, c, d] && [a, b, c, d] + [e] == [a, b, c, d, e];
    RunAppend(st, none, a);
    RunAppend(st, [a], b);
    RunAppend(st, [a, b], c);
    RunAppend(st, [a, b, c], d);
    RunAppend(st, [a, b, c, d], e);
  }

  /** Storing slot 0's index then makes room for a blocked publisher while neither it nor anyone else is about to
      signal; it still has messages to read. */
  lemma RoomAfterOvertaking(st: State)
    requires Inv(st) && HasOvertaken(st)
    ensures var st' := Apply(st, DoStoreRead(0));
            && Shape(st) && !CanPublish(st, 0) && CanPublish(st', 0)
            && (forall s: nat | s < SLOTS && st'.slots[s].Used? :: st'.slots[s].phase.Idle?)
            && LiveDue(st')
  {
    hide OwnerOk, FreshOk, LogOk, PooledOk, LooseOk, HeldOk, FreeOk, LostChunks, InboxOk, HoldersOk, Run, LiveDue,
         TailOk, FreedOk;
    assert RingBlocked(st);
    assert Apply(st, DoStoreRead(0)).slots[0] == Used(0, 1, Idle, true);
    assert !RingBlocked(Apply(st, DoStoreRead(0)));
    UnblockingLeavesASignalDue(st, DoStoreRead(0), 0);
  }

  /** A reachable state in which a subscriber's stored read index makes room for a blocked publisher
      while neither it nor anyone else is about to signal: the signal for that chunk was given before
      the room existed. RoomIsAnnouncedIff says exactly which steps do this. The subscriber still has
      messages to read. */
  lemma RoomCanAppearSilently() returns (steps: seq<Step>)
    ensures var st := FromStart(steps);
            var st' := Apply(st, DoStoreRead(0));
            && !CanPublish(st, 0) && CanPublish(st', 0)
            && (forall s: nat | s < SLOTS && st'.slots[s].Used? :: st'.slots[s].phase.Idle?)
            && LiveDue(st')
  {
    hide Inv, Run, LiveDue, HasOvertaken, Filled, Apply, CanPublish;
    SmallPayload();
    var fill := FillUp(2, [], RING - 1);
    Overtaken(FromStart(fill));
    steps := fill + OVERTAKING;
    InitOk();
    RunConcat(Init(), fill, OVERTAKING);
    RoomAfterOvertaking(FromStart(steps));
  }

  // ---------- Losing a class to deaths ----------

  /** No subscriber, and `n` chunks of the largest class left on its list. */
  ghost predicate Deserted(st: State, n: nat)
    requires Inv(st)
  {
    st.pub.Ready? && |st.free[4]| == n && forall s: nat | s < SLOTS :: st.slots[s].Vacant?
  }

  const BIG: seq<Byte> := seq(MAX_PAYLOAD, i => 0)

  /** Join, receive one large message, and die between clearing the bit and returning the chunk. */
  const SHORT_LIFE := [DoJoin(0), DoPublish(BIG), DoClear(0), DoCrash(0), DoBeginReap(0), DoReapClear, DoEndReap]

  /** One reader, with one unread message in a chunk of the largest class. */
  ghost predicate OneUnread(st: State, n: nat)
    requires Inv(st)
  {
    && st.pub.Ready? && |st.free[4]| == n && |st.log| > 0
    && st.slots[0] == Used(|st.log| - 1, |st.log| - 1, Idle, true)
    && forall s: nat | 1 <= s < SLOTS :: st.slots[s].Vacant?
  }

  lemma JoinAndPublish(st: State, n: nat)
    requires Inv(st) && n >= 2 && Deserted(st, n)
    ensures OneUnread(Run(st, [DoJoin(0), DoPublish(BIG)]), n - 1)
  {
    hide OwnerOk, FreshOk, LogOk, PooledOk, LooseOk, HeldOk, FreeOk, LostChunks, InboxOk, HoldersOk, Run, TailOk,
         FreedOk;
    var st1 := Apply(st, DoJoin(0));
    BigPayload();
    hide PayloadClass;
    assert st1.slots[0].Used? && st1.slots[0].next + RING > |st1.log| + 1;
    assert !RingBlocked(st1);
    RunTwo(st, DoJoin(0), DoPublish(BIG));
  }

  lemma BigPayload()
    ensures |BIG| == MAX_PAYLOAD && PayloadClass(BIG) == 4
  {
  }

  /** One reader, dead after clearing the bit of the last message and before storing its read index. */
  ghost predicate HalfConsumed(st: State, n: nat)
    requires Inv(st)
  {
    && st.pub.Ready? && |st.free[4]| == n && |st.log| > 0
    && st.slots[0] == Used(|st.log| - 1, |st.log| - 1, Cleared(true), false)
    && st.log[|st.log| - 1].chunk < CHUNKS && st.holders[st.log[|st.log| - 1].chunk] == {}
    && forall s: nat | 1 <= s < SLOTS :: st.slots[s].Vacant?
  }

  lemma ClearAndDie(st: State, n: nat)
    requires Inv(st) && OneUnread(st, n)
    ensures HalfConsumed(Apply(Apply(st, DoClear(0)), DoCrash(0)), n)
  {
    hide OwnerOk, FreshOk, LogOk, PooledOk, LooseOk, HeldOk, FreeOk, LostChunks, InboxOk, HoldersOk, TailOk, FreedOk;
    ClearedChunk(st, 0);
    OnlyZeroHolds(st, st.log[|st.log| - 1].chunk);
  }

  lemma ReapHalfConsumed(st: State, n: nat)
    requires Inv(st) && HalfConsumed(st, n)
    ensures Deserted(Apply(Apply(Apply(st, DoBeginReap(0)), DoReapClear), DoEndReap), n)
  {
    hide OwnerOk, FreshOk, LogOk, PooledOk, LooseOk, HeldOk, FreeOk, LostChunks, InboxOk, HoldersOk, TailOk, FreedOk;
  }

  lemma DieHolding(st: State, n: nat)
    requires Inv(st) && OneUnread(st, n)
    ensures Deserted(Run(st, [DoClear(0), DoCrash(0), DoBeginReap(0), DoReapClear, DoEndReap]), n)
  {
    hide Inv, Run, Apply, Deserted, OneUnread, HalfConsumed;
    ClearAndDie(st, n);
    ReapHalfConsumed(Apply(Apply(st, DoClear(0)), DoCrash(0)), n);
    RunFive(st, DoClear(0), DoCrash(0), DoBeginReap(0), DoReapClear, DoEndReap);
  }

  lemma OnlyZeroHolds(st: State, c: nat)
    requires Inv(st) && c < CHUNKS && 0 in st.holders[c]
    requires forall s: nat | 1 <= s < SLOTS :: st.slots[s].Vacant?
    ensures st.holders[c] == {0}
  {
    hide OwnerOk, FreshOk, LogOk, PooledOk, LooseOk, HeldOk, FreeOk, LostChunks, InboxOk, TailOk, FreedOk;
    assert forall s | s in st.holders[c] :: InUse(st.slots, s);
  }

  lemma ShortLifeLosesAChunk(st: State, n: nat)
    requires Inv(st) && n >= 2 && Deserted(st, n)
    ensures Deserted(Run(st, SHORT_LIFE), n - 1)
  {
    hide Inv, Run, Apply, Deserted, OneUnread;
    JoinAndPublish(st, n);
    var birth, rest := [DoJoin(0), DoPublish(BIG)], [DoClear(0), DoCrash(0), DoBeginReap(0), DoReapClear, DoEndReap];
    DieHolding(Run(st, birth), n - 1);
    RunConcat(st, birth, rest);
    assert SHORT_LIFE == birth + rest;
  }

  lemma RunTwo(st: State, a: Step, b: Step)
    requires Inv(st)
    ensures Run(st, [a, b]) == Apply(Apply(st, a), b)
  {
    hide Apply, Inv;
    var none: seq<Step> := [];
    assert none + [a] == [a] && [a] + [b] == [a, b];
    RunAppend(st, none, a);
    RunAppend(st, [a], b);
  }

  lemma {:induction false} DesertAfter(lives: nat) returns (steps: seq<Step>)
    requires lives <= 7
    ensures Deserted(FromStart(steps), 8 - lives)
  {
    hide OwnerOk, FreshOk, LogOk, PooledOk, LooseOk, HeldOk, FreeOk, LostChunks, InboxOk, HoldersOk, Apply, TailOk,
         FreedOk;
    InitOk();
    if lives == 0 {
      steps := [];
    } else {
      var before := DesertAfter(lives - 1);
      steps := before + SHORT_LIFE;
      RunConcat(Init(), before, SHORT_LIFE);
      ShortLifeLosesAChunk(FromStart(before), 9 - lives);
    }
  }

  /** "Room comes back once everything is read" fails: seven deaths, one chunk each, leave a reader at
      rest and the largest class blocked for good. AtRestCanPublishIff says exactly when this happens. */
  lemma SevenDeathsExhaustAClass() returns (steps: seq<Step>)
    ensures var st := FromStart(steps);
            AtRest(st) && st.slots[0] == Used(|st.log|, |st.log|, Idle, true) && !CanPublish(st, 4)
  {
    hide OwnerOk, FreshOk, LogOk, PooledOk, LooseOk, HeldOk, FreeOk, LostChunks, InboxOk, HoldersOk, Run, TailOk,
         FreedOk;
    InitOk();
    var desert := DesertAfter(7);
    steps := desert + [DoJoin(0)];
    RunAppend(Init(), desert, DoJoin(0));
  }
}

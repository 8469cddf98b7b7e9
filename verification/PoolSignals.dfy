/** Which subscriber steps wake a publisher that waits for room.

    A subscriber signals the space event only when its clear found its bit alone in the mask. At
    the grain of whole consumptions that is enough: whoever makes room signals. At the grain of
    the program points it is not, and the lemmas say exactly what remains true. */
module PoolSignals {
  import opened Layout
  import opened Bytes
  import opened Pool
  import opened PoolCarriers
  import opened PoolInvariant
  import opened PoolRuns
  import opened PoolCounting

  predicate SubscriberStep(step: Step)
  {
    || step.DoClear? || step.DoStoreRead? || step.DoUnmark? || step.DoLink? || step.DoReturn? || step.DoSignal?
    || step.DoCrash?
  }

  /** A reader strictly behind all others is the last holder of its next message, whatever state the
      others are in: its clear commits it to returning the chunk and signalling. */
  lemma UniqueSlowestIsLastHolder(st: State, s: nat)
    requires Inv(st) && s < SLOTS && CanClear(st, s)
    requires forall t: nat | t < SLOTS && t != s && st.slots[t].Used? :: st.slots[s].next < st.slots[t].next
    ensures Apply(st, DoClear(s)).slots[s].phase == Cleared(true) && ClearsLast(st, s)
  {
    hide FreeOk, PooledOk, LooseOk, InboxOk, LostChunks, FreshOk, LogOk, TailOk, FreedOk;
    ClearedChunk(st, s);
    var c := st.log[st.slots[s].next].chunk;
    forall t | t in st.holders[c]
      ensures t == s
    {
      assert InUse(st.slots, t);
    }
    assert st.holders[c] == {s};
  }

  /** One consumption with no other step in between. */
  ghost function ConsumeAtOnce(st: State, s: nat): (st': State)
    requires Inv(st) && s < SLOTS
    ensures Inv(st')
  {
    hide Inv;
    AppendAtOnce(Apply(Apply(st, DoClear(s)), DoStoreRead(s)), s)
  }

  /** On the way to signalling, with nothing to do but finish the append and write the event. */
  predicate ToSignal(phase: Phase)
  {
    phase.Returning? || phase.Signalling?
  }

  /** A whole consumption that turns the publisher from blocked to able has nothing left to do but write the event,
      wherever all other processes stand. */
  lemma AtomicConsumeThatUnblocksSignals(st: State, s: nat, k: nat, st': State)
    requires Inv(st) && Inv(st') && s < SLOTS && k < CLASSES && CanClear(st, s) && st' == ConsumeAtOnce(st, s)
    requires !CanPublish(st, k) && CanPublish(st', k)
    ensures st'.slots[s].Used? && st'.slots[s].phase.Signalling?
  {
    hide HoldersOk, OwnerOk, FreshOk, LogOk, PooledOk, LooseOk, HeldOk, FreeOk, LostChunks, InboxOk, ConsumeAtOnce,
         Apply, TailOk, FreedOk;
    ConsumeSlots(st, s);
    if !ClearsLast(st, s) {
      assert RingBlocked(st);
      if forall t: nat | t < SLOTS && t != s && st.slots[t].Used? :: st.slots[s].next < st.slots[t].next {
        UniqueSlowestIsLastHolder(st, s);
      } else {
        var t: nat :| t < SLOTS && t != s && st.slots[t].Used? && st.slots[t].next <= st.slots[s].next;
        SomeoneStillBlocks(st, s, t);
      }
    }
  }

  /** What a consumption by slot `s` did to the slots and the free lists; `last`: it was the last holder's. */
  ghost predicate Consumed(st: State, st': State, s: nat, last: bool)
  {
    && |st.slots| == |st'.slots| == SLOTS && s < SLOTS && st.slots[s].Used? && |st'.log| == |st.log|
    && st'.slots[s].Used?
    && st'.slots == st.slots[s := st.slots[s].(next := st.slots[s].next + 1, phase := st'.slots[s].phase)]
    && (if last then st'.slots[s].phase.Signalling? else st'.slots[s].phase.Idle? && st'.free == st.free)
  }

  /** Whether the next clear of slot `s` finds no other bit. */
  ghost predicate ClearsLast(st: State, s: nat)
    requires Shape(st) && s < SLOTS && CanClear(st, s)
  {
    var c := st.log[st.slots[s].next].chunk;
    c < CHUNKS && st.holders[c] == {s}
  }

  lemma ConsumeSlots(st: State, s: nat)
    requires Inv(st) && s < SLOTS && CanClear(st, s)
    ensures Consumed(st, ConsumeAtOnce(st, s), s, ClearsLast(st, s))
  {
    hide HoldersOk, OwnerOk, FreshOk, LogOk, PooledOk, LooseOk, HeldOk, FreeOk, LostChunks, InboxOk, Appends, TailOk,
         FreedOk;
    ClearKeeps(st, s);
    var st1 := Apply(st, DoClear(s));
    StoredChunkInRange(st1, s);
    var st2 := Apply(st1, DoStoreRead(s));
    var st3 := AppendAtOnce(st2, s);
    AppendSlots(st2, s);
    AppendsFacts(st2, st3, s);
  }

  /** The three steps of an append. */
  ghost function AppendAtOnce(st: State, s: nat): (st': State)
    requires Inv(st) && s < SLOTS
    ensures Inv(st')
  {
    hide Inv;
    Apply(Apply(Apply(st, DoUnmark(s)), DoLink(s)), DoReturn(s))
  }

  ghost predicate Appends(st: State, st': State, s: nat)
  {
    && |st.slots| == |st'.slots| == SLOTS && s < SLOTS && st.slots[s].Used? && st'.slots[s].Used?
    && st'.log == st.log && st'.pub == st.pub && st'.inbox == st.inbox
    && st'.slots == st.slots[s := st.slots[s].(phase := st'.slots[s].phase)]
    && if st.slots[s].phase.Idle? then st' == st else st'.slots[s].phase.Signalling?
  }

  lemma AppendsFacts(st: State, st': State, s: nat)
    requires Appends(st, st', s)
    ensures |st.slots| == |st'.slots| == SLOTS && s < SLOTS && st.slots[s].Used? && st'.slots[s].Used?
    ensures st'.log == st.log && st'.pub == st.pub && st'.inbox == st.inbox
    ensures st'.slots == st.slots[s := st.slots[s].(phase := st'.slots[s].phase)]
    ensures if st.slots[s].phase.Idle? then st' == st else st'.slots[s].phase.Signalling?
  {
  }

  lemma AppendSlots(st: State, s: nat)
    requires Inv(st) && s < SLOTS && Live(st, s) && (st.slots[s].phase.Idle? || Returns(st, s, Marked))
    ensures Appends(st, AppendAtOnce(st, s), s)
  {
    hide HoldersOk, OwnerOk, FreshOk, LogOk, PooledOk, LooseOk, HeldOk, FreeOk, LostChunks, InboxOk, SlotsOk, TailOk,
         FreedOk;
    var st1 := Apply(st, DoUnmark(s));
    assert st1 == if st.slots[s].phase.Idle? then st else Unmark(st, s);
    var st2 := Apply(st1, DoLink(s));
  }

  lemma StoredChunkInRange(st: State, s: nat)
    requires Inv(st) && s < SLOTS && CanStoreRead(st, s)
    ensures st.log[st.slots[s].next].chunk < CHUNKS
  {
    assert EntryOk(st.log[st.slots[s].next]);
  }

  lemma SomeoneStillBlocks(st: State, s: nat, t: nat)
    requires Inv(st) && s < SLOTS && CanClear(st, s) && RingBlocked(st)
    requires t < SLOTS && t != s && st.slots[t].Used? && st.slots[t].next <= st.slots[s].next
    ensures RingBlocked(ConsumeAtOnce(st, s))
  {
    hide HoldersOk, OwnerOk, FreshOk, LogOk, PooledOk, LooseOk, HeldOk, FreeOk, LostChunks, InboxOk, ConsumeAtOnce,
         Apply, TailOk, FreedOk;
    ConsumeSlots(st, s);
    var u: nat :| u < SLOTS && st.slots[u].Used? && st.slots[u].next + RING <= |st.log| + 1;
    var v := if u == s then t else u;
    assert ConsumeAtOnce(st, s).slots[v] == st.slots[v];
  }

  // ---------- Signals still to come ----------

  /** Subscriber `s` still holds, carries or has just returned a chunk. */
  ghost predicate Owes(st: State, s: nat)
    requires Shape(st) && s < SLOTS
  {
    && st.slots[s].Used?
    && (|| ToSignal(st.slots[s].phase) || st.slots[s].phase == Cleared(true)
        || exists c: nat :: c < CHUNKS && s in st.holders[c])
  }

  /** A space signal or, from a dead subscriber, a reap is still to come. */
  ghost predicate SignalDue(st: State)
    requires Shape(st)
  {
    exists s: nat :: s < SLOTS && Owes(st, s)
  }

  /** It is a live subscriber's turn. */
  ghost predicate LiveDue(st: State)
    requires Shape(st)
  {
    exists s: nat :: s < SLOTS && Live(st, s) && Owes(st, s)
  }

  /** A dead subscriber holds or carries a chunk: its reap is due, and with it a recheck. */
  ghost predicate ReapDue(st: State)
    requires Shape(st)
  {
    exists s: nat :: s < SLOTS && st.slots[s].Used? && !st.slots[s].alive && Owes(st, s)
  }

  lemma DueFromSomeone(st: State)
    requires Shape(st)
    ensures SignalDue(st) <==> LiveDue(st) || ReapDue(st)
  {
  }

  /** However a subscriber's step makes room - last holder or not - that subscriber is alive and has a signal to give
      or messages left to read. */
  lemma UnblockingLeavesASignalDue(st: State, step: Step, k: nat)
    requires Inv(st) && SubscriberStep(step) && k < CLASSES
    requires !CanPublish(st, k) && CanPublish(Apply(st, step), k)
    ensures LiveDue(Apply(st, step)) && SignalDue(Apply(st, step))
  {
    hide HoldersOk, OwnerOk, FreshOk, LogOk, PooledOk, LooseOk, HeldOk, FreeOk, LostChunks, InboxOk, Owes, TailOk,
         FreedOk;
    var st' := Apply(st, step);
    RoomFrom(st, step, k);
    var s := step.slot;
    if step.DoStoreRead? && st'.slots[s].phase.Idle? {
      assert Active(st'.slots, st'.pub, s);
      UnreadMessageIsIntact(st', s, st'.slots[s].Unread());
      StillHolds(st', s, st'.log[st'.slots[s].Unread()].chunk);
    } else {
      GoesOn(st', s);
    }
  }

  lemma StillHolds(st: State, s: nat, c: nat)
    requires Shape(st) && s < SLOTS && c < CHUNKS && st.slots[s].Used? && s in st.holders[c]
    ensures Owes(st, s)
  {
  }

  lemma GoesOn(st: State, s: nat)
    requires Shape(st) && s < SLOTS && st.slots[s].Used? && ToSignal(st.slots[s].phase)
    ensures Owes(st, s)
  {
  }

  /** Room comes from storing a read index or from moving a tail, by a live subscriber; and a stored read index leaves
      14 messages unread. */
  lemma RoomFrom(st: State, step: Step, k: nat)
    requires Inv(st) && SubscriberStep(step) && k < CLASSES
    requires !CanPublish(st, k) && CanPublish(Apply(st, step), k)
    ensures (step.DoStoreRead? || step.DoReturn?) && step.slot < SLOTS && Live(st, step.slot)
    ensures var st' := Apply(st, step);
            && Live(st', step.slot) && st'.pub == st.pub && st'.log == st.log
            && (step.DoReturn? ==> st'.slots[step.slot].phase == Signalling)
            && (step.DoStoreRead? ==>
              && st.slots[step.slot].phase.Cleared? && |st.log| == st'.slots[step.slot].next + RING - 2
              && if st.slots[step.slot].phase.last then st'.slots[step.slot].phase.Returning?
                 else st'.slots[step.slot].phase.Idle?)
  {
    hide HoldersOk, OwnerOk, FreshOk, LogOk, PooledOk, LooseOk, HeldOk, FreeOk, LostChunks, InboxOk, TailOk, FreedOk;
    var st' := Apply(st, step);
    if step.DoStoreRead? {
      assert st.slots[step.slot].next + RING <= |st.log| + 1 by {
        if st.slots[step.slot].next + RING > |st.log| + 1 {
          SameBlock(st, st', step.slot);
        }
      }
    } else if !step.DoReturn? {
      SameBlock(st, st', step.slot);
    }
  }

  /** Exactly when a subscriber that makes room goes on to signal: its clear had found its bit alone in the mask. The
      step that makes room without a signal to follow is the stored read index of a reader that was not the last. */
  lemma RoomIsAnnouncedIff(st: State, step: Step, k: nat)
    requires Inv(st) && SubscriberStep(step) && k < CLASSES
    requires !CanPublish(st, k) && CanPublish(Apply(st, step), k)
    ensures step.slot < SLOTS && st.slots[step.slot].Used? && Apply(st, step).slots[step.slot].Used?
    ensures ToSignal(Apply(st, step).slots[step.slot].phase) <==> st.slots[step.slot].phase != Cleared(false)
  {
    hide HoldersOk, OwnerOk, FreshOk, LogOk, PooledOk, LooseOk, HeldOk, FreeOk, LostChunks, InboxOk,
         CanPublish, TailOk, FreedOk;
    RoomFrom(st, step, k);
  }

  lemma SameBlock(st: State, st': State, s: nat)
    requires |st.slots| == |st'.slots| == SLOTS && |st'.log| == |st.log| && s < SLOTS
    requires st.slots[s].Used? && st'.slots == st.slots[s := st'.slots[s]] && st'.slots[s].Used?
    requires st'.slots[s].next == st.slots[s].next
             || (st.slots[s].next + RING > |st.log| + 1 && st'.slots[s].next > st.slots[s].next)
    ensures RingBlocked(st) ==> RingBlocked(st')
  {
    if t: nat :| t < SLOTS && st.slots[t].Used? && st.slots[t].next + RING <= |st.log| + 1 {
      assert st'.slots[t].Used? && st'.slots[t].next + RING <= |st'.log| + 1;
    }
  }

  /** A due signal stays due until it is given or, by the publisher, reaped. */
  lemma DueSignalStaysDue(st: State, step: Step)
    requires Inv(st) && SubscriberStep(step) && !step.DoSignal? && SignalDue(st)
    ensures SignalDue(Apply(st, step))
  {
    hide OwnerOk, FreshOk, LogOk, LooseOk, FreeOk, LostChunks, InboxOk, PooledOk, HeldOk, Owes, SlotsOk, TailOk,
         FreedOk;
    var st' := Apply(st, step);
    var s: nat :| s < SLOTS && Owes(st, s);
    if step.DoClear? && Enabled(st, step) {
      ClearPassesOn(st, step.slot, s);
    } else {
      OtherStepsOwe(st, step, s);
    }
  }

  lemma OtherStepsOwe(st: State, step: Step, s: nat)
    requires Inv(st) && SubscriberStep(step) && !step.DoSignal? && s < SLOTS && Owes(st, s)
    requires !step.DoClear? || !Enabled(st, step)
    ensures Owes(Apply(st, step), s)
  {
    hide OwnerOk, FreshOk, LogOk, LooseOk, FreeOk, LostChunks, InboxOk, PooledOk, HeldOk, SlotsOk, HoldersOk, TailOk,
         FreedOk;
  }

  /** Whoever clears its bit as the last holder owes the signal; otherwise another holder does. */
  lemma ClearPassesOn(st: State, s: nat, t: nat)
    requires Inv(st) && s < SLOTS && CanClear(st, s) && t < SLOTS && Owes(st, t)
    ensures SignalDue(Apply(st, DoClear(s)))
  {
    hide OwnerOk, FreshOk, LogOk, LooseOk, FreeOk, LostChunks, InboxOk, PooledOk, HeldOk, SlotsOk, TailOk, FreedOk;
    ClearedChunk(st, s);
    var st' := Apply(st, DoClear(s));
    var c := st.log[st.slots[s].next].chunk;
    if st.holders[c] == {s} {
      assert Owes(st', s);
    } else {
      var u :| u in st.holders[c] && u != s;
      assert InUse(st.slots, u) && u in st'.holders[c];
      assert Owes(st', u);
    }
  }

  /** Along every run of subscriber steps, deaths included, a due signal is given, or it is still due at the end: a live
      subscriber has a signal to give or a message to read, or a dead one has chunks to be reaped. */
  lemma {:induction false} DueOrGiven(st: State, steps: seq<Step>)
    requires Inv(st) && SignalDue(st) && forall i: nat | i < |steps| :: SubscriberStep(steps[i])
    ensures Shape(Run(st, steps))
    ensures LiveDue(Run(st, steps)) || ReapDue(Run(st, steps)) || GivenAlong(st, steps)
    decreases |steps|
  {
    hide Inv, Apply, SignalDue, LiveDue, ReapDue, GivenAlong;
    ShapeOf(st);
    if steps == [] {
      DueFromSomeone(st);
    } else if steps[0].DoSignal? && Enabled(st, steps[0]) {
      GivenFirst(st, steps);
      ShapeOf(Run(st, steps));
    } else {
      DueUntilGiven(st, steps[0]);
      DueOrGiven(Apply(st, steps[0]), steps[1..]);
      GivenLater(st, steps);
    }
  }

  /** Some step of the run writes the space event. */
  ghost predicate GivenAlong(st: State, steps: seq<Step>)
    requires Inv(st)
  {
    exists i: nat :: i < |steps| && SignalsAt(st, steps, i)
  }

  lemma GivenFirst(st: State, steps: seq<Step>)
    requires Inv(st) && Shape(st) && steps != [] && steps[0].DoSignal? && Enabled(st, steps[0])
    ensures GivenAlong(st, steps)
  {
    hide Inv, Apply;
    assert SignalsAt(st, steps, 0);
  }

  lemma GivenLater(st: State, steps: seq<Step>)
    requires Inv(st) && steps != []
    ensures GivenAlong(Apply(st, steps[0]), steps[1..]) ==> GivenAlong(st, steps)
  {
    hide Inv, Apply;
    var st' := Apply(st, steps[0]);
    if i: nat :| i < |steps[1..]| && SignalsAt(st', steps[1..], i) {
      assert steps[..i + 1][0] == steps[0] && steps[..i + 1][1..] == steps[1..][..i];
      assert SignalsAt(st, steps, i + 1);
    }
  }

  /** In a run of subscriber steps that comes to rest, a due signal is given. */
  lemma DueSignalIsGiven(st: State, steps: seq<Step>)
    requires Inv(st) && SignalDue(st) && forall i: nat | i < |steps| :: SubscriberStep(steps[i])
    requires var end := Run(st, steps);
             AtRest(end) && forall s: nat | s < SLOTS && end.slots[s].Used? :: end.slots[s].phase.Idle?
    ensures GivenAlong(st, steps)
  {
    hide Inv, Apply, Run, SignalDue, LiveDue, ReapDue, GivenAlong;
    DueOrGiven(st, steps);
    NothingDueAtRest(Run(st, steps));
    DueFromSomeone(Run(st, steps));
  }

  /** Step `i` of the run writes the space event. */
  ghost predicate SignalsAt(st: State, steps: seq<Step>, i: nat)
    requires Inv(st) && i < |steps|
  {
    steps[i].DoSignal? && Enabled(Run(st, steps[..i]), steps[i])
  }

  lemma DueUntilGiven(st: State, step: Step)
    requires Inv(st) && SubscriberStep(step) && SignalDue(st) && !(step.DoSignal? && Enabled(st, step))
    ensures SignalDue(Apply(st, step))
  {
    hide Inv, SignalDue;
    if !step.DoSignal? {
      DueSignalStaysDue(st, step);
    }
  }

  /** At rest, with no dead subscriber left, no signal is due. */
  lemma NothingDueAtRest(st: State)
    requires Inv(st) && AtRest(st)
    requires forall s: nat | s < SLOTS && st.slots[s].Used? :: st.slots[s].phase.Idle?
    ensures !SignalDue(st)
  {
    hide OwnerOk, FreshOk, LogOk, FreeOk, LostChunks, InboxOk, PooledOk, TailOk, FreedOk;
    HeldFitTheSlowestWindow(st, |st.log|);
    assert HeldChunks(st) == {};
    forall c: nat | c < CHUNKS
      ensures st.holders[c] == {}
    {
      assert c !in HeldChunks(st);
    }
  }

  // ---------- Room stays ----------

  /** Subscribers only make room: indices advance, lists grow, nobody joins or leaves. */
  lemma StepKeepsRoom(st: State, step: Step, s: nat, k: nat)
    requires Inv(st) && SubscriberStep(step) && s < SLOTS && k < CLASSES
    ensures var st' := Apply(st, step);
            && Shape(st') && st'.pub == st.pub && |st'.log| == |st.log| && |st.free[k]| <= |st'.free[k]|
            && st'.slots[s].Used? == st.slots[s].Used?
            && (st.slots[s].Used? ==> st.slots[s].next <= st'.slots[s].next)
  {
    hide HoldersOk, OwnerOk, FreshOk, LogOk, PooledOk, LooseOk, HeldOk, FreeOk, LostChunks, InboxOk, SlotsOk, TailOk,
         FreedOk;
  }

  lemma {:induction false} RunKeepsRoom(st: State, steps: seq<Step>, s: nat, k: nat)
    requires Inv(st) && s < SLOTS && k < CLASSES && forall i: nat | i < |steps| :: SubscriberStep(steps[i])
    ensures var st' := Run(st, steps);
            && Shape(st') && st'.pub == st.pub && |st'.log| == |st.log| && |st.free[k]| <= |st'.free[k]|
            && st'.slots[s].Used? == st.slots[s].Used?
            && (st.slots[s].Used? ==> st.slots[s].next <= st'.slots[s].next)
    decreases |steps|
  {
    hide Inv, Apply;
    ShapeOf(st);
    if steps != [] {
      StepKeepsRoom(st, steps[0], s, k);
      RunKeepsRoom(Apply(st, steps[0]), steps[1..], s, k);
    }
  }

  /** Whoever saw no room at some moment and finds room later has been signalled since, or the signal is due. */
  lemma {:induction false} RefusalIsMadeGood(st: State, steps: seq<Step>, k: nat)
    requires Inv(st) && k < CLASSES && forall i: nat | i < |steps| :: SubscriberStep(steps[i])
    requires Shape(st) && !CanPublish(st, k)
    requires Shape(Run(st, steps)) && CanPublish(Run(st, steps), k)
    ensures LiveDue(Run(st, steps)) || ReapDue(Run(st, steps)) || GivenAlong(st, steps)
    decreases |steps|
  {
    hide Inv, Apply, SignalDue, LiveDue, ReapDue, GivenAlong, CanPublish;
    if steps != [] {
      var st' := Apply(st, steps[0]);
      ShapeOf(st');
      if CanPublish(st', k) {
        UnblockingLeavesASignalDue(st, steps[0], k);
        DueOrGiven(st', steps[1..]);
      } else {
        RefusalIsMadeGood(st', steps[1..], k);
      }
      GivenLater(st, steps);
    }
  }

  /** What a scan sees that loads slot `s`'s index at one moment and the ends of the free list at another. */
  ghost predicate SeesRoom(st: State, steps: seq<Step>, times: seq<nat>, listed: nat, k: nat)
    requires Inv(st) && Shape(st) && k < CLASSES && |times| == SLOTS && listed <= |steps|
    requires forall s: nat | s < SLOTS :: times[s] <= |steps|
  {
    && (exists s: nat :: s < SLOTS && st.slots[s].Used?)
    && (forall s: nat | s < SLOTS && st.slots[s].Used? :: LeavesRoom(Run(st, steps[..times[s]]), s))
    && ListsTwo(Run(st, steps[..listed]), k)
  }

  predicate ListsTwo(st: State, k: nat)
    requires k < CLASSES
  {
    |st.free| == CLASSES && |st.free[k]| >= 2
  }

  /** A publisher may decide on stale reads. If they show room, there is room when it publishes. If they do not although
      there is room at the end, a signal was given during the scan or is due. */
  lemma StaleScanIsSafe(st: State, steps: seq<Step>, times: seq<nat>, listed: nat, k: nat)
    requires Inv(st) && Shape(st) && k < CLASSES && forall i: nat | i < |steps| :: SubscriberStep(steps[i])
    requires |times| == SLOTS && listed <= |steps| && forall s: nat | s < SLOTS :: times[s] <= |steps|
    ensures Shape(Run(st, steps))
    ensures SeesRoom(st, steps, times, listed, k) ==> CanPublish(Run(st, steps), k)
    ensures !SeesRoom(st, steps, times, listed, k) && CanPublish(Run(st, steps), k) ==>
      LiveDue(Run(st, steps)) || ReapDue(Run(st, steps)) || GivenAlong(st, steps)
  {
    hide Inv, Run, LiveDue, ReapDue, GivenAlong, CanPublish, SeesRoom;
    ShapeOf(Run(st, steps));
    if SeesRoom(st, steps, times, listed, k) {
      SeenRoomStays(st, steps, times, listed, k);
    } else if CanPublish(Run(st, steps), k) {
      var t := BlindMoment(st, steps, times, listed, k);
      var mid := Run(st, steps[..t]);
      assert steps[..t] + steps[t..] == steps;
      RunConcat(st, steps[..t], steps[t..]);
      RefusalIsMadeGood(mid, steps[t..], k);
      GivenInRest(st, steps, t);
    }
  }

  lemma SeenRoomStays(st: State, steps: seq<Step>, times: seq<nat>, listed: nat, k: nat)
    requires Inv(st) && Shape(st) && k < CLASSES && forall i: nat | i < |steps| :: SubscriberStep(steps[i])
    requires |times| == SLOTS && listed <= |steps| && forall s: nat | s < SLOTS :: times[s] <= |steps|
    requires SeesRoom(st, steps, times, listed, k)
    ensures Shape(Run(st, steps)) && CanPublish(Run(st, steps), k)
  {
    hide Inv, Run;
    var end := Run(st, steps);
    ShapeOf(end);
    Onwards(st, steps, listed, 0, k);
    forall s: nat | s < SLOTS
      ensures end.slots[s].Used? == st.slots[s].Used?
      ensures st.slots[s].Used? ==> LeavesRoom(end, s)
    {
      Onwards(st, steps, times[s], s, k);
    }
  }

  /** A scan that sees no room saw some moment at which there was none. */
  lemma BlindMoment(st: State, steps: seq<Step>, times: seq<nat>, listed: nat, k: nat) returns (t: nat)
    requires Inv(st) && Shape(st) && k < CLASSES && forall i: nat | i < |steps| :: SubscriberStep(steps[i])
    requires |times| == SLOTS && listed <= |steps| && forall s: nat | s < SLOTS :: times[s] <= |steps|
    requires !SeesRoom(st, steps, times, listed, k)
    ensures t <= |steps| && Shape(Run(st, steps[..t])) && !CanPublish(Run(st, steps[..t]), k)
  {
    hide Inv, Run;
    if !ListsTwo(Run(st, steps[..listed]), k) {
      t := listed;
      ShapeOf(Run(st, steps[..t]));
    } else if s: nat :| s < SLOTS && st.slots[s].Used? && !LeavesRoom(Run(st, steps[..times[s]]), s) {
      t := times[s];
      ShapeOf(Run(st, steps[..t]));
      RunKeepsRoom(st, steps[..t], s, k);
    } else {
      t := 0;
      assert Run(st, steps[..0]) == st by { RunNothing(st, steps[..0]); }
    }
  }

  lemma RunNothing(st: State, none: seq<Step>)
    requires Inv(st) && none == []
    ensures Run(st, none) == st
  {
  }

  lemma {:induction false} GivenInRest(st: State, steps: seq<Step>, t: nat)
    requires Inv(st) && t <= |steps|
    ensures GivenAlong(Run(st, steps[..t]), steps[t..]) ==> GivenAlong(st, steps)
    decreases t
  {
    hide Inv, Apply, GivenAlong;
    if t == 0 {
      RunNothing(st, steps[..0]);
      assert steps[0..] == steps;
    } else {
      assert steps[..t][0] == steps[0] && steps[..t][1..] == steps[1..][..t - 1];
      assert steps[1..][t - 1..] == steps[t..];
      GivenInRest(Apply(st, steps[0]), steps[1..], t - 1);
      GivenLater(st, steps);
    }
  }

  /** As far as slot `s` is concerned the ring is not full. */
  predicate LeavesRoom(st: State, s: nat) {
    s < |st.slots| && st.slots[s].Used? && st.slots[s].next + RING > |st.log| + 1
  }

  /** What is so after `t` steps is so at the end. */
  lemma Onwards(st: State, steps: seq<Step>, t: nat, s: nat, k: nat)
    requires Inv(st) && s < SLOTS && k < CLASSES && t <= |steps|
    requires forall i: nat | i < |steps| :: SubscriberStep(steps[i])
    ensures var mid, end := Run(st, steps[..t]), Run(st, steps);
            && Shape(st) && Shape(mid) && Shape(end) && |mid.free[k]| <= |end.free[k]|
            && end.slots[s].Used? == st.slots[s].Used? && (LeavesRoom(mid, s) ==> LeavesRoom(end, s))
  {
    hide Inv, Run;
    ShapeOf(st);
    RunConcat(st, steps[..t], steps[t..]);
    assert steps[..t] + steps[t..] == steps;
    RunKeepsRoom(st, steps[..t], s, k);
    RunKeepsRoom(Run(st, steps[..t]), steps[t..], s, k);
  }
}

/** A reader of the word machine gets on: what a load copies, and that its own steps bring it level with the publisher
    from any point of any run. */
module MappingProgress {
  import opened Layout
  import opened Bytes
  import opened Pool
  import opened PoolInvariant
  import opened Memory
  import PoolRuns
  import SubscriberSide
  import M = MappingMachine
  import opened MappingRuns

  // ---------- One load ----------

  /** The pool machine's state that the words represent after `steps`. */
  ghost function StateAfter(start: M.Machine, steps: seq<M.Step>): (a: State)
    requires M.IsStart(start)
    ensures M.Formed(start) && Sim(M.Run(start, steps), a)
  {
    hide Sim, Inv, PoolRuns.Run, M.Run, M.IsStart;
    StartSim(start);
    RunSim(start, Init(), steps);
    PoolRuns.Run(Init(), ProjectedRun(start, steps))
  }

  /** `r` is `w` after reader `s`, at its loop with nothing loaded, has copied every descriptor from its index to the
      end of the ring, if the write index has wrapped, or else to the write index: those of its next messages in the
      log. */
  ghost predicate CopiesTheWindow(w: M.Machine, r: M.Machine, log: seq<Entry>, next: nat, s: nat) {
    && w.Machine? && r.Machine? && s < |w.readers| == |r.readers| && w.readers[s].Reader? && r.readers[s].Reader?
    && |w.m.ring| == 16 && w.m.wr < 16
    && r == w.(readers := w.readers[s := w.readers[s].(batch := r.readers[s].batch)])
    && var i, batch := w.readers[s].readIndex, r.readers[s].batch;
    && i < 16 && |batch| == (if i > w.m.wr then 16 - i else w.m.wr - i)
    && (forall j: nat | j < |batch| :: batch[j] == w.m.ring[i + j])
    && SubscriberSide.DescriptorsOf(batch, log, next) && (batch == [] ==> next == |log|)
  }

  /** In every run, that is what a load does for a live reader. */
  lemma LoadCopiesTheWindow(start: M.Machine, steps: seq<M.Step>, s: nat)
    requires M.IsStart(start) && s < SLOTS && M.Formed(start)
    requires var w := M.Run(start, steps);
             w.Machine? ==>
               w.readers[s].Reader? && w.readers[s].alive && w.readers[s].at.AtLoop? && w.readers[s].batch == []
    ensures var w, a := M.Run(start, steps), StateAfter(start, steps);
            Shape(a) && a.slots[s].Used? && CopiesTheWindow(w, M.Exec(w, M.Load(s)), a.log, a.slots[s].next, s)
  {
    hide Sim, Inv, M.Run, M.IsStart, StateAfter, CopiesTheWindow, M.Exec;
    SimForms(M.Run(start, steps), StateAfter(start, steps));
    LoadHere(M.Run(start, steps), StateAfter(start, steps), s);
  }

  lemma LoadHere(w: M.Machine, a: State, s: nat)
    requires Sim(w, a) && s < SLOTS && |w.readers| == SLOTS
    requires w.readers[s].Reader? && w.readers[s].alive && w.readers[s].at.AtLoop? && w.readers[s].batch == []
    ensures M.Formed(w) && Shape(a) && a.slots[s].Used? && a.slots[s].phase.Idle?
    ensures CopiesTheWindow(w, M.Exec(w, M.Load(s)), a.log, a.slots[s].next, s)
  {
    hide Inv, Represents, PointRel, SubscriberSide.DescriptorsOf, SubscriberSide.SeqOk;
    SimForms(w, a);
    ReaderOf(w, a, s);
    AtLoopIsIdle(w.readers[s].at, a.slots[s], a.log);
    LoadSim(w, a, s);
    var r := M.LoadBatch(w, s);
    ReaderOf(r, a, s);
    Level(a.slots[s], |a.log|);
  }

  lemma Level(slot: Slot, n: nat)
    requires slot.Used? && slot.next <= n < slot.next + RING
    ensures slot.next % RING == n % RING <==> slot.next == n
  {
  }

  // ---------- One step ----------

  /** The reader's own steps. */
  predicate OwnStep(step: M.Step, s: nat) {
    match step
    case Load(t) => t == s
    case On(DoClear(t)) => t == s
    case On(DoStoreRead(t)) => t == s
    case On(DoUnmark(t)) => t == s
    case On(DoLink(t)) => t == s
    case On(DoReturn(t)) => t == s
    case On(DoSignal(t)) => t == s
    case _ => false
  }

  /** What a reader does next, wherever it stands. */
  function NextStep(w: M.Machine, s: nat): M.Step
    requires w.Machine? && s < |w.readers| && w.readers[s].Reader?
  {
    match w.readers[s].at
    case AtLoop => if w.readers[s].batch == [] then M.Load(s) else M.On(PoolRuns.DoClear(s))
    case BitCleared(_, _) => M.On(PoolRuns.DoStoreRead(s))
    case IndexStored(_) => M.On(PoolRuns.DoUnmark(s))
    case MarkIsCleared(_) => M.On(PoolRuns.DoLink(s))
    case TailIsLinked(_) => M.On(PoolRuns.DoReturn(s))
    case AtSignal => M.On(PoolRuns.DoSignal(s))
  }

  /** How many steps are left before the next bit is cleared. */
  function Rank(phase: Phase, loaded: bool): nat {
    match phase
    case Idle => if loaded then 0 else 1
    case Cleared(_) => 6
    case Returning(_, Marked) => 5
    case Returning(_, Unmarked) => 4
    case Returning(_, OnTail) => 3
    case Signalling => 2
  }

  /** The reader goes on in the same tenancy, nearer to the end of the log. */
  ghost predicate Nearer(w: M.Machine, a: State, w': M.Machine, a': State, s: nat) {
    && w.Machine? && w'.Machine? && |w.readers| == |w'.readers| == |a.slots| == |a'.slots| == SLOTS && s < SLOTS
    && w.readers[s].Reader? && w'.readers[s].Reader? && a.slots[s].Used? && a'.slots[s].Used?
    && a'.log == a.log && a'.slots[s].alive == a.slots[s].alive && a'.slots[s].start == a.slots[s].start
    && (|| a'.slots[s].Unread() == a.slots[s].Unread() + 1
        || (a'.slots[s].Unread() == a.slots[s].Unread()
            && Rank(a'.slots[s].phase, w'.readers[s].batch != [])
               < Rank(a.slots[s].phase, w.readers[s].batch != [])))
  }

  /** Nothing is left to do. */
  ghost predicate IsLevel(w: M.Machine, a: State, s: nat) {
    && w.Machine? && s < |w.readers| && s < |a.slots| && a.slots[s].Used?
    && a.slots[s].phase.Idle? && a.slots[s].next == |a.log| && w.readers[s].Reader? && w.readers[s].batch == []
  }

  lemma FollowOn(w: M.Machine, a: State, p: PoolRuns.Step)
    requires Sim(w, a) && !p.DoClear?
    ensures Follow(w, a, M.On(p)) == PoolRuns.Apply(a, p)
  {
    hide Inv, Sim, PoolRuns.Apply, PoolRuns.Run;
    SimForms(w, a);
    RunOne(a, p);
  }

  lemma FollowClear(w: M.Machine, a: State, s: nat)
    requires Sim(w, a) && s < SLOTS && |w.readers| == SLOTS && M.CanRead(w.readers[s])
    ensures Follow(w, a, M.On(PoolRuns.DoClear(s))) == PoolRuns.Apply(a, PoolRuns.DoClear(s))
  {
    hide Inv, Sim, PoolRuns.Apply, PoolRuns.Run;
    SimForms(w, a);
    RunOne(a, PoolRuns.DoClear(s));
  }

  lemma FollowLoad(w: M.Machine, a: State, s: nat)
    requires Sim(w, a)
    ensures Follow(w, a, M.Load(s)) == a
  {
    hide Inv, Sim, PoolRuns.Apply;
    SimForms(w, a);
    RunNone(a);
  }

  lemma UnmarkSlots(a: State, s: nat)
    requires Inv(a) && Shape(a) && s < SLOTS && CanUnmark(a, s)
    ensures var b := PoolRuns.Apply(a, PoolRuns.DoUnmark(s)); b == Unmark(a, s)
  {
    hide Inv;
  }

  lemma LinkSlots(a: State, s: nat)
    requires Inv(a) && Shape(a) && s < SLOTS && CanLink(a, s)
    ensures var b := PoolRuns.Apply(a, PoolRuns.DoLink(s)); b == Link(a, s)
  {
    hide Inv;
  }

  lemma ReturnSlots(a: State, s: nat)
    requires Inv(a) && Shape(a) && s < SLOTS && CanReturn(a, s)
    ensures var b := PoolRuns.Apply(a, PoolRuns.DoReturn(s));
            b.log == a.log && b.slots == a.slots[s := a.slots[s].(phase := Signalling)]
  {
    hide Inv;
  }

  lemma SignalSlots(a: State, s: nat)
    requires Inv(a) && Shape(a) && s < SLOTS && Live(a, s) && a.slots[s].phase.Signalling?
    ensures var b := PoolRuns.Apply(a, PoolRuns.DoSignal(s)); b == Signal(a, s)
  {
    hide Inv;
  }

  /** The reader's step from each point of an append. */
  lemma AppendOn(w: M.Machine, a: State, s: nat, p: PoolRuns.Step)
    requires Sim(w, a) && s < SLOTS && Shape(a) && Live(a, s)
    requires match a.slots[s].phase
             case Returning(_, Marked) => p == PoolRuns.DoUnmark(s)
             case Returning(_, Unmarked) => p == PoolRuns.DoLink(s)
             case Returning(_, OnTail) => p == PoolRuns.DoReturn(s)
             case Signalling => p == PoolRuns.DoSignal(s)
             case _ => false
    ensures var b := Follow(w, a, M.On(p));
            && b.log == a.log && |b.slots| == SLOTS && b.slots[s].Used?
            && b.slots[s] == a.slots[s].(phase := b.slots[s].phase) && !b.slots[s].phase.Cleared?
            && forall loaded, loaded' :: Rank(b.slots[s].phase, loaded) < Rank(a.slots[s].phase, loaded')
  {
    hide Sim, Inv, PoolRuns.Apply, Follow;
    SimForms(w, a);
    FollowOn(w, a, p);
    ChunkInRange(a, s);
    match a.slots[s].phase
    case Returning(_, Marked) => UnmarkSlots(a, s);
    case Returning(_, Unmarked) => LinkSlots(a, s);
    case Returning(_, OnTail) => ReturnSlots(a, s);
    case Signalling => SignalSlots(a, s);
    case _ =>
  }

  lemma ChunkInRange(a: State, s: nat)
    requires Inv(a) && Shape(a) && s < SLOTS && Live(a, s)
    ensures a.slots[s].phase.Returning? ==> a.slots[s].phase.chunk < CHUNKS
  {
    hide LogOk, OwnerOk, HoldersOk, FreshOk, LooseOk, InboxOk, LostChunks, HeldOk, PooledOk, FreeOk, TailOk, FreedOk;
    assert SlotOk(a.log, a.slots[s]);
  }

  /** Each step of a reader that is not level brings it nearer. */
  lemma StepsOn(w: M.Machine, a: State, s: nat)
    requires Sim(w, a) && s < SLOTS && Shape(a) && Live(a, s)
    ensures M.Formed(w) && w.Machine? && |w.readers| == SLOTS && w.readers[s].Reader?
    ensures !IsLevel(w, a, s) ==>
      var step := NextStep(w, s);
      && Sim(M.Exec(w, step), Follow(w, a, step)) && Nearer(w, a, M.Exec(w, step), Follow(w, a, step), s)
  {
    hide Inv, Represents, PointRel, SubscriberSide.DescriptorsOf, SubscriberSide.SeqOk, M.Exec, Follow, ReadersRel,
         PoolRuns.Apply, Desc;
    SimForms(w, a);
    ReaderOf(w, a, s);
    AtLoopIsIdle(w.readers[s].at, a.slots[s], a.log);
    if !IsLevel(w, a, s) {
      hide Sim;
      ExecSim(w, a, NextStep(w, s));
      var w', a' := M.Exec(w, NextStep(w, s)), Follow(w, a, NextStep(w, s));
      SimForms(w', a');
      ReaderOf(w', a', s);
      if a.slots[s].phase.Idle? {
        if w.readers[s].batch == [] {
          LoadHere(w, a, s);
          FollowLoad(w, a, s);
        } else {
          FollowClear(w, a, s);
          BatchLeads(w, a, s);
          ClearSlots(a, s);
        }
      } else if a.slots[s].phase.Cleared? {
        FollowOn(w, a, PoolRuns.DoStoreRead(s));
        StoreSlots(a, s);
      } else {
        AppendOn(w, a, s, NextStep(w, s).step);
      }
    }
  }

  lemma BatchLeads(w: M.Machine, a: State, s: nat)
    requires Sim(w, a) && s < SLOTS && Shape(a) && Live(a, s) && a.slots[s].phase.Idle?
    requires |w.readers| == SLOTS && w.readers[s].Reader? && w.readers[s].batch != []
    ensures CanClear(a, s)
  {
    hide Inv, Represents, PointRel, SubscriberSide.SeqOk;
    SimForms(w, a);
    ReaderOf(w, a, s);
    FirstOfBatch(w.readers[s].batch, a, a.slots[s].next);
  }

  // ---------- Catching up ----------

  lemma InLog(w: M.Machine, a: State, s: nat)
    requires Sim(w, a) && s < SLOTS && Shape(a) && a.slots[s].Used?
    ensures a.slots[s].Unread() <= |a.log|
  {
    hide Inv, Represents, ReadersRel;
    SimForms(w, a);
  }

  /** From wherever a live reader stands, its own steps bring it to its loop with nothing unread. */
  lemma {:induction false} CatchUp(w: M.Machine, a: State, s: nat) returns (steps: seq<M.Step>)
    requires Sim(w, a) && s < SLOTS && Shape(a) && Live(a, s) && M.Formed(w) && w.Machine? && |w.readers| == SLOTS
      && w.readers[s].Reader?
    ensures forall i: nat | i < |steps| :: OwnStep(steps[i], s)
    ensures Inv(a)
    ensures var w', a' := M.Run(w, steps), PoolRuns.Run(a, ProjectedRun(w, steps));
            && Sim(w', a') && IsLevel(w', a', s) && a'.log == a.log
            && a'.slots[s].alive && a'.slots[s].start == a.slots[s].start
    decreases |a.log| - a.slots[s].Unread(), Rank(a.slots[s].phase, w.readers[s].batch != [])
  {
    hide Sim, Inv, M.Exec, Follow, PoolRuns.Run, Projected, NextStep;
    SimForms(w, a);
    if IsLevel(w, a, s) {
      steps := [];
      RunNone(a);
    } else {
      StepsOn(w, a, s);
      OwnsNext(w, s);
      var step := NextStep(w, s);
      var w1, a1 := M.Exec(w, step), Follow(w, a, step);
      SimForms(w1, a1);
      InLog(w, a, s);
      InLog(w1, a1, s);
      var rest := CatchUp(w1, a1, s);
      steps := [step] + rest;
      assert steps[1..] == rest;
      FollowIs(w, a, step);
      PoolRuns.RunConcat(a, Projected(w, step), ProjectedRun(w1, rest));
    }
  }

  lemma FollowIs(w: M.Machine, a: State, step: M.Step)
    requires Sim(w, a)
    ensures M.Formed(w) && w.Machine? && Inv(a) && Follow(w, a, step) == PoolRuns.Run(a, Projected(w, step))
  {
    hide Inv, Sim, PoolRuns.Run, Projected;
    SimForms(w, a);
  }

  lemma OwnsNext(w: M.Machine, s: nat)
    requires w.Machine? && s < |w.readers| && w.readers[s].Reader?
    ensures OwnStep(NextStep(w, s), s)
  {
  }

  /** Progress: in every run, wherever a live reader stands, its own steps - loads, reads, stores and, where it is the
      last holder, appends and signals - bring its index to the write index, and what they add to what it was given is
      exactly what it had not read. */
  lemma ReaderCatchesUp(start: M.Machine, before: seq<M.Step>, s: nat) returns (more: seq<M.Step>)
    requires M.IsStart(start) && s < SLOTS && M.Formed(start)
    requires var w := M.Run(start, before); w.Machine? ==> w.readers[s].Reader? && w.readers[s].alive
    ensures forall i: nat | i < |more| :: OwnStep(more[i], s)
    ensures var w, a := M.Run(start, before), StateAfter(start, before);
            var end := M.Run(w, more);
            && w.Machine? && end.Machine? && end.m.wr == w.m.wr && end.readers[s].Reader? && end.readers[s].alive
            && end.readers[s].at.AtLoop? && end.readers[s].batch == [] && end.readers[s].readIndex == end.m.wr
            && Shape(a) && a.slots[s].Used? && a.slots[s].Unread() <= |a.log|
            && end.readers[s].given == w.readers[s].given + PoolRuns.Payloads(a.log[a.slots[s].Unread()..])
  {
    hide Sim, Inv, M.Run, M.IsStart, StateAfter, PoolRuns.Run;
    var w, a := M.Run(start, before), StateAfter(start, before);
    SimForms(w, a);
    LiveHere(w, a, s);
    more := CatchUp(w, a, s);
    var end, b := M.Run(w, more), PoolRuns.Run(a, ProjectedRun(w, more));
    SimForms(end, b);
    InLog(w, a, s);
    LevelIs(end, b, s);
    GivenSoFar(w, a, s);
    GivenSoFar(end, b, s);
    RestOfPayloads(a.log, a.slots[s].start, a.slots[s].Unread());
  }

  lemma LiveHere(w: M.Machine, a: State, s: nat)
    requires Sim(w, a) && s < SLOTS && M.Formed(w) && w.readers[s].Reader? && w.readers[s].alive
    ensures Shape(a) && Live(a, s)
  {
    hide Inv, Represents, PointRel, SubscriberSide.DescriptorsOf, SubscriberSide.SeqOk;
    ReaderOf(w, a, s);
  }

  lemma LevelIs(w: M.Machine, a: State, s: nat)
    requires Sim(w, a) && s < SLOTS && M.Formed(w) && IsLevel(w, a, s) && a.slots[s].alive
    ensures w.readers[s].alive && w.readers[s].at.AtLoop? && w.readers[s].readIndex == w.m.wr
    ensures w.m.wr == |a.log| % RING
  {
    hide Inv, Represents, SubscriberSide.DescriptorsOf, SubscriberSide.SeqOk;
    SimForms(w, a);
    ReaderOf(w, a, s);
  }

  /** What a reader was given is what lies between its start and its first unread message. */
  lemma GivenSoFar(w: M.Machine, a: State, s: nat)
    requires Sim(w, a) && s < SLOTS && M.Formed(w) && w.Machine? && Shape(a) && a.slots[s].Used?
    ensures w.readers[s].Reader? && a.slots[s].start <= a.slots[s].Unread() <= |a.log|
    ensures w.readers[s].given == PoolRuns.Payloads(a.log[a.slots[s].start..a.slots[s].Unread()])
  {
    hide Inv, Represents, PointRel, SubscriberSide.DescriptorsOf, SubscriberSide.SeqOk;
    ReaderOf(w, a, s);
    SimForms(w, a);
    InboxIs(a, s);
  }

  lemma InboxIs(a: State, s: nat)
    requires Inv(a) && Shape(a) && s < SLOTS && a.slots[s].Used?
    ensures a.slots[s].start <= a.slots[s].Unread() <= |a.log|
    ensures a.inbox[s] == PoolRuns.Payloads(a.log[a.slots[s].start..a.slots[s].Unread()])
  {
    hide HoldersOk, OwnerOk, FreshOk, LogOk, PooledOk, LooseOk, HeldOk, FreeOk, LostChunks, TailOk, FreedOk;
  }

  lemma RestOfPayloads(log: seq<Entry>, lo: nat, mid: nat)
    requires lo <= mid <= |log|
    ensures PoolRuns.Payloads(log[lo..|log|]) == PoolRuns.Payloads(log[lo..mid]) + PoolRuns.Payloads(log[mid..])
  {
  }

  // ---------- Delivery without a condition ----------

  lemma {:induction false} OwnStepsPublishNothing(w: M.Machine, steps: seq<M.Step>, s: nat)
    requires M.Formed(w) && forall i: nat | i < |steps| :: OwnStep(steps[i], s)
    ensures PublishedBy(w, steps) == []
    decreases |steps|
  {
    hide M.Exec;
    if steps != [] {
      OwnStepsPublishNothing(M.Exec(w, steps[0]), steps[1..], s);
    }
  }

  lemma {:induction false} PublishedConcat(w: M.Machine, x: seq<M.Step>, y: seq<M.Step>)
    requires M.Formed(w)
    ensures M.Run(w, x + y) == M.Run(M.Run(w, x), y)
    ensures PublishedBy(w, x + y) == PublishedBy(w, x) + PublishedBy(M.Run(w, x), y)
    decreases |x|
  {
    hide M.Exec, Publishes;
    if x == [] {
      assert x + y == y;
    } else {
      assert (x + y)[1..] == x[1..] + y && (x + y)[0] == x[0];
      PublishedConcat(M.Exec(w, x[0]), x[1..], y);
    }
  }

  /** Bytes in, bytes out: whoever joins at any point of any run and is alive after any further run can, by its own
      steps, come to have been given exactly the payloads put into the ring since it joined - all of them. */
  lemma JoinerIsGivenEverything(start: M.Machine, before: seq<M.Step>, s: nat, after: seq<M.Step>)
    returns (more: seq<M.Step>)
    requires M.IsStart(start) && s < SLOTS && M.Formed(start)
    requires var w := M.Run(start, before); w.Machine? ==> w.reap.NotReaping? && w.readers[s].NoReader?
    requires forall i: nat | i < |after| :: after[i] != M.On(PoolRuns.DoBeginReap(s))
    requires var end := M.Run(M.Exec(M.Run(start, before), M.On(PoolRuns.DoJoin(s))), after);
             end.Machine? ==> end.readers[s].Reader? && end.readers[s].alive
    ensures forall i: nat | i < |more| :: OwnStep(more[i], s)
    ensures var joined := M.Exec(M.Run(start, before), M.On(PoolRuns.DoJoin(s)));
            var end := M.Run(joined, after + more);
            end.Machine? && end.readers[s].Reader? && end.readers[s].given == PublishedBy(joined, after)
  {
    hide Sim, Inv, M.Exec, M.Run, M.IsStart, PublishedBy, StateAfter;
    var join := M.On(PoolRuns.DoJoin(s));
    var joined := M.Exec(M.Run(start, before), join);
    RunJoined(start, before, join, after);
    more := ReaderCatchesUp(start, before + [join] + after, s);
    PublishedConcat(joined, after, more);
    OwnStepsPublishNothing(M.Run(joined, after), more, s);
    JoinerIsGivenWhatFollows(start, before, s, after + more);
  }

  lemma RunJoined(start: M.Machine, before: seq<M.Step>, join: M.Step, after: seq<M.Step>)
    requires M.Formed(start)
    ensures M.Run(start, before + [join] + after) == M.Run(M.Exec(M.Run(start, before), join), after)
  {
    hide M.Exec, PublishedBy;
    PublishedConcat(start, before + [join], after);
    PublishedConcat(start, before, [join]);
    assert [join][1..] == [];
  }
}

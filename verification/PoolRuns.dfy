/** What holds in every run of the pool machine, for every interleaving of the publisher, the
    subscribers, their deaths and the reaping of the dead. */
module PoolRuns {
  import opened Layout
  import opened Bytes
  import opened Pool
  import opened PoolCarriers
  import opened PoolInvariant

  datatype Step =
    | DoPublish(payload: seq<Byte>)
    | DoJoin(slot: nat)
    | DoClear(slot: nat)
    | DoStoreRead(slot: nat)
    | DoUnmark(slot: nat)
    | DoLink(slot: nat)
    | DoReturn(slot: nat)
    | DoSignal(slot: nat)
    | DoCrash(slot: nat)
    | DoBeginReap(slot: nat)
    | DoReapClear
    | DoReapUnmark
    | DoReapLink
    | DoReapReturn
    | DoEndReap

  /** The program counters allow the step. A publish that finds no room is a step that changes nothing. */
  predicate Enabled(st: State, step: Step)
    requires Shape(st)
  {
    match step
    case DoPublish(payload) => st.pub.Ready? && |payload| <= MAX_PAYLOAD && CanPublish(st, PayloadClass(payload))
    case DoJoin(s) => s < SLOTS && st.pub.Ready? && st.slots[s].Vacant?
    case DoClear(s) => s < SLOTS && CanClear(st, s)
    case DoStoreRead(s) => s < SLOTS && CanStoreRead(st, s)
    case DoUnmark(s) => s < SLOTS && CanUnmark(st, s)
    case DoLink(s) => s < SLOTS && CanLink(st, s)
    case DoReturn(s) => s < SLOTS && CanReturn(st, s)
    case DoSignal(s) => s < SLOTS && Live(st, s) && st.slots[s].phase.Signalling?
    case DoCrash(s) => s < SLOTS && Live(st, s)
    case DoBeginReap(s) => s < SLOTS && st.pub.Ready? && st.slots[s].Used? && !st.slots[s].alive
    case DoReapClear => CanReapClear(st)
    case DoReapUnmark => Frees(st, Marked)
    case DoReapLink => Frees(st, Unmarked)
    case DoReapReturn => Frees(st, OnTail)
    case DoEndReap => CanEndReap(st)
  }

  ghost function Apply(st: State, step: Step): (st': State)
    requires Inv(st)
    ensures Inv(st')
  {
    hide LogOk, OwnerOk, HoldersOk, FreshOk, TailOk, FreeOk, HeldOk, PooledOk, LooseOk, FreedOk, InboxOk,
         LostChunks, Publish, Join, Clear, StoreRead, Return, ReapClear, ReapReturn, EndReap;
    if !Enabled(st, step) then st else
      match step
      case DoPublish(payload) => PublishKeeps(st, payload); Publish(st, payload)
      case DoJoin(s) => JoinKeeps(st, s); Join(st, s)
      case DoClear(s) => ClearKeeps(st, s); Clear(st, s)
      case DoStoreRead(s) => StoreReadKeeps(st, s); StoreRead(st, s)
      case DoUnmark(s) => UnmarkKeeps(st, s); Unmark(st, s)
      case DoLink(s) => LinkKeeps(st, s); Link(st, s)
      case DoReturn(s) => ReturnKeeps(st, s); Return(st, s)
      case DoSignal(s) => SignalKeeps(st, s); Signal(st, s)
      case DoCrash(s) => CrashKeeps(st, s); Crash(st, s)
      case DoBeginReap(s) => BeginReapKeeps(st, s); BeginReap(st, s)
      case DoReapClear => ReapClearKeeps(st); ReapClear(st)
      case DoReapUnmark => ReapUnmarkKeeps(st); ReapUnmark(st)
      case DoReapLink => ReapLinkKeeps(st); ReapLink(st)
      case DoReapReturn => ReapReturnKeeps(st); ReapReturn(st)
      case DoEndReap => EndReapKeeps(st); EndReap(st)
  }

  ghost function Run(st: State, steps: seq<Step>): (st': State)
    requires Inv(st)
    ensures Inv(st')
    decreases |steps|
  {
    if steps == [] then st else Run(Apply(st, steps[0]), steps[1..])
  }

  ghost function FromStart(steps: seq<Step>): (st: State)
    ensures Inv(st)
  {
    InitOk();
    Run(Init(), steps)
  }

  lemma {:induction false} RunAppend(st: State, steps: seq<Step>, step: Step)
    requires Inv(st)
    ensures Run(st, steps + [step]) == Apply(Run(st, steps), step)
    decreases |steps|
  {
    hide Apply, Inv;
    if steps == [] {
      assert [step][1..] == [];
      assert Run(Apply(st, step), []) == Apply(st, step);
    } else {
      assert (steps + [step])[1..] == steps[1..] + [step];
      RunAppend(Apply(st, steps[0]), steps[1..], step);
    }
  }

  lemma {:induction false} RunConcat(st: State, a: seq<Step>, b: seq<Step>)
    requires Inv(st)
    ensures Run(st, a + b) == Run(Run(st, a), b)
    decreases |a|
  {
    hide Apply, Inv;
    if a == [] {
      assert a + b == b;
    } else {
      assert (a + b)[1..] == a[1..] + b;
      RunConcat(Apply(st, a[0]), a[1..], b);
    }
  }

  // ---------- Delivery ----------

  /** `st'` comes after `st`: the log only grew, and a slot that was never vacated keeps its start. */
  ghost predicate Extends(st: State, st': State)
  {
    st.log <= st'.log
  }

  lemma {:induction false} RunExtends(st: State, steps: seq<Step>)
    requires Inv(st)
    ensures Extends(st, Run(st, steps))
    decreases |steps|
  {
    if steps != [] {
      ApplyExtends(st, steps[0]);
      RunExtends(Apply(st, steps[0]), steps[1..]);
    }
  }

  lemma ApplyExtends(st: State, step: Step)
    requires Inv(st)
    ensures Extends(st, Apply(st, step))
  {
    hide Inv, HoldersOk, FreshOk, TailOk, FreedOk;
  }

  function Payloads(entries: seq<Entry>): (ps: seq<seq<Byte>>)
    ensures |ps| == |entries| && forall i: nat | i < |ps| :: ps[i] == entries[i].payload
  {
    seq(|entries|, i requires 0 <= i < |entries| => entries[i].payload)
  }

  /** In every run, what a subscriber was given is exactly the payloads published since it joined
      up to its first unread message, in order: no gap, no repeat. */
  lemma DeliveredInOrder(steps: seq<Step>, s: nat)
    requires s < SLOTS && FromStart(steps).slots[s].Used?
    ensures var st := FromStart(steps);
            var slot := st.slots[s];
            slot.start <= slot.Unread() <= |st.log| && st.inbox[s] == Payloads(st.log[slot.start..slot.Unread()])
  {
    hide FromStart, HoldersOk, OwnerOk, FreshOk, LogOk, PooledOk, LooseOk, HeldOk, FreeOk, LostChunks, TailOk, FreedOk;
  }

  lemma {:induction false} RunKeepsStart(st: State, s: nat, steps: seq<Step>)
    requires Inv(st) && s < SLOTS && Active(st.slots, st.pub, s)
    requires forall i: nat | i < |steps| :: steps[i] != DoBeginReap(s)
    ensures var end := Run(st, steps);
            Active(end.slots, end.pub, s) && end.slots[s].start == st.slots[s].start
            && end.slots[s].next >= st.slots[s].next
    decreases |steps|
  {
    hide Apply, Inv;
    if steps != [] {
      ApplyKeepsStart(st, s, steps[0]);
      RunKeepsStart(Apply(st, steps[0]), s, steps[1..]);
    }
  }

  lemma ApplyKeepsStart(st: State, s: nat, step: Step)
    requires Inv(st) && s < SLOTS && Active(st.slots, st.pub, s) && step != DoBeginReap(s)
    ensures var st' := Apply(st, step);
            Active(st'.slots, st'.pub, s) && st'.slots[s].start == st.slots[s].start
            && st'.slots[s].next >= st.slots[s].next
  {
    hide HoldersOk, FreshOk, LooseOk, PooledOk, InboxOk, OwnerOk, LogOk, FreeOk, HeldOk, TailOk, FreedOk;
  }

  /** Whenever a subscriber joins, it is given the messages published from then on and no others,
      in order, whatever else happens until the publisher starts to reap its slot. */
  lemma JoinerReceivesWhatFollows(st: State, s: nat, steps: seq<Step>)
    requires Inv(st) && s < SLOTS && st.pub.Ready? && st.slots[s].Vacant?
    requires forall i: nat | i < |steps| :: steps[i] != DoBeginReap(s)
    ensures Inv(Join(st, s))
    ensures var end := Run(Join(st, s), steps);
            && end.slots[s].Used? && |st.log| <= end.slots[s].Unread() <= |end.log| && st.log <= end.log
            && end.inbox[s] == Payloads(end.log[|st.log|..end.slots[s].Unread()])
  {
    hide Run, HoldersOk, OwnerOk, FreshOk, LogOk, PooledOk, LooseOk, HeldOk, FreeOk, LostChunks, SlotsOk, TailOk,
         FreedOk;
    JoinKeeps(st, s);
    RunKeepsStart(Join(st, s), s, steps);
    RunExtends(Join(st, s), steps);
  }

  // ---------- Ownership ----------

  /** A slot's bit is set on a chunk exactly when some message in its unread window is in that chunk. */
  lemma BitMeansUnread(st: State, s: nat, c: nat)
    requires Inv(st) && s < SLOTS && c < CHUNKS && Active(st.slots, st.pub, s)
    ensures s in st.holders[c] <==> exists i: nat :: st.slots[s].Unread() <= i < |st.log| && st.log[i].chunk == c
  {
    hide FreeOk, PooledOk, LooseOk, InboxOk, HeldOk, LostChunks, TailOk, FreedOk;
    if s in st.holders[c] {
      assert st.log[st.owner[c]].chunk == c;
    }
    if i: nat :| st.slots[s].Unread() <= i < |st.log| && st.log[i].chunk == c {
      assert i <= st.owner[c];
    }
  }

  /** A chunk on a free list is held by nobody, carried by nobody, and in nobody's unread window,
      whoever appended it: a returning subscriber or the reap of a dead one. */
  lemma FreeChunkIsUnread(st: State, c: nat)
    requires Inv(st) && c < CHUNKS && c in st.free[ClassOf(c)]
    ensures st.holders[c] == {}
    ensures forall s: nat | s < SLOTS :: !Carries(st.log, st.slots[s], c)
    ensures forall s: nat, i: nat | s < SLOTS && Active(st.slots, st.pub, s) && st.slots[s].Unread() <= i < |st.log| ::
      st.log[i].chunk != c
  {
    hide FreeOk, InboxOk, LostChunks, FreshOk, LogOk, SlotsOk, TailOk, FreedOk;
    assert st.place[c] == InPool;
    assert forall s: nat | s < SLOTS :: Carries(st.log, st.slots[s], c) <==> st.place[c] == Loose(s);
    forall s: nat, i: nat | s < SLOTS && Active(st.slots, st.pub, s) && st.slots[s].Unread() <= i < |st.log|
      ensures st.log[i].chunk != c
    {
      if st.log[i].chunk == c {
        BitMeansUnread(st, s, c);
        assert false;
      }
    }
  }

  /** Any step that puts a chunk on a free list takes it from circulation: it was not free before and
      no active subscriber, alive or dead, has it unread afterwards. */
  lemma ReleaseIsSafe(st: State, step: Step, k: nat, c: nat)
    requires Inv(st) && k < CLASSES && c !in st.free[k] && c in Apply(st, step).free[k]
    ensures var st' := Apply(st, step);
            && c < CHUNKS && ClassOf(c) == k && st'.holders[c] == {}
            && forall s: nat, i: nat | s < SLOTS && Active(st'.slots, st'.pub, s)
               && st'.slots[s].Unread() <= i < |st'.log| ::
              st'.log[i].chunk != c
  {
    hide Enabled, HoldersOk, OwnerOk, FreshOk, LogOk, SlotsOk, PooledOk, LooseOk, InboxOk, HeldOk, LostChunks, TailOk,
         FreedOk;
    var st' := Apply(st, step);
    assert c < CHUNKS && ClassOf(c) == k;
    FreeChunkIsUnread(st', c);
  }

  /** A half-consumed chunk is not handed out again: as long as a slot's read index has not passed a message - the bit
      may be cleared, its owner may be dead or being reaped, another reader may have put the chunk back on its list - no
      later message is in that message's chunk. */
  lemma NotReusedBeforeStored(st: State, s: nat, i: nat, j: nat)
    requires Inv(st) && s < SLOTS && st.slots[s].Used? && st.slots[s].next <= i < j < |st.log|
    ensures st.log[i].chunk != st.log[j].chunk
  {
    hide HoldersOk, FreeOk, PooledOk, LooseOk, InboxOk, HeldOk, LostChunks, SlotsOk, TailOk, FreedOk, LogOk;
    assert InUse(st.slots, s);
    assert j <= st.owner[st.log[j].chunk];
  }

  /** In every run at most one process is inside a tail append, the publisher's reap included: reading a tail, linking
      it and moving it need no lock. */
  lemma AppendsNeverMeet(steps: seq<Step>, p: Process, q: Process)
    requires Appending(FromStart(steps), p) && Appending(FromStart(steps), q)
    ensures p == q
  {
    hide Inv;
    OneAppender(FromStart(steps), p, q);
  }

  /** The next message of a live reader is intact: its chunk was not handed out again. */
  lemma UnreadMessageIsIntact(st: State, s: nat, i: nat)
    requires Inv(st) && s < SLOTS && Active(st.slots, st.pub, s) && st.slots[s].Unread() <= i < |st.log|
    ensures st.log[i].chunk < CHUNKS && st.owner[st.log[i].chunk] == i && s in st.holders[st.log[i].chunk]
    ensures st.place[st.log[i].chunk] == Held
  {
    hide FreeOk, PooledOk, LooseOk, InboxOk, LostChunks, SlotsOk, TailOk, FreedOk;
    assert EntryOk(st.log[i]);
  }
}

/** One reader's data-event handler against a publisher that stores the write index and only then
    signals, at the grain of single loads and stores, for a ring of any size.

    Indices are counted without bound; the code sees them modulo the ring size. */
module DataWakeup {

  /** Where the handler stands: outside; event drained, own index not set up yet; set up; in the tail of the
      ring; about to load the write index again; reading up to a loaded write index. */
  datatype Pc = Outside | Drained | SetUp | InTail | Between | Upto(end: nat)

  datatype State = State(
    ring: nat,            // number of descriptor slots
    published: nat,       // write index
    read: nat,            // the reader's stored index, meaningful once tracked
    tracked: bool,        // the publisher stored a valid read index for this reader
    known: bool,          // the reader has loaded it
    stored: bool,         // the publisher stands between storing the write index and signalling
    pending: bool,        // the data event is signalled
    pc: Pc,
    atDrain: nat)         // the write index when the event was last drained

  datatype Step = Track | StoreWrite | Signal | Drain | LoadStart | LoadFirst | ReadTail | LoadAgain | ReadOne

  predicate Enabled(st: State, step: Step)
    requires st.ring >= 2
  {
    match step
    case Track => !st.tracked && !st.stored
    // admission keeps one slot free for every tracked reader
    case StoreWrite => !st.stored && (st.tracked ==> st.published + 1 < st.read + st.ring)
    case Signal => st.stored
    // an event is reported after a signal; it may be reported again once the reader is under way
    case Drain => st.pc.Outside? && (st.pending || st.known)
    case LoadStart => st.pc.Drained?
    case LoadFirst => st.pc.SetUp?
    case ReadTail => st.pc.InTail?
    case LoadAgain => st.pc.Between?
    case ReadOne => st.pc.Upto?
  }

  /** The next position in the ring. */
  function Advance(i: nat, ring: nat): nat {
    if i + 1 >= ring then 0 else i + 1
  }

  /** On a position, both endpoints' ways to advance - modulo at once, or only past the end - agree with that. */
  lemma AdvanceIsModulo(i: nat, ring: nat)
    requires i < ring
    ensures (i + 1) % ring == Advance(i, ring) && (if i + 1 >= ring then (i + 1) % ring else i + 1) == Advance(i, ring)
  {
    if i + 1 == ring {
      assert (i + 1) % ring == 0;
    }
  }

  /** The position an index has after `n` advances. */
  function Position(n: nat, ring: nat): (p: nat)
    requires ring >= 2
    ensures p < ring && p <= n
  {
    if n == 0 then 0 else Advance(Position(n - 1, ring), ring)
  }

  function Apply(st: State, step: Step): State
    requires st.ring >= 2
  {
    if !Enabled(st, step) then st else
      var wr, rd := Position(st.published, st.ring), Position(st.read, st.ring);
      match step
      case Track => st.(tracked := true, read := st.published)
      case StoreWrite => st.(published := st.published + 1, stored := true)
      case Signal => st.(stored := false, pending := st.pending || st.tracked)
      case Drain => st.(pending := false, pc := Drained, atDrain := st.published)
      case LoadStart => st.(known := true, pc := SetUp)
      case LoadFirst => st.(pc := if rd > wr then InTail else Between)
      case ReadTail => st.(read := st.read + 1, pc := if Advance(rd, st.ring) == 0 then Between else InTail)
      case LoadAgain => st.(pc := if wr > rd then Upto(wr) else Outside)
      case ReadOne => st.(read := st.read + 1, pc := if rd + 1 == st.pc.end then Between else st.pc)
  }

  /** A signal is given or about to be. */
  predicate Due(st: State) {
    st.pending || st.stored
  }

  /** What the reader may rely on at each point. Once the write index has moved since the drain a signal is due;
      as long as it has not, the loaded bounds are exact. */
  ghost predicate Inv(st: State)
    requires st.ring >= 2
  {
    var wr, rd := Position(st.published, st.ring), Position(st.read, st.ring);
    && (st.tracked ==> st.read <= st.published < st.read + st.ring)
    && (st.pending || st.known || !st.pc.Outside? ==> st.tracked)
    && (st.pc.SetUp? || st.pc.InTail? || st.pc.Between? || st.pc.Upto? ==> st.known)
    && (st.pc.Upto? ==> rd < st.pc.end < st.ring && st.read + (st.pc.end - rd) <= st.published)
    && (st.pc.InTail? ==> rd > 0 && st.read + (st.ring - rd) <= st.published)
    && (!st.pc.Outside? ==> st.atDrain <= st.published && (st.published > st.atDrain ==> Due(st)))
    && (st.pc.Between? && !Due(st) ==> wr >= rd)
    && (st.pc.Upto? && !Due(st) ==> st.pc.end == wr)
    && (st.pc.Outside? && st.tracked ==> st.read == st.published || Due(st))
  }

  function Init(ring: nat): State {
    State(ring, 0, 0, false, false, false, false, Outside, 0)
  }

  /** Two counts less than a lap apart: the positions say how far. */
  lemma {:induction false} Distance(r: nat, w: nat, ring: nat)
    requires ring >= 2 && r <= w < r + ring
    ensures var pr, pw := Position(r, ring), Position(w, ring);
            w - r == if pr <= pw then pw - pr else pw + ring - pr
    decreases w - r
  {
    if r < w {
      Distance(r, w - 1, ring);
    }
  }

  lemma OneOn(n: nat, ring: nat)
    requires ring >= 2
    ensures Position(n + 1, ring) == Advance(Position(n, ring), ring) && Position(n, ring) < ring
  {
  }

  predicate PublisherStep(step: Step) {
    step.Track? || step.StoreWrite? || step.Signal?
  }

  lemma PublisherKeeps(st: State, step: Step)
    requires st.ring >= 2 && Inv(st) && PublisherStep(step)
    ensures Apply(st, step).ring == st.ring && Inv(Apply(st, step))
  {
    OneOn(st.published, st.ring);
    hide Position;
  }

  lemma ReadKeeps(st: State, step: Step)
    requires st.ring >= 2 && Inv(st) && (step.ReadTail? || step.ReadOne?)
    ensures Apply(st, step).ring == st.ring && Inv(Apply(st, step))
  {
    OneOn(st.read, st.ring);
    if st.tracked {
      Distance(st.read, st.published, st.ring);
    }
    hide Position;
  }

  lemma LoadKeeps(st: State, step: Step)
    requires st.ring >= 2 && Inv(st) && !PublisherStep(step) && !step.ReadTail? && !step.ReadOne?
    ensures Apply(st, step).ring == st.ring && Inv(Apply(st, step))
  {
    if st.tracked {
      Distance(st.read, st.published, st.ring);
    }
    hide Position;
  }

  lemma ApplyKeeps(st: State, step: Step)
    requires st.ring >= 2 && Inv(st)
    ensures Apply(st, step).ring == st.ring && Inv(Apply(st, step))
  {
    hide Inv, Apply;
    if PublisherStep(step) {
      PublisherKeeps(st, step);
    } else if step.ReadTail? || step.ReadOne? {
      ReadKeeps(st, step);
    } else {
      LoadKeeps(st, step);
    }
  }

  function Run(st: State, steps: seq<Step>): State
    requires st.ring >= 2
    decreases |steps|
  {
    if steps == [] then st else Run(Apply(st, steps[0]), steps[1..])
  }

  lemma {:induction false} RunKeeps(st: State, steps: seq<Step>)
    requires st.ring >= 2 && Inv(st)
    ensures Run(st, steps).ring == st.ring && Inv(Run(st, steps))
    decreases |steps|
  {
    hide Inv, Apply;
    if steps != [] {
      ApplyKeeps(st, steps[0]);
      RunKeeps(Apply(st, steps[0]), steps[1..]);
    }
  }

  /** No lost data wake-up: outside its handler a tracked reader has read everything, or its event is signalled
      or about to be - even if the write index wrapped between the handler's loads. */
  lemma NoLostDataWakeUp(ring: nat, steps: seq<Step>)
    requires ring >= 2
    ensures var st := Run(Init(ring), steps);
            st.tracked && st.pc.Outside? ==> st.read == st.published || Due(st)
  {
    RunKeeps(Init(ring), steps);
  }

  /** The first handler run finds the start index the publisher stored, and no read goes past what is published. */
  lemma ReadsOnlyWhatIsPublished(ring: nat, steps: seq<Step>)
    requires ring >= 2
    ensures var st := Run(Init(ring), steps);
            && (st.pc.Drained? ==> st.tracked)
            && (st.pc.InTail? || st.pc.Upto? ==> st.tracked && st.read < st.published)
            && (st.tracked ==> st.published - st.read < ring)
  {
    RunKeeps(Init(ring), steps);
  }

  // ---------- The handler comes to an end ----------

  /** How far the reader is from having nothing left to do, the publisher standing still. */
  function Stage(pc: Pc): nat {
    match pc
    case Drained => 4
    case SetUp => 3
    case Between => 2
    case InTail => 1
    case Upto(_) => 1
    case Outside => 0
  }

  /** The reader's next step. */
  function OwnStep(pc: Pc): (step: Step)
    ensures !PublisherStep(step)
  {
    match pc
    case Outside => Drain
    case Drained => LoadStart
    case SetUp => LoadFirst
    case InTail => ReadTail
    case Between => LoadAgain
    case Upto(_) => ReadOne
  }

  predicate AtRest(st: State) {
    st.pc.Outside? && !st.pending && st.read == st.published
  }

  /** Each step of its own brings a tracked reader nearer to rest. */
  lemma OwnStepAdvances(st: State)
    requires st.ring >= 2 && Inv(st) && st.tracked && !st.stored && !(st.pc.Outside? && !st.pending)
    ensures var r := Apply(st, OwnStep(st.pc));
            && r.tracked && !r.stored && r.published == st.published && r.read <= r.published
            && (r.pending ==> st.pending)
            && r.read >= st.read
            && ((st.pending && !r.pending) || r.read > st.read || Stage(r.pc) < Stage(st.pc))
  {
    ApplyKeeps(st, OwnStep(st.pc));
    hide Position;
  }

  /** Once the publisher has given the signal it owes, a tracked reader's own steps end with everything read, wherever
      in its handler it is. */
  lemma {:induction false} ReaderCatchesUp(st: State) returns (steps: seq<Step>)
    requires st.ring >= 2 && Inv(st) && st.tracked && !st.stored
    ensures forall i: nat | i < |steps| :: !PublisherStep(steps[i])
    ensures Run(st, steps).published == st.published && AtRest(Run(st, steps))
    decreases st.pending, st.published - st.read, Stage(st.pc)
  {
    if st.pc.Outside? && !st.pending {
      steps := [];
    } else {
      ApplyKeeps(st, OwnStep(st.pc));
      OwnStepAdvances(st);
      hide Inv, Apply;
      var rest := ReaderCatchesUp(Apply(st, OwnStep(st.pc)));
      steps := [OwnStep(st.pc)] + rest;
      assert steps[1..] == rest;
    }
  }

  /** In every run: from wherever a tracked reader stands, the publisher's outstanding signal and steps of its own lead
      it to rest with everything read. */
  lemma EverythingIsRead(ring: nat, steps: seq<Step>) returns (more: seq<Step>)
    requires ring >= 2 && Run(Init(ring), steps).tracked
    ensures forall i: nat | i < |more| :: more[i] == Signal || !PublisherStep(more[i])
    ensures var st := Run(Init(ring), steps);
            st.ring == ring && Run(st, more).published == st.published && AtRest(Run(st, more))
  {
    RunKeeps(Init(ring), steps);
    var st := Run(Init(ring), steps);
    ApplyKeeps(st, Signal);
    var rest := ReaderCatchesUp(Apply(st, Signal));
    more := [Signal] + rest;
    assert more[1..] == rest;
  }

  lemma {:induction false} RunConcat(st: State, a: seq<Step>, b: seq<Step>)
    requires st.ring >= 2 && Inv(st)
    ensures Run(st, a).ring == st.ring && Run(st, a + b) == Run(Run(st, a), b)
    decreases |a|
  {
    hide Inv, Apply;
    RunKeeps(st, a);
    if a == [] {
      assert a + b == b;
    } else {
      ApplyKeeps(st, a[0]);
      assert (a + b)[1..] == a[1..] + b;
      RunConcat(Apply(st, a[0]), a[1..], b);
    }
  }

  /** One message: the write index, the signal, and everything the reader does about it. */
  lemma OneMessage(st: State) returns (steps: seq<Step>)
    requires st.ring >= 2 && Inv(st) && st.tracked && !st.stored && AtRest(st)
    ensures var r := Run(st, steps);
            r.ring == st.ring && Inv(r) && r.tracked && !r.stored && AtRest(r) && r.published == st.published + 1
  {
    var st1 := Apply(st, StoreWrite);
    var st2 := Apply(st1, Signal);
    ApplyKeeps(st, StoreWrite);
    ApplyKeeps(st1, Signal);
    hide Inv, Apply;
    var rest := ReaderCatchesUp(st2);
    steps := [StoreWrite, Signal] + rest;
    assert steps[1..] == [Signal] + rest && steps[1..][1..] == rest;
    RunKeeps(st2, rest);
    StaysTracked(st2, rest);
  }

  lemma {:induction false} StaysTracked(st: State, steps: seq<Step>)
    requires st.ring >= 2 && Inv(st) && st.tracked && !st.stored
    requires forall i: nat | i < |steps| :: !PublisherStep(steps[i])
    ensures Run(st, steps).ring == st.ring && Run(st, steps).tracked && !Run(st, steps).stored
    decreases |steps|
  {
    if steps != [] {
      ApplyKeeps(st, steps[0]);
      hide Position, Inv;
      StaysTracked(Apply(st, steps[0]), steps[1..]);
    }
  }

  /** The machine does get on: any number of messages can be published and read, each before the next, however often
      the ring wraps. */
  lemma {:induction false} AnyNumberIsRead(ring: nat, n: nat) returns (steps: seq<Step>)
    requires ring >= 2
    ensures var st := Run(Init(ring), steps);
            && st.ring == ring && Inv(st) && st.tracked && !st.stored && AtRest(st)
            && st.published == n && st.read == n
  {
    if n == 0 {
      steps := [Track];
      assert steps[1..] == [];
    } else {
      var before := AnyNumberIsRead(ring, n - 1);
      var more := OneMessage(Run(Init(ring), before));
      steps := before + more;
      RunConcat(Init(ring), before, more);
    }
  }
}

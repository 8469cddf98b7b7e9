/** The broker's registration state machine: who publishes and subscribes what, which slots of each
    publisher are taken, and what was sent on every control connection.

    Each event is a fold over the loops of its handler. A lookup that finds nothing where the handler
    ends the process with a "missing" or "already exists" error yields `Missing`; running out of slots,
    batch room or attachment ids yields `Halted`. `occ` and `topicOf` record history. */
module Broker {
  import opened Layout

  const ID_LIMIT := 0x1_0000_0000_0000_0000
  const BATCH := 10
  const MAX_TOPICS := 5

  datatype Role = Subscriber | Publisher
  datatype Attachment = Attachment(id: nat, topic: nat, pub: nat, slot: nat, event: nat)
  datatype Entry = Entry(att: Attachment, shm: nat, space: nat)
  datatype Holder = Holder(sub: nat, id: nat, event: nat)
  datatype PubMsg = Count(n: nat) | Registered(event: nat, slot: nat) | SubscriberGone(slot: nat)
  datatype SubMsg = Batch(entries: seq<Entry>) | PublisherGone(id: nat)

  datatype Broker = Broker(
    nextId: nat,
    nextEvent: nat,                        // tells event fds apart
    role: map<nat, Role>,
    topics: map<nat, seq<nat>>,            // by subscriber
    subs: map<nat, seq<nat>>,              // by topic
    pubs: map<nat, seq<nat>>,              // by topic
    shm: map<nat, nat>,                    // by publisher
    space: map<nat, nat>,                  // by publisher
    free: map<(nat, nat), seq<nat>>,       // by topic and publisher, least slot first
    attached: map<nat, seq<Attachment>>,   // by subscriber
    toPub: map<nat, seq<PubMsg>>,          // everything sent to a connected publisher
    toSub: map<nat, seq<SubMsg>>,          // everything sent to a connected subscriber
    occ: map<nat, map<nat, Holder>>,       // by publisher and slot
    topicOf: map<nat, nat>)                // by publisher

  datatype Outcome = Ok(b: Broker) | Halted | Missing

  // ---------- Lists ----------

  function Occurrences(xs: seq<nat>, x: nat): nat {
    if xs == [] then 0 else (if xs[0] == x then 1 else 0) + Occurrences(xs[1..], x)
  }

  function Listed(m: map<nat, seq<nat>>, k: nat): seq<nat> {
    if k in m then m[k] else []
  }

  function RemoveFirst(xs: seq<nat>, x: nat): seq<nat>
    requires x in xs
  {
    if xs[0] == x then xs[1..] else [xs[0]] + RemoveFirst(xs[1..], x)
  }

  /** The slot heap as its ascending list. */
  function PushSlot(slots: seq<nat>, slot: nat): seq<nat> {
    if slots == [] || slot <= slots[0] then [slot] + slots else [slots[0]] + PushSlot(slots[1..], slot)
  }

  function AllSlots(): seq<nat> {
    [0, 1, 2, 3, 4, 5, 6, 7, 8, 9, 10, 11, 12, 13, 14, 15]
  }

  function OfPublisher(atts: seq<Attachment>, p: nat): nat {
    if atts == [] then 0 else (if atts[0].pub == p then 1 else 0) + OfPublisher(atts[1..], p)
  }

  /** The first attachment to publisher `p`. */
  function FirstOf(atts: seq<Attachment>, p: nat): (i: nat)
    requires OfPublisher(atts, p) > 0
    ensures i < |atts| && atts[i].pub == p
  {
    if atts[0].pub == p then 0 else 1 + FirstOf(atts[1..], p)
  }

  function Without(atts: seq<Attachment>, i: nat): seq<Attachment>
    requires i < |atts|
  {
    atts[..i] + atts[i + 1..]
  }

  function EntryOf(shm: map<nat, nat>, space: map<nat, nat>, a: Attachment): Entry
    requires a.pub in shm && a.pub in space
  {
    Entry(a, shm[a.pub], space[a.pub])
  }

  predicate Mapped(shm: map<nat, nat>, space: map<nat, nat>, atts: seq<Attachment>) {
    forall i: nat | i < |atts| :: atts[i].pub in shm && atts[i].pub in space
  }

  function Entries(shm: map<nat, nat>, space: map<nat, nat>, atts: seq<Attachment>): (es: seq<Entry>)
    requires Mapped(shm, space, atts)
    ensures |es| == |atts| && forall i: nat | i < |es| :: es[i] == EntryOf(shm, space, atts[i])
  {
    seq(|atts|, i requires 0 <= i < |atts| => EntryOf(shm, space, atts[i]))
  }

  function Taken(occ: map<nat, map<nat, Holder>>, p: nat): map<nat, Holder> {
    if p in occ then occ[p] else map[]
  }

  function Take(occ: map<nat, map<nat, Holder>>, p: nat, slot: nat, h: Holder): map<nat, map<nat, Holder>> {
    var taken: map<nat, Holder> := Taken(occ, p)[slot := h];
    occ[p := taken]
  }

  function Drop(occ: map<nat, map<nat, Holder>>, p: nat, slot: nat): map<nat, map<nat, Holder>> {
    occ[p := Taken(occ, p) - {slot}]
  }

  // ---------- Attaching ----------

  /** Give subscriber `s` the least free slot of publisher `p`, and tell the publisher. */
  function Attach(b: Broker, s: nat, t: nat, p: nat): Outcome {
    if p !in b.shm || (t, p) !in b.free then Missing
    else if b.free[(t, p)] == [] then Halted
    else if p !in b.space || p !in b.toPub || s !in b.attached then Missing
    else
      var slot := b.free[(t, p)][0];
      var a := Attachment(b.nextId, t, p, slot, b.nextEvent);
      if b.nextId + 1 >= ID_LIMIT then Halted
      else Ok(b.(nextId := b.nextId + 1, nextEvent := b.nextEvent + 1,
                 free := b.free[(t, p) := b.free[(t, p)][1..]],
                 toPub := b.toPub[p := b.toPub[p] + [Registered(a.event, slot)]],
                 attached := b.attached[s := b.attached[s] + [a]],
                 occ := Take(b.occ, p, slot, Holder(s, a.id, a.event))))
  }

  function AttachPublishers(b: Broker, s: nat, t: nat, ps: seq<nat>): Outcome
    decreases |ps|
  {
    if ps == [] then Ok(b)
    else match Attach(b, s, t, ps[0])
      case Ok(b') => AttachPublishers(b', s, t, ps[1..])
      case Halted => Halted
      case Missing => Missing
  }

  function AttachTopics(b: Broker, s: nat, ts: seq<nat>): Outcome
    decreases |ts|
  {
    if ts == [] then Ok(b)
    else
      var b' := b.(subs := b.subs[ts[0] := Listed(b.subs, ts[0]) + [s]]);
      match AttachPublishers(b', s, ts[0], Listed(b.pubs, ts[0]))
      case Ok(b'') => AttachTopics(b'', s, ts[1..])
      case Halted => Halted
      case Missing => Missing
  }

  function SendBatch(b: Broker, s: nat, atts: seq<Attachment>): Outcome {
    if |atts| > BATCH then Halted
    else if s !in b.toSub || !Mapped(b.shm, b.space, atts) then Missing
    else Ok(b.(toSub := b.toSub[s := b.toSub[s] + [Batch(Entries(b.shm, b.space, atts))]]))
  }

  /** A subscriber's registration for the topics `ts`, repetitions included. */
  function RegisterSubscriber(b: Broker, s: nat, ts: seq<nat>): Outcome {
    if !(1 <= |ts| <= MAX_TOPICS) then Halted
    else
      var b1 := b.(topics := b.topics[s := ts], role := b.role[s := Subscriber],
                   attached := b.attached[s := []], toSub := b.toSub[s := []]);
      match AttachTopics(b1, s, ts)
      case Ok(b2) => if s !in b2.attached then Missing else SendBatch(b2, s, b2.attached[s])
      case Halted => Halted
      case Missing => Missing
  }

  /** An attachment made because a publisher appeared is sent in a batch of its own. */
  function AttachAndSend(b: Broker, s: nat, t: nat, p: nat): Outcome {
    match Attach(b, s, t, p)
    case Halted => Halted
    case Missing => Missing
    case Ok(b') =>
      if s !in b'.attached || b'.attached[s] == [] then Missing
      else SendBatch(b', s, b'.attached[s][|b'.attached[s]| - 1..])
  }

  /** Each subscriber of the topic, in order. */
  function AttachSubscribers(b: Broker, p: nat, t: nat, ss: seq<nat>): Outcome
    decreases |ss|
  {
    if ss == [] then Ok(b)
    else match AttachAndSend(b, ss[0], t, p)
      case Ok(b') => AttachSubscribers(b', p, t, ss[1..])
      case Halted => Halted
      case Missing => Missing
  }

  /** A publisher's maps are set up and it is told how many registrations follow. */
  function WithPublisher(b: Broker, p: nat, t: nat, shm: nat, space: nat): Broker {
    b.(shm := b.shm[p := shm], space := b.space[p := space], free := b.free[(t, p) := AllSlots()],
       role := b.role[p := Publisher], toPub := b.toPub[p := [Count(|Listed(b.subs, t)|)]],
       occ := b.occ[p := map[]], topicOf := b.topicOf[p := t])
  }

  function RegisterPublisher(b: Broker, p: nat, t: nat, shm: nat, space: nat): Outcome {
    if p in b.shm || p in b.space || (t, p) in b.free then Missing
    else if |Listed(b.subs, t)| > SLOTS then Halted
    else match AttachSubscribers(WithPublisher(b, p, t, shm, space), p, t, Listed(b.subs, t))
      case Ok(c) => Ok(c.(pubs := c.pubs[t := Listed(c.pubs, t) + [p]]))
      case Halted => Halted
      case Missing => Missing
  }

  // ---------- Detaching ----------

  /** Return the slots of a leaving subscriber, its first attachment first. */
  function ReleaseAll(b: Broker, s: nat, atts: seq<Attachment>): Outcome
    decreases |atts|
  {
    if atts == [] then Ok(b)
    else
      var a := atts[0];
      if a.pub !in b.toPub || (a.topic, a.pub) !in b.free then Missing
      else ReleaseAll(
        b.(toPub := b.toPub[a.pub := b.toPub[a.pub] + [SubscriberGone(a.slot)]],
           free := b.free[(a.topic, a.pub) := PushSlot(b.free[(a.topic, a.pub)], a.slot)],
           attached := b.attached[s := atts[1..]],
           occ := Drop(b.occ, a.pub, a.slot)), s, atts[1..])
  }

  function Unsubscribe(subs: map<nat, seq<nat>>, s: nat, ts: seq<nat>): (r: Unsubscribed)
    decreases |ts|
  {
    if ts == [] then Rest(subs)
    else if ts[0] !in subs || s !in subs[ts[0]] then NotListed
    else Unsubscribe(subs[ts[0] := RemoveFirst(subs[ts[0]], s)], s, ts[1..])
  }

  datatype Unsubscribed = Rest(subs: map<nat, seq<nat>>) | NotListed

  function SubscriberLeaves(b: Broker, s: nat): Outcome {
    if s !in b.attached || s !in b.topics then Missing
    else match ReleaseAll(b, s, b.attached[s])
      case Halted => Halted
      case Missing => Missing
      case Ok(b') =>
        match Unsubscribe(b'.subs, s, b.topics[s])
        case NotListed => Missing
        case Rest(subs) =>
          Ok(b'.(attached := b'.attached - {s}, role := b'.role - {s}, subs := subs, topics := b'.topics - {s},
                 toSub := b'.toSub - {s}))
  }

  /** Tell each subscriber of the topic, in order, that its first attachment to `p` is gone. */
  function DetachSubscribers(b: Broker, p: nat, ss: seq<nat>): Outcome
    decreases |ss|
  {
    if ss == [] then Ok(b)
    else
      var s := ss[0];
      if s !in b.attached || s !in b.toSub || OfPublisher(b.attached[s], p) == 0 then Missing
      else
        var i := FirstOf(b.attached[s], p);
        var a := b.attached[s][i];
        DetachSubscribers(
          b.(toSub := b.toSub[s := b.toSub[s] + [PublisherGone(a.id)]],
             attached := b.attached[s := Without(b.attached[s], i)],
             occ := Drop(b.occ, p, a.slot)), p, ss[1..])
  }

  /** The topic that lists publisher `p`. */
  ghost function TopicListing(pubs: map<nat, seq<nat>>, p: nat): (t: nat)
    requires exists t :: t in pubs && p in pubs[t]
    ensures t in pubs && p in pubs[t]
  {
    var t :| t in pubs && p in pubs[t];
    t
  }

  ghost function PublisherLeaves(b: Broker, p: nat): Outcome {
    if p !in b.shm || !(exists t :: t in b.pubs && p in b.pubs[t]) then Missing
    else
      var t := TopicListing(b.pubs, p);
      if (t, p) !in b.free then Missing
      else
        // the connection is closed and the heap discarded at the end; nothing in between looks at them
        var b1 := b.(toPub := b.toPub - {p}, free := b.free - {(t, p)}, topicOf := b.topicOf - {p});
        match DetachSubscribers(b1, p, Listed(b.subs, t))
        case Halted => Halted
        case Missing => Missing
        case Ok(b2) =>
          if p !in b2.space || t !in b2.pubs || p !in b2.pubs[t] then Missing
          else
            var rest := RemoveFirst(b2.pubs[t], p);
            Ok(b2.(pubs := if rest == [] then b2.pubs - {t} else b2.pubs[t := rest],
                   shm := b2.shm - {p}, space := b2.space - {p}, role := b2.role - {p}, occ := b2.occ - {p}))
  }

  // ---------- Events ----------

  datatype Event =
    | SubscriberRegisters(s: nat, ts: seq<nat>)
    | PublisherRegisters(p: nat, t: nat, shm: nat, space: nat)
    | Disconnects(fd: nat)

  /** A connection registers once; a connection that never registered has nothing to undo. */
  predicate Enabled(b: Broker, e: Event) {
    match e
    case SubscriberRegisters(s, _) => s !in b.role
    case PublisherRegisters(p, _, _, _) => p !in b.role
    case Disconnects(fd) => fd in b.role
  }

  ghost function Handle(b: Broker, e: Event): Outcome
    requires Enabled(b, e)
  {
    match e
    case SubscriberRegisters(s, ts) => RegisterSubscriber(b, s, ts)
    case PublisherRegisters(p, t, shm, space) => RegisterPublisher(b, p, t, shm, space)
    case Disconnects(fd) => if b.role[fd].Subscriber? then SubscriberLeaves(b, fd) else PublisherLeaves(b, fd)
  }

  function Init(): Broker {
    Broker(1, 1, map[], map[], map[], map[], map[], map[], map[], map[], map[], map[], map[], map[])
  }

  // ---------- What the endpoints make of their control messages ----------

  datatype Table = Table(events: map<nat, nat>) | Rejected

  /** The publisher's slot table: a slot or event already tracked, a slot out of range, or the
      disconnect of an untracked slot is an error. */
  function Track(table: Table, m: PubMsg): Table {
    if table.Rejected? then Rejected
    else match m
      case Count(_) => Rejected
      case Registered(event, slot) =>
        if slot >= SLOTS || slot in table.events || event in table.events.Values then Rejected
        else Table(table.events[slot := event])
      case SubscriberGone(slot) =>
        if slot >= SLOTS || slot !in table.events then Rejected else Table(table.events - {slot})
  }

  function Replay(msgs: seq<PubMsg>): Table {
    if msgs == [] then Table(map[]) else Track(Replay(msgs[..|msgs| - 1]), msgs[|msgs| - 1])
  }

  /** The handshake: a count, then that many registrations; control messages after them. */
  predicate Handshake(msgs: seq<PubMsg>) {
    && msgs != [] && msgs[0].Count? && msgs[0].n <= SLOTS && 1 + msgs[0].n <= |msgs|
    && forall i: nat | 1 <= i <= msgs[0].n :: msgs[i].Registered?
  }

  datatype Tables = Tables(eventById: map<nat, nat>, attachmentByEvent: map<nat, Entry>) | Failed

  /** The subscriber's two attachment tables. */
  function Install(tables: Tables, e: Entry): Tables {
    if tables.Failed? || e.att.id in tables.eventById || e.att.event in tables.attachmentByEvent then Failed
    else Tables(tables.eventById[e.att.id := e.att.event], tables.attachmentByEvent[e.att.event := e])
  }

  function InstallAll(tables: Tables, entries: seq<Entry>): Tables {
    if entries == [] then tables else Install(InstallAll(tables, entries[..|entries| - 1]), entries[|entries| - 1])
  }

  function Receive(tables: Tables, m: SubMsg): Tables {
    match m
    case Batch(entries) => InstallAll(tables, entries)
    case PublisherGone(id) =>
      if tables.Failed? || id !in tables.eventById || tables.eventById[id] !in tables.attachmentByEvent then Failed
      else Tables(tables.eventById - {id}, tables.attachmentByEvent - {tables.eventById[id]})
  }

  function ReceiveAll(msgs: seq<SubMsg>): Tables {
    if msgs == [] then Tables(map[], map[]) else Receive(ReceiveAll(msgs[..|msgs| - 1]), msgs[|msgs| - 1])
  }
}

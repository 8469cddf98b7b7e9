/** Between events the broker's maps agree with each other and with what the endpoints were told. */
module BrokerInvariant {
  import opened Layout
  import opened Broker

  // ---------- Invariant ----------

  ghost predicate Ascending(xs: seq<nat>) {
    forall i, j | 0 <= i < j < |xs| :: xs[i] < xs[j]
  }

  /** Free and occupied slots partition 0..15. */
  ghost predicate Partition(free: seq<nat>, taken: map<nat, Holder>) {
    && Ascending(free) && (forall x | x in taken :: x < SLOTS)
    && forall x: nat :: x in free <==> x < SLOTS && x !in taken
  }

  ghost predicate FreeOk(free: map<(nat, nat), seq<nat>>, topicOf: map<nat, nat>) {
    forall t: nat, p: nat :: (t, p) in free <==> p in topicOf && topicOf[p] == t
  }

  ghost predicate SlotsOk(free: map<(nat, nat), seq<nat>>, occ: map<nat, map<nat, Holder>>, topicOf: map<nat, nat>) {
    forall p | p in topicOf :: p in occ && (topicOf[p], p) in free && Partition(free[(topicOf[p], p)], occ[p])
  }

  predicate Holds(occ: map<nat, map<nat, Holder>>, s: nat, a: Attachment) {
    a.pub in occ && a.slot in occ[a.pub] && occ[a.pub][a.slot] == Holder(s, a.id, a.event)
  }

  ghost predicate HeldBy(attached: map<nat, seq<Attachment>>, p: nat, slot: nat, h: Holder) {
    h.sub in attached && exists i: nat :: i < |attached[h.sub]| && IsAt(attached[h.sub][i], p, slot, h)
  }

  predicate IsAt(a: Attachment, p: nat, slot: nat, h: Holder) {
    a.pub == p && a.slot == slot && a.id == h.id && a.event == h.event
  }

  /** Every attachment has its slot, and every taken slot its attachment. */
  ghost predicate HeldOk(attached: map<nat, seq<Attachment>>, occ: map<nat, map<nat, Holder>>) {
    && (forall s, i: nat | s in attached && i < |attached[s]| :: Holds(occ, s, attached[s][i]))
    && (forall p, slot | p in occ && slot in occ[p] :: HeldBy(attached, p, slot, occ[p][slot]))
  }

  ghost predicate ListIds(atts: seq<Attachment>, nextId: nat, nextEvent: nat) {
    && (forall i: nat | i < |atts| :: 1 <= atts[i].id < nextId < ID_LIMIT && atts[i].event < nextEvent)
    && forall i, j | 0 <= i < j < |atts| :: atts[i].id < atts[j].id && atts[i].event < atts[j].event
  }

  /** Attachment ids and events are handed out in ascending order and never twice. */
  ghost predicate IdsOk(attached: map<nat, seq<Attachment>>, occ: map<nat, map<nat, Holder>>, nextId: nat,
                        nextEvent: nat) {
    && 1 <= nextId < ID_LIMIT
    && (forall s | s in attached :: ListIds(attached[s], nextId, nextEvent))
    && forall p, slot | p in occ && slot in occ[p] :: occ[p][slot].event < nextEvent
  }

  /** No two attachments, of whichever subscribers, share an id or an event. */
  ghost predicate UniqueOk(attached: map<nat, seq<Attachment>>) {
    forall s, i: nat, x, j: nat
      | s in attached && i < |attached[s]| && x in attached && j < |attached[x]|
        && Alike(attached[s][i], attached[x][j]) ::
      s == x && i == j
  }

  predicate Alike(a: Attachment, b: Attachment) {
    a.id == b.id || a.event == b.event
  }

  /** Attachments are to registered publishers, under their topic. */
  ghost predicate TopicsOk(attached: map<nat, seq<Attachment>>, topicOf: map<nat, nat>) {
    forall s, i: nat | s in attached && i < |attached[s]| ::
      attached[s][i].pub in topicOf && attached[s][i].topic == topicOf[attached[s][i].pub]
  }

  function EventsOf(taken: map<nat, Holder>): map<nat, nat> {
    map slot | slot in taken :: taken[slot].event
  }

  /** What a publisher makes of the messages after the count is the broker's view of its slots. */
  ghost predicate PubReplayOk(toPub: map<nat, seq<PubMsg>>, occ: map<nat, map<nat, Holder>>) {
    forall p | p in toPub :: p in occ && toPub[p] != [] && Replay(toPub[p][1..]) == Table(EventsOf(occ[p]))
  }

  const NO_TABLES := Tables(map[], map[])

  /** The entry found under an event is listed, and its id leads back to the event. */
  predicate LeadsBack(t: Tables, es: seq<Entry>, event: nat)
    requires t.Tables? && event in t.attachmentByEvent
  {
    var e := t.attachmentByEvent[event];
    e in es && e.att.event == event && e.att.id in t.eventById && t.eventById[e.att.id] == event
  }

  /** The tables hold exactly these entries, and each leads back through the other. */
  ghost predicate Match(t: Tables, es: seq<Entry>) {
    && t.Tables?
    && (forall i: nat | i < |es| ::
      es[i].att.event in t.attachmentByEvent && t.attachmentByEvent[es[i].att.event] == es[i])
    && (forall event | event in t.attachmentByEvent :: LeadsBack(t, es, event))
    && (forall id | id in t.eventById ::
      t.eventById[id] in t.attachmentByEvent && t.attachmentByEvent[t.eventById[id]].att.id == id)
  }

  /** What a subscriber makes of its messages is the broker's present list for it. */
  ghost predicate SubReplayOk(toSub: map<nat, seq<SubMsg>>, attached: map<nat, seq<Attachment>>, shm: map<nat, nat>,
                              space: map<nat, nat>) {
    forall s | s in toSub :: s in attached && Mapped(shm, space, attached[s])
      && Match(ReceiveAll(toSub[s]), Entries(shm, space, attached[s]))
  }

  ghost predicate NoRepeats(xs: seq<nat>) {
    forall i, j | 0 <= i < j < |xs| :: xs[i] != xs[j]
  }

  ghost predicate PubsOk(pubs: map<nat, seq<nat>>, topicOf: map<nat, nat>) {
    && (forall t | t in pubs :: pubs[t] != [] && NoRepeats(pubs[t]))
    && (forall t, i: nat | t in pubs && i < |pubs[t]| :: pubs[t][i] in topicOf && topicOf[pubs[t][i]] == t)
    && (forall p | p in topicOf :: topicOf[p] in pubs && p in pubs[topicOf[p]])
  }

  function TopicCount(topics: map<nat, seq<nat>>, s: nat, t: nat): nat {
    if s in topics then Occurrences(topics[s], t) else 0
  }

  /** A topic lists a subscriber as often as the subscriber listed the topic. */
  ghost predicate SubsOk(subs: map<nat, seq<nat>>, topics: map<nat, seq<nat>>) {
    forall t: nat, s: nat :: Occurrences(Listed(subs, t), s) == TopicCount(topics, s, t)
  }

  /** Each subscriber has as many attachments to a publisher as it listed that publisher's topic. */
  ghost predicate CountsOk(attached: map<nat, seq<Attachment>>, topics: map<nat, seq<nat>>, topicOf: map<nat, nat>) {
    forall s, p | s in attached && p in topicOf :: OfPublisher(attached[s], p) == TopicCount(topics, s, topicOf[p])
  }

  ghost predicate HandshakesOk(toPub: map<nat, seq<PubMsg>>) {
    forall p | p in toPub :: Handshake(toPub[p])
  }

  predicate RoleMap(role: map<nat, Role>, subscribers: set<nat>, publishers: set<nat>) {
    && role.Keys == subscribers + publishers && subscribers !! publishers
    && (forall fd | fd in subscribers :: role[fd] == Subscriber)
    && forall fd | fd in publishers :: role[fd] == Publisher
  }

  ghost predicate RolesOk(b: Broker) {
    && RoleMap(b.role, b.topics.Keys, b.topicOf.Keys)
    && b.topics.Keys == b.attached.Keys == b.toSub.Keys
    && b.topicOf.Keys == b.shm.Keys == b.space.Keys == b.toPub.Keys == b.occ.Keys
  }

  /** What also holds between the steps of a handler; `all` names the publishers attachments may refer to. */
  ghost predicate LoopOk(b: Broker, all: map<nat, nat>) {
    && b.topicOf.Keys <= b.toPub.Keys <= b.occ.Keys && b.attached.Keys == b.toSub.Keys
    && b.topicOf.Keys <= all.Keys <= b.shm.Keys && all.Keys <= b.space.Keys
    && FreeOk(b.free, b.topicOf) && SlotsOk(b.free, b.occ, b.topicOf) && HeldOk(b.attached, b.occ)
    && IdsOk(b.attached, b.occ, b.nextId, b.nextEvent) && UniqueOk(b.attached) && TopicsOk(b.attached, all)
    && PubReplayOk(b.toPub, b.occ)
  }

  ghost predicate Inv(b: Broker) {
    && RolesOk(b) && LoopOk(b, b.topicOf) && SubReplayOk(b.toSub, b.attached, b.shm, b.space)
    && PubsOk(b.pubs, b.topicOf) && SubsOk(b.subs, b.topics) && CountsOk(b.attached, b.topics, b.topicOf)
    && HandshakesOk(b.toPub)
  }

  lemma InitOk()
    ensures Inv(Init())
  {
  }
}

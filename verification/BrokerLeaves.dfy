/** A disconnect finds every map in order and leaves them in order. */
module BrokerLeaves {
  import opened Layout
  import opened Broker
  import opened BrokerInvariant
  import opened BrokerRegisters

  // ---------- One attachment goes ----------

  lemma {:induction false} PushSlotIs(xs: seq<nat>, slot: nat)
    requires Ascending(xs) && slot !in xs
    ensures Ascending(PushSlot(xs, slot)) && forall x :: x in PushSlot(xs, slot) <==> x == slot || x in xs
  {
    if xs != [] && slot > xs[0] {
      assert xs == [xs[0]] + xs[1..];
      PushSlotIs(xs[1..], slot);
      var r := PushSlot(xs[1..], slot);
      assert forall k: nat | k < |r| :: r[k] in r;
      assert forall x | x in xs[1..] :: x > xs[0];
    }
  }

  lemma ReturnSlot(free: seq<nat>, taken: map<nat, Holder>, slot: nat)
    requires Partition(free, taken) && slot in taken
    ensures Partition(PushSlot(free, slot), taken - {slot})
  {
    PushSlotIs(free, slot);
  }

  lemma ReleaseSlots(b: Broker, p: nat, slot: nat)
    requires FreeOk(b.free, b.topicOf) && SlotsOk(b.free, b.occ, b.topicOf) && p in b.topicOf
    requires (b.topicOf[p], p) in b.free && p in b.occ && slot in b.occ[p]
    ensures var k := (b.topicOf[p], p);
            && FreeOk(b.free[k := PushSlot(b.free[k], slot)], b.topicOf)
            && SlotsOk(b.free[k := PushSlot(b.free[k], slot)], Drop(b.occ, p, slot), b.topicOf)
  {
    hide Partition, PushSlot;
    ReturnSlot(b.free[(b.topicOf[p], p)], b.occ[p], slot);
  }

  lemma WithoutAt(atts: seq<Attachment>, i: nat)
    requires i < |atts|
    ensures |Without(atts, i)| == |atts| - 1
    ensures forall j: nat | j < |atts| - 1 :: Without(atts, i)[j] == atts[if j < i then j else j + 1]
  {
  }

  /** Different attachments have different slots or publishers. */
  lemma OneHolder(attached: map<nat, seq<Attachment>>, occ: map<nat, map<nat, Holder>>, nextId: nat, nextEvent: nat,
                  s: nat, i: nat, x: nat, j: nat)
    requires HeldOk(attached, occ) && IdsOk(attached, occ, nextId, nextEvent)
    requires s in attached && i < |attached[s]| && x in attached && j < |attached[x]|
    requires attached[s][i].pub == attached[x][j].pub && attached[s][i].slot == attached[x][j].slot
    ensures s == x && i == j
  {
    assert Holds(occ, s, attached[s][i]) && Holds(occ, x, attached[x][j]);
    assert ListIds(attached[s], nextId, nextEvent);
  }

  lemma HoldsAfterDrop(occ: map<nat, map<nat, Holder>>, p: nat, slot: nat, x: nat, a: Attachment)
    requires Holds(occ, x, a) && p in occ && !(a.pub == p && a.slot == slot)
    ensures Holds(Drop(occ, p, slot), x, a)
  {
  }

  /** An attachment other than the one that goes keeps its slot. */
  lemma OtherHolds(attached: map<nat, seq<Attachment>>, occ: map<nat, map<nat, Holder>>, nextId: nat, nextEvent: nat,
                   s: nat, i: nat, x: nat, k: nat)
    requires HeldOk(attached, occ) && IdsOk(attached, occ, nextId, nextEvent) && s in attached && i < |attached[s]|
    requires attached[s][i].pub in occ && x in attached && k < |attached[x]| && !(x == s && k == i)
    ensures Holds(Drop(occ, attached[s][i].pub, attached[s][i].slot), x, attached[x][k])
  {
    hide IdsOk, UniqueOk, HeldOk, Drop, Holds;
    var a := attached[s][i];
    StillHeld(attached, occ, x, k);
    if attached[x][k].pub == a.pub && attached[x][k].slot == a.slot {
      OneHolder(attached, occ, nextId, nextEvent, s, i, x, k);
    }
    HoldsAfterDrop(occ, a.pub, a.slot, x, attached[x][k]);
  }

  lemma DetachTaken(attached: map<nat, seq<Attachment>>, occ: map<nat, map<nat, Holder>>, s: nat, i: nat, p: nat,
                    slot: nat)
    requires HeldOk(attached, occ) && s in attached && i < |attached[s]| && attached[s][i].pub in occ
    requires p in occ && slot in Drop(occ, attached[s][i].pub, attached[s][i].slot)[p]
    ensures HeldBy(attached[s := Without(attached[s], i)], p, slot, occ[p][slot])
  {
    WithoutAt(attached[s], i);
    hide HeldOk, Without;
    StillTaken(attached, occ, p, slot);
    var h := occ[p][slot];
    var j: nat :| j < |attached[h.sub]| && IsAt(attached[h.sub][j], p, slot, h);
    var k := if h.sub == s && j > i then j - 1 else j;
    assert attached[s := Without(attached[s], i)][h.sub][k] == attached[h.sub][j];
  }

  lemma DetachHeld(attached: map<nat, seq<Attachment>>, occ: map<nat, map<nat, Holder>>, nextId: nat, nextEvent: nat,
                   s: nat, i: nat)
    requires HeldOk(attached, occ) && IdsOk(attached, occ, nextId, nextEvent) && s in attached && i < |attached[s]|
    ensures var a := attached[s][i];
            && a.pub in occ && a.slot in occ[a.pub]
            && HeldOk(attached[s := Without(attached[s], i)], Drop(occ, a.pub, a.slot))
  {
    WithoutAt(attached[s], i);
    hide IdsOk, UniqueOk, HeldOk, Without, HeldBy;
    var a := attached[s][i];
    StillHeld(attached, occ, s, i);
    var attached', occ' := attached[s := Without(attached[s], i)], Drop(occ, a.pub, a.slot);
    forall x, j: nat | x in attached' && j < |attached'[x]|
      ensures Holds(occ', x, attached'[x][j])
    {
      var k := if x == s && j >= i then j + 1 else j;
      assert attached'[x][j] == attached[x][k];
      OtherHolds(attached, occ, nextId, nextEvent, s, i, x, k);
    }
    forall p, slot | p in occ' && slot in occ'[p]
      ensures HeldBy(attached', p, slot, occ'[p][slot])
    {
      DetachTaken(attached, occ, s, i, p, slot);
    }
    HeldTogether(attached', occ');
  }

  lemma StillHeld(attached: map<nat, seq<Attachment>>, occ: map<nat, map<nat, Holder>>, s: nat, i: nat)
    requires HeldOk(attached, occ) && s in attached && i < |attached[s]|
    ensures Holds(occ, s, attached[s][i])
  {
  }

  lemma StillTaken(attached: map<nat, seq<Attachment>>, occ: map<nat, map<nat, Holder>>, p: nat, slot: nat)
    requires HeldOk(attached, occ) && p in occ && slot in occ[p]
    ensures HeldBy(attached, p, slot, occ[p][slot])
  {
  }

  lemma HeldTogether(attached: map<nat, seq<Attachment>>, occ: map<nat, map<nat, Holder>>)
    requires forall s, i: nat | s in attached && i < |attached[s]| :: Holds(occ, s, attached[s][i])
    requires forall p, slot | p in occ && slot in occ[p] :: HeldBy(attached, p, slot, occ[p][slot])
    ensures HeldOk(attached, occ)
  {
  }

  lemma DetachIds(attached: map<nat, seq<Attachment>>, occ: map<nat, map<nat, Holder>>, nextId: nat, nextEvent: nat,
                  s: nat, i: nat, p: nat, slot: nat)
    requires IdsOk(attached, occ, nextId, nextEvent) && s in attached && i < |attached[s]| && p in occ
    ensures IdsOk(attached[s := Without(attached[s], i)], Drop(occ, p, slot), nextId, nextEvent)
  {
    WithoutAt(attached[s], i);
    hide Without;
    assert ListIds(attached[s], nextId, nextEvent);
    assert ListIds(Without(attached[s], i), nextId, nextEvent);
  }

  lemma DetachUnique(attached: map<nat, seq<Attachment>>, s: nat, i: nat)
    requires UniqueOk(attached) && s in attached && i < |attached[s]|
    ensures UniqueOk(attached[s := Without(attached[s], i)])
  {
    WithoutAt(attached[s], i);
    hide Without;
  }

  lemma DetachTopics(attached: map<nat, seq<Attachment>>, topicOf: map<nat, nat>, s: nat, i: nat)
    requires TopicsOk(attached, topicOf) && s in attached && i < |attached[s]|
    ensures TopicsOk(attached[s := Without(attached[s], i)], topicOf)
  {
    WithoutAt(attached[s], i);
    hide Without;
  }

  lemma ReleaseReplay(toPub: map<nat, seq<PubMsg>>, occ: map<nat, map<nat, Holder>>, p: nat, slot: nat)
    requires PubReplayOk(toPub, occ) && p in toPub && slot < SLOTS && slot in occ[p]
    ensures PubReplayOk(toPub[p := toPub[p] + [SubscriberGone(slot)]], Drop(occ, p, slot))
  {
    ReplayOne(toPub[p], SubscriberGone(slot));
    assert EventsOf(Drop(occ, p, slot)[p]) == EventsOf(occ[p]) - {slot};
  }

  // ---------- A subscriber leaves ----------

  /** `b` after the first attachment of `s` is released. */
  function Released(b: Broker, s: nat): Broker
    requires s in b.attached && b.attached[s] != []
    requires var a := b.attached[s][0]; a.pub in b.toPub && (a.topic, a.pub) in b.free
  {
    var a := b.attached[s][0];
    b.(toPub := b.toPub[a.pub := b.toPub[a.pub] + [SubscriberGone(a.slot)]],
       free := b.free[(a.topic, a.pub) := PushSlot(b.free[(a.topic, a.pub)], a.slot)],
       attached := b.attached[s := b.attached[s][1..]],
       occ := Drop(b.occ, a.pub, a.slot))
  }

  lemma ReleaseKeeps(b: Broker, s: nat)
    requires LoopOk(b, b.topicOf) && s in b.attached && b.attached[s] != []
    ensures var a := b.attached[s][0]; a.pub in b.toPub && a.pub in b.occ && (a.topic, a.pub) in b.free
    ensures LoopOk(Released(b, s), b.topicOf) && OnlyAppends(b.toPub, Released(b, s).toPub)
    ensures Released(b, s).toPub.Keys == b.toPub.Keys && Released(b, s).occ.Keys == b.occ.Keys
  {
    hide FreeOk, SlotsOk, HeldOk, IdsOk, UniqueOk, TopicsOk, PubReplayOk, PushSlot;
    var a := b.attached[s][0];
    AttachmentTopic(b, s, 0);
    PublisherKnown(b, a.pub);
    Reachable(b, a.pub);
    DetachHeld(b.attached, b.occ, b.nextId, b.nextEvent, s, 0);
    assert Without(b.attached[s], 0) == b.attached[s][1..];
    DetachIds(b.attached, b.occ, b.nextId, b.nextEvent, s, 0, a.pub, a.slot);
    DetachTopics(b.attached, b.topicOf, s, 0);
    DetachUnique(b.attached, s, 0);
    SlotInRange(b, a.pub, a.slot);
    ReleaseSlots(b, a.pub, a.slot);
    ReleaseReplay(b.toPub, b.occ, a.pub, a.slot);
  }

  lemma AttachmentTopic(b: Broker, s: nat, i: nat)
    requires TopicsOk(b.attached, b.topicOf) && s in b.attached && i < |b.attached[s]|
    ensures b.attached[s][i].pub in b.topicOf && b.attached[s][i].topic == b.topicOf[b.attached[s][i].pub]
  {
  }

  lemma SlotInRange(b: Broker, p: nat, slot: nat)
    requires SlotsOk(b.free, b.occ, b.topicOf) && p in b.topicOf && p in b.occ && slot in b.occ[p]
    ensures slot < SLOTS
  {
  }

  lemma {:induction false} ReleaseAllKeeps(b: Broker, s: nat, atts: seq<Attachment>)
    requires LoopOk(b, b.topicOf) && s in b.attached && b.attached[s] == atts
    ensures ReleaseAll(b, s, atts).Ok?
    ensures var c := ReleaseAll(b, s, atts).b;
            && LoopOk(c, b.topicOf) && c == b.(toPub := c.toPub, free := c.free, attached := b.attached[s := []],
               occ := c.occ)
            && OnlyAppends(b.toPub, c.toPub) && c.toPub.Keys == b.toPub.Keys && c.occ.Keys == b.occ.Keys
    decreases |atts|
  {
    hide LoopOk, OnlyAppends;
    if atts == [] {
      NothingSent(b.toPub);
    } else {
      ReleaseKeeps(b, s);
      ReleaseAllKeeps(Released(b, s), s, atts[1..]);
      AppendsAdd(b.toPub, Released(b, s).toPub, ReleaseAll(b, s, atts).b.toPub);
    }
  }

  lemma NothingSent(toPub: map<nat, seq<PubMsg>>)
    ensures OnlyAppends(toPub, toPub)
  {
  }

  lemma {:induction false} RemoveOne(xs: seq<nat>, x: nat, y: nat)
    requires x in xs
    ensures Occurrences(RemoveFirst(xs, x), y) == Occurrences(xs, y) - if x == y then 1 else 0
  {
    if xs[0] != x {
      RemoveOne(xs[1..], x, y);
      assert RemoveFirst(xs, x)[1..] == RemoveFirst(xs[1..], x);
    }
  }

  lemma {:induction false} OccursIn(xs: seq<nat>, x: nat)
    ensures Occurrences(xs, x) > 0 <==> x in xs
  {
    if xs != [] {
      assert xs == [xs[0]] + xs[1..];
      OccursIn(xs[1..], x);
    }
  }

  ghost predicate SubsLost(subs: map<nat, seq<nat>>, subs': map<nat, seq<nat>>, s: nat, ts: seq<nat>) {
    forall t: nat, x: nat ::
      Occurrences(Listed(subs, t), x) == Occurrences(Listed(subs', t), x) + if x == s then Occurrences(ts, t) else 0
  }

  lemma {:induction false} UnsubscribeKeeps(subs: map<nat, seq<nat>>, s: nat, ts: seq<nat>)
    requires forall t: nat :: Occurrences(Listed(subs, t), s) >= Occurrences(ts, t)
    ensures Unsubscribe(subs, s, ts).Rest? && SubsLost(subs, Unsubscribe(subs, s, ts).subs, s, ts)
    decreases |ts|
  {
    if ts == [] {
      forall t: nat
        ensures Occurrences(ts, t) == 0
      {
      }
    } else {
      var t0 := ts[0];
      assert Occurrences(ts, t0) >= 1;
      OccursIn(Listed(subs, t0), s);
      var subs1 := subs[t0 := RemoveFirst(subs[t0], s)];
      forall t: nat, x: nat
        ensures Occurrences(Listed(subs, t), x) == Occurrences(Listed(subs1, t), x) + if x == s && t == t0 then 1 else 0
      {
        RemoveOne(subs[t0], s, x);
      }
      UnsubscribeKeeps(subs1, s, ts[1..]);
    }
  }

  lemma DropSubscriber(b: Broker, s: nat)
    requires LoopOk(b, b.topicOf) && SubReplayOk(b.toSub - {s}, b.attached - {s}, b.shm, b.space)
    requires s in b.attached && b.attached[s] == []
    ensures var c := b.(attached := b.attached - {s}, toSub := b.toSub - {s});
            LoopOk(c, c.topicOf) && SubReplayOk(c.toSub, c.attached, c.shm, c.space)
  {
    hide FreeOk, SlotsOk, PubReplayOk, SubReplayOk, HeldOk, IdsOk, UniqueOk, TopicsOk;
    DropHeld(b.attached, b.occ, s);
    DropIds(b.attached, b.occ, b.nextId, b.nextEvent, b.topicOf, s);
  }

  lemma DropHeld(attached: map<nat, seq<Attachment>>, occ: map<nat, map<nat, Holder>>, s: nat)
    requires HeldOk(attached, occ) && s in attached && attached[s] == []
    ensures HeldOk(attached - {s}, occ)
  {
    forall p, slot | p in occ && slot in occ[p]
      ensures HeldBy(attached - {s}, p, slot, occ[p][slot])
    {
      var h := occ[p][slot];
      assert HeldBy(attached, p, slot, h);
      var i: nat :| i < |attached[h.sub]| && IsAt(attached[h.sub][i], p, slot, h);
      assert (attached - {s})[h.sub][i] == attached[h.sub][i];
    }
  }

  lemma DropIds(attached: map<nat, seq<Attachment>>, occ: map<nat, map<nat, Holder>>, nextId: nat, nextEvent: nat,
                topicOf: map<nat, nat>, s: nat)
    requires IdsOk(attached, occ, nextId, nextEvent) && TopicsOk(attached, topicOf)
    ensures IdsOk(attached - {s}, occ, nextId, nextEvent) && TopicsOk(attached - {s}, topicOf)
    ensures UniqueOk(attached) ==> UniqueOk(attached - {s})
  {
  }

  lemma RoleLost(role: map<nat, Role>, subscribers: set<nat>, publishers: set<nat>, fd: nat)
    requires RoleMap(role, subscribers, publishers)
    ensures fd in subscribers ==> RoleMap(role - {fd}, subscribers - {fd}, publishers)
    ensures fd in publishers ==> RoleMap(role - {fd}, subscribers, publishers - {fd})
  {
  }

  lemma SubscriberGoneFromRoles(b: Broker, c: Broker, s: nat)
    requires RolesOk(b) && s in b.topics && c.role == b.role - {s} && c.topics == b.topics - {s}
    requires c.attached.Keys == b.attached.Keys - {s} && c.toSub.Keys == b.toSub.Keys - {s}
    requires c.topicOf == b.topicOf && c.shm == b.shm && c.space == b.space
    requires c.toPub.Keys == b.toPub.Keys && c.occ.Keys == b.occ.Keys
    ensures RolesOk(c)
  {
    hide RoleMap;
    RoleLost(b.role, b.topics.Keys, b.topicOf.Keys, s);
    assert c.topics.Keys == b.topics.Keys - {s};
  }

  lemma SubsWithout(subs: map<nat, seq<nat>>, subs': map<nat, seq<nat>>, topics: map<nat, seq<nat>>, s: nat)
    requires SubsOk(subs, topics) && s in topics && SubsLost(subs, subs', s, topics[s])
    ensures SubsOk(subs', topics - {s})
  {
    forall t: nat, x: nat
      ensures Occurrences(Listed(subs', t), x) == TopicCount(topics - {s}, x, t)
    {
      assert Occurrences(Listed(subs, t), x) == TopicCount(topics, x, t);
    }
  }

  lemma OthersReplay(toSub: map<nat, seq<SubMsg>>, attached: map<nat, seq<Attachment>>, shm: map<nat, nat>,
                     space: map<nat, nat>, s: nat)
    requires SubReplayOk(toSub, attached, shm, space)
    ensures SubReplayOk(toSub - {s}, attached[s := []] - {s}, shm, space)
  {
  }

  lemma CountsWithout(attached: map<nat, seq<Attachment>>, topics: map<nat, seq<nat>>, topicOf: map<nat, nat>, s: nat)
    requires CountsOk(attached, topics, topicOf)
    ensures CountsOk(attached[s := []] - {s}, topics - {s}, topicOf)
  {
  }

  lemma SubscriberKnown(b: Broker, s: nat)
    requires RolesOk(b) && SubsOk(b.subs, b.topics) && s in b.topics
    ensures s in b.attached && s in b.toSub
    ensures forall t: nat :: Occurrences(Listed(b.subs, t), s) >= Occurrences(b.topics[s], t)
  {
    forall t: nat
      ensures Occurrences(Listed(b.subs, t), s) >= Occurrences(b.topics[s], t)
    {
      assert Occurrences(Listed(b.subs, t), s) == TopicCount(b.topics, s, t);
    }
  }

  /** A leaving subscriber finds every map in order. */
  lemma SubscriberLeavesKeeps(b: Broker, s: nat)
    requires Inv(b) && s in b.topics
    ensures SubscriberLeaves(b, s).Ok? && Inv(SubscriberLeaves(b, s).b)
  {
    hide RolesOk, LoopOk, SubReplayOk, PubsOk, SubsOk, CountsOk, HandshakesOk, ReleaseAll, Unsubscribe, OnlyAppends,
         SubsLost;
    SubscriberKnown(b, s);
    ReleaseAllKeeps(b, s, b.attached[s]);
    var b' := ReleaseAll(b, s, b.attached[s]).b;
    UnsubscribeKeeps(b.subs, s, b.topics[s]);
    var c := SubscriberLeaves(b, s).b;
    OthersReplay(b.toSub, b.attached, b.shm, b.space, s);
    DropSubscriber(b', s);
    Unlisted(b'.(attached := b'.attached - {s}, toSub := b'.toSub - {s}), c);
    SubsWithout(b.subs, c.subs, b.topics, s);
    CountsWithout(b.attached, b.topics, b.topicOf, s);
    HandshakesStay(b.toPub, b'.toPub);
    SubscriberGoneFromRoles(b, c, s);
  }

  lemma Unlisted(b: Broker, c: Broker)
    requires LoopOk(b, b.topicOf) && c == b.(role := c.role, subs := c.subs, topics := c.topics)
    ensures LoopOk(c, c.topicOf)
  {
    hide FreeOk, SlotsOk, HeldOk, IdsOk, UniqueOk, TopicsOk, PubReplayOk;
  }

  // ---------- A publisher leaves: the subscriber's tables ----------

  function RemoveAt(es: seq<Entry>, i: nat): (r: seq<Entry>)
    requires i < |es|
    ensures |r| == |es| - 1 && forall j: nat | j < |r| :: r[j] == es[if j < i then j else j + 1]
  {
    es[..i] + es[i + 1..]
  }

  lemma OthersRemain(es: seq<Entry>, i: nat)
    requires Distinct(es) && i < |es|
    ensures forall j: nat | j < |es| - 1 ::
      && RemoveAt(es, i)[j] in es && RemoveAt(es, i)[j].att.event != es[i].att.event
         && RemoveAt(es, i)[j].att.id != es[i].att.id
    ensures forall e | e in es && e.att.event != es[i].att.event :: e in RemoveAt(es, i) && e.att.id != es[i].att.id
  {
    var rest := RemoveAt(es, i);
    forall e | e in es && e.att.event != es[i].att.event
      ensures e in rest && e.att.id != es[i].att.id
    {
      var j: nat :| j < |es| && es[j] == e;
      assert rest[if j < i then j else j - 1] == e;
    }
  }

  lemma Found(t: Tables, es: seq<Entry>, i: nat)
    requires Match(t, es) && i < |es|
    ensures Receive(t, PublisherGone(es[i].att.id))
         == Tables(t.eventById - {es[i].att.id}, t.attachmentByEvent - {es[i].att.event})
  {
    assert LeadsBack(t, es, es[i].att.event);
  }

  /** The disconnect of the attachment at `i` leaves exactly the others. */
  lemma Uninstall(t: Tables, es: seq<Entry>, i: nat)
    requires Match(t, es) && Distinct(es) && i < |es|
    ensures Match(Receive(t, PublisherGone(es[i].att.id)), RemoveAt(es, i))
  {
    OthersRemain(es, i);
    Found(t, es, i);
    var rest := RemoveAt(es, i);
    hide RemoveAt, Distinct, Receive;
    var t' := Tables(t.eventById - {es[i].att.id}, t.attachmentByEvent - {es[i].att.event});
    forall event | event in t'.attachmentByEvent
      ensures LeadsBack(t', rest, event)
    {
      assert LeadsBack(t, es, event);
    }
    forall j: nat | j < |rest|
      ensures rest[j].att.event in t'.attachmentByEvent && t'.attachmentByEvent[rest[j].att.event] == rest[j]
    {
      assert rest[j] in es;
    }
    forall id | id in t'.eventById
      ensures t'.eventById[id] in t'.attachmentByEvent && t'.attachmentByEvent[t'.eventById[id]].att.id == id
    {
      assert LeadsBack(t, es, t.eventById[id]);
    }
  }

  lemma EntriesWithout(shm: map<nat, nat>, space: map<nat, nat>, atts: seq<Attachment>, i: nat)
    requires Mapped(shm, space, atts) && i < |atts|
    ensures Mapped(shm, space, Without(atts, i))
    ensures Entries(shm, space, Without(atts, i)) == RemoveAt(Entries(shm, space, atts), i)
  {
  }

  lemma DetachReplay(b: Broker, s: nat, i: nat)
    requires SubReplayOk(b.toSub, b.attached, b.shm, b.space) && IdsOk(b.attached, b.occ, b.nextId, b.nextEvent)
    requires s in b.attached && s in b.toSub && i < |b.attached[s]|
    ensures SubReplayOk(b.toSub[s := b.toSub[s] + [PublisherGone(b.attached[s][i].id)]],
                        b.attached[s := Without(b.attached[s], i)], b.shm, b.space)
  {
    hide Without, RemoveAt, ReceiveAll, Receive, Match, ListIds;
    var atts := b.attached[s];
    var es := Entries(b.shm, b.space, atts);
    EntriesDistinct(b.shm, b.space, atts, b.nextId, b.nextEvent);
    EntriesWithout(b.shm, b.space, atts, i);
    Uninstall(ReceiveAll(b.toSub[s]), es, i);
    MoreReceived(b.toSub[s], PublisherGone(atts[i].id));
  }

  // ---------- A publisher leaves ----------

  lemma {:induction false} OneFewerOf(atts: seq<Attachment>, i: nat, q: nat)
    requires i < |atts|
    ensures OfPublisher(Without(atts, i), q) == OfPublisher(atts, q) - if atts[i].pub == q then 1 else 0
  {
    if i == 0 {
      assert Without(atts, 0) == atts[1..];
    } else {
      OneFewerOf(atts[1..], i - 1, q);
      assert Without(atts, i) == [atts[0]] + Without(atts[1..], i - 1);
      assert Without(atts, i)[1..] == Without(atts[1..], i - 1);
    }
  }

  /** `b` after subscriber `s` was told its first attachment to `p` is gone. */
  function Detached(b: Broker, p: nat, s: nat): Broker
    requires s in b.attached && s in b.toSub && OfPublisher(b.attached[s], p) > 0
  {
    var i := FirstOf(b.attached[s], p);
    var a := b.attached[s][i];
    b.(toSub := b.toSub[s := b.toSub[s] + [PublisherGone(a.id)]],
       attached := b.attached[s := Without(b.attached[s], i)],
       occ := Drop(b.occ, p, a.slot))
  }

  /** What the loop over the topic's subscribers relies on while publisher `p` is being taken out. */
  ghost predicate LeavingOk(b: Broker, p: nat, all: map<nat, nat>) {
    && LoopOk(b, all) && SubReplayOk(b.toSub, b.attached, b.shm, b.space)
    && p !in b.topicOf && p !in b.toPub && p in b.occ
  }

  lemma DetachKeeps(b: Broker, p: nat, s: nat, all: map<nat, nat>)
    requires LeavingOk(b, p, all) && s in b.attached && OfPublisher(b.attached[s], p) > 0
    ensures s in b.toSub && p in b.occ && LeavingOk(Detached(b, p, s), p, all)
  {
    hide FreeOk, SlotsOk, HeldOk, IdsOk, UniqueOk, TopicsOk, PubReplayOk, SubReplayOk, Without, FirstOf;
    var i := FirstOf(b.attached[s], p);
    var a := b.attached[s][i];
    DetachHeld(b.attached, b.occ, b.nextId, b.nextEvent, s, i);
    DetachIds(b.attached, b.occ, b.nextId, b.nextEvent, s, i, p, a.slot);
    DetachTopics(b.attached, all, s, i);
    DetachUnique(b.attached, s, i);
    DetachReplay(b, s, i);
    OtherSlots(b, p, a.slot);
    OtherReplays(b.toPub, b.occ, p, a.slot);
  }

  lemma OtherSlots(b: Broker, p: nat, slot: nat)
    requires SlotsOk(b.free, b.occ, b.topicOf) && p !in b.topicOf && p in b.occ
    ensures SlotsOk(b.free, Drop(b.occ, p, slot), b.topicOf)
  {
  }

  lemma OtherReplays(toPub: map<nat, seq<PubMsg>>, occ: map<nat, map<nat, Holder>>, p: nat, slot: nat)
    requires PubReplayOk(toPub, occ) && p !in toPub && p in occ
    ensures PubReplayOk(toPub, Drop(occ, p, slot))
  {
  }

  /** Each subscriber lost an attachment to `p` per occurrence in `ss`; nothing else changed. */
  ghost predicate LostOf(atts: map<nat, seq<Attachment>>, atts': map<nat, seq<Attachment>>, p: nat, ss: seq<nat>) {
    && atts'.Keys == atts.Keys
    && forall s, q: nat | s in atts ::
      OfPublisher(atts[s], q) == OfPublisher(atts'[s], q) + if q == p then Occurrences(ss, s) else 0
  }

  ghost predicate Enough(atts: map<nat, seq<Attachment>>, p: nat, ss: seq<nat>) {
    && (forall i: nat | i < |ss| :: ss[i] in atts)
    && forall s | s in atts :: OfPublisher(atts[s], p) >= Occurrences(ss, s)
  }

  /** The fields the detaching loop leaves alone. */
  ghost predicate OnlyDetached(b: Broker, c: Broker) {
    && c == b.(toSub := c.toSub, attached := c.attached, occ := c.occ)
    && c.attached.Keys == b.attached.Keys && c.toSub.Keys == b.toSub.Keys && c.occ.Keys == b.occ.Keys
  }

  lemma {:induction false} DetachSubscribersKeeps(b: Broker, p: nat, ss: seq<nat>, all: map<nat, nat>)
    requires LeavingOk(b, p, all) && Enough(b.attached, p, ss)
    ensures DetachSubscribers(b, p, ss).Ok?
    ensures var c := DetachSubscribers(b, p, ss).b;
            LeavingOk(c, p, all) && OnlyDetached(b, c) && LostOf(b.attached, c.attached, p, ss)
    decreases |ss|
  {
    hide LeavingOk, Enough, LostOf, Detached, FirstOf;
    if ss == [] {
      NobodyLost(b.attached, p, ss);
    } else {
      var s := ss[0];
      EnoughFirst(b.attached, p, ss);
      DetachKeeps(b, p, s, all);
      var b1 := Detached(b, p, s);
      DetachedEffect(b, p, ss);
      DetachSubscribersKeeps(b1, p, ss[1..], all);
      LostMore(b.attached, b1.attached, DetachSubscribers(b1, p, ss[1..]).b.attached, p, ss);
    }
  }

  lemma NobodyLost(atts: map<nat, seq<Attachment>>, p: nat, ss: seq<nat>)
    requires ss == []
    ensures LostOf(atts, atts, p, ss)
  {
    forall s: nat
      ensures Occurrences(ss, s) == 0
    {
    }
  }

  lemma EnoughFirst(atts: map<nat, seq<Attachment>>, p: nat, ss: seq<nat>)
    requires ss != [] && Enough(atts, p, ss)
    ensures ss[0] in atts && OfPublisher(atts[ss[0]], p) > 0
  {
    assert Occurrences(ss, ss[0]) >= 1;
  }

  lemma DetachedEffect(b: Broker, p: nat, ss: seq<nat>)
    requires ss != [] && Enough(b.attached, p, ss) && ss[0] in b.attached && ss[0] in b.toSub && p in b.occ
    requires OfPublisher(b.attached[ss[0]], p) > 0
    ensures var b1 := Detached(b, p, ss[0]);
            && OnlyDetached(b, b1) && LostOf(b.attached, b1.attached, p, ss[..1]) && Enough(b1.attached, p, ss[1..])
            && DetachSubscribers(b, p, ss) == DetachSubscribers(b1, p, ss[1..])
  {
    hide LostOf, Enough, FirstOf, Without;
    OneLost(b.attached, FirstOf(b.attached[ss[0]], p), p, ss);
    EnoughRest(b.attached, Detached(b, p, ss[0]).attached, p, ss);
  }

  lemma OneLost(atts: map<nat, seq<Attachment>>, i: nat, p: nat, ss: seq<nat>)
    requires ss != [] && ss[0] in atts && i < |atts[ss[0]]| && atts[ss[0]][i].pub == p
    ensures LostOf(atts, atts[ss[0] := Without(atts[ss[0]], i)], p, ss[..1])
  {
    hide Without, Occurrences, OfPublisher;
    var atts' := atts[ss[0] := Without(atts[ss[0]], i)];
    forall s, q: nat | s in atts
      ensures OfPublisher(atts[s], q) == OfPublisher(atts'[s], q) + if q == p then Occurrences(ss[..1], s) else 0
    {
      OneFewerOf(atts[ss[0]], i, q);
      FirstOccurrence(ss, s);
    }
  }

  lemma EnoughRest(x: map<nat, seq<Attachment>>, y: map<nat, seq<Attachment>>, p: nat, ss: seq<nat>)
    requires ss != [] && Enough(x, p, ss) && LostOf(x, y, p, ss[..1])
    ensures Enough(y, p, ss[1..])
  {
    hide Occurrences, OfPublisher;
    forall s | s in y
      ensures OfPublisher(y[s], p) >= Occurrences(ss[1..], s)
    {
      FirstOccurrence(ss, s);
      assert OfPublisher(x[s], p) == OfPublisher(y[s], p) + Occurrences(ss[..1], s);
    }
  }

  lemma LostMore(x: map<nat, seq<Attachment>>, y: map<nat, seq<Attachment>>, z: map<nat, seq<Attachment>>, p: nat,
                 ss: seq<nat>)
    requires ss != [] && LostOf(x, y, p, ss[..1]) && LostOf(y, z, p, ss[1..])
    ensures LostOf(x, z, p, ss)
  {
    assert ss[..1][1..] == [];
    forall s, q: nat | s in x
      ensures OfPublisher(x[s], q) == OfPublisher(z[s], q) + if q == p then Occurrences(ss, s) else 0
    {
      assert OfPublisher(x[s], q) == OfPublisher(y[s], q) + if q == p then Occurrences(ss[..1], s) else 0;
    }
  }

  lemma BeginLeaving(b: Broker, p: nat, t: nat)
    requires Inv(b) && p in b.topicOf && b.topicOf[p] == t
    ensures LeavingOk(b.(toPub := b.toPub - {p}, free := b.free - {(t, p)}, topicOf := b.topicOf - {p}), p, b.topicOf)
  {
    hide HeldOk, IdsOk, UniqueOk, TopicsOk, SubReplayOk, PubsOk, SubsOk, CountsOk, HandshakesOk, RoleMap;
    FewerFree(b, p, t);
    FewerConnections(b.toPub, b.occ, p);
  }

  lemma FewerFree(b: Broker, p: nat, t: nat)
    requires FreeOk(b.free, b.topicOf) && SlotsOk(b.free, b.occ, b.topicOf) && p in b.topicOf && b.topicOf[p] == t
    ensures FreeOk(b.free - {(t, p)}, b.topicOf - {p}) && SlotsOk(b.free - {(t, p)}, b.occ, b.topicOf - {p})
  {
    hide Partition;
  }

  lemma FewerConnections(toPub: map<nat, seq<PubMsg>>, occ: map<nat, map<nat, Holder>>, p: nat)
    requires PubReplayOk(toPub, occ)
    ensures PubReplayOk(toPub - {p}, occ)
  {
  }

  lemma EnoughAttached(b: Broker, p: nat, t: nat)
    requires Inv(b) && p in b.topicOf && b.topicOf[p] == t
    ensures Enough(b.attached, p, Listed(b.subs, t))
  {
    hide LoopOk, SubReplayOk, PubsOk, HandshakesOk;
    ListedAreAttached(b, t);
    forall s | s in b.attached
      ensures OfPublisher(b.attached[s], p) >= Occurrences(Listed(b.subs, t), s)
    {
      assert Occurrences(Listed(b.subs, t), s) == TopicCount(b.topics, s, t);
    }
  }

  /** After the loop nobody is attached to `p` any more. */
  lemma NobodyLeft(b: Broker, c: Broker, p: nat, t: nat)
    requires Inv(b) && p in b.topicOf && b.topicOf[p] == t && LostOf(b.attached, c.attached, p, Listed(b.subs, t))
    ensures forall s, i: nat | s in c.attached && i < |c.attached[s]| :: c.attached[s][i].pub != p
  {
    hide LoopOk, SubReplayOk, PubsOk, HandshakesOk, RolesOk;
    forall s, i: nat | s in c.attached && i < |c.attached[s]|
      ensures c.attached[s][i].pub != p
    {
      assert Occurrences(Listed(b.subs, t), s) == TopicCount(b.topics, s, t);
      assert OfPublisher(b.attached[s], p) == OfPublisher(c.attached[s], p) + Occurrences(Listed(b.subs, t), s);
      if c.attached[s][i].pub == p {
        CountsAt(c.attached[s], i);
      }
    }
  }

  lemma {:induction false} CountsAt(atts: seq<Attachment>, i: nat)
    requires i < |atts|
    ensures OfPublisher(atts, atts[i].pub) > 0
  {
    if i > 0 {
      CountsAt(atts[1..], i - 1);
    }
  }

  lemma EndHeld(attached: map<nat, seq<Attachment>>, occ: map<nat, map<nat, Holder>>, nextId: nat, nextEvent: nat,
                p: nat)
    requires HeldOk(attached, occ) && IdsOk(attached, occ, nextId, nextEvent)
    requires forall s, i: nat | s in attached && i < |attached[s]| :: attached[s][i].pub != p
    ensures HeldOk(attached, occ - {p}) && IdsOk(attached, occ - {p}, nextId, nextEvent)
  {
    hide ListIds, HeldBy;
    forall s, i: nat | s in attached && i < |attached[s]|
      ensures Holds(occ - {p}, s, attached[s][i])
    {
      assert Holds(occ, s, attached[s][i]);
    }
  }

  lemma EndTopics(attached: map<nat, seq<Attachment>>, all: map<nat, nat>, p: nat)
    requires TopicsOk(attached, all)
    requires forall s, i: nat | s in attached && i < |attached[s]| :: attached[s][i].pub != p
    ensures TopicsOk(attached, all - {p})
  {
  }

  lemma EndReplay(b: Broker, p: nat)
    requires SubReplayOk(b.toSub, b.attached, b.shm, b.space)
    requires forall s, i: nat | s in b.attached && i < |b.attached[s]| :: b.attached[s][i].pub != p
    ensures SubReplayOk(b.toSub, b.attached, b.shm - {p}, b.space - {p})
  {
    hide Match;
    forall s | s in b.toSub
      ensures Mapped(b.shm - {p}, b.space - {p}, b.attached[s])
      ensures Entries(b.shm - {p}, b.space - {p}, b.attached[s]) == Entries(b.shm, b.space, b.attached[s])
    {
      assert Mapped(b.shm, b.space, b.attached[s]);
    }
  }

  lemma EndLeaving(b: Broker, p: nat, all: map<nat, nat>, pubs: map<nat, seq<nat>>, role: map<nat, Role>)
    requires LeavingOk(b, p, all) && b.topicOf == all - {p}
    requires forall s, i: nat | s in b.attached && i < |b.attached[s]| :: b.attached[s][i].pub != p
    ensures var c := b.(pubs := pubs, shm := b.shm - {p}, space := b.space - {p}, role := role, occ := b.occ - {p});
            LoopOk(c, c.topicOf) && SubReplayOk(c.toSub, c.attached, c.shm, c.space)
  {
    hide FreeOk, HeldOk, IdsOk, UniqueOk, TopicsOk, SubReplayOk, PubReplayOk, SlotsOk;
    EndHeld(b.attached, b.occ, b.nextId, b.nextEvent, p);
    EndTopics(b.attached, all, p);
    EndReplay(b, p);
    EndSlots(b, p);
  }

  lemma EndSlots(b: Broker, p: nat)
    requires SlotsOk(b.free, b.occ, b.topicOf) && PubReplayOk(b.toPub, b.occ) && p !in b.topicOf && p !in b.toPub
    ensures SlotsOk(b.free, b.occ - {p}, b.topicOf) && PubReplayOk(b.toPub, b.occ - {p})
  {
    hide Partition;
  }

  function PubsWithout(pubs: map<nat, seq<nat>>, t: nat, p: nat): map<nat, seq<nat>>
    requires t in pubs && p in pubs[t]
  {
    if RemoveFirst(pubs[t], p) == [] then pubs - {t} else pubs[t := RemoveFirst(pubs[t], p)]
  }

  lemma {:induction false} RemovedList(xs: seq<nat>, x: nat)
    requires NoRepeats(xs) && x in xs
    ensures NoRepeats(RemoveFirst(xs, x)) && forall y :: y in RemoveFirst(xs, x) <==> y in xs && y != x
  {
    assert xs == [xs[0]] + xs[1..];
    if xs[0] != x {
      RemovedList(xs[1..], x);
      var r := RemoveFirst(xs[1..], x);
      assert forall i: nat | i < |r| :: r[i] in r;
    }
  }

  lemma FewerPubs(pubs: map<nat, seq<nat>>, topicOf: map<nat, nat>, t: nat, p: nat)
    requires PubsOk(pubs, topicOf) && t in pubs && p in pubs[t]
    ensures PubsOk(PubsWithout(pubs, t, p), topicOf - {p})
  {
    RemovedList(pubs[t], p);
    hide RemoveFirst, NoRepeats;
    var rest := RemoveFirst(pubs[t], p);
    forall i: nat | i < |rest|
      ensures rest[i] in topicOf && topicOf[rest[i]] == t && rest[i] != p
    {
      assert rest[i] in rest;
    }
    forall q | q in topicOf && q != p
      ensures topicOf[q] in PubsWithout(pubs, t, p) && q in PubsWithout(pubs, t, p)[topicOf[q]]
    {
      assert q in pubs[topicOf[q]];
    }
  }

  lemma TopicIsListed(b: Broker, p: nat)
    requires PubsOk(b.pubs, b.topicOf) && p in b.topicOf
    ensures exists t :: t in b.pubs && p in b.pubs[t]
    ensures TopicListing(b.pubs, p) == b.topicOf[p]
  {
    assert b.topicOf[p] in b.pubs && p in b.pubs[b.topicOf[p]];
    var t := TopicListing(b.pubs, p);
    var i: nat :| i < |b.pubs[t]| && b.pubs[t][i] == p;
  }

  lemma PublisherGoneFromRoles(b: Broker, c: Broker, p: nat)
    requires RolesOk(b) && p in b.topicOf && c.role == b.role - {p} && c.topicOf == b.topicOf - {p}
    requires c.topics == b.topics && c.attached.Keys == b.attached.Keys && c.toSub.Keys == b.toSub.Keys
    requires c.shm == b.shm - {p} && c.space == b.space - {p} && c.toPub.Keys == b.toPub.Keys - {p}
    requires c.occ.Keys == b.occ.Keys - {p}
    ensures RolesOk(c)
  {
    hide RoleMap;
    RoleLost(b.role, b.topics.Keys, b.topicOf.Keys, p);
    assert c.topicOf.Keys == b.topicOf.Keys - {p};
  }

  lemma CountsAfter(b: Broker, c: Broker, p: nat, ss: seq<nat>)
    requires CountsOk(b.attached, b.topics, b.topicOf) && LostOf(b.attached, c.attached, p, ss)
    requires c.topics == b.topics && c.topicOf == b.topicOf - {p}
    ensures CountsOk(c.attached, c.topics, c.topicOf)
  {
  }

  lemma HandshakesLeft(toPub: map<nat, seq<PubMsg>>, p: nat)
    requires HandshakesOk(toPub)
    ensures HandshakesOk(toPub - {p})
  {
  }

  lemma PublisherMapped(b: Broker, p: nat)
    requires Inv(b) && p in b.topicOf
    ensures p in b.shm && p in b.space && (b.topicOf[p], p) in b.free
  {
    hide SubReplayOk, PubsOk, SubsOk, CountsOk, HandshakesOk, SlotsOk, HeldOk, IdsOk, UniqueOk, TopicsOk, PubReplayOk;
  }

  /** A leaving publisher finds every map in order. */
  lemma PublisherLeavesKeeps(b: Broker, p: nat)
    requires Inv(b) && p in b.topicOf
    ensures PublisherLeaves(b, p).Ok? && Inv(PublisherLeaves(b, p).b)
  {
    hide RolesOk, LoopOk, SubReplayOk, PubsOk, SubsOk, CountsOk, HandshakesOk, LeavingOk, LostOf, Enough,
         DetachSubscribers, RemoveFirst;
    TopicIsListed(b, p);
    PublisherMapped(b, p);
    var t := b.topicOf[p];
    var b1 := b.(toPub := b.toPub - {p}, free := b.free - {(t, p)}, topicOf := b.topicOf - {p});
    var ss := Listed(b.subs, t);
    BeginLeaving(b, p, t);
    EnoughAttached(b, p, t);
    DetachSubscribersKeeps(b1, p, ss, b.topicOf);
    var b2 := DetachSubscribers(b1, p, ss).b;
    NobodyLeft(b, b2, p, t);
    EndLeaving(b2, p, b.topicOf, PubsWithout(b.pubs, t, p), b.role - {p});
    PublisherLeft(b, b2, p, t);
  }

  lemma PublisherLeft(b: Broker, b2: Broker, p: nat, t: nat)
    requires Inv(b) && p in b.topicOf && b.topicOf[p] == t && t in b.pubs && p in b.pubs[t]
    requires OnlyDetached(b.(toPub := b.toPub - {p}, free := b.free - {(t, p)}, topicOf := b.topicOf - {p}), b2)
    requires LostOf(b.attached, b2.attached, p, Listed(b.subs, t))
    ensures var c := b2.(pubs := PubsWithout(b.pubs, t, p), shm := b2.shm - {p}, space := b2.space - {p},
                         role := b.role - {p}, occ := b2.occ - {p});
            && RolesOk(c) && PubsOk(c.pubs, c.topicOf) && SubsOk(c.subs, c.topics)
            && CountsOk(c.attached, c.topics, c.topicOf) && HandshakesOk(c.toPub)
  {
    hide RolesOk, LoopOk, SubReplayOk, PubsOk, SubsOk, CountsOk, HandshakesOk, LostOf, RemoveFirst, PubsWithout;
    var c := b2.(pubs := PubsWithout(b.pubs, t, p), shm := b2.shm - {p}, space := b2.space - {p},
                 role := b.role - {p}, occ := b2.occ - {p});
    FewerPubs(b.pubs, b.topicOf, t, p);
    CountsAfter(b, c, p, Listed(b.subs, t));
    HandshakesLeft(b.toPub, p);
    PublisherGoneFromRoles(b, c, p);
  }
}

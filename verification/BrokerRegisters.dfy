/** A registration finds every map in order and leaves them in order. */
module BrokerRegisters {
  import opened Layout
  import opened Broker
  import opened BrokerInvariant

  // ---------- Attaching ----------

  lemma TakeSlot(free: seq<nat>, taken: map<nat, Holder>, h: Holder)
    requires Partition(free, taken) && free != []
    ensures free[0] < SLOTS && free[0] !in taken && Partition(free[1..], taken[free[0] := h])
  {
    var slot := free[0];
    assert slot in free;
    forall x: nat
      ensures x in free[1..] <==> x < SLOTS && x !in taken[slot := h]
    {
      assert x in free <==> x == slot || x in free[1..];
    }
  }

  lemma AttachSlots(b: Broker, p: nat, h: Holder)
    requires FreeOk(b.free, b.topicOf) && SlotsOk(b.free, b.occ, b.topicOf) && p in b.topicOf
    requires (b.topicOf[p], p) in b.free && p in b.occ && b.free[(b.topicOf[p], p)] != []
    ensures var k := (b.topicOf[p], p);
            var slot := b.free[k][0];
            && slot < SLOTS && slot !in b.occ[p] && FreeOk(b.free[k := b.free[k][1..]], b.topicOf)
            && SlotsOk(b.free[k := b.free[k][1..]], Take(b.occ, p, slot, h), b.topicOf)
  {
    hide Partition;
    TakeSlot(b.free[(b.topicOf[p], p)], b.occ[p], h);
  }

  lemma AttachHeld(attached: map<nat, seq<Attachment>>, occ: map<nat, map<nat, Holder>>, s: nat, a: Attachment)
    requires HeldOk(attached, occ) && s in attached && a.pub in occ && a.slot !in occ[a.pub]
    ensures HeldOk(attached[s := attached[s] + [a]], Take(occ, a.pub, a.slot, Holder(s, a.id, a.event)))
  {
    var attached' := attached[s := attached[s] + [a]];
    var occ' := Take(occ, a.pub, a.slot, Holder(s, a.id, a.event));
    forall p, slot | p in occ' && slot in occ'[p]
      ensures HeldBy(attached', p, slot, occ'[p][slot])
    {
      var h := occ'[p][slot];
      if p == a.pub && slot == a.slot {
        assert IsAt(attached'[s][|attached[s]|], p, slot, h);
      } else {
        var i: nat :| i < |attached[h.sub]| && IsAt(attached[h.sub][i], p, slot, h);
        assert attached'[h.sub][i] == attached[h.sub][i];
      }
    }
    forall x, i: nat | x in attached' && i < |attached'[x]|
      ensures Holds(occ', x, attached'[x][i])
    {
      assert i < |attached[x]| ==> Holds(occ, x, attached[x][i]);
    }
  }

  lemma AttachIds(attached: map<nat, seq<Attachment>>, occ: map<nat, map<nat, Holder>>, s: nat, a: Attachment)
    requires IdsOk(attached, occ, a.id, a.event) && s in attached && a.pub in occ && a.id + 1 < ID_LIMIT
    ensures IdsOk(attached[s := attached[s] + [a]], Take(occ, a.pub, a.slot, Holder(s, a.id, a.event)),
                  a.id + 1, a.event + 1)
  {
    forall x | x in attached
      ensures ListIds(attached[x], a.id + 1, a.event + 1)
    {
      assert ListIds(attached[x], a.id, a.event);
    }
    assert ListIds(attached[s], a.id, a.event);
  }

  lemma AttachUnique(attached: map<nat, seq<Attachment>>, occ: map<nat, map<nat, Holder>>, s: nat, a: Attachment)
    requires IdsOk(attached, occ, a.id, a.event) && UniqueOk(attached) && s in attached
    ensures UniqueOk(attached[s := attached[s] + [a]])
  {
    var attached' := attached[s := attached[s] + [a]];
    forall x, i: nat, y, j: nat
      | x in attached' && i < |attached'[x]| && y in attached' && j < |attached'[y]|
        && Alike(attached'[x][i], attached'[y][j])
      ensures x == y && i == j
    {
      assert ListIds(attached[x], a.id, a.event) && ListIds(attached[y], a.id, a.event);
    }
  }

  lemma ReplayOne(msgs: seq<PubMsg>, m: PubMsg)
    requires msgs != []
    ensures Replay((msgs + [m])[1..]) == Track(Replay(msgs[1..]), m)
  {
    var long := (msgs + [m])[1..];
    assert long[..|long| - 1] == msgs[1..];
  }

  lemma AttachReplay(toPub: map<nat, seq<PubMsg>>, occ: map<nat, map<nat, Holder>>, p: nat, slot: nat, h: Holder)
    requires PubReplayOk(toPub, occ) && p in toPub && slot < SLOTS && slot !in occ[p]
    requires forall x | x in occ[p] :: occ[p][x].event != h.event
    ensures PubReplayOk(toPub[p := toPub[p] + [Registered(h.event, slot)]], Take(occ, p, slot, h))
  {
    ReplayOne(toPub[p], Registered(h.event, slot));
    assert h.event !in EventsOf(occ[p]).Values;
    assert EventsOf(Take(occ, p, slot, h)[p]) == EventsOf(occ[p])[slot := h.event];
  }

  /** The fields an attach leaves alone. */
  ghost predicate SameRegistry(b: Broker, c: Broker) {
    && c.role == b.role && c.topics == b.topics && c.pubs == b.pubs && c.shm == b.shm && c.space == b.space
    && c.topicOf == b.topicOf && c.occ.Keys == b.occ.Keys && c.toPub.Keys == b.toPub.Keys
    && c.attached.Keys == b.attached.Keys
  }

  /** What one attach does to the rest: one more registration sent, one more attachment listed. */
  ghost predicate Attached(b: Broker, c: Broker, s: nat, p: nat) {
    && SameRegistry(b, c) && c.subs == b.subs && c.toSub == b.toSub
    && p in b.toPub && |c.toPub[p]| == |b.toPub[p]| + 1 && c.toPub[p][|b.toPub[p]|].Registered?
    && c.toPub == b.toPub[p := b.toPub[p] + [c.toPub[p][|b.toPub[p]|]]]
    && s in b.attached && |c.attached[s]| == |b.attached[s]| + 1 && c.attached[s][|b.attached[s]|].pub == p
    && c.attached == b.attached[s := b.attached[s] + [c.attached[s][|b.attached[s]|]]]
  }

  lemma AttachEffect(b: Broker, s: nat, t: nat, p: nat)
    requires Attach(b, s, t, p).Ok? && p in b.occ
    ensures Attached(b, Attach(b, s, t, p).b, s, p)
  {
  }

  lemma AttachKeeps(b: Broker, s: nat, t: nat, p: nat)
    requires LoopOk(b, b.topicOf) && s in b.attached && p in b.topicOf && b.topicOf[p] == t
    ensures !Attach(b, s, t, p).Missing?
    ensures Attach(b, s, t, p).Ok? ==>
      LoopOk(Attach(b, s, t, p).b, b.topicOf) && Attached(b, Attach(b, s, t, p).b, s, p)
  {
    hide FreeOk, SlotsOk, HeldOk, IdsOk, UniqueOk, TopicsOk, PubReplayOk, Take, Attached;
    Reachable(b, p);
    if Attach(b, s, t, p).Ok? {
      AttachEffect(b, s, t, p);
      var slot := b.free[(t, p)][0];
      var a := Attachment(b.nextId, t, p, slot, b.nextEvent);
      var h := Holder(s, a.id, a.event);
      AttachSlots(b, p, h);
      AttachHeld(b.attached, b.occ, s, a);
      AttachIds(b.attached, b.occ, s, a);
      AttachUnique(b.attached, b.occ, s, a);
      EventIsNew(b.attached, b.occ, b.nextId, b.nextEvent, p);
      SameKeys(b.occ, p, slot, h);
      AttachReplay(b.toPub, b.occ, p, slot, h);
      AttachTopic(b.attached, b.topicOf, s, a);
    }
  }

  lemma Reachable(b: Broker, p: nat)
    requires FreeOk(b.free, b.topicOf) && p in b.topicOf
    ensures (b.topicOf[p], p) in b.free
  {
  }

  lemma EventIsNew(attached: map<nat, seq<Attachment>>, occ: map<nat, map<nat, Holder>>, id: nat, event: nat, p: nat)
    requires IdsOk(attached, occ, id, event) && p in occ
    ensures forall x | x in occ[p] :: occ[p][x].event != event
  {
  }

  lemma AttachTopic(attached: map<nat, seq<Attachment>>, topicOf: map<nat, nat>, s: nat, a: Attachment)
    requires TopicsOk(attached, topicOf) && s in attached && a.pub in topicOf && a.topic == topicOf[a.pub]
    ensures TopicsOk(attached[s := attached[s] + [a]], topicOf)
  {
  }

  lemma SameKeys(occ: map<nat, map<nat, Holder>>, p: nat, slot: nat, h: Holder)
    requires p in occ
    ensures Take(occ, p, slot, h).Keys == occ.Keys
  {
  }

  // ---------- The subscriber's tables ----------

  ghost predicate Distinct(es: seq<Entry>) {
    forall i, j | 0 <= i < j < |es| :: es[i].att.id != es[j].att.id && es[i].att.event != es[j].att.event
  }

  lemma InstallMatches(t: Tables, es: seq<Entry>, e: Entry)
    requires Match(t, es) && Distinct(es + [e])
    ensures Match(Install(t, e), es + [e])
  {
    var long := es + [e];
    assert long[|es|] == e && forall i: nat | i < |es| :: long[i] == es[i];
    assert e.att.event !in t.attachmentByEvent;
    assert e.att.id !in t.eventById;
  }

  /** Installing a list with distinct ids and events into empty tables succeeds and holds it. */
  lemma {:induction false} InstallAllMatches(es: seq<Entry>)
    requires Distinct(es)
    ensures Match(InstallAll(NO_TABLES, es), es)
  {
    if es != [] {
      var short := es[..|es| - 1];
      InstallAllMatches(short);
      assert short + [es[|es| - 1]] == es;
      InstallMatches(InstallAll(NO_TABLES, short), short, es[|es| - 1]);
    }
  }

  lemma EntriesDistinct(shm: map<nat, nat>, space: map<nat, nat>, atts: seq<Attachment>, nextId: nat, nextEvent: nat)
    requires ListIds(atts, nextId, nextEvent) && Mapped(shm, space, atts)
    ensures Distinct(Entries(shm, space, atts))
  {
  }

  // ---------- A subscriber registers ----------

  /** Nothing sent earlier is unsent, and no count of a handshake is added. */
  ghost predicate OnlyAppends(toPub: map<nat, seq<PubMsg>>, toPub': map<nat, seq<PubMsg>>) {
    forall p | p in toPub :: p in toPub' && toPub[p] <= toPub'[p]
  }

  lemma AppendsAdd(x: map<nat, seq<PubMsg>>, y: map<nat, seq<PubMsg>>, z: map<nat, seq<PubMsg>>)
    requires OnlyAppends(x, y) && OnlyAppends(y, z)
    ensures OnlyAppends(x, z)
  {
  }

  lemma OneMoreOf(atts: seq<Attachment>, a: Attachment, q: nat)
    ensures OfPublisher(atts + [a], q) == OfPublisher(atts, q) + if a.pub == q then 1 else 0
  {
    if atts != [] {
      assert (atts + [a])[1..] == atts[1..] + [a];
      OneMoreOf(atts[1..], a, q);
    }
  }

  lemma FirstOccurrence(xs: seq<nat>, y: nat)
    requires xs != []
    ensures Occurrences(xs[..1], y) == if xs[0] == y then 1 else 0
    ensures Occurrences(xs, y) == Occurrences(xs[..1], y) + Occurrences(xs[1..], y)
  {
    assert xs[..1][1..] == [];
  }

  lemma OneMoreOccurrence(xs: seq<nat>, x: nat, y: nat)
    ensures Occurrences(xs + [x], y) == Occurrences(xs, y) + if x == y then 1 else 0
  {
    if xs != [] {
      assert (xs + [x])[1..] == xs[1..] + [x];
      OneMoreOccurrence(xs[1..], x, y);
    }
  }

  /** Only subscriber `s` changed: it gained one attachment for each entry of `ps`. */
  ghost predicate Gained(atts: map<nat, seq<Attachment>>, atts': map<nat, seq<Attachment>>, s: nat, ps: seq<nat>) {
    && s in atts && atts' == atts[s := Listing(atts', s)]
    && forall q: nat :: OfPublisher(Listing(atts', s), q) == OfPublisher(atts[s], q) + Occurrences(ps, q)
  }

  function Listing(attached: map<nat, seq<Attachment>>, s: nat): seq<Attachment> {
    if s in attached then attached[s] else []
  }

  lemma {:induction false} AttachPublishersKeeps(b: Broker, s: nat, t: nat, ps: seq<nat>)
    requires LoopOk(b, b.topicOf) && s in b.attached
    requires forall i: nat | i < |ps| :: ps[i] in b.topicOf && b.topicOf[ps[i]] == t
    ensures !AttachPublishers(b, s, t, ps).Missing?
    ensures AttachPublishers(b, s, t, ps).Ok? ==>
      var c := AttachPublishers(b, s, t, ps).b;
      && LoopOk(c, c.topicOf) && SameRegistry(b, c) && c.subs == b.subs && c.toSub == b.toSub
      && OnlyAppends(b.toPub, c.toPub) && Gained(b.attached, c.attached, s, ps)
    decreases |ps|
  {
    hide LoopOk, Attach;
    if ps != [] {
      AttachKeeps(b, s, t, ps[0]);
      if Attach(b, s, t, ps[0]).Ok? {
        var b' := Attach(b, s, t, ps[0]).b;
        AttachPublishersKeeps(b', s, t, ps[1..]);
        GainedOne(b, b', s, ps);
        if AttachPublishers(b', s, t, ps[1..]).Ok? {
          GainedMore(b.attached, b'.attached, AttachPublishers(b', s, t, ps[1..]).b.attached, s, ps);
        }
      }
    }
  }

  lemma GainedOne(b: Broker, c: Broker, s: nat, ps: seq<nat>)
    requires ps != [] && Attached(b, c, s, ps[0])
    ensures Gained(b.attached, c.attached, s, ps[..1])
  {
    forall q: nat
      ensures OfPublisher(Listing(c.attached, s), q) == OfPublisher(b.attached[s], q) + Occurrences(ps[..1], q)
    {
      OneMoreOf(b.attached[s], c.attached[s][|b.attached[s]|], q);
      assert ps[..1][1..] == [];
    }
  }

  lemma GainedMore(x: map<nat, seq<Attachment>>, y: map<nat, seq<Attachment>>, z: map<nat, seq<Attachment>>, s: nat,
                   ps: seq<nat>)
    requires ps != [] && Gained(x, y, s, ps[..1]) && Gained(y, z, s, ps[1..])
    ensures Gained(x, z, s, ps)
  {
    forall q: nat
      ensures Occurrences(ps, q) == Occurrences(ps[..1], q) + Occurrences(ps[1..], q)
    {
      assert ps[..1][1..] == [];
    }
  }

  lemma {:induction false} OccursOnce(xs: seq<nat>, x: nat)
    requires NoRepeats(xs)
    ensures Occurrences(xs, x) == if x in xs then 1 else 0
  {
    if xs != [] {
      assert xs == [xs[0]] + xs[1..];
      OccursOnce(xs[1..], x);
    }
  }

  lemma PublishersOfTopic(pubs: map<nat, seq<nat>>, topicOf: map<nat, nat>, t: nat, q: nat)
    requires PubsOk(pubs, topicOf)
    ensures Occurrences(Listed(pubs, t), q) == if q in topicOf && topicOf[q] == t then 1 else 0
  {
    OccursOnce(Listed(pubs, t), q);
  }

  /** Only subscriber `s` changed: for each publisher it gained an attachment per occurrence of its topic in `ts`. */
  ghost predicate GainedTopics(atts: map<nat, seq<Attachment>>, atts': map<nat, seq<Attachment>>,
                               topicOf: map<nat, nat>,
                               s: nat, ts: seq<nat>) {
    && s in atts && atts' == atts[s := Listing(atts', s)]
    && forall q | q in topicOf ::
      OfPublisher(Listing(atts', s), q) == OfPublisher(atts[s], q) + Occurrences(ts, topicOf[q])
  }

  ghost predicate SubsGained(subs: map<nat, seq<nat>>, subs': map<nat, seq<nat>>, s: nat, ts: seq<nat>) {
    forall t: nat, x: nat ::
      Occurrences(Listed(subs', t), x) == Occurrences(Listed(subs, t), x) + if x == s then Occurrences(ts, t) else 0
  }

  lemma SubsAside(b: Broker, subs: map<nat, seq<nat>>)
    requires LoopOk(b, b.topicOf)
    ensures LoopOk(b.(subs := subs), b.topicOf)
  {
    hide FreeOk, SlotsOk, HeldOk, IdsOk, UniqueOk, TopicsOk, PubReplayOk;
  }

  lemma {:induction false} AttachTopicsKeeps(b: Broker, s: nat, ts: seq<nat>)
    requires LoopOk(b, b.topicOf) && s in b.attached && PubsOk(b.pubs, b.topicOf)
    ensures !AttachTopics(b, s, ts).Missing?
    ensures AttachTopics(b, s, ts).Ok? ==>
      var c := AttachTopics(b, s, ts).b;
      && LoopOk(c, c.topicOf) && SameRegistry(b, c) && c.toSub == b.toSub
      && OnlyAppends(b.toPub, c.toPub) && GainedTopics(b.attached, c.attached, b.topicOf, s, ts)
         && SubsGained(b.subs, c.subs, s, ts)
    decreases |ts|
  {
    hide LoopOk, AttachPublishers, OnlyAppends, GainedTopics, SubsGained, PubsOk, Gained;
    if ts == [] {
      NoTopics(b, s, ts);
    } else {
      var b1 := b.(subs := b.subs[ts[0] := Listed(b.subs, ts[0]) + [s]]);
      var ps := Listed(b.pubs, ts[0]);
      SubsAside(b, b1.subs);
      ListedPublish(b.pubs, b.topicOf, ts[0]);
      AttachPublishersKeeps(b1, s, ts[0], ps);
      if AttachPublishers(b1, s, ts[0], ps).Ok? {
        var b2 := AttachPublishers(b1, s, ts[0], ps).b;
        StillListed(b1, b2, s, ps);
        AttachTopicsKeeps(b2, s, ts[1..]);
        if AttachTopics(b2, s, ts[1..]).Ok? {
          var c := AttachTopics(b2, s, ts[1..]).b;
          AppendsAdd(b.toPub, b2.toPub, c.toPub);
          TopicGained(b, b2.attached, c.attached, s, ts);
          SubsGainedMore(b.subs, c.subs, s, ts);
        }
      }
    }
  }

  lemma NoTopics(b: Broker, s: nat, ts: seq<nat>)
    requires s in b.attached && ts == []
    ensures OnlyAppends(b.toPub, b.toPub) && GainedTopics(b.attached, b.attached, b.topicOf, s, ts)
    ensures SubsGained(b.subs, b.subs, s, ts)
  {
    forall t: nat
      ensures Occurrences(ts, t) == 0
    {
    }
  }

  lemma ListedPublish(pubs: map<nat, seq<nat>>, topicOf: map<nat, nat>, t: nat)
    requires PubsOk(pubs, topicOf)
    ensures forall i: nat | i < |Listed(pubs, t)| :: Listed(pubs, t)[i] in topicOf && topicOf[Listed(pubs, t)[i]] == t
  {
  }

  lemma StillListed(b: Broker, c: Broker, s: nat, ps: seq<nat>)
    requires Gained(b.attached, c.attached, s, ps)
    ensures s in c.attached
  {
  }

  lemma TopicGained(b: Broker, y: map<nat, seq<Attachment>>, z: map<nat, seq<Attachment>>, s: nat, ts: seq<nat>)
    requires ts != [] && PubsOk(b.pubs, b.topicOf)
    requires Gained(b.attached, y, s, Listed(b.pubs, ts[0])) && GainedTopics(y, z, b.topicOf, s, ts[1..])
    ensures GainedTopics(b.attached, z, b.topicOf, s, ts)
  {
    hide PubsOk;
    forall q | q in b.topicOf
      ensures OfPublisher(Listing(z, s), q) == OfPublisher(b.attached[s], q) + Occurrences(ts, b.topicOf[q])
    {
      PublishersOfTopic(b.pubs, b.topicOf, ts[0], q);
    }
  }

  lemma SubsGainedMore(subs: map<nat, seq<nat>>, subs': map<nat, seq<nat>>, s: nat, ts: seq<nat>)
    requires ts != [] && SubsGained(subs[ts[0] := Listed(subs, ts[0]) + [s]], subs', s, ts[1..])
    ensures SubsGained(subs, subs', s, ts)
  {
    forall t: nat, x: nat
      ensures Occurrences(Listed(subs', t), x) == Occurrences(Listed(subs, t), x) + if x == s then Occurrences(ts, t)
        else 0
    {
      OneMoreOccurrence(Listed(subs, ts[0]), s, x);
    }
  }

  lemma FreshHeld(attached: map<nat, seq<Attachment>>, occ: map<nat, map<nat, Holder>>, s: nat)
    requires HeldOk(attached, occ) && s !in attached
    ensures HeldOk(attached[s := []], occ)
  {
    forall p, slot | p in occ && slot in occ[p]
      ensures HeldBy(attached[s := []], p, slot, occ[p][slot])
    {
      assert HeldBy(attached, p, slot, occ[p][slot]);
    }
  }

  lemma FreshSubscriber(b: Broker, s: nat, ts: seq<nat>)
    requires LoopOk(b, b.topicOf) && s !in b.attached
    ensures LoopOk(b.(topics := b.topics[s := ts], role := b.role[s := Subscriber], attached := b.attached[s := []],
                      toSub := b.toSub[s := []]), b.topicOf)
  {
    hide FreeOk, SlotsOk, HeldOk, IdsOk, UniqueOk, PubReplayOk, TopicsOk;
    FreshHeld(b.attached, b.occ, s);
    FreshIds(b.attached, b.occ, b.nextId, b.nextEvent, s);
    FreshTopics(b.attached, b.topicOf, s);
  }

  lemma FreshIds(attached: map<nat, seq<Attachment>>, occ: map<nat, map<nat, Holder>>, nextId: nat, nextEvent: nat,
                 s: nat)
    requires IdsOk(attached, occ, nextId, nextEvent)
    ensures IdsOk(attached[s := []], occ, nextId, nextEvent)
    ensures UniqueOk(attached) ==> UniqueOk(attached[s := []])
  {
  }

  lemma FreshTopics(attached: map<nat, seq<Attachment>>, topicOf: map<nat, nat>, s: nat)
    requires TopicsOk(attached, topicOf)
    ensures TopicsOk(attached[s := []], topicOf)
  {
  }

  lemma NewInRoles(b: Broker, fd: nat)
    requires RolesOk(b) && fd !in b.role
    ensures fd !in b.topics && fd !in b.attached && fd !in b.toSub
    ensures fd !in b.topicOf && fd !in b.shm && fd !in b.space && fd !in b.toPub && fd !in b.occ
  {
  }

  lemma SubscriberAdded(b: Broker, c: Broker, s: nat, ts: seq<nat>)
    requires RolesOk(b) && s !in b.role && c.role == b.role[s := Subscriber] && c.topics == b.topics[s := ts]
    requires c.attached.Keys == b.attached.Keys + {s} && c.toSub.Keys == b.toSub.Keys + {s}
    requires c.topicOf == b.topicOf && c.shm == b.shm && c.space == b.space
    requires c.toPub.Keys == b.toPub.Keys && c.occ.Keys == b.occ.Keys
    ensures RolesOk(c)
  {
    hide RoleMap;
    RoleGained(b.role, b.topics.Keys, b.topicOf.Keys, s);
    assert c.topics.Keys == b.topics.Keys + {s};
  }

  lemma HandshakesStay(toPub: map<nat, seq<PubMsg>>, toPub': map<nat, seq<PubMsg>>)
    requires HandshakesOk(toPub) && OnlyAppends(toPub, toPub') && toPub'.Keys == toPub.Keys
    ensures HandshakesOk(toPub')
  {
    forall p | p in toPub'
      ensures Handshake(toPub'[p])
    {
      assert Handshake(toPub[p]);
    }
  }

  lemma FirstBatch(es: seq<Entry>)
    ensures ReceiveAll([Batch(es)]) == InstallAll(NO_TABLES, es)
  {
    assert [Batch(es)][..0] == [];
  }

  lemma MappedAll(attached: map<nat, seq<Attachment>>, topicOf: map<nat, nat>, shm: map<nat, nat>, space: map<nat, nat>)
    requires TopicsOk(attached, topicOf) && topicOf.Keys <= shm.Keys && topicOf.Keys <= space.Keys
    ensures forall s | s in attached :: Mapped(shm, space, attached[s])
  {
  }

  lemma NewReplay(b: Broker, c: Broker, s: nat)
    requires SubReplayOk(b.toSub, b.attached, b.shm, b.space) && s !in b.toSub && s in c.attached
    requires c.attached == b.attached[s := c.attached[s]] && c.shm == b.shm && c.space == b.space
    requires Mapped(c.shm, c.space, c.attached[s]) && ListIds(c.attached[s], c.nextId, c.nextEvent)
    ensures SubReplayOk(b.toSub[s := [Batch(Entries(c.shm, c.space, c.attached[s]))]], c.attached, c.shm, c.space)
  {
    hide Match;
    FirstBatch(Entries(c.shm, c.space, c.attached[s]));
    EntriesDistinct(c.shm, c.space, c.attached[s], c.nextId, c.nextEvent);
    InstallAllMatches(Entries(c.shm, c.space, c.attached[s]));
  }

  lemma NewCounts(b: Broker, c: Broker, s: nat, ts: seq<nat>)
    requires CountsOk(b.attached, b.topics, b.topicOf) && s !in b.attached && s in c.attached && c.topicOf == b.topicOf
    requires c.attached == b.attached[s := c.attached[s]] && c.topics == b.topics[s := ts]
    requires forall q | q in b.topicOf :: OfPublisher(c.attached[s], q) == Occurrences(ts, b.topicOf[q])
    ensures CountsOk(c.attached, c.topics, c.topicOf)
  {
  }

  lemma NewSubs(b: Broker, subs: map<nat, seq<nat>>, s: nat, ts: seq<nat>)
    requires SubsOk(b.subs, b.topics) && SubsGained(b.subs, subs, s, ts) && s !in b.topics
    ensures SubsOk(subs, b.topics[s := ts])
  {
  }

  lemma AttachedEverything(b: Broker, s: nat, ts: seq<nat>)
    requires Inv(b) && s !in b.role
    ensures s !in b.attached && s !in b.toSub
    ensures var b1 := b.(topics := b.topics[s := ts], role := b.role[s := Subscriber],
                         attached := b.attached[s := []], toSub := b.toSub[s := []]);
            && !AttachTopics(b1, s, ts).Missing?
            && (AttachTopics(b1, s, ts).Ok? ==>
              var c := AttachTopics(b1, s, ts).b;
              && LoopOk(c, c.topicOf) && SameRegistry(b1, c) && c.toSub == b1.toSub && OnlyAppends(b.toPub, c.toPub)
              && GainedTopics(b1.attached, c.attached, b.topicOf, s, ts) && SubsGained(b.subs, c.subs, s, ts))
  {
    hide RolesOk, LoopOk, AttachTopics, OnlyAppends, SubsGained, PubsOk, SubsOk, CountsOk, SubReplayOk, HandshakesOk,
         GainedTopics;
    NewInRoles(b, s);
    FreshSubscriber(b, s, ts);
    AttachTopicsKeeps(b.(topics := b.topics[s := ts], role := b.role[s := Subscriber],
                         attached := b.attached[s := []], toSub := b.toSub[s := []]), s, ts);
  }

  lemma SubscriberJoined(b: Broker, b2: Broker, s: nat, ts: seq<nat>)
    requires Inv(b) && s !in b.role && LoopOk(b2, b2.topicOf)
    requires b2.role == b.role[s := Subscriber] && b2.topics == b.topics[s := ts] && b2.toSub == b.toSub[s := []]
    requires b2.pubs == b.pubs && b2.shm == b.shm && b2.space == b.space && b2.topicOf == b.topicOf
    requires b2.occ.Keys == b.occ.Keys && b2.toPub.Keys == b.toPub.Keys && OnlyAppends(b.toPub, b2.toPub)
    requires s !in b.attached && SubsGained(b.subs, b2.subs, s, ts)
    requires GainedTopics(b.attached[s := []], b2.attached, b.topicOf, s, ts) && s in b2.attached
    requires Mapped(b2.shm, b2.space, b2.attached[s])
    ensures Inv(b2.(toSub := b2.toSub[s := b2.toSub[s] + [Batch(Entries(b2.shm, b2.space, b2.attached[s]))]]))
  {
    hide RolesOk, LoopOk, OnlyAppends, SubsGained, PubsOk, SubsOk, CountsOk, SubReplayOk, HandshakesOk, Mapped, Entries;
    NewInRoles(b, s);
    var c := b2.(toSub := b2.toSub[s := b2.toSub[s] + [Batch(Entries(b2.shm, b2.space, b2.attached[s]))]]);
    var batch := Batch(Entries(b2.shm, b2.space, b2.attached[s]));
    assert b2.toSub[s] + [batch] == [batch];
    assert c.toSub == b.toSub[s := [batch]];
    LoopIds(b2, s);
    NewReplay(b, b2, s);
    NewCounts(b, b2, s, ts);
    NewSubs(b, b2.subs, s, ts);
    HandshakesStay(b.toPub, b2.toPub);
    SameRoleKeys(b);
    SentAside(b2, c);
    SubscriberAdded(b, c, s, ts);
  }

  lemma LoopIds(b: Broker, s: nat)
    requires LoopOk(b, b.topicOf) && s in b.attached
    ensures ListIds(b.attached[s], b.nextId, b.nextEvent)
  {
    hide FreeOk, SlotsOk, HeldOk, TopicsOk, PubReplayOk, ListIds;
  }

  lemma SameRoleKeys(b: Broker)
    requires RolesOk(b)
    ensures b.attached.Keys == b.toSub.Keys
  {
  }

  /** A registering subscriber finds every map in order. */
  lemma RegisterSubscriberKeeps(b: Broker, s: nat, ts: seq<nat>)
    requires Inv(b) && s !in b.role
    ensures !RegisterSubscriber(b, s, ts).Missing?
    ensures RegisterSubscriber(b, s, ts).Ok? ==> Inv(RegisterSubscriber(b, s, ts).b)
  {
    hide Inv, LoopOk, AttachTopics, OnlyAppends, SubsGained, GainedTopics, Mapped, Entries;
    if 1 <= |ts| <= MAX_TOPICS {
      AttachedEverything(b, s, ts);
      var b1 := b.(topics := b.topics[s := ts], role := b.role[s := Subscriber],
                   attached := b.attached[s := []], toSub := b.toSub[s := []]);
      if AttachTopics(b1, s, ts).Ok? {
        var b2 := AttachTopics(b1, s, ts).b;
        LoopMapped(b2);
        if |b2.attached[s]| <= BATCH {
          SubscriberJoined(b, b2, s, ts);
        }
      }
    }
  }

  lemma LoopMapped(b: Broker)
    requires LoopOk(b, b.topicOf)
    ensures forall s | s in b.attached :: Mapped(b.shm, b.space, b.attached[s])
    ensures b.attached.Keys == b.toSub.Keys
  {
    hide FreeOk, SlotsOk, HeldOk, IdsOk, UniqueOk, PubReplayOk;
    MappedAll(b.attached, b.topicOf, b.shm, b.space);
  }

  lemma SentAside(b: Broker, c: Broker)
    requires LoopOk(b, b.topicOf) && c == b.(toSub := c.toSub) && c.toSub.Keys == b.toSub.Keys
    ensures LoopOk(c, c.topicOf)
  {
    hide FreeOk, SlotsOk, HeldOk, IdsOk, UniqueOk, TopicsOk, PubReplayOk;
  }

  // ---------- A publisher registers ----------

  /** Sending one batch with the newest attachment extends what the subscriber has installed by it. */
  lemma BatchReplay(b: Broker, c: Broker, s: nat, p: nat)
    requires SubReplayOk(b.toSub, b.attached, b.shm, b.space) && b.attached.Keys == b.toSub.Keys
    requires Attached(b, c, s, p) && p in b.shm && p in b.space && s in c.toSub && Mapped(c.shm, c.space, c.attached[s])
    requires ListIds(c.attached[s], c.nextId, c.nextEvent)
    ensures var last := c.attached[s][|c.attached[s]| - 1..];
            && Mapped(c.shm, c.space, last)
            && SubReplayOk(c.toSub[s := c.toSub[s] + [Batch(Entries(c.shm, c.space, last))]], c.attached, c.shm,
               c.space)
  {
    hide Match, ListIds, Distinct;
    var a := c.attached[s][|b.attached[s]|];
    var last := c.attached[s][|c.attached[s]| - 1..];
    assert last == [a];
    var e := EntryOf(c.shm, c.space, a);
    var es := Entries(b.shm, b.space, b.attached[s]);
    assert Entries(c.shm, c.space, last) == [e];
    assert Entries(c.shm, c.space, c.attached[s]) == es + [e];
    EntriesDistinct(c.shm, c.space, c.attached[s], c.nextId, c.nextEvent);
    InstallMatches(ReceiveAll(b.toSub[s]), es, e);
    MoreReceived(c.toSub[s], Batch([e]));
    InstallOne(ReceiveAll(b.toSub[s]), e);
  }

  lemma InstallOne(tables: Tables, e: Entry)
    ensures InstallAll(tables, [e]) == Install(tables, e)
  {
    assert [e][..0] == [];
  }

  lemma MoreReceived(msgs: seq<SubMsg>, m: SubMsg)
    ensures ReceiveAll(msgs + [m]) == Receive(ReceiveAll(msgs), m)
  {
    assert (msgs + [m])[..|msgs|] == msgs;
  }

  /** Each subscriber gained an attachment to `p` per occurrence in `ss`; nothing else changed. */
  ghost predicate GainedOf(atts: map<nat, seq<Attachment>>, atts': map<nat, seq<Attachment>>, p: nat, ss: seq<nat>) {
    && atts'.Keys == atts.Keys
    && forall s, q: nat | s in atts ::
      OfPublisher(atts'[s], q) == OfPublisher(atts[s], q) + if q == p then Occurrences(ss, s) else 0
  }

  /** `p` was sent exactly one registration per entry of `ss`, and nobody else anything. */
  ghost predicate SentTo(toPub: map<nat, seq<PubMsg>>, toPub': map<nat, seq<PubMsg>>, p: nat, n: nat) {
    && p in toPub && p in toPub' && toPub' == toPub[p := toPub'[p]] && |toPub'[p]| == |toPub[p]| + n
       && toPub[p] <= toPub'[p]
    && forall i: nat | |toPub[p]| <= i < |toPub'[p]| :: toPub'[p][i].Registered?
  }

  lemma AttachAndSendKeeps(b: Broker, s: nat, t: nat, p: nat)
    requires LoopOk(b, b.topicOf) && p in b.topicOf && b.topicOf[p] == t
      && SubReplayOk(b.toSub, b.attached, b.shm, b.space)
    requires s in b.attached
    ensures p in b.toPub && !AttachAndSend(b, s, t, p).Missing?
    ensures AttachAndSend(b, s, t, p).Ok? ==>
      var c := AttachAndSend(b, s, t, p).b;
      && LoopOk(c, c.topicOf) && SameRegistry(b, c) && c.subs == b.subs && c.toSub.Keys == b.toSub.Keys
      && SubReplayOk(c.toSub, c.attached, c.shm, c.space)
      && SentTo(b.toPub, c.toPub, p, 1) && GainedOf(b.attached, c.attached, p, [s])
  {
    hide LoopOk, Attach, SendBatch, SubReplayOk, SentTo, GainedOf, Attached;
    PublisherKnown(b, p);
    AttachKeeps(b, s, t, p);
    if Attach(b, s, t, p).Ok? {
      var b1 := Attach(b, s, t, p).b;
      AttachedFacts(b, b1, s, p);
      LoopMapped(b);
      LoopMapped(b1);
      LoopIds(b1, s);
      BatchReplay(b, b1, s, p);
      var last := b1.attached[s][|b1.attached[s]| - 1..];
      BatchSent(b1, s, last);
      SentAside(b1, SendBatch(b1, s, last).b);
      SentOne(b, b1, p, s);
    }
  }

  lemma {:induction false} AttachSubscribersKeeps(b: Broker, p: nat, t: nat, ss: seq<nat>)
    requires LoopOk(b, b.topicOf) && p in b.topicOf && b.topicOf[p] == t
      && SubReplayOk(b.toSub, b.attached, b.shm, b.space)
    requires forall i: nat | i < |ss| :: ss[i] in b.attached
    ensures !AttachSubscribers(b, p, t, ss).Missing?
    ensures AttachSubscribers(b, p, t, ss).Ok? ==>
      var c := AttachSubscribers(b, p, t, ss).b;
      && LoopOk(c, c.topicOf) && SameRegistry(b, c) && c.subs == b.subs && c.toSub.Keys == b.toSub.Keys
      && SubReplayOk(c.toSub, c.attached, c.shm, c.space)
      && SentTo(b.toPub, c.toPub, p, |ss|) && GainedOf(b.attached, c.attached, p, ss)
    decreases |ss|
  {
    hide LoopOk, AttachAndSend, SubReplayOk, SentTo, GainedOf;
    PublisherKnown(b, p);
    if ss == [] {
      NobodySent(b, p, ss);
    } else {
      AttachAndSendKeeps(b, ss[0], t, p);
      if AttachAndSend(b, ss[0], t, p).Ok? {
        var b1 := AttachAndSend(b, ss[0], t, p).b;
        AttachSubscribersKeeps(b1, p, t, ss[1..]);
        if AttachSubscribers(b1, p, t, ss[1..]).Ok? {
          SentMore(b, b1, AttachSubscribers(b1, p, t, ss[1..]).b, p, ss);
        }
      }
    }
  }

  lemma PublisherKnown(b: Broker, p: nat)
    requires LoopOk(b, b.topicOf) && p in b.topicOf
    ensures p in b.toPub && p in b.shm && p in b.space && p in b.occ
  {
    hide FreeOk, SlotsOk, HeldOk, IdsOk, UniqueOk, TopicsOk, PubReplayOk;
  }

  lemma AttachedFacts(b: Broker, c: Broker, s: nat, p: nat)
    requires Attached(b, c, s, p)
    ensures SameRegistry(b, c) && c.subs == b.subs && c.toSub == b.toSub && s in c.attached && c.attached[s] != []
  {
  }

  lemma BatchSent(b: Broker, s: nat, atts: seq<Attachment>)
    requires |atts| == 1 && s in b.toSub && Mapped(b.shm, b.space, atts)
    ensures SendBatch(b, s, atts) == Ok(b.(toSub := b.toSub[s := b.toSub[s] + [Batch(Entries(b.shm, b.space, atts))]]))
  {
  }

  lemma NobodySent(b: Broker, p: nat, ss: seq<nat>)
    requires ss == [] && p in b.toPub
    ensures SentTo(b.toPub, b.toPub, p, |ss|) && GainedOf(b.attached, b.attached, p, ss)
  {
    forall s: nat
      ensures Occurrences(ss, s) == 0
    {
    }
  }

  lemma SentOne(b: Broker, c: Broker, p: nat, s: nat)
    requires Attached(b, c, s, p)
    ensures SentTo(b.toPub, c.toPub, p, 1) && GainedOf(b.attached, c.attached, p, [s])
  {
    forall x, q: nat | x in b.attached
      ensures OfPublisher(c.attached[x], q) == OfPublisher(b.attached[x], q) + if q == p then Occurrences([s], x) else 0
    {
      OneMoreOf(b.attached[s], c.attached[s][|b.attached[s]|], q);
      assert [s][1..] == [];
    }
  }

  lemma SentMore(b: Broker, b1: Broker, c: Broker, p: nat, ss: seq<nat>)
    requires ss != [] && SentTo(b.toPub, b1.toPub, p, 1) && GainedOf(b.attached, b1.attached, p, [ss[0]])
    requires SentTo(b1.toPub, c.toPub, p, |ss| - 1) && GainedOf(b1.attached, c.attached, p, ss[1..])
    ensures SentTo(b.toPub, c.toPub, p, |ss|) && GainedOf(b.attached, c.attached, p, ss)
  {
    forall s, q: nat | s in b.attached
      ensures OfPublisher(c.attached[s], q) == OfPublisher(b.attached[s], q) + if q == p then Occurrences(ss, s) else 0
    {
      assert [ss[0]][1..] == [];
      assert OfPublisher(b1.attached[s], q) == OfPublisher(b.attached[s], q) + if q == p then Occurrences([ss[0]], s)
        else 0;
    }
  }

  /** A publisher's fd is new: nobody is attached to it. */
  lemma NotAttachedYet(b: Broker, p: nat)
    requires TopicsOk(b.attached, b.topicOf) && p !in b.topicOf
    ensures forall s | s in b.attached :: OfPublisher(b.attached[s], p) == 0
  {
    forall s | s in b.attached
      ensures OfPublisher(b.attached[s], p) == 0
    {
      NoneOf(b.attached[s], p);
    }
  }

  lemma {:induction false} NoneOf(atts: seq<Attachment>, p: nat)
    requires forall i: nat | i < |atts| :: atts[i].pub != p
    ensures OfPublisher(atts, p) == 0
  {
    if atts != [] {
      NoneOf(atts[1..], p);
    }
  }

  lemma AllSlotsFree(taken: map<nat, Holder>)
    requires taken == map[]
    ensures Partition(AllSlots(), taken) && |AllSlots()| == SLOTS
  {
  }

  lemma NewFree(b: Broker, p: nat, t: nat)
    requires FreeOk(b.free, b.topicOf) && SlotsOk(b.free, b.occ, b.topicOf) && p !in b.topicOf
    ensures FreeOk(b.free[(t, p) := AllSlots()], b.topicOf[p := t]) && (t, p) !in b.free
    ensures SlotsOk(b.free[(t, p) := AllSlots()], b.occ[p := map[]], b.topicOf[p := t])
  {
    hide Partition;
    AllSlotsFree(map[]);
  }

  lemma NewOcc(attached: map<nat, seq<Attachment>>, occ: map<nat, map<nat, Holder>>, nextId: nat, nextEvent: nat,
               p: nat)
    requires HeldOk(attached, occ) && IdsOk(attached, occ, nextId, nextEvent) && p !in occ
    ensures HeldOk(attached, occ[p := map[]]) && IdsOk(attached, occ[p := map[]], nextId, nextEvent)
  {
    hide ListIds, HeldBy;
    forall s, i: nat | s in attached && i < |attached[s]|
      ensures Holds(occ[p := map[]], s, attached[s][i])
    {
      assert Holds(occ, s, attached[s][i]);
    }
  }

  lemma NewConnection(toPub: map<nat, seq<PubMsg>>, occ: map<nat, map<nat, Holder>>, p: nat, n: nat)
    requires PubReplayOk(toPub, occ) && p !in toPub && p !in occ
    ensures PubReplayOk(toPub[p := [Count(n)]], occ[p := map[]])
  {
    assert [Count(n)][1..] == [];
    assert EventsOf(map[]) == map[];
  }

  lemma WithPublisherOk(b: Broker, p: nat, t: nat, shm: nat, space: nat)
    requires LoopOk(b, b.topicOf) && SubReplayOk(b.toSub, b.attached, b.shm, b.space)
    requires p !in b.topicOf && p !in b.shm && p !in b.space && p !in b.toPub && p !in b.occ
    ensures (t, p) !in b.free
    ensures var c := WithPublisher(b, p, t, shm, space);
            LoopOk(c, c.topicOf) && SubReplayOk(c.toSub, c.attached, c.shm, c.space)
  {
    hide FreeOk, SlotsOk, HeldOk, IdsOk, UniqueOk, TopicsOk, PubReplayOk, SubReplayOk;
    NewFree(b, p, t);
    NewOcc(b.attached, b.occ, b.nextId, b.nextEvent, p);
    NewConnection(b.toPub, b.occ, p, |Listed(b.subs, t)|);
    MoreTopics(b.attached, b.topicOf, p, t);
    MoreMapped(b, p, shm, space);
  }

  lemma MoreTopics(attached: map<nat, seq<Attachment>>, topicOf: map<nat, nat>, p: nat, t: nat)
    requires TopicsOk(attached, topicOf) && p !in topicOf
    ensures TopicsOk(attached, topicOf[p := t])
  {
  }

  lemma MoreMapped(b: Broker, p: nat, shm: nat, space: nat)
    requires SubReplayOk(b.toSub, b.attached, b.shm, b.space) && p !in b.shm && p !in b.space
    ensures SubReplayOk(b.toSub, b.attached, b.shm[p := shm], b.space[p := space])
  {
    hide Match;
    forall s | s in b.toSub
      ensures Mapped(b.shm[p := shm], b.space[p := space], b.attached[s])
      ensures Entries(b.shm[p := shm], b.space[p := space], b.attached[s]) == Entries(b.shm, b.space, b.attached[s])
    {
      assert Mapped(b.shm, b.space, b.attached[s]);
    }
  }

  lemma ListedAreAttached(b: Broker, t: nat)
    requires RolesOk(b) && SubsOk(b.subs, b.topics)
    ensures forall i: nat | i < |Listed(b.subs, t)| :: Listed(b.subs, t)[i] in b.attached
  {
    forall i: nat | i < |Listed(b.subs, t)|
      ensures Listed(b.subs, t)[i] in b.attached
    {
      Occurs(Listed(b.subs, t), i);
      assert Occurrences(Listed(b.subs, t), Listed(b.subs, t)[i]) == TopicCount(b.topics, Listed(b.subs, t)[i], t);
    }
  }

  lemma {:induction false} Occurs(xs: seq<nat>, i: nat)
    requires i < |xs|
    ensures Occurrences(xs, xs[i]) > 0
  {
    if i > 0 {
      Occurs(xs[1..], i - 1);
    }
  }

  lemma NewPubs(pubs: map<nat, seq<nat>>, topicOf: map<nat, nat>, p: nat, t: nat)
    requires PubsOk(pubs, topicOf) && p !in topicOf
    ensures PubsOk(pubs[t := Listed(pubs, t) + [p]], topicOf[p := t])
  {
    var pubs', list := pubs[t := Listed(pubs, t) + [p]], Listed(pubs, t);
    assert p !in list;
    assert pubs'[t][|list|] == p;
    forall q | q in topicOf
      ensures topicOf[q] in pubs' && q in pubs'[topicOf[q]]
    {
      assert q in pubs[topicOf[q]];
    }
  }

  lemma PublisherAdded(b: Broker, c: Broker, p: nat, t: nat)
    requires RolesOk(b) && p !in b.role && c.role == b.role[p := Publisher] && c.topicOf == b.topicOf[p := t]
    requires c.topics == b.topics && c.attached.Keys == b.attached.Keys && c.toSub.Keys == b.toSub.Keys
    requires c.shm.Keys == b.shm.Keys + {p} && c.space.Keys == b.space.Keys + {p}
    requires c.toPub.Keys == b.toPub.Keys + {p} && c.occ.Keys == b.occ.Keys + {p}
    ensures RolesOk(c)
  {
    hide RoleMap;
    RoleGained(b.role, b.topics.Keys, b.topicOf.Keys, p);
    assert c.topicOf.Keys == b.topicOf.Keys + {p};
  }

  lemma RoleGained(role: map<nat, Role>, subscribers: set<nat>, publishers: set<nat>, fd: nat)
    requires RoleMap(role, subscribers, publishers) && fd !in role
    ensures RoleMap(role[fd := Publisher], subscribers, publishers + {fd})
    ensures RoleMap(role[fd := Subscriber], subscribers + {fd}, publishers)
  {
  }

  lemma PublisherCounts(b: Broker, c: Broker, p: nat, t: nat)
    requires CountsOk(b.attached, b.topics, b.topicOf) && SubsOk(b.subs, b.topics) && TopicsOk(b.attached, b.topicOf)
    requires p !in b.topicOf && c.topicOf == b.topicOf[p := t] && c.topics == b.topics
    requires GainedOf(b.attached, c.attached, p, Listed(b.subs, t))
    ensures CountsOk(c.attached, c.topics, c.topicOf)
  {
    NotAttachedYet(b, p);
  }

  lemma NewHandshake(toPub: map<nat, seq<PubMsg>>, toPub': map<nat, seq<PubMsg>>, p: nat, n: nat)
    requires HandshakesOk(toPub) && n <= SLOTS && SentTo(toPub[p := [Count(n)]], toPub', p, n)
    ensures HandshakesOk(toPub')
  {
    assert toPub[p := [Count(n)]][p][0] == Count(n);
    forall q | q in toPub'
      ensures Handshake(toPub'[q])
    {
      if q != p {
        assert Handshake(toPub[q]);
      }
    }
  }

  /** `c` is `b` with publisher `p` registered and attached to every subscriber of topic `t`, but not listed yet. */
  ghost predicate AttachedToAll(b: Broker, c: Broker, p: nat, t: nat) {
    && LoopOk(c, c.topicOf) && SubReplayOk(c.toSub, c.attached, c.shm, c.space)
    && c.role == b.role[p := Publisher] && c.topicOf == b.topicOf[p := t] && c.topics == b.topics
    && c.pubs == b.pubs && c.subs == b.subs && c.toSub.Keys == b.toSub.Keys && c.attached.Keys == b.attached.Keys
    && c.shm.Keys == b.shm.Keys + {p} && c.space.Keys == b.space.Keys + {p}
    && c.toPub.Keys == b.toPub.Keys + {p} && c.occ.Keys == b.occ.Keys + {p}
    && SentTo(b.toPub[p := [Count(|Listed(b.subs, t)|)]], c.toPub, p, |Listed(b.subs, t)|)
    && GainedOf(b.attached, c.attached, p, Listed(b.subs, t))
  }

  lemma AttachesToAll(b: Broker, p: nat, t: nat, shm: nat, space: nat)
    requires Inv(b) && p !in b.role
    ensures p !in b.shm && p !in b.space && (t, p) !in b.free
    ensures var o := AttachSubscribers(WithPublisher(b, p, t, shm, space), p, t, Listed(b.subs, t));
            !o.Missing? && (o.Ok? ==> AttachedToAll(b, o.b, p, t))
  {
    hide Inv, LoopOk, SubReplayOk, AttachSubscribers, SentTo, GainedOf, WithPublisher, SameRegistry, AttachedToAll;
    NewPublisher(b, p, t, shm, space);
    var b1 := WithPublisher(b, p, t, shm, space);
    AttachSubscribersKeeps(b1, p, t, Listed(b.subs, t));
    if AttachSubscribers(b1, p, t, Listed(b.subs, t)).Ok? {
      AllAttached(b, b1, AttachSubscribers(b1, p, t, Listed(b.subs, t)).b, p, t);
    }
  }

  lemma AllAttached(b: Broker, b1: Broker, c: Broker, p: nat, t: nat)
    requires LoopOk(c, c.topicOf) && SubReplayOk(c.toSub, c.attached, c.shm, c.space) && SameRegistry(b1, c)
    requires c.subs == b1.subs && c.toSub.Keys == b1.toSub.Keys
    requires b1.role == b.role[p := Publisher] && b1.topicOf == b.topicOf[p := t] && b1.topics == b.topics
    requires b1.pubs == b.pubs && b1.subs == b.subs && b1.toSub == b.toSub && b1.attached == b.attached
    requires b1.shm.Keys == b.shm.Keys + {p} && b1.space.Keys == b.space.Keys + {p} && b1.occ.Keys == b.occ.Keys + {p}
    requires b1.toPub == b.toPub[p := [Count(|Listed(b.subs, t)|)]]
    requires SentTo(b1.toPub, c.toPub, p, |Listed(b.subs, t)|)
      && GainedOf(b1.attached, c.attached, p, Listed(b.subs, t))
    ensures AttachedToAll(b, c, p, t)
  {
    hide LoopOk, SubReplayOk, SentTo, GainedOf;
  }

  /** A registering publisher finds every map in order. */
  lemma RegisterPublisherKeeps(b: Broker, p: nat, t: nat, shm: nat, space: nat)
    requires Inv(b) && p !in b.role
    ensures !RegisterPublisher(b, p, t, shm, space).Missing?
    ensures RegisterPublisher(b, p, t, shm, space).Ok? ==> Inv(RegisterPublisher(b, p, t, shm, space).b)
  {
    hide Inv, AttachSubscribers, WithPublisher, AttachedToAll;
    AttachesToAll(b, p, t, shm, space);
    if RegisterPublisher(b, p, t, shm, space).Ok? {
      PublisherJoined(b, AttachSubscribers(WithPublisher(b, p, t, shm, space), p, t, Listed(b.subs, t)).b, p, t);
    }
  }

  lemma NewPublisher(b: Broker, p: nat, t: nat, shm: nat, space: nat)
    requires Inv(b) && p !in b.role
    ensures p !in b.shm && p !in b.space && (t, p) !in b.free
    ensures forall i: nat | i < |Listed(b.subs, t)| :: Listed(b.subs, t)[i] in b.attached
    ensures var c := WithPublisher(b, p, t, shm, space);
            && LoopOk(c, c.topicOf) && SubReplayOk(c.toSub, c.attached, c.shm, c.space)
            && c.role == b.role[p := Publisher] && c.topicOf == b.topicOf[p := t] && c.topics == b.topics
            && c.pubs == b.pubs && c.subs == b.subs && c.toSub == b.toSub && c.attached == b.attached
            && c.shm.Keys == b.shm.Keys + {p} && c.space.Keys == b.space.Keys + {p} && c.occ.Keys == b.occ.Keys + {p}
            && c.toPub == b.toPub[p := [Count(|Listed(b.subs, t)|)]]
  {
    hide RolesOk, LoopOk, SubReplayOk, PubsOk, SubsOk, CountsOk, HandshakesOk;
    NewInRoles(b, p);
    WithPublisherOk(b, p, t, shm, space);
    ListedAreAttached(b, t);
  }

  lemma PublisherJoined(b: Broker, b2: Broker, p: nat, t: nat)
    requires Inv(b) && p !in b.role && AttachedToAll(b, b2, p, t) && |Listed(b.subs, t)| <= SLOTS
    ensures Inv(b2.(pubs := b2.pubs[t := Listed(b2.pubs, t) + [p]]))
  {
    hide RolesOk, LoopOk, SubReplayOk, PubsOk, SubsOk, CountsOk, HandshakesOk, SentTo, GainedOf;
    NewInRoles(b, p);
    LoopTopics(b);
    NewPubs(b.pubs, b.topicOf, p, t);
    PublisherCounts(b, b2, p, t);
    NewHandshake(b.toPub, b2.toPub, p, |Listed(b.subs, t)|);
    PublisherAdded(b, b2.(pubs := b2.pubs[t := Listed(b2.pubs, t) + [p]]), p, t);
    PubsAside(b2, b2.pubs[t := Listed(b2.pubs, t) + [p]]);
  }

  lemma LoopTopics(b: Broker)
    requires LoopOk(b, b.topicOf)
    ensures TopicsOk(b.attached, b.topicOf)
  {
    hide TopicsOk;
  }

  lemma PubsAside(b: Broker, pubs: map<nat, seq<nat>>)
    requires LoopOk(b, b.topicOf)
    ensures LoopOk(b.(pubs := pubs), b.topicOf)
  {
    hide FreeOk, SlotsOk, HeldOk, IdsOk, UniqueOk, TopicsOk, PubReplayOk;
  }
}

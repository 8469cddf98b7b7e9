/** What holds after any sequence of registrations and disconnects. */
module BrokerRuns {
  import opened Layout
  import opened Broker
  import opened BrokerInvariant
  import opened BrokerRegisters
  import opened BrokerLeaves

  lemma HandleKeeps(b: Broker, e: Event)
    requires Inv(b) && Enabled(b, e)
    ensures !Handle(b, e).Missing? && (Handle(b, e).Ok? ==> Inv(Handle(b, e).b))
  {
    hide Inv, RegisterSubscriber, RegisterPublisher, SubscriberLeaves, PublisherLeaves;
    match e
    case SubscriberRegisters(s, ts) => RegisterSubscriberKeeps(b, s, ts);
    case PublisherRegisters(p, t, shm, space) => RegisterPublisherKeeps(b, p, t, shm, space);
    case Disconnects(fd) =>
      RoleTells(b, fd);
      if b.role[fd].Subscriber? {
        SubscriberLeavesKeeps(b, fd);
      } else {
        PublisherLeavesKeeps(b, fd);
      }
  }

  lemma RoleTells(b: Broker, fd: nat)
    requires Inv(b) && fd in b.role
    ensures fd in b.topics <==> b.role[fd].Subscriber?
    ensures fd in b.topicOf <==> b.role[fd].Publisher?
  {
    hide LoopOk, SubReplayOk, PubsOk, SubsOk, CountsOk, HandshakesOk;
  }

  /** Handle the events one after the other, passing over those the connection cannot cause. */
  ghost function Run(b: Broker, events: seq<Event>): (o: Outcome)
    requires Inv(b)
    ensures !o.Missing? && (o.Ok? ==> Inv(o.b))
    decreases |events|
  {
    hide Inv, Handle;
    if events == [] then Ok(b)
    else if !Enabled(b, events[0]) then Run(b, events[1..])
    else
      HandleKeeps(b, events[0]);
      match Handle(b, events[0])
      case Ok(b') => Run(b', events[1..])
      case Halted => Halted
  }

  ghost function FromStart(events: seq<Event>): (o: Outcome)
    ensures !o.Missing? && (o.Ok? ==> Inv(o.b))
  {
    InitOk();
    Run(Init(), events)
  }

  // ---------- Routing ----------

  /** Every lookup the broker believes cannot fail succeeds, in every run. */
  lemma NothingIsMissing(events: seq<Event>)
    ensures FromStart(events) != Missing
  {
  }

  /** Between events, every subscriber has as many attachments to a publisher as it listed the publisher's topic;
      a topic lists its publishers once and its subscribers as often as they listed it. */
  lemma RoutingIsExact(events: seq<Event>, s: nat, p: nat)
    requires FromStart(events).Ok? && s in FromStart(events).b.attached && p in FromStart(events).b.topicOf
    ensures var b := FromStart(events).b;
            && s in b.topics && OfPublisher(b.attached[s], p) == Occurrences(b.topics[s], b.topicOf[p])
            && Occurrences(Listed(b.subs, b.topicOf[p]), s) == Occurrences(b.topics[s], b.topicOf[p])
            && Occurrences(Listed(b.pubs, b.topicOf[p]), p) == 1
  {
    hide FromStart, LoopOk, SubReplayOk, HandshakesOk, PubsOk;
    var b := FromStart(events).b;
    PublishersOfTopic(b.pubs, b.topicOf, b.topicOf[p], p);
    assert Occurrences(Listed(b.subs, b.topicOf[p]), s) == TopicCount(b.topics, s, b.topicOf[p]);
  }

  // ---------- Slots ----------

  ghost predicate Occupied(b: Broker, p: nat, slot: nat) {
    exists s, i: nat :: s in b.attached && i < |b.attached[s]| && IsOn(b.attached[s][i], p, slot)
  }

  predicate IsOn(a: Attachment, p: nat, slot: nat) {
    a.pub == p && a.slot == slot
  }

  lemma OccupiedIsTaken(b: Broker, p: nat, slot: nat)
    requires Inv(b) && p in b.topicOf
    ensures p in b.occ && (Occupied(b, p, slot) <==> slot in b.occ[p])
  {
    hide SubReplayOk, PubsOk, SubsOk, CountsOk, HandshakesOk, FreeOk, IdsOk, UniqueOk, TopicsOk, PubReplayOk, RoleMap;
    assert p in b.occ;
    if Occupied(b, p, slot) {
      var s, i: nat :| s in b.attached && i < |b.attached[s]| && IsOn(b.attached[s][i], p, slot);
      assert Holds(b.occ, s, b.attached[s][i]);
    }
    if slot in b.occ[p] {
      var h := b.occ[p][slot];
      assert HeldBy(b.attached, p, slot, h);
      var i: nat :| i < |b.attached[h.sub]| && IsAt(b.attached[h.sub][i], p, slot, h);
      assert IsOn(b.attached[h.sub][i], p, slot);
    }
  }

  /** Free and occupied slots of each publisher partition 0..15, the free ones least first. */
  lemma SlotsArePartitioned(events: seq<Event>, p: nat, slot: nat)
    requires FromStart(events).Ok? && p in FromStart(events).b.topicOf
    ensures var b := FromStart(events).b;
            && (b.topicOf[p], p) in b.free && Ascending(b.free[(b.topicOf[p], p)])
            && (slot in b.free[(b.topicOf[p], p)] <==> slot < SLOTS && !Occupied(b, p, slot))
            && (Occupied(b, p, slot) ==> slot < SLOTS)
  {
    hide FromStart, SubReplayOk, PubsOk, SubsOk, CountsOk, HandshakesOk, IdsOk, UniqueOk, TopicsOk, PubReplayOk,
         HeldOk, RoleMap, Occupied;
    var b := FromStart(events).b;
    OccupiedIsTaken(b, p, slot);
    assert Partition(b.free[(b.topicOf[p], p)], b.occ[p]);
  }

  /** No slot is given out twice. */
  lemma SlotsAreExclusive(events: seq<Event>, s: nat, i: nat, x: nat, j: nat)
    requires FromStart(events).Ok?
    requires var b := FromStart(events).b;
             s in b.attached && i < |b.attached[s]| && x in b.attached && j < |b.attached[x]|
    requires var b := FromStart(events).b;
             b.attached[s][i].pub == b.attached[x][j].pub && b.attached[s][i].slot == b.attached[x][j].slot
    ensures s == x && i == j
  {
    hide FromStart, SubReplayOk, PubsOk, SubsOk, CountsOk, HandshakesOk, FreeOk, SlotsOk, TopicsOk, PubReplayOk,
         RoleMap, HeldOk, IdsOk, UniqueOk;
    var b := FromStart(events).b;
    OneHolder(b.attached, b.occ, b.nextId, b.nextEvent, s, i, x, j);
  }

  // ---------- Replays ----------

  lemma {:induction false} ReplayPrefix(msgs: seq<PubMsg>, k: nat)
    requires Replay(msgs).Table? && k <= |msgs|
    ensures Replay(msgs[..k]).Table?
    decreases |msgs|
  {
    if k < |msgs| {
      var short := msgs[..|msgs| - 1];
      ReplayPrefix(short, k);
      assert short[..k] == msgs[..k];
    } else {
      assert msgs[..k] == msgs;
    }
  }

  /** However far a publisher has read its control messages, none was rejected: no slot tracked twice, no untracked
      slot reaped. Having read them all, its table is the broker's occupied slots with their event fds. */
  lemma PublisherAgreesWithBroker(events: seq<Event>, p: nat, k: nat)
    requires FromStart(events).Ok? && p in FromStart(events).b.toPub && 1 <= k <= |FromStart(events).b.toPub[p]|
    ensures var b := FromStart(events).b;
            && Handshake(b.toPub[p]) && Replay(b.toPub[p][1..k]).Table? && Replay(b.toPub[p][1..]).Table?
            && forall slot :: slot in Replay(b.toPub[p][1..]).events <==> Occupied(b, p, slot)
    ensures var b := FromStart(events).b;
            forall s, i: nat | s in b.attached && i < |b.attached[s]| && b.attached[s][i].pub == p ::
              && b.attached[s][i].slot in Replay(b.toPub[p][1..]).events
              && Replay(b.toPub[p][1..]).events[b.attached[s][i].slot] == b.attached[s][i].event
  {
    hide FromStart, Replay, Handshake, SubReplayOk, PubsOk, SubsOk, CountsOk, FreeOk, SlotsOk, IdsOk, UniqueOk,
         TopicsOk, Occupied, Inv;
    var b := FromStart(events).b;
    PublisherReplay(b, p);
    ReplayPrefix(b.toPub[p][1..], k - 1);
    assert b.toPub[p][1..][..k - 1] == b.toPub[p][1..k];
    forall slot
      ensures slot in EventsOf(b.occ[p]) <==> Occupied(b, p, slot)
    {
      OccupiedIsTaken(b, p, slot);
    }
    forall s, i: nat | s in b.attached && i < |b.attached[s]|
      ensures Holds(b.occ, s, b.attached[s][i])
    {
      HeldIn(b, s, i);
    }
  }

  lemma HeldIn(b: Broker, s: nat, i: nat)
    requires Inv(b) && s in b.attached && i < |b.attached[s]|
    ensures Holds(b.occ, s, b.attached[s][i])
  {
    hide RolesOk, SubReplayOk, PubsOk, SubsOk, CountsOk, HandshakesOk, FreeOk, SlotsOk, IdsOk, UniqueOk, TopicsOk,
         PubReplayOk;
  }

  lemma PublisherReplay(b: Broker, p: nat)
    requires Inv(b) && p in b.toPub
    ensures p in b.occ && p in b.topicOf && Handshake(b.toPub[p]) && b.toPub[p] != []
    ensures Replay(b.toPub[p][1..]) == Table(EventsOf(b.occ[p]))
  {
    hide SubReplayOk, PubsOk, SubsOk, CountsOk, FreeOk, SlotsOk, IdsOk, UniqueOk, TopicsOk, HeldOk, RoleMap, Replay;
  }

  lemma {:induction false} ReceivePrefix(msgs: seq<SubMsg>, k: nat)
    requires ReceiveAll(msgs).Tables? && k <= |msgs|
    ensures ReceiveAll(msgs[..k]).Tables?
    decreases |msgs|
  {
    if k < |msgs| {
      var short := msgs[..|msgs| - 1];
      assert ReceiveAll(short).Tables? by {
        FailureStays(ReceiveAll(short), msgs[|msgs| - 1]);
      }
      ReceivePrefix(short, k);
      assert short[..k] == msgs[..k];
    } else {
      assert msgs[..k] == msgs;
    }
  }

  lemma FailureStays(t: Tables, m: SubMsg)
    ensures t.Failed? ==> Receive(t, m).Failed?
  {
    if m.Batch? && t.Failed? {
      InstallFails(m.entries);
    }
  }

  lemma {:induction false} InstallFails(es: seq<Entry>)
    ensures InstallAll(Failed, es).Failed?
  {
    if es != [] {
      InstallFails(es[..|es| - 1]);
    }
  }

  /** However far a subscriber has read its control messages, none failed. Having read them all, its two tables lead
      back to each other and hold exactly the broker's list for it. */
  lemma SubscriberAgreesWithBroker(events: seq<Event>, s: nat, k: nat)
    requires FromStart(events).Ok? && s in FromStart(events).b.toSub && k <= |FromStart(events).b.toSub[s]|
    ensures var b := FromStart(events).b;
            && s in b.attached && Mapped(b.shm, b.space, b.attached[s]) && ReceiveAll(b.toSub[s][..k]).Tables?
            && Match(ReceiveAll(b.toSub[s]), Entries(b.shm, b.space, b.attached[s]))
  {
    hide FromStart, ReceiveAll, RolesOk, LoopOk, PubsOk, SubsOk, CountsOk, HandshakesOk;
    var b := FromStart(events).b;
    ReceivePrefix(b.toSub[s], k);
  }

  // ---------- Attachment ids ----------

  /** Attachments are old ones or have ids no attachment had before. */
  ghost predicate FreshIds(b: Broker, c: Broker) {
    && b.nextId <= c.nextId
    && forall s, i: nat | s in c.attached && i < |c.attached[s]| :: KnownOrFresh(b, s, c.attached[s][i])
  }

  predicate KnownOrFresh(b: Broker, s: nat, a: Attachment) {
    (s in b.attached && a in b.attached[s]) || b.nextId <= a.id
  }

  lemma FreshAdds(b: Broker, c: Broker, d: Broker)
    requires FreshIds(b, c) && FreshIds(c, d)
    ensures FreshIds(b, d)
  {
    forall s, i: nat | s in d.attached && i < |d.attached[s]|
      ensures KnownOrFresh(b, s, d.attached[s][i])
    {
      var a := d.attached[s][i];
      assert KnownOrFresh(c, s, a);
      if s in c.attached && a in c.attached[s] {
        var j: nat :| j < |c.attached[s]| && c.attached[s][j] == a;
        assert KnownOrFresh(b, s, c.attached[s][j]);
      }
    }
  }

  lemma FreshAttach(b: Broker, s: nat, t: nat, p: nat)
    ensures Attach(b, s, t, p).Ok? ==> FreshIds(b, Attach(b, s, t, p).b)
  {
  }

  lemma {:induction false} FreshAttachPublishers(b: Broker, s: nat, t: nat, ps: seq<nat>)
    ensures AttachPublishers(b, s, t, ps).Ok? ==> FreshIds(b, AttachPublishers(b, s, t, ps).b)
    decreases |ps|
  {
    if ps != [] {
      hide FreshIds, Attach;
      FreshAttach(b, s, t, ps[0]);
      if Attach(b, s, t, ps[0]).Ok? {
        var b1 := Attach(b, s, t, ps[0]).b;
        FreshAttachPublishers(b1, s, t, ps[1..]);
        if AttachPublishers(b1, s, t, ps[1..]).Ok? {
          FreshAdds(b, b1, AttachPublishers(b1, s, t, ps[1..]).b);
        }
      }
    }
  }

  lemma {:induction false} FreshAttachTopics(b: Broker, s: nat, ts: seq<nat>)
    ensures AttachTopics(b, s, ts).Ok? ==> FreshIds(b, AttachTopics(b, s, ts).b)
    decreases |ts|
  {
    if ts != [] {
      var b1 := b.(subs := b.subs[ts[0] := Listed(b.subs, ts[0]) + [s]]);
      assert FreshIds(b, b1);
      hide FreshIds, AttachPublishers;
      FreshAttachPublishers(b1, s, ts[0], Listed(b.pubs, ts[0]));
      if AttachPublishers(b1, s, ts[0], Listed(b.pubs, ts[0])).Ok? {
        var b2 := AttachPublishers(b1, s, ts[0], Listed(b.pubs, ts[0])).b;
        FreshAdds(b, b1, b2);
        FreshAttachTopics(b2, s, ts[1..]);
        if AttachTopics(b2, s, ts[1..]).Ok? {
          FreshAdds(b, b2, AttachTopics(b2, s, ts[1..]).b);
        }
      }
    }
  }

  lemma FreshAttachAndSend(b: Broker, s: nat, t: nat, p: nat)
    ensures AttachAndSend(b, s, t, p).Ok? ==> FreshIds(b, AttachAndSend(b, s, t, p).b)
  {
    FreshAttach(b, s, t, p);
    hide Attach;
  }

  lemma {:induction false} FreshAttachSubscribers(b: Broker, p: nat, t: nat, ss: seq<nat>)
    ensures AttachSubscribers(b, p, t, ss).Ok? ==> FreshIds(b, AttachSubscribers(b, p, t, ss).b)
    decreases |ss|
  {
    if ss != [] {
      hide FreshIds, AttachAndSend;
      FreshAttachAndSend(b, ss[0], t, p);
      if AttachAndSend(b, ss[0], t, p).Ok? {
        var b1 := AttachAndSend(b, ss[0], t, p).b;
        FreshAttachSubscribers(b1, p, t, ss[1..]);
        if AttachSubscribers(b1, p, t, ss[1..]).Ok? {
          FreshAdds(b, b1, AttachSubscribers(b1, p, t, ss[1..]).b);
        }
      }
    }
  }

  lemma {:induction false} FreshDetachSubscribers(b: Broker, p: nat, ss: seq<nat>)
    ensures DetachSubscribers(b, p, ss).Ok? ==> FreshIds(b, DetachSubscribers(b, p, ss).b)
    decreases |ss|
  {
    if ss != [] {
      var s := ss[0];
      if s in b.attached && s in b.toSub && OfPublisher(b.attached[s], p) > 0 {
        FreshDetached(b, p, s);
        hide FreshIds, Detached, FirstOf, Without;
        DetachedNext(b, p, ss);
        var b1 := Detached(b, p, s);
        FreshDetachSubscribers(b1, p, ss[1..]);
        if DetachSubscribers(b1, p, ss[1..]).Ok? {
          FreshAdds(b, b1, DetachSubscribers(b1, p, ss[1..]).b);
        }
      }
    }
  }

  lemma DetachedNext(b: Broker, p: nat, ss: seq<nat>)
    requires ss != [] && ss[0] in b.attached && ss[0] in b.toSub && OfPublisher(b.attached[ss[0]], p) > 0
    ensures DetachSubscribers(b, p, ss) == DetachSubscribers(Detached(b, p, ss[0]), p, ss[1..])
  {
  }

  lemma FreshDetached(b: Broker, p: nat, s: nat)
    requires s in b.attached && s in b.toSub && OfPublisher(b.attached[s], p) > 0
    ensures FreshIds(b, Detached(b, p, s))
  {
    WithoutAt(b.attached[s], FirstOf(b.attached[s], p));
    hide Without, FirstOf;
  }

  lemma {:induction false} FreshReleaseAll(b: Broker, s: nat, atts: seq<Attachment>)
    requires s in b.attached && b.attached[s] == atts
    ensures ReleaseAll(b, s, atts).Ok? ==> FreshIds(b, ReleaseAll(b, s, atts).b)
    decreases |atts|
  {
    if atts != [] && atts[0].pub in b.toPub && (atts[0].topic, atts[0].pub) in b.free {
      assert FreshIds(b, Released(b, s));
      hide FreshIds, PushSlot;
      FreshReleaseAll(Released(b, s), s, atts[1..]);
      if ReleaseAll(Released(b, s), s, atts[1..]).Ok? {
        FreshAdds(b, Released(b, s), ReleaseAll(Released(b, s), s, atts[1..]).b);
      }
    }
  }

  lemma SameAttachments(b: Broker, c: Broker)
    requires c.nextId == b.nextId && forall s | s in c.attached ::
      c.attached[s] == [] || (s in b.attached && c.attached[s] == b.attached[s])
    ensures FreshIds(b, c)
  {
  }

  lemma FreshRegisterSubscriber(b: Broker, s: nat, ts: seq<nat>)
    ensures RegisterSubscriber(b, s, ts).Ok? ==> FreshIds(b, RegisterSubscriber(b, s, ts).b)
  {
    hide FreshIds, AttachTopics, Entries;
    var b1 := b.(topics := b.topics[s := ts], role := b.role[s := Subscriber],
                 attached := b.attached[s := []], toSub := b.toSub[s := []]);
    SameAttachments(b, b1);
    FreshAttachTopics(b1, s, ts);
    if RegisterSubscriber(b, s, ts).Ok? {
      var b2 := AttachTopics(b1, s, ts).b;
      SameAttachments(b2, RegisterSubscriber(b, s, ts).b);
      FreshAdds(b, b1, b2);
      FreshAdds(b, b2, RegisterSubscriber(b, s, ts).b);
    }
  }

  lemma FreshRegisterPublisher(b: Broker, p: nat, t: nat, shm: nat, space: nat)
    ensures RegisterPublisher(b, p, t, shm, space).Ok? ==> FreshIds(b, RegisterPublisher(b, p, t, shm, space).b)
  {
    hide FreshIds, AttachSubscribers;
    var b1 := WithPublisher(b, p, t, shm, space);
    SameAttachments(b, b1);
    FreshAttachSubscribers(b1, p, t, Listed(b.subs, t));
    if RegisterPublisher(b, p, t, shm, space).Ok? {
      var b2 := AttachSubscribers(b1, p, t, Listed(b.subs, t)).b;
      SameAttachments(b2, RegisterPublisher(b, p, t, shm, space).b);
      FreshAdds(b, b1, b2);
      FreshAdds(b, b2, RegisterPublisher(b, p, t, shm, space).b);
    }
  }

  lemma FreshSubscriberLeaves(b: Broker, s: nat)
    ensures SubscriberLeaves(b, s).Ok? ==> FreshIds(b, SubscriberLeaves(b, s).b)
  {
    hide FreshIds, ReleaseAll, Unsubscribe;
    if SubscriberLeaves(b, s).Ok? {
      FreshReleaseAll(b, s, b.attached[s]);
      var b1 := ReleaseAll(b, s, b.attached[s]).b;
      SameAttachments(b1, SubscriberLeaves(b, s).b);
      FreshAdds(b, b1, SubscriberLeaves(b, s).b);
    }
  }

  lemma FreshPublisherLeaves(b: Broker, p: nat)
    ensures PublisherLeaves(b, p).Ok? ==> FreshIds(b, PublisherLeaves(b, p).b)
  {
    hide FreshIds, DetachSubscribers, RemoveFirst;
    if PublisherLeaves(b, p).Ok? {
      var t := TopicListing(b.pubs, p);
      var b1 := b.(toPub := b.toPub - {p}, free := b.free - {(t, p)}, topicOf := b.topicOf - {p});
      SameAttachments(b, b1);
      FreshDetachSubscribers(b1, p, Listed(b.subs, t));
      var b2 := DetachSubscribers(b1, p, Listed(b.subs, t)).b;
      SameAttachments(b2, PublisherLeaves(b, p).b);
      FreshAdds(b, b1, b2);
      FreshAdds(b, b2, PublisherLeaves(b, p).b);
    }
  }

  lemma {:induction false} FreshRun(b: Broker, events: seq<Event>)
    requires Inv(b)
    ensures Run(b, events).Ok? ==> FreshIds(b, Run(b, events).b)
    decreases |events|
  {
    hide Inv, FreshIds, RegisterSubscriber, RegisterPublisher, SubscriberLeaves, PublisherLeaves;
    if events == [] {
      SameAttachments(b, b);
    } else if !Enabled(b, events[0]) {
      FreshRun(b, events[1..]);
    } else {
      var e := events[0];
      HandleKeeps(b, e);
      if Handle(b, e).Ok? {
        match e {
          case SubscriberRegisters(s, ts) => FreshRegisterSubscriber(b, s, ts);
          case PublisherRegisters(p, t, shm, space) => FreshRegisterPublisher(b, p, t, shm, space);
          case Disconnects(fd) => FreshSubscriberLeaves(b, fd); FreshPublisherLeaves(b, fd);
        }
        FreshRun(Handle(b, e).b, events[1..]);
        if Run(b, events).Ok? {
          FreshAdds(b, Handle(b, e).b, Run(b, events).b);
        }
      }
    }
  }

  lemma ListedIds(b: Broker, s: nat, i: nat)
    requires Inv(b) && s in b.attached && i < |b.attached[s]|
    ensures 1 <= b.attached[s][i].id < b.nextId < ID_LIMIT
  {
    hide RolesOk, SubReplayOk, PubsOk, SubsOk, CountsOk, HandshakesOk, FreeOk, SlotsOk, HeldOk, TopicsOk, PubReplayOk,
         UniqueOk;
    assert ListIds(b.attached[s], b.nextId, b.nextEvent);
  }

  lemma OneOfAKind(b: Broker, s: nat, i: nat, x: nat, j: nat)
    requires Inv(b) && s in b.attached && i < |b.attached[s]| && x in b.attached && j < |b.attached[x]|
    requires Alike(b.attached[s][i], b.attached[x][j])
    ensures s == x && i == j
  {
    hide RolesOk, SubReplayOk, PubsOk, SubsOk, CountsOk, HandshakesOk, FreeOk, SlotsOk, HeldOk, TopicsOk, PubReplayOk,
         IdsOk;
  }

  /** No two attachments of a reachable state - of one subscriber or two, made by one event or two - share an id or an
      event. */
  lemma IdsAreUnique(events: seq<Event>, s: nat, i: nat, x: nat, j: nat)
    requires FromStart(events).Ok?
    requires var b := FromStart(events).b;
             s in b.attached && i < |b.attached[s]| && x in b.attached && j < |b.attached[x]| && (s != x || i != j)
    ensures var a, c := FromStart(events).b.attached[s][i], FromStart(events).b.attached[x][j];
            a.id != c.id && a.event != c.event
  {
    hide FromStart, Inv;
    var b := FromStart(events).b;
    if Alike(b.attached[s][i], b.attached[x][j]) {
      OneOfAKind(b, s, i, x, j);
    }
  }

  /** Attachment ids never repeat: of two attachments found in any two states of a run, or in one, with the same id,
      the later is the earlier one, of the same subscriber. No id is 0 or 2^64 - 1, the values reserved for events that
      are no attachment's. */
  lemma IdsNeverRepeat(events: seq<Event>, more: seq<Event>, s: nat, i: nat, x: nat, j: nat)
    requires FromStart(events).Ok? && Run(FromStart(events).b, more).Ok?
    requires s in FromStart(events).b.attached && i < |FromStart(events).b.attached[s]|
    requires var c := Run(FromStart(events).b, more).b; x in c.attached && j < |c.attached[x]|
    ensures var earlier, later := FromStart(events).b.attached[s][i], Run(FromStart(events).b, more).b.attached[x][j];
            && 1 <= earlier.id < ID_LIMIT - 1
            && (earlier.id == later.id ==> s == x && earlier == later)
  {
    hide FromStart, Run, Inv;
    var b := FromStart(events).b;
    FreshRun(b, more);
    ListedIds(b, s, i);
    var later := Run(b, more).b.attached[x][j];
    assert KnownOrFresh(b, x, later);
    if later.id == b.attached[s][i].id {
      var k: nat :| k < |b.attached[x]| && b.attached[x][k] == later;
      OneOfAKind(b, s, i, x, k);
    }
  }
}

/** Which descriptors a subscriber is handed: those its publishers registered with. */
module BrokerDescriptors {
  import opened Layout
  import opened Broker
  import opened BrokerInvariant
  import opened BrokerRegisters
  import opened BrokerLeaves
  import opened BrokerRuns

  // ---------- What the loops of the handlers leave alone ----------

  ghost predicate SameDescriptors(b: Broker, c: Broker) {
    c.shm == b.shm && c.space == b.space && c.topicOf == b.topicOf
  }

  lemma {:induction false} PublishersLeave(b: Broker, s: nat, t: nat, ps: seq<nat>)
    ensures AttachPublishers(b, s, t, ps).Ok? ==> SameDescriptors(b, AttachPublishers(b, s, t, ps).b)
    decreases |ps|
  {
    if ps != [] && Attach(b, s, t, ps[0]).Ok? {
      PublishersLeave(Attach(b, s, t, ps[0]).b, s, t, ps[1..]);
    }
  }

  lemma {:induction false} TopicsLeave(b: Broker, s: nat, ts: seq<nat>)
    ensures AttachTopics(b, s, ts).Ok? ==> SameDescriptors(b, AttachTopics(b, s, ts).b)
    decreases |ts|
  {
    hide AttachPublishers;
    if ts != [] {
      var b1 := b.(subs := b.subs[ts[0] := Listed(b.subs, ts[0]) + [s]]);
      PublishersLeave(b1, s, ts[0], Listed(b.pubs, ts[0]));
      if AttachPublishers(b1, s, ts[0], Listed(b.pubs, ts[0])).Ok? {
        TopicsLeave(AttachPublishers(b1, s, ts[0], Listed(b.pubs, ts[0])).b, s, ts[1..]);
      }
    }
  }

  lemma SendingLeaves(b: Broker, s: nat, t: nat, p: nat)
    ensures AttachAndSend(b, s, t, p).Ok? ==> SameDescriptors(b, AttachAndSend(b, s, t, p).b)
  {
    hide Entries;
  }

  lemma {:induction false} SubscribersLeave(b: Broker, p: nat, t: nat, ss: seq<nat>)
    ensures AttachSubscribers(b, p, t, ss).Ok? ==> SameDescriptors(b, AttachSubscribers(b, p, t, ss).b)
    decreases |ss|
  {
    hide AttachAndSend;
    if ss != [] {
      SendingLeaves(b, ss[0], t, p);
      if AttachAndSend(b, ss[0], t, p).Ok? {
        SubscribersLeave(AttachAndSend(b, ss[0], t, p).b, p, t, ss[1..]);
      }
    }
  }

  lemma {:induction false} ReleasingLeaves(b: Broker, s: nat, atts: seq<Attachment>)
    ensures ReleaseAll(b, s, atts).Ok? ==> SameDescriptors(b, ReleaseAll(b, s, atts).b)
    decreases |atts|
  {
    hide PushSlot, Drop;
    if atts != [] && atts[0].pub in b.toPub && (atts[0].topic, atts[0].pub) in b.free {
      var a := atts[0];
      ReleasingLeaves(
        b.(toPub := b.toPub[a.pub := b.toPub[a.pub] + [SubscriberGone(a.slot)]],
           free := b.free[(a.topic, a.pub) := PushSlot(b.free[(a.topic, a.pub)], a.slot)],
           attached := b.attached[s := atts[1..]],
           occ := Drop(b.occ, a.pub, a.slot)), s, atts[1..]);
    }
  }

  lemma {:induction false} DetachingLeaves(b: Broker, p: nat, ss: seq<nat>)
    ensures DetachSubscribers(b, p, ss).Ok? ==> SameDescriptors(b, DetachSubscribers(b, p, ss).b)
    decreases |ss|
  {
    if ss != [] && ss[0] in b.attached && ss[0] in b.toSub && OfPublisher(b.attached[ss[0]], p) > 0 {
      hide Detached, FirstOf, Without;
      DetachedNext(b, p, ss);
      DetachedLeaves(b, p, ss[0]);
      hide DetachSubscribers;
      DetachingLeaves(Detached(b, p, ss[0]), p, ss[1..]);
    }
  }

  lemma DetachedLeaves(b: Broker, p: nat, s: nat)
    requires s in b.attached && s in b.toSub && OfPublisher(b.attached[s], p) > 0
    ensures SameDescriptors(b, Detached(b, p, s))
  {
    hide FirstOf, Without;
  }

  // ---------- What an event does ----------

  /** A publisher connected after the event is the one it was, with the same descriptors, or has just registered. */
  ghost predicate FromEvent(b: Broker, e: Event, c: Broker) {
    forall p | p in c.topicOf ::
      && p in c.shm && p in c.space
      && if e.PublisherRegisters? && e.p == p
         then c.topicOf[p] == e.t && c.shm[p] == e.shm && c.space[p] == e.space
         else p in b.topicOf && p in b.shm && p in b.space
              && c.topicOf[p] == b.topicOf[p] && c.shm[p] == b.shm[p] && c.space[p] == b.space[p]
  }

  lemma KnownPublishers(b: Broker)
    requires Inv(b)
    ensures forall p | p in b.topicOf :: p in b.shm && p in b.space && p in b.role
  {
    hide LoopOk, SubReplayOk, PubsOk, SubsOk, CountsOk, HandshakesOk;
  }

  lemma SubscriberRegistersSame(b: Broker, s: nat, ts: seq<nat>)
    ensures RegisterSubscriber(b, s, ts).Ok? ==> SameDescriptors(b, RegisterSubscriber(b, s, ts).b)
  {
    hide AttachTopics, Entries;
    TopicsLeave(b.(topics := b.topics[s := ts], role := b.role[s := Subscriber], attached := b.attached[s := []],
                   toSub := b.toSub[s := []]), s, ts);
  }

  lemma SubscriberLeavesSame(b: Broker, s: nat)
    ensures SubscriberLeaves(b, s).Ok? ==> SameDescriptors(b, SubscriberLeaves(b, s).b)
  {
    hide ReleaseAll, Unsubscribe;
    if s in b.attached && s in b.topics {
      ReleasingLeaves(b, s, b.attached[s]);
    }
  }

  lemma PublisherRegistersIts(b: Broker, p: nat, t: nat, shm: nat, space: nat)
    ensures var o := RegisterPublisher(b, p, t, shm, space);
            o.Ok? ==>
              o.b.shm == b.shm[p := shm] && o.b.space == b.space[p := space] && o.b.topicOf == b.topicOf[p := t]
  {
    hide AttachSubscribers;
    SubscribersLeave(WithPublisher(b, p, t, shm, space), p, t, Listed(b.subs, t));
  }

  lemma PublisherLeavesIts(b: Broker, p: nat)
    ensures var o := PublisherLeaves(b, p);
            o.Ok? ==> o.b.shm == b.shm - {p} && o.b.space == b.space - {p} && o.b.topicOf == b.topicOf - {p}
  {
    hide DetachSubscribers, RemoveFirst;
    if PublisherLeaves(b, p).Ok? {
      var t := TopicListing(b.pubs, p);
      DetachingLeaves(b.(toPub := b.toPub - {p}, free := b.free - {(t, p)}, topicOf := b.topicOf - {p}), p,
                      Listed(b.subs, t));
    }
  }

  lemma EventDescribes(b: Broker, e: Event)
    requires Inv(b) && Enabled(b, e) && Handle(b, e).Ok?
    ensures FromEvent(b, e, Handle(b, e).b)
  {
    hide Inv, RegisterSubscriber, RegisterPublisher, SubscriberLeaves, PublisherLeaves;
    KnownPublishers(b);
    match e
    case SubscriberRegisters(s, ts) => SubscriberRegistersSame(b, s, ts);
    case PublisherRegisters(p, t, shm, space) => PublisherRegistersIts(b, p, t, shm, space);
    case Disconnects(fd) => SubscriberLeavesSame(b, fd); PublisherLeavesIts(b, fd);
  }

  // ---------- Over whole runs ----------

  /** What the last event makes of the run before it. */
  ghost function AndThen(o: Outcome, e: Event): Outcome
    requires o.Ok? ==> Inv(o.b)
  {
    if !o.Ok? || !Enabled(o.b, e) then o else Handle(o.b, e)
  }

  lemma {:induction false} RunSnoc(b: Broker, events: seq<Event>)
    requires Inv(b) && events != []
    ensures Run(b, events) == AndThen(Run(b, events[..|events| - 1]), events[|events| - 1])
    decreases |events|
  {
    hide Inv, Handle;
    if |events| == 1 {
      assert events[1..] == [] && events[..0] == [];
      OneEvent(b, events[0], []);
    } else {
      assert events[1..][..|events| - 2] == events[..|events| - 1][1..];
      if !Enabled(b, events[0]) {
        RunSnoc(b, events[1..]);
      } else {
        HandleKeeps(b, events[0]);
        if Handle(b, events[0]).Ok? {
          RunSnoc(Handle(b, events[0]).b, events[1..]);
        }
      }
    }
  }

  lemma OneEvent(b: Broker, e: Event, none: seq<Event>)
    requires Inv(b) && none == []
    ensures Run(b, none) == Ok(b)
    ensures Run(b, [e] + none) == AndThen(Ok(b), e)
  {
    hide Inv, Handle;
    assert ([e] + none)[1..] == none;
    if Enabled(b, e) {
      HandleKeeps(b, e);
    }
  }

  /** Event `k` of the run is the registration with which publisher `p`, still connected, came: the connection was not
      in use before it and has been ever since. */
  ghost predicate CameWith(events: seq<Event>, k: nat, p: nat) {
    && k < |events| && events[k].PublisherRegisters? && events[k].p == p
    && FromStart(events[..k]).Ok? && p !in FromStart(events[..k]).b.role
    && forall j: nat | k < j <= |events| :: ConnectedAfter(events, j, p)
  }

  ghost predicate ConnectedAfter(events: seq<Event>, j: nat, p: nat)
    requires j <= |events|
  {
    FromStart(events[..j]).Ok? && p in FromStart(events[..j]).b.role
  }

  /** What is stored for a connected publisher is what its registration brought. */
  lemma {:induction false} StoredIsRegistered(events: seq<Event>, p: nat) returns (k: nat)
    requires FromStart(events).Ok? && p in FromStart(events).b.topicOf
    ensures CameWith(events, k, p)
    ensures var b, e := FromStart(events).b, events[k];
            && p in b.shm && p in b.space
            && b.topicOf[p] == e.t && b.shm[p] == e.shm && b.space[p] == e.space
    decreases |events|
  {
    hide Inv, Run, Handle;
    InitOk();
    KnownPublishers(FromStart(events).b);
    if events == [] {
      OneEvent(Init(), Disconnects(0), events);
      assert false;
    } else {
      var n := |events| - 1;
      var before, e := events[..n], events[n];
      RunSnoc(Init(), events);
      var b := FromStart(before).b;
      if Enabled(b, e) {
        EventDescribes(b, e);
      }
      if Enabled(b, e) && e.PublisherRegisters? && e.p == p {
        k := n;
        Stays(events, before, k, p);
      } else {
        k := StoredIsRegistered(before, p);
        Stays(events, before, k, p);
      }
    }
  }

  lemma SameUpTo(events: seq<Event>, before: seq<Event>, j: nat, p: nat)
    requires events != [] && before == events[..|events| - 1] && j <= |before|
    ensures events[..j] == before[..j] && (ConnectedAfter(events, j, p) <==> ConnectedAfter(before, j, p))
  {
    hide FromStart, Inv;
    assert events[..j] == before[..j];
  }

  lemma ConnectedNow(events: seq<Event>, p: nat)
    requires FromStart(events).Ok? && p in FromStart(events).b.role
    ensures ConnectedAfter(events, |events|, p)
  {
    hide FromStart, Inv;
    assert events[..|events|] == events;
  }

  lemma Stays(events: seq<Event>, before: seq<Event>, k: nat, p: nat)
    requires events != [] && before == events[..|events| - 1] && FromStart(events).Ok? && p in FromStart(events).b.role
    requires FromStart(before).Ok? && k <= |before| && events[k].PublisherRegisters? && events[k].p == p
    requires if k < |before| then CameWith(before, k, p) else p !in FromStart(before).b.role
    ensures CameWith(events, k, p)
  {
    hide FromStart, ConnectedAfter, Inv;
    ConnectedNow(events, p);
    SameUpTo(events, before, k, p);
    assert before[..|before|] == before;
    forall j: nat | k < j <= |before|
      ensures ConnectedAfter(events, j, p)
    {
      SameUpTo(events, before, j, p);
    }
  }

  /** In every run: a subscriber that has read its control messages finds under each attachment's event exactly the two
      descriptors - the mapping, then the space event - and the topic its publisher registered with when it came. */
  lemma DescriptorsAreThePublishers(events: seq<Event>, s: nat, i: nat) returns (k: nat)
    requires FromStart(events).Ok? && s in FromStart(events).b.attached && i < |FromStart(events).b.attached[s]|
    ensures CameWith(events, k, FromStart(events).b.attached[s][i].pub)
    ensures var b := FromStart(events).b;
            var a := b.attached[s][i];
            && s in b.toSub && ReceiveAll(b.toSub[s]).Tables?
            && a.event in ReceiveAll(b.toSub[s]).attachmentByEvent
            && var got := ReceiveAll(b.toSub[s]).attachmentByEvent[a.event];
            && got.att == a && got.shm == events[k].shm && got.space == events[k].space && a.topic == events[k].t
  {
    hide FromStart, Inv, ReceiveAll, CameWith;
    var b := FromStart(events).b;
    EntryThere(b, s, i);
    k := StoredIsRegistered(events, b.attached[s][i].pub);
  }

  lemma EntryThere(b: Broker, s: nat, i: nat)
    requires Inv(b) && s in b.attached && i < |b.attached[s]|
    ensures var a := b.attached[s][i];
            && s in b.toSub && a.pub in b.topicOf && a.topic == b.topicOf[a.pub] && a.pub in b.shm && a.pub in b.space
            && ReceiveAll(b.toSub[s]).Tables? && a.event in ReceiveAll(b.toSub[s]).attachmentByEvent
            && ReceiveAll(b.toSub[s]).attachmentByEvent[a.event] == Entry(a, b.shm[a.pub], b.space[a.pub])
  {
    hide FreeOk, SlotsOk, HeldOk, IdsOk, UniqueOk, PubReplayOk, PubsOk, SubsOk, CountsOk, HandshakesOk, ReceiveAll,
         RoleMap;
    var es := Entries(b.shm, b.space, b.attached[s]);
    assert es[i] == EntryOf(b.shm, b.space, b.attached[s][i]);
    assert es[i].att.event in ReceiveAll(b.toSub[s]).attachmentByEvent;
  }
}

/** Which registrations the broker accepts: the exact conditions, in what a caller can count. */
module BrokerLimits {
  import opened Layout
  import opened Broker
  import opened BrokerInvariant
  import opened BrokerRegisters
  import opened BrokerRuns
  import opened BrokerDescriptors

  // ---------- Free slots and listed subscribers ----------

  function Elements(xs: seq<nat>): set<nat> {
    set i: nat | i < |xs| :: xs[i]
  }

  lemma {:induction false} AscendingCount(xs: seq<nat>)
    requires Ascending(xs)
    ensures |Elements(xs)| == |xs|
  {
    if xs != [] {
      var short, last := xs[..|xs| - 1], xs[|xs| - 1];
      AscendingCount(short);
      assert last !in Elements(short);
      assert Elements(xs) == Elements(short) + {last} by {
        forall x | x in Elements(xs)
          ensures x in Elements(short) + {last}
        {
          var i: nat :| i < |xs| && xs[i] == x;
          assert i < |short| ==> short[i] == x;
        }
        forall x | x in Elements(short) + {last}
          ensures x in Elements(xs)
        {
          assert x == last ==> xs[|xs| - 1] == x;
        }
      }
    }
  }

  lemma SlotNumbers()
    ensures |Elements(AllSlots())| == 16
    ensures forall x: nat :: x in Elements(AllSlots()) <==> x < 16
  {
    AllSlotsFree(map[]);
    AscendingCount(AllSlots());
    hide AllSlots;
    forall x: nat
      ensures x in Elements(AllSlots()) <==> x in AllSlots()
    {
    }
  }

  /** A publisher's free and taken slots add up to sixteen. */
  lemma FreePlusTaken(free: seq<nat>, taken: map<nat, Holder>)
    requires Partition(free, taken)
    ensures |free| + |taken.Keys| == 16
  {
    AscendingCount(free);
    SlotNumbers();
    hide AllSlots;
    forall x: nat
      ensures x in Elements(free) <==> x in free
    {
    }
    assert Elements(AllSlots()) == Elements(free) + taken.Keys;
    assert Elements(free) !! taken.Keys;
  }

  /** The slots subscriber `s` holds. */
  function SlotsOf(taken: map<nat, Holder>, s: nat): set<nat> {
    set slot | slot in taken && taken[slot].sub == s
  }

  /** As many slots are taken as a list is long that names each holder once per slot. */
  lemma {:induction false} TakenPerHolder(taken: map<nat, Holder>, ss: seq<nat>)
    requires forall s: nat :: |SlotsOf(taken, s)| == Occurrences(ss, s)
    ensures |taken.Keys| == |ss|
    decreases |ss|
  {
    if ss == [] {
      if slot :| slot in taken {
        HolderHolds(taken, slot);
      }
      assert taken.Keys == {};
    } else {
      var s := ss[0];
      assert |SlotsOf(taken, s)| > 0;
      var slot :| slot in SlotsOf(taken, s);
      var rest := taken - {slot};
      forall x: nat
        ensures |SlotsOf(rest, x)| == Occurrences(ss[1..], x)
      {
        assert |SlotsOf(taken, x)| == Occurrences(ss, x);
        OneSlotLess(taken, slot, x);
      }
      TakenPerHolder(rest, ss[1..]);
      assert taken.Keys == rest.Keys + {slot};
    }
  }

  lemma HolderHolds(taken: map<nat, Holder>, slot: nat)
    requires slot in taken
    ensures |SlotsOf(taken, taken[slot].sub)| > 0
  {
    assert slot in SlotsOf(taken, taken[slot].sub);
  }

  lemma OneSlotLess(taken: map<nat, Holder>, slot: nat, x: nat)
    requires slot in taken
    ensures |SlotsOf(taken - {slot}, x)| == |SlotsOf(taken, x)| - if taken[slot].sub == x then 1 else 0
  {
    assert SlotsOf(taken - {slot}, x) == SlotsOf(taken, x) - {slot};
  }

  /** The slots of publisher `p` named in a list of attachments. */
  function SlotsIn(atts: seq<Attachment>, p: nat): set<nat> {
    if atts == [] then {} else SlotsIn(atts[1..], p) + if atts[0].pub == p then {atts[0].slot} else {}
  }

  ghost predicate Names(atts: seq<Attachment>, p: nat, slot: nat) {
    exists i: nat :: i < |atts| && IsOn(atts[i], p, slot)
  }

  lemma {:induction false} InSlots(atts: seq<Attachment>, p: nat, slot: nat)
    ensures slot in SlotsIn(atts, p) <==> Names(atts, p, slot)
  {
    if atts != [] {
      var rest := atts[1..];
      InSlots(rest, p, slot);
      if Names(rest, p, slot) {
        var i: nat :| i < |rest| && IsOn(rest[i], p, slot);
        assert IsOn(atts[i + 1], p, slot);
      }
      if Names(atts, p, slot) && !IsOn(atts[0], p, slot) {
        var i: nat :| i < |atts| && IsOn(atts[i], p, slot);
        assert IsOn(rest[i - 1], p, slot);
      }
    }
  }

  ghost predicate OwnSlots(atts: seq<Attachment>, p: nat) {
    forall i, j | 0 <= i < j < |atts| && atts[i].pub == p && atts[j].pub == p :: atts[i].slot != atts[j].slot
  }

  lemma {:induction false} SlotsInCount(atts: seq<Attachment>, p: nat)
    requires OwnSlots(atts, p)
    ensures |SlotsIn(atts, p)| == OfPublisher(atts, p)
  {
    if atts != [] {
      SlotsInCount(atts[1..], p);
      if atts[0].pub == p {
        InSlots(atts[1..], p, atts[0].slot);
      }
    }
  }

  /** What a subscriber holds of a publisher is what its attachments name. */
  lemma HeldIsListed(b: Broker, s: nat, p: nat)
    requires HeldOk(b.attached, b.occ) && IdsOk(b.attached, b.occ, b.nextId, b.nextEvent) && p in b.occ
    ensures |SlotsOf(b.occ[p], s)| == if s in b.attached then OfPublisher(b.attached[s], p) else 0
  {
    forall slot | slot in SlotsOf(b.occ[p], s)
      ensures s in b.attached && Names(b.attached[s], p, slot)
    {
      assert HeldBy(b.attached, p, slot, b.occ[p][slot]);
      var i: nat :| i < |b.attached[s]| && IsAt(b.attached[s][i], p, slot, b.occ[p][slot]);
      assert IsOn(b.attached[s][i], p, slot);
    }
    if s in b.attached {
      NamesItsOwn(b, s, p);
      forall slot: nat
        ensures slot in SlotsIn(b.attached[s], p) <==> slot in SlotsOf(b.occ[p], s)
      {
        InSlots(b.attached[s], p, slot);
      }
      assert SlotsOf(b.occ[p], s) == SlotsIn(b.attached[s], p);
    } else {
      assert SlotsOf(b.occ[p], s) == {};
    }
  }

  lemma NamesItsOwn(b: Broker, s: nat, p: nat)
    requires HeldOk(b.attached, b.occ) && IdsOk(b.attached, b.occ, b.nextId, b.nextEvent)
    requires p in b.occ && s in b.attached
    ensures |SlotsIn(b.attached[s], p)| == OfPublisher(b.attached[s], p)
    ensures forall slot | Names(b.attached[s], p, slot) :: slot in SlotsOf(b.occ[p], s)
  {
    var atts := b.attached[s];
    assert ListIds(atts, b.nextId, b.nextEvent);
    forall i: nat | i < |atts|
      ensures Holds(b.occ, s, atts[i])
    {
    }
    SlotsInCount(atts, p);
  }

  /** Between events a publisher has a free slot less for each entry of its topic's list of subscribers. */
  lemma FreeIsSixteenLess(b: Broker, p: nat)
    requires Inv(b) && p in b.topicOf
    ensures (b.topicOf[p], p) in b.free && |b.free[(b.topicOf[p], p)]| == 16 - |Listed(b.subs, b.topicOf[p])|
  {
    hide SubReplayOk, PubsOk, HandshakesOk, PubReplayOk, UniqueOk, TopicsOk, HeldOk, IdsOk, Partition, RoleMap;
    var t := b.topicOf[p];
    FreePlusTaken(b.free[(t, p)], b.occ[p]);
    forall s: nat
      ensures |SlotsOf(b.occ[p], s)| == Occurrences(Listed(b.subs, t), s)
    {
      HeldIsListed(b, s, p);
      assert Occurrences(Listed(b.subs, t), s) == TopicCount(b.topics, s, t);
    }
    TakenPerHolder(b.occ[p], Listed(b.subs, t));
  }

  // ---------- One attach ----------

  /** Whether, and with what effect on slots and ids, one more attachment is made. */
  lemma AttachIff(b: Broker, s: nat, t: nat, p: nat)
    requires LoopOk(b, b.topicOf) && s in b.attached && p in b.topicOf && b.topicOf[p] == t
    ensures (t, p) in b.free
    ensures Attach(b, s, t, p).Ok? <==> b.free[(t, p)] != [] && b.nextId + 1 < 0x1_0000_0000_0000_0000
    ensures Attach(b, s, t, p).Ok? ==> Counted(b, Attach(b, s, t, p).b, s, t, [p])
  {
    hide SlotsOk, HeldOk, IdsOk, UniqueOk, TopicsOk, PubReplayOk, Take;
    forall q: nat
      ensures Occurrences([p], q) == if p == q then 1 else 0
    {
      assert [p][1..] == [];
    }
  }

  /** Subscriber `s` gained an attachment to each of the publishers `ps`, each from its own free slots. */
  ghost predicate Counted(b: Broker, c: Broker, s: nat, t: nat, ps: seq<nat>) {
    && c.nextId == b.nextId + |ps| && c.topicOf == b.topicOf && c.pubs == b.pubs
    && s in b.attached && s in c.attached && |c.attached[s]| == |b.attached[s]| + |ps|
    && c.free.Keys == b.free.Keys
    && forall k | k in b.free :: |c.free[k]| == |b.free[k]| - if k.0 == t then Occurrences(ps, k.1) else 0
  }

  lemma {:induction false} AttachPublishersIff(b: Broker, s: nat, t: nat, ps: seq<nat>)
    requires LoopOk(b, b.topicOf) && s in b.attached && NoRepeats(ps)
    requires forall i: nat | i < |ps| :: ps[i] in b.topicOf && b.topicOf[ps[i]] == t
    ensures forall p | p in ps :: (t, p) in b.free
    ensures AttachPublishers(b, s, t, ps).Ok? <==>
      (forall p | p in ps :: b.free[(t, p)] != []) && b.nextId + |ps| < 0x1_0000_0000_0000_0000
    ensures AttachPublishers(b, s, t, ps).Ok? ==> Counted(b, AttachPublishers(b, s, t, ps).b, s, t, ps)
    decreases |ps|
  {
    hide LoopOk, Attach, Counted;
    LoopNextId(b);
    if ps != [] {
      AttachIff(b, s, t, ps[0]);
      AttachKeeps(b, s, t, ps[0]);
      if Attach(b, s, t, ps[0]).Ok? {
        var c := Attach(b, s, t, ps[0]).b;
        AttachPublishersIff(c, s, t, ps[1..]);
        OthersKeepTheirs(b, c, s, t, ps);
        if AttachPublishers(c, s, t, ps[1..]).Ok? {
          CountedMore(b, c, AttachPublishers(c, s, t, ps[1..]).b, s, t, ps);
        }
      }
    } else {
      NoneCounted(b, s, t, ps);
    }
  }

  lemma OthersKeepTheirs(b: Broker, c: Broker, s: nat, t: nat, ps: seq<nat>)
    requires ps != [] && NoRepeats(ps) && Counted(b, c, s, t, [ps[0]]) && (t, ps[0]) in b.free
    requires forall p | p in ps[1..] :: (t, p) in c.free
    ensures forall p | p in ps :: (t, p) in b.free
    ensures c.nextId == b.nextId + 1 && forall p | p in ps[1..] :: |c.free[(t, p)]| == |b.free[(t, p)]|
  {
    forall p | p in ps[1..]
      ensures (t, p) in b.free && |c.free[(t, p)]| == |b.free[(t, p)]|
    {
      var i: nat :| i < |ps[1..]| && ps[1..][i] == p;
      assert p != ps[0] && [ps[0]][1..] == [];
      var k := (t, p);
      assert k in b.free && k.0 == t && k.1 == p;
      assert Occurrences([ps[0]], p) == 0;
    }
  }

  lemma CountedMore(b: Broker, c: Broker, d: Broker, s: nat, t: nat, ps: seq<nat>)
    requires ps != [] && Counted(b, c, s, t, [ps[0]]) && Counted(c, d, s, t, ps[1..])
    ensures Counted(b, d, s, t, ps)
  {
    assert [ps[0]][1..] == [];
    forall k | k in b.free
      ensures |d.free[k]| == |b.free[k]| - if k.0 == t then Occurrences(ps, k.1) else 0
    {
      assert k in c.free && |c.free[k]| == |b.free[k]| - if k.0 == t then Occurrences([ps[0]], k.1) else 0;
    }
  }

  lemma NoneCounted(b: Broker, s: nat, t: nat, ps: seq<nat>)
    requires s in b.attached && ps == []
    ensures Counted(b, b, s, t, ps)
  {
  }

  lemma LoopNextId(b: Broker)
    requires LoopOk(b, b.topicOf)
    ensures b.nextId < 0x1_0000_0000_0000_0000
    ensures forall p | p in b.topicOf :: (b.topicOf[p], p) in b.free
  {
    hide SlotsOk, HeldOk, UniqueOk, TopicsOk, PubReplayOk;
  }

  // ---------- A subscriber's topics ----------

  /** How many attachments a subscriber of these topics is to have: one per publisher and repetition. */
  function Wanted(pubs: map<nat, seq<nat>>, ts: seq<nat>): nat {
    if ts == [] then 0 else |Listed(pubs, ts[0])| + Wanted(pubs, ts[1..])
  }

  /** Each publisher has a free slot for each time its topic is listed. */
  ghost predicate RoomFor(b: Broker, ts: seq<nat>) {
    forall p | p in b.topicOf :: HasRoom(b, p, Occurrences(ts, b.topicOf[p]))
  }

  predicate HasRoom(b: Broker, p: nat, n: nat) {
    p in b.topicOf && (b.topicOf[p], p) in b.free && n <= |b.free[(b.topicOf[p], p)]|
  }

  lemma {:induction false} AttachTopicsIff(b: Broker, s: nat, ts: seq<nat>)
    requires LoopOk(b, b.topicOf) && s in b.attached && PubsOk(b.pubs, b.topicOf)
    ensures AttachTopics(b, s, ts).Ok? <==>
      RoomFor(b, ts) && b.nextId + Wanted(b.pubs, ts) < 0x1_0000_0000_0000_0000
    ensures AttachTopics(b, s, ts).Ok? ==>
      var c := AttachTopics(b, s, ts).b;
      s in c.attached && |c.attached[s]| == |b.attached[s]| + Wanted(b.pubs, ts)
    decreases |ts|
  {
    hide LoopOk, AttachPublishers, PubsOk, RoomFor, Counted, Gained;
    LoopNextId(b);
    if ts == [] {
      NothingWanted(b, ts);
    } else {
      var b1 := b.(subs := b.subs[ts[0] := Listed(b.subs, ts[0]) + [s]]);
      var ps := Listed(b.pubs, ts[0]);
      SubsAside(b, b1.subs);
      ListedPublish(b.pubs, b.topicOf, ts[0]);
      ListedNoRepeats(b.pubs, b.topicOf, ts[0]);
      AttachPublishersIff(b1, s, ts[0], ps);
      AttachPublishersKeeps(b1, s, ts[0], ps);
      if AttachPublishers(b1, s, ts[0], ps).Ok? {
        var b2 := AttachPublishers(b1, s, ts[0], ps).b;
        RoomLeft(b, b1, b2, s, ts);
        AttachTopicsIff(b2, s, ts[1..]);
      } else if RoomFor(b, ts) {
        RoomForFirst(b, ts);
      }
    }
  }

  lemma NothingWanted(b: Broker, ts: seq<nat>)
    requires ts == [] && forall p | p in b.topicOf :: (b.topicOf[p], p) in b.free
    ensures RoomFor(b, ts)
  {
  }

  lemma ListedNoRepeats(pubs: map<nat, seq<nat>>, topicOf: map<nat, nat>, t: nat)
    requires PubsOk(pubs, topicOf)
    ensures NoRepeats(Listed(pubs, t))
  {
  }

  lemma RoomForFirst(b: Broker, ts: seq<nat>)
    requires ts != [] && PubsOk(b.pubs, b.topicOf) && RoomFor(b, ts)
    ensures forall p | p in Listed(b.pubs, ts[0]) :: (ts[0], p) in b.free && b.free[(ts[0], p)] != []
  {
    forall p | p in Listed(b.pubs, ts[0])
      ensures (ts[0], p) in b.free && b.free[(ts[0], p)] != []
    {
      assert HasRoom(b, p, Occurrences(ts, b.topicOf[p]));
    }
  }

  lemma RoomLeft(b: Broker, b1: Broker, c: Broker, s: nat, ts: seq<nat>)
    requires ts != [] && PubsOk(b.pubs, b.topicOf) && b1 == b.(subs := b1.subs)
    requires Counted(b1, c, s, ts[0], Listed(b.pubs, ts[0]))
    requires forall p | p in b.topicOf :: (b.topicOf[p], p) in b.free
    ensures RoomFor(b, ts) <==> RoomFor(c, ts[1..])
    ensures s in c.attached && |c.attached[s]| == |b.attached[s]| + |Listed(b.pubs, ts[0])|
    ensures c.nextId == b.nextId + |Listed(b.pubs, ts[0])| && c.pubs == b.pubs && c.topicOf == b.topicOf
  {
    hide PubsOk;
    forall p | p in b.topicOf
      ensures HasRoom(b, p, Occurrences(ts, b.topicOf[p])) <==> HasRoom(c, p, Occurrences(ts[1..], b.topicOf[p]))
    {
      var k := (b.topicOf[p], p);
      PublishersOfTopic(b.pubs, b.topicOf, ts[0], p);
      assert k in b1.free && k in c.free;
    }
  }

  // ---------- Which registrations end well ----------

  /** Every topic with a publisher has at most sixteen entries, with those the registering subscriber adds. */
  ghost predicate AtMostSixteen(b: Broker, ts: seq<nat>) {
    forall t | t in ts && Listed(b.pubs, t) != [] :: |Listed(b.subs, t)| + Occurrences(ts, t) <= 16
  }

  lemma RoomIsCounted(b: Broker, ts: seq<nat>)
    requires Inv(b)
    ensures RoomFor(b, ts) <==> AtMostSixteen(b, ts)
  {
    hide Inv, HasRoom;
    forall p | p in b.topicOf
      ensures HasRoom(b, p, Occurrences(ts, b.topicOf[p])) <==>
        |Listed(b.subs, b.topicOf[p])| + Occurrences(ts, b.topicOf[p]) <= 16
      ensures Listed(b.pubs, b.topicOf[p]) != []
      ensures |Listed(b.subs, b.topicOf[p])| <= 16
    {
      Room(b, p, Occurrences(ts, b.topicOf[p]));
    }
    if RoomFor(b, ts) {
      forall t | t in ts && Listed(b.pubs, t) != []
        ensures |Listed(b.subs, t)| + Occurrences(ts, t) <= 16
      {
        FirstPublishes(b, t);
        assert HasRoom(b, Listed(b.pubs, t)[0], Occurrences(ts, t));
      }
    }
    if AtMostSixteen(b, ts) {
      forall p | p in b.topicOf
        ensures HasRoom(b, p, Occurrences(ts, b.topicOf[p]))
      {
        if b.topicOf[p] !in ts {
          NotListed(ts, b.topicOf[p]);
        }
      }
    }
  }

  lemma Room(b: Broker, p: nat, n: nat)
    requires Inv(b) && p in b.topicOf
    ensures HasRoom(b, p, n) <==> |Listed(b.subs, b.topicOf[p])| + n <= 16
    ensures Listed(b.pubs, b.topicOf[p]) != [] && |Listed(b.subs, b.topicOf[p])| <= 16
  {
    hide RolesOk, LoopOk, SubReplayOk, SubsOk, CountsOk, HandshakesOk;
    FreeIsSixteenLess(b, p);
    assert p in b.pubs[b.topicOf[p]];
  }

  lemma FirstPublishes(b: Broker, t: nat)
    requires Inv(b) && Listed(b.pubs, t) != []
    ensures Listed(b.pubs, t)[0] in b.topicOf && b.topicOf[Listed(b.pubs, t)[0]] == t
  {
    hide RolesOk, LoopOk, SubReplayOk, SubsOk, CountsOk, HandshakesOk;
  }

  lemma {:induction false} NotListed(xs: seq<nat>, x: nat)
    requires x !in xs
    ensures Occurrences(xs, x) == 0
  {
    if xs != [] {
      NotListed(xs[1..], x);
    }
  }

  lemma OneMoreEvent(events: seq<Event>, e: Event)
    requires FromStart(events).Ok? && Enabled(FromStart(events).b, e)
    ensures FromStart(events + [e]) == Handle(FromStart(events).b, e)
  {
    hide Inv, Run, Handle;
    InitOk();
    assert (events + [e])[..|events|] == events;
    RunSnoc(Init(), events + [e]);
  }

  /** In every run: a subscriber's registration ends well if and only if it names one to five topics, its attachments
      are ten at most, no publisher is then listed more than sixteen times, and the ids suffice; otherwise the broker
      halts. It is then sent one batch with an entry per publisher and repetition. */
  lemma SubscriberIsAccepted(events: seq<Event>, s: nat, ts: seq<nat>)
    requires FromStart(events).Ok? && s !in FromStart(events).b.role
    ensures var b, o := FromStart(events).b, FromStart(events + [SubscriberRegisters(s, ts)]);
            && (o.Ok? <==> 1 <= |ts| <= 5 && Wanted(b.pubs, ts) <= 10 && AtMostSixteen(b, ts)
                           && b.nextId + Wanted(b.pubs, ts) < 0x1_0000_0000_0000_0000)
            && (o.Ok? ==> s in o.b.toSub && |o.b.toSub[s]| == 1 && o.b.toSub[s][0].Batch?
                          && |o.b.toSub[s][0].entries| == Wanted(b.pubs, ts))
  {
    hide FromStart, RegisterSubscriber, Inv;
    var b := FromStart(events).b;
    OneMoreEvent(events, SubscriberRegisters(s, ts));
    RegisterSubscriberIff(b, s, ts);
    RoomIsCounted(b, ts);
  }

  lemma RegisterSubscriberIff(b: Broker, s: nat, ts: seq<nat>)
    requires Inv(b) && s !in b.role
    ensures var o := RegisterSubscriber(b, s, ts);
            && (o.Ok? <==> 1 <= |ts| <= 5 && Wanted(b.pubs, ts) <= 10 && RoomFor(b, ts)
                           && b.nextId + Wanted(b.pubs, ts) < 0x1_0000_0000_0000_0000)
            && (o.Ok? ==> s in o.b.toSub && |o.b.toSub[s]| == 1 && o.b.toSub[s][0].Batch?
                          && |o.b.toSub[s][0].entries| == Wanted(b.pubs, ts))
  {
    hide RolesOk, LoopOk, AttachTopics, OnlyAppends, SubsGained, GainedTopics, Mapped, Entries, RoomFor, PubsOk,
         SubReplayOk, SubsOk, CountsOk, HandshakesOk;
    if 1 <= |ts| <= 5 {
      AttachedEverything(b, s, ts);
      var b1 := b.(topics := b.topics[s := ts], role := b.role[s := Subscriber],
                   attached := b.attached[s := []], toSub := b.toSub[s := []]);
      FreshSubscriber(b, s, ts);
      AttachTopicsIff(b1, s, ts);
      SameRoom(b, b1, ts);
      if AttachTopics(b1, s, ts).Ok? {
        LoopMapped(AttachTopics(b1, s, ts).b);
      }
    }
  }

  lemma SameRoom(b: Broker, c: Broker, ts: seq<nat>)
    requires c.topicOf == b.topicOf && c.free == b.free
    ensures RoomFor(c, ts) <==> RoomFor(b, ts)
  {
  }

  // ---------- A publisher's subscribers ----------

  /** The publisher's attachments take its slots in ascending order. */
  ghost predicate SlotsLeft(b: Broker, c: Broker, p: nat, t: nat, n: nat) {
    && c.nextId == b.nextId + n && (t, p) in b.free && (t, p) in c.free && |c.free[(t, p)]| == |b.free[(t, p)]| - n
  }

  lemma AttachAndSendIff(b: Broker, s: nat, t: nat, p: nat)
    requires LoopOk(b, b.topicOf) && p in b.topicOf && b.topicOf[p] == t && s in b.attached
    ensures (t, p) in b.free
    ensures AttachAndSend(b, s, t, p).Ok? <==> b.free[(t, p)] != [] && b.nextId + 1 < 0x1_0000_0000_0000_0000
    ensures AttachAndSend(b, s, t, p).Ok? ==> SlotsLeft(b, AttachAndSend(b, s, t, p).b, p, t, 1)
  {
    hide LoopOk, Attach, Entries, Mapped, Attached;
    AttachIff(b, s, t, p);
    AttachKeeps(b, s, t, p);
    if Attach(b, s, t, p).Ok? {
      var c := Attach(b, s, t, p).b;
      AttachedFacts(b, c, s, p);
      LoopMapped(c);
      LastMapped(c, s);
      assert [p][1..] == [] && Occurrences([p], p) == 1;
    }
  }

  lemma LastMapped(b: Broker, s: nat)
    requires s in b.attached && b.attached[s] != [] && Mapped(b.shm, b.space, b.attached[s])
    ensures Mapped(b.shm, b.space, b.attached[s][|b.attached[s]| - 1..])
  {
  }

  lemma {:induction false} AttachSubscribersIff(b: Broker, p: nat, t: nat, ss: seq<nat>)
    requires LoopOk(b, b.topicOf) && p in b.topicOf && b.topicOf[p] == t
    requires SubReplayOk(b.toSub, b.attached, b.shm, b.space)
    requires forall i: nat | i < |ss| :: ss[i] in b.attached
    ensures (t, p) in b.free
    ensures AttachSubscribers(b, p, t, ss).Ok? <==>
      |ss| <= |b.free[(t, p)]| && b.nextId + |ss| < 0x1_0000_0000_0000_0000
    decreases |ss|
  {
    hide LoopOk, AttachAndSend, SubReplayOk, SentTo, GainedOf;
    LoopNextId(b);
    if ss != [] {
      AttachAndSendIff(b, ss[0], t, p);
      AttachAndSendKeeps(b, ss[0], t, p);
      if AttachAndSend(b, ss[0], t, p).Ok? {
        var c := AttachAndSend(b, ss[0], t, p).b;
        SameSubscribers(b, c, p, ss);
        AttachSubscribersIff(c, p, t, ss[1..]);
      }
    }
  }

  lemma SameSubscribers(b: Broker, c: Broker, p: nat, ss: seq<nat>)
    requires ss != [] && SameRegistry(b, c) && forall i: nat | i < |ss| :: ss[i] in b.attached
    ensures forall i: nat | i < |ss[1..]| :: ss[1..][i] in c.attached
  {
  }

  lemma RegisterPublisherIff(b: Broker, p: nat, t: nat, shm: nat, space: nat)
    requires Inv(b) && p !in b.role
    ensures var o, n := RegisterPublisher(b, p, t, shm, space), |Listed(b.subs, t)|;
            && (o.Ok? <==> n <= 16 && b.nextId + n < 0x1_0000_0000_0000_0000)
            && (o.Ok? ==> p in o.b.toPub && |o.b.toPub[p]| == 1 + n && o.b.toPub[p][0] == Count(n))
  {
    hide Inv, AttachSubscribers, LoopOk, SubReplayOk, SentTo, GainedOf;
    AttachesToAll(b, p, t, shm, space);
    NewPublisher(b, p, t, shm, space);
    var b1 := WithPublisher(b, p, t, shm, space);
    AttachSubscribersIff(b1, p, t, Listed(b.subs, t));
    AllSlotsFree(map[]);
    if RegisterPublisher(b, p, t, shm, space).Ok? {
      ToldFirst(b, AttachSubscribers(b1, p, t, Listed(b.subs, t)).b, p, t);
    }
  }

  lemma ToldFirst(b: Broker, c: Broker, p: nat, t: nat)
    requires AttachedToAll(b, c, p, t)
    ensures var n := |Listed(b.subs, t)|;
            p in c.toPub && |c.toPub[p]| == 1 + n && c.toPub[p][0] == Count(n)
  {
    hide LoopOk, SubReplayOk, GainedOf;
    var n := |Listed(b.subs, t)|;
    var toPub := b.toPub[p := [Count(n)]];
    assert toPub[p][0] == Count(n) && toPub[p] <= c.toPub[p];
  }

  /** In every run: a publisher's registration ends well if and only if its topic lists at most sixteen subscribers and
      the ids suffice; otherwise the broker halts. It is then told how many registrations follow, and sent as many. */
  lemma PublisherIsAccepted(events: seq<Event>, p: nat, t: nat, shm: nat, space: nat)
    requires FromStart(events).Ok? && p !in FromStart(events).b.role
    ensures var b, o := FromStart(events).b, FromStart(events + [PublisherRegisters(p, t, shm, space)]);
            var n := |Listed(b.subs, t)|;
            && (o.Ok? <==> n <= 16 && b.nextId + n < 0x1_0000_0000_0000_0000)
            && (o.Ok? ==> p in o.b.toPub && |o.b.toPub[p]| == 1 + n && o.b.toPub[p][0] == Count(n))
  {
    hide FromStart, RegisterPublisher, Inv;
    OneMoreEvent(events, PublisherRegisters(p, t, shm, space));
    RegisterPublisherIff(FromStart(events).b, p, t, shm, space);
  }

  /** In every run a publisher has a free slot less for each entry of its topic's list of subscribers. */
  lemma SlotsAreCounted(events: seq<Event>, p: nat)
    requires FromStart(events).Ok? && p in FromStart(events).b.topicOf
    ensures var b := FromStart(events).b;
            var t := b.topicOf[p];
            (t, p) in b.free && |b.free[(t, p)]| + |Listed(b.subs, t)| == 16
  {
    hide FromStart, Inv;
    FreeIsSixteenLess(FromStart(events).b, p);
  }

  lemma SlotIsFree(b: Broker, p: nat, slot: nat)
    requires LoopOk(b, b.topicOf) && p in b.topicOf
    ensures (b.topicOf[p], p) in b.free && Ascending(b.free[(b.topicOf[p], p)])
    ensures slot in b.free[(b.topicOf[p], p)] <==> slot < 16 && !Occupied(b, p, slot)
  {
    hide FreeOk, IdsOk, UniqueOk, TopicsOk, PubReplayOk;
    assert Partition(b.free[(b.topicOf[p], p)], b.occ[p]);
    if Occupied(b, p, slot) {
      var s, i: nat :| s in b.attached && i < |b.attached[s]| && IsOn(b.attached[s][i], p, slot);
      assert Holds(b.occ, s, b.attached[s][i]);
    }
    if slot in b.occ[p] {
      var h := b.occ[p][slot];
      assert HeldBy(b.attached, p, slot, h);
      var i: nat :| i < |b.attached[h.sub]| && IsAt(b.attached[h.sub][i], p, slot, h);
      assert IsOn(b.attached[h.sub][i], p, slot);
    }
  }

  /** Wherever a handler attaches, the subscriber is given the publisher's least slot that nobody holds, and the
      publisher is told of it. */
  lemma LeastSlotIsGiven(b: Broker, s: nat, p: nat)
    requires LoopOk(b, b.topicOf) && s in b.attached && p in b.topicOf && Attach(b, s, b.topicOf[p], p).Ok?
    ensures var c := Attach(b, s, b.topicOf[p], p).b;
            && s in c.attached && c.attached[s] != []
            && var a := c.attached[s][|c.attached[s]| - 1];
            && a.pub == p && a.slot < 16 && !Occupied(b, p, a.slot)
            && (forall slot: nat | slot < a.slot :: Occupied(b, p, slot))
            && p in c.toPub && c.toPub[p] != [] && c.toPub[p][|c.toPub[p]| - 1] == Registered(a.event, a.slot)
  {
    hide LoopOk, Occupied, Take;
    SlotIsFree(b, p, 0);
    var free := b.free[(b.topicOf[p], p)];
    assert free[0] in free;
    SlotIsFree(b, p, free[0]);
    forall slot: nat | slot < free[0]
      ensures Occupied(b, p, slot)
    {
      SlotIsFree(b, p, slot);
    }
  }
}

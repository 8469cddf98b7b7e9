/** The broker's maps, updated in place by its event handlers. Each handler's loops are proved to compute
    the corresponding step of the registration state machine. */
module BrokerProcess {
  import opened Layout
  import opened Broker
  import Machine = Broker
  import opened BrokerInvariant
  import opened BrokerRegisters
  import opened BrokerLeaves

  /** How a handler ends: normally, with the process halting for want of a resource, or on a missing entry. */
  datatype Verdict = Done | Halts | Misses

  class Process {
    /** The broker's global variables, gathered in one record. */
    var g: Broker

    ghost predicate Valid()
      reads this
    {
      Inv(g)
    }

    constructor ()
      ensures Valid() && g == Init()
    {
      g := Init();
      InitOk();
    }

    /** The verdict of a handler whose machine outcome is `o`, and the state it leaves. */
    ghost predicate Follows(v: Verdict, o: Outcome)
      reads this
    {
      match o
      case Ok(b) => v == Done && g == b
      case Halted => v == Halts
      case Missing => v == Misses
    }

    /** Give `s` the least free slot of `p` and tell the publisher. */
    method Attach(s: nat, t: nat, p: nat) returns (v: Verdict)
      modifies this
      ensures Follows(v, Machine.Attach(old(g), s, t, p))
    {
      if p !in g.shm || (t, p) !in g.free {
        return Misses;
      }
      if g.free[(t, p)] == [] {
        return Halts;
      }
      if p !in g.space || p !in g.toPub || s !in g.attached {
        return Misses;
      }
      var slot := g.free[(t, p)][0];
      if g.nextId + 1 >= ID_LIMIT {
        return Halts;
      }
      var a := Attachment(g.nextId, t, p, slot, g.nextEvent);
      g := g.(free := g.free[(t, p) := g.free[(t, p)][1..]]);
      g := g.(toPub := g.toPub[p := g.toPub[p] + [Registered(g.nextEvent, slot)]]);
      g := g.(attached := g.attached[s := g.attached[s] + [a]]);
      g := g.(occ := Take(g.occ, p, slot, Holder(s, g.nextId, g.nextEvent)));
      g := g.(nextId := g.nextId + 1, nextEvent := g.nextEvent + 1);
      v := Done;
    }

    method SendBatch(s: nat, atts: seq<Attachment>) returns (v: Verdict)
      modifies this
      ensures Follows(v, Machine.SendBatch(old(g), s, atts))
    {
      if |atts| > BATCH {
        return Halts;
      }
      if s !in g.toSub {
        return Misses;
      }
      var entries: seq<Entry> := [];
      for i := 0 to |atts|
        invariant Mapped(g.shm, g.space, atts[..i]) && entries == Entries(g.shm, g.space, atts[..i])
      {
        if atts[i].pub !in g.shm || atts[i].pub !in g.space {
          return Misses;
        }
        entries := entries + [EntryOf(g.shm, g.space, atts[i])];
      }
      assert atts[..|atts|] == atts;
      g := g.(toSub := g.toSub[s := g.toSub[s] + [Batch(entries)]]);
      v := Done;
    }

    /** The loops over the topics a subscriber listed and the publishers of each. */
    method AttachTopics(s: nat, ts: seq<nat>) returns (v: Verdict)
      modifies this
      ensures Follows(v, Machine.AttachTopics(old(g), s, ts))
    {
      hide Machine.AttachPublishers;
      assert ts[0..] == ts;
      for i := 0 to |ts|
        invariant Machine.AttachTopics(g, s, ts[i..]) == Machine.AttachTopics(old(g), s, ts)
      {
        var t := ts[i];
        assert ts[i..][0] == t && ts[i..][1..] == ts[i + 1..];
        g := g.(subs := g.subs[t := Listed(g.subs, t) + [s]]);
        v := AttachPublishers(s, t, Listed(g.pubs, t));
        if v != Done {
          return;
        }
      }
      v := Done;
    }

    method AttachPublishers(s: nat, t: nat, ps: seq<nat>) returns (v: Verdict)
      modifies this
      ensures Follows(v, Machine.AttachPublishers(old(g), s, t, ps))
    {
      hide Machine.Attach;
      assert ps[0..] == ps;
      for i := 0 to |ps|
        invariant Machine.AttachPublishers(g, s, t, ps[i..]) == Machine.AttachPublishers(old(g), s, t, ps)
      {
        assert ps[i..][0] == ps[i] && ps[i..][1..] == ps[i + 1..];
        v := Attach(s, t, ps[i]);
        if v != Done {
          return;
        }
      }
      v := Done;
    }

    /** The handler of a subscriber's registration. */
    method SubscriberRegisters(s: nat, ts: seq<nat>) returns (v: Verdict)
      requires Valid() && s !in g.role
      modifies this
      ensures Follows(v, RegisterSubscriber(old(g), s, ts))
      ensures v != Misses && (v == Done ==> Valid())
    {
      hide Inv, Machine.AttachTopics, Machine.SendBatch;
      RegisterSubscriberKeeps(g, s, ts);
      if |ts| == 0 || |ts| > MAX_TOPICS {
        return Halts;
      }
      g := g.(topics := g.topics[s := ts], role := g.role[s := Subscriber],
              attached := g.attached[s := []], toSub := g.toSub[s := []]);
      v := AttachTopics(s, ts);
      if v != Done {
        return;
      }
      if s !in g.attached {
        return Misses;
      }
      v := SendBatch(s, g.attached[s]);
    }

    /** The handler of a publisher's registration. */
    method PublisherRegisters(p: nat, t: nat, shmFd: nat, spaceFd: nat) returns (v: Verdict)
      requires Valid() && p !in g.role
      modifies this
      ensures Follows(v, RegisterPublisher(old(g), p, t, shmFd, spaceFd))
      ensures v != Misses && (v == Done ==> Valid())
    {
      hide Inv, Machine.AttachSubscribers;
      RegisterPublisherKeeps(g, p, t, shmFd, spaceFd);
      if p in g.shm || p in g.space || (t, p) in g.free {
        return Misses;
      }
      var ss := Listed(g.subs, t);
      if |ss| > SLOTS {
        return Halts;
      }
      g := g.(shm := g.shm[p := shmFd]);
      g := g.(space := g.space[p := spaceFd]);
      g := g.(free := g.free[(t, p) := AllSlots()]);
      g := g.(role := g.role[p := Publisher]);
      g := g.(toPub := g.toPub[p := [Count(|ss|)]]);
      g := g.(occ := g.occ[p := map[]]);
      g := g.(topicOf := g.topicOf[p := t]);
      v := AttachSubscribers(p, t, ss);
      if v != Done {
        return;
      }
      g := g.(pubs := g.pubs[t := Listed(g.pubs, t) + [p]]);
    }

    method AttachSubscribers(p: nat, t: nat, ss: seq<nat>) returns (v: Verdict)
      modifies this
      ensures Follows(v, Machine.AttachSubscribers(old(g), p, t, ss))
    {
      hide Machine.Attach, Machine.SendBatch;
      assert ss[0..] == ss;
      for i := 0 to |ss|
        invariant Machine.AttachSubscribers(g, p, t, ss[i..]) == Machine.AttachSubscribers(old(g), p, t, ss)
      {
        assert ss[i..][0] == ss[i] && ss[i..][1..] == ss[i + 1..];
        v := Attach(ss[i], t, p);
        if v != Done {
          return;
        }
        if ss[i] !in g.attached || g.attached[ss[i]] == [] {
          return Misses;
        }
        v := SendBatch(ss[i], g.attached[ss[i]][|g.attached[ss[i]]| - 1..]);
        if v != Done {
          return;
        }
      }
      v := Done;
    }

    /** The handler of a subscriber's disconnect: its slots go back to their heaps, then its topics forget it. */
    method SubscriberDisconnects(s: nat) returns (v: Verdict)
      requires Valid() && s in g.topics
      modifies this
      ensures v == Done && Valid() && SubscriberLeaves(old(g), s) == Ok(g)
    {
      hide Inv, Machine.ReleaseAll, Machine.Unsubscribe;
      SubscriberLeavesKeeps(g, s);
      ghost var start := g;
      if s !in g.attached || s !in g.topics {
        return Misses;
      }
      var ts := g.topics[s];
      v := ReleaseAll(s, g.attached[s]);
      if v != Done {
        return;
      }
      g := g.(attached := g.attached - {s});
      g := g.(role := g.role - {s});
      var ok, rest := UnsubscribeAll(g.subs, s, ts);
      if !ok {
        return Misses;
      }
      g := g.(subs := rest);
      g := g.(topics := g.topics - {s});
      g := g.(toSub := g.toSub - {s});
    }

    /** The attachments stay listed in the code until the loop is over; here each leaves the list as it is released. */
    method ReleaseAll(s: nat, atts: seq<Attachment>) returns (v: Verdict)
      modifies this
      ensures Follows(v, Machine.ReleaseAll(old(g), s, atts))
    {
      assert atts[0..] == atts;
      for i := 0 to |atts|
        invariant Machine.ReleaseAll(g, s, atts[i..]) == Machine.ReleaseAll(old(g), s, atts)
      {
        var a := atts[i];
        assert atts[i..][0] == a && atts[i..][1..] == atts[i + 1..];
        if a.pub !in g.toPub || (a.topic, a.pub) !in g.free {
          return Misses;
        }
        g := g.(toPub := g.toPub[a.pub := g.toPub[a.pub] + [SubscriberGone(a.slot)]]);
        g := g.(free := g.free[(a.topic, a.pub) := PushSlot(g.free[(a.topic, a.pub)], a.slot)]);
        g := g.(attached := g.attached[s := atts[i + 1..]]);
        g := g.(occ := Drop(g.occ, a.pub, a.slot));
      }
      v := Done;
    }

    /** The handler of a publisher's disconnect. */
    method PublisherDisconnects(p: nat) returns (v: Verdict)
      requires Valid() && p in g.topicOf
      modifies this
      ensures v == Done && Valid() && PublisherLeaves(old(g), p) == Ok(g)
    {
      hide Inv, Machine.DetachSubscribers, RemoveFirst;
      PublisherLeavesKeeps(g, p);
      ListedOnce(g, p);
      if p !in g.shm {
        return Misses;
      }
      var found, t := FindTopic(g.pubs, p);
      if !found {
        return Misses;
      }
      if (t, p) !in g.free {
        return Misses;
      }
      g := g.(toPub := g.toPub - {p});
      g := g.(free := g.free - {(t, p)});
      g := g.(topicOf := g.topicOf - {p});
      v := DetachSubscribers(p, Listed(g.subs, t));
      if v != Done {
        return;
      }
      if p !in g.space || t !in g.pubs || p !in g.pubs[t] {
        return Misses;
      }
      var rest := RemoveFirst(g.pubs[t], p);
      g := g.(pubs := if rest == [] then g.pubs - {t} else g.pubs[t := rest]);
      g := g.(shm := g.shm - {p});
      g := g.(space := g.space - {p});
      g := g.(role := g.role - {p});
      g := g.(occ := g.occ - {p});
    }

    method DetachSubscribers(p: nat, ss: seq<nat>) returns (v: Verdict)
      modifies this
      ensures Follows(v, Machine.DetachSubscribers(old(g), p, ss))
    {
      hide FirstOf, OfPublisher, Without;
      assert ss[0..] == ss;
      for i := 0 to |ss|
        invariant Machine.DetachSubscribers(g, p, ss[i..]) == Machine.DetachSubscribers(old(g), p, ss)
      {
        var s := ss[i];
        assert ss[i..][0] == s && ss[i..][1..] == ss[i + 1..];
        if s !in g.attached || s !in g.toSub {
          return Misses;
        }
        var found, k := FindAttachment(g.attached[s], p);
        if !found {
          return Misses;
        }
        var a := g.attached[s][k];
        g := g.(toSub := g.toSub[s := g.toSub[s] + [PublisherGone(a.id)]]);
        g := g.(attached := g.attached[s := Without(g.attached[s], k)]);
        g := g.(occ := Drop(g.occ, p, a.slot));
      }
      v := Done;
    }
  }

  /** `find_if` over a subscriber's attachments. */
  method FindAttachment(atts: seq<Attachment>, p: nat) returns (found: bool, k: nat)
    ensures found <==> OfPublisher(atts, p) > 0
    ensures found ==> k == FirstOf(atts, p)
  {
    assert atts[0..] == atts;
    for i := 0 to |atts|
      invariant OfPublisher(atts[i..], p) == OfPublisher(atts, p)
      invariant OfPublisher(atts, p) > 0 ==> FirstOf(atts, p) == i + FirstOf(atts[i..], p)
    {
      assert atts[i..][0] == atts[i] && atts[i..][1..] == atts[i + 1..];
      if atts[i].pub == p {
        return true, i;
      }
    }
    return false, 0;
  }

  /** The scan of the topics for the one that lists `p`. */
  method FindTopic(pubs: map<nat, seq<nat>>, p: nat) returns (found: bool, t: nat)
    ensures found <==> exists t :: t in pubs && p in pubs[t]
    ensures found ==> t in pubs && p in pubs[t]
  {
    var left := pubs.Keys;
    while left != {}
      invariant left <= pubs.Keys && forall t | t in pubs && t !in left :: p !in pubs[t]
      decreases |left|
    {
      t :| t in left;
      if p in pubs[t] {
        return true, t;
      }
      left := left - {t};
    }
    return false, 0;
  }

  method UnsubscribeAll(subs: map<nat, seq<nat>>, s: nat, ts: seq<nat>) returns (ok: bool, rest: map<nat, seq<nat>>)
    ensures if ok then Machine.Unsubscribe(subs, s, ts) == Rest(rest) else Machine.Unsubscribe(subs, s, ts).NotListed?
  {
    rest := subs;
    assert ts[0..] == ts;
    for i := 0 to |ts|
      invariant Machine.Unsubscribe(rest, s, ts[i..]) == Machine.Unsubscribe(subs, s, ts)
    {
      assert ts[i..][0] == ts[i] && ts[i..][1..] == ts[i + 1..];
      if ts[i] !in rest || s !in rest[ts[i]] {
        return false, rest;
      }
      rest := rest[ts[i] := RemoveFirst(rest[ts[i]], s)];
    }
    ok := true;
  }

  lemma ListedOnce(b: Broker, p: nat)
    requires Inv(b) && p in b.topicOf
    ensures exists t :: t in b.pubs && p in b.pubs[t]
    ensures TopicListing(b.pubs, p) == b.topicOf[p]
    ensures forall t | t in b.pubs && p in b.pubs[t] :: t == b.topicOf[p]
  {
    hide RolesOk, LoopOk, SubReplayOk, SubsOk, CountsOk, HandshakesOk;
    TopicIsListed(b, p);
    forall t | t in b.pubs && p in b.pubs[t]
      ensures t == b.topicOf[p]
    {
      var i: nat :| i < |b.pubs[t]| && b.pubs[t][i] == p;
    }
  }
}

/** The publish-subscribe registry: topic, owner, channels. Each method holds the root lock, so any
    sequence of calls is a run. */
module Messaging {
  import opened Channels

  type Subs = map<string, map<nat, seq<Channel>>>

  /** The liveness token of one owner id. */
  class OwnerState {
    const id: nat
    var dead: bool

    constructor (id: nat)
      ensures this.id == id && !dead
    {
      this.id := id;
      dead := false;
    }
  }

  function Bucket(subs: Subs, topic: string, owner: nat): seq<Channel> {
    if topic in subs && owner in subs[topic] then subs[topic][owner] else []
  }

  predicate NoRepeats(s: seq<Channel>) {
    forall i, j :: 0 <= i < j < |s| ==> s[i] != s[j]
  }

  /** No bucket and no topic is empty. */
  ghost predicate Tidy(subs: Subs) {
    && (forall t :: t in subs ==> subs[t] != map[])
    && (forall t, o :: t in subs && o in subs[t] ==> subs[t][o] != [])
  }

  /** slot tells for every registered channel the one bucket that lists it, and there it is listed once. */
  ghost predicate SlotsOk(subs: Subs, slot: map<Channel, (string, nat)>) {
    && (forall t: string, o: nat :: BucketOk(Bucket(subs, t, o), t, o, slot))
    && (forall c :: c in slot ==> c in Bucket(subs, slot[c].0, slot[c].1))
  }

  ghost predicate BucketOk(chs: seq<Channel>, t: string, o: nat, slot: map<Channel, (string, nat)>) {
    NoRepeats(chs) && forall c :: c in chs ==> c in slot && slot[c] == (t, o)
  }

  /** after differs from before in one bucket only. */
  ghost predicate OneBucket(before: Subs, after: Subs, topic: string, owner: nat, chs: seq<Channel>) {
    && Bucket(after, topic, owner) == chs
    && forall t: string, o: nat :: t != topic || o != owner ==> Bucket(after, t, o) == Bucket(before, t, o)
  }

  /** after is before with one position of one bucket, which held ch, cut out. */
  ghost predicate Unlisted(before: Subs, after: Subs, topic: string, owner: nat, ch: Channel) {
    var chs := Bucket(before, topic, owner);
    exists i :: 0 <= i < |chs| && chs[i] == ch && OneBucket(before, after, topic, owner, chs[..i] + chs[i + 1..])
  }

  /** Replace one bucket; an empty one is deleted, and its topic too when nothing is left under it. */
  function Put(subs: Subs, topic: string, owner: nat, chs: seq<Channel>): Subs {
    var byOwner: map<nat, seq<Channel>> := if topic in subs then subs[topic] else map[];
    if chs != [] then subs[topic := byOwner[owner := chs]]
    else if byOwner - {owner} == map[] then subs - {topic}
    else subs[topic := byOwner - {owner}]
  }

  lemma PutOne(subs: Subs, topic: string, owner: nat, chs: seq<Channel>)
    requires Tidy(subs)
    ensures Tidy(Put(subs, topic, owner, chs)) && OneBucket(subs, Put(subs, topic, owner, chs), topic, owner, chs)
  {
    var after := Put(subs, topic, owner, chs);
    if chs != [] { assert owner in after[topic]; }
    forall t: string, o: nat | t != topic || o != owner ensures Bucket(after, t, o) == Bucket(subs, t, o) {
      if t == topic && topic in subs && chs == [] {
        assert o in subs[topic] ==> o in subs[topic] - {owner};
      }
    }
  }

  lemma SlotsAdd(subs: Subs, after: Subs, slot: map<Channel, (string, nat)>, topic: string, owner: nat, ch: Channel)
    requires SlotsOk(subs, slot) && ch !in slot
    requires OneBucket(subs, after, topic, owner, Bucket(subs, topic, owner) + [ch])
    ensures SlotsOk(after, slot[ch := (topic, owner)])
  {
    forall t: string, o: nat ensures BucketOk(Bucket(after, t, o), t, o, slot[ch := (topic, owner)]) {
      assert BucketOk(Bucket(subs, t, o), t, o, slot);
    }
  }

  lemma SlotsShrink(subs: Subs, after: Subs, slot: map<Channel, (string, nat)>, topic: string, owner: nat,
      chs: seq<Channel>, gone: set<Channel>)
    requires SlotsOk(subs, slot) && OneBucket(subs, after, topic, owner, chs) && NoRepeats(chs)
    requires forall c :: c in chs <==> c in Bucket(subs, topic, owner) && c !in gone
    requires forall c :: c in gone ==> c in Bucket(subs, topic, owner)
    ensures SlotsOk(after, slot - gone)
  {
    assert BucketOk(Bucket(subs, topic, owner), topic, owner, slot);
    forall t: string, o: nat ensures BucketOk(Bucket(after, t, o), t, o, slot - gone) {
      assert BucketOk(Bucket(subs, t, o), t, o, slot);
    }
  }

  ghost predicate SubsOk(subs: Subs, slot: map<Channel, (string, nat)>) {
    Tidy(subs) && SlotsOk(subs, slot)
  }

  /** Every owner with subscriptions, apart from the unowned root, is among the given ids. */
  ghost predicate Covered(subs: Subs, ids: set<nat>) {
    forall t: string, o: nat :: Bucket(subs, t, o) != [] && o != 0 ==> o in ids
  }

  lemma PutAdds(subs: Subs, slot: map<Channel, (string, nat)>, ids: set<nat>, topic: string, owner: nat, ch: Channel)
    requires SubsOk(subs, slot) && Covered(subs, ids) && ch !in slot && (owner == 0 || owner in ids)
    ensures var chs := Bucket(subs, topic, owner) + [ch];
            var after := Put(subs, topic, owner, chs);
            SubsOk(after, slot[ch := (topic, owner)]) && Covered(after, ids) &&
                OneBucket(subs, after, topic, owner, chs)
  {
    var chs := Bucket(subs, topic, owner) + [ch];
    PutOne(subs, topic, owner, chs);
    SlotsAdd(subs, Put(subs, topic, owner, chs), slot, topic, owner, ch);
  }

  lemma PutCuts(subs: Subs, slot: map<Channel, (string, nat)>, ids: set<nat>, topic: string, owner: nat, i: nat)
    requires SubsOk(subs, slot) && Covered(subs, ids) && i < |Bucket(subs, topic, owner)|
    ensures var chs := Bucket(subs, topic, owner);
            var after := Put(subs, topic, owner, chs[..i] + chs[i + 1..]);
            && SubsOk(after, slot - {chs[i]}) && Covered(after, ids) && chs[i] in slot
            && OneBucket(subs, after, topic, owner, chs[..i] + chs[i + 1..])
  {
    var chs := Bucket(subs, topic, owner);
    var rest := chs[..i] + chs[i + 1..];
    assert BucketOk(chs, topic, owner, slot);
    CutOne(chs, i, rest);
    PutOne(subs, topic, owner, rest);
    SlotsShrink(subs, Put(subs, topic, owner, rest), slot, topic, owner, rest, {chs[i]});
  }

  lemma PutClears(subs: Subs, slot: map<Channel, (string, nat)>, topic: string, owner: nat)
    requires SubsOk(subs, slot)
    ensures var chs := Bucket(subs, topic, owner);
            var after := Put(subs, topic, owner, []);
            && SubsOk(after, slot - InSlot(slot, topic, owner)) && OneBucket(subs, after, topic, owner, [])
            && NoRepeats(chs) && forall c :: c in chs <==> c in slot && slot[c] == (topic, owner)
  {
    var chs := Bucket(subs, topic, owner);
    assert BucketOk(chs, topic, owner, slot);
    PutOne(subs, topic, owner, []);
    SlotsShrink(subs, Put(subs, topic, owner, []), slot, topic, owner, [], InSlot(slot, topic, owner));
  }

  function Times(topics: seq<string>, t: string): (r: nat)
    ensures r == multiset(topics)[t]
  {
    if topics == [] then 0
    else
      var front, last := topics[..|topics| - 1], topics[|topics| - 1];
      assert topics == front + [last];
      Times(front, t) + if last == t then 1 else 0
  }

  /** One subscription handle; its unsubscribe function runs its body at most once. */
  class Subscription {
    const topic: string
    const owner: nat
    const ch: Channel
    var done: bool

    constructor (topic: string, owner: nat, ch: Channel)
      ensures this.topic == topic && this.owner == owner && this.ch == ch && !done
    {
      this.topic, this.owner, this.ch, done := topic, owner, ch, false;
    }
  }

  /** The single close path of Drain and drainOwner. */
  method CloseSubs(chs: seq<Channel>)
    requires NoRepeats(chs) && forall c :: c in chs ==> c.Valid() && !c.closed
    modifies chs
    ensures forall c :: c in chs ==> c.Valid() && c.closed && c.s == old(c.s).(waiting := 0)
  {
    for i := 0 to |chs|
      invariant forall k :: 0 <= k < i ==> chs[k].Valid() && chs[k].closed && chs[k].s == old(chs[k].s).(waiting := 0)
      invariant forall k :: i <= k < |chs| ==> chs[k].Valid() && !chs[k].closed && chs[k].s == old(chs[k].s)
    {
      chs[i].Close();
    }
  }

  method OfferBucket(chs: seq<Channel>, msg: Msg)
    requires NoRepeats(chs) && forall c :: c in chs ==> c.Valid() && !c.closed
    modifies chs
    ensures forall c :: c in chs ==> c.Valid() && !c.closed && c.s == Sent(old(c.s), c.capacity, msg)
  {
    for i := 0 to |chs|
      invariant forall k :: 0 <= k < i ==>
          chs[k].Valid() && !chs[k].closed && chs[k].s == Sent(old(chs[k].s), chs[k].capacity, msg)
      invariant forall k :: i <= k < |chs| ==> chs[k].Valid() && !chs[k].closed && chs[k].s == old(chs[k].s)
    {
      chs[i].TrySend(msg);
    }
  }

  ghost predicate Live(chs: set<Channel>)
    reads chs
  {
    forall c :: c in chs ==> c.Valid() && !c.closed
  }

  /** Send to every channel of one topic, owner by owner; of tells which owner lists a channel. */
  method OfferOwners(byOwner: map<nat, seq<Channel>>, msg: Msg, ghost of: map<Channel, nat>)
    requires forall o :: o in byOwner ==> NoRepeats(byOwner[o]) && forall c :: c in byOwner[o] ==> c in of && of[c] == o
    requires forall c :: c in of ==> of[c] in byOwner && c in byOwner[of[c]]
    requires Live(of.Keys)
    modifies of.Keys
    ensures Live(of.Keys) && forall c :: c in of ==> c.s == Sent(old(c.s), c.capacity, msg)
  {
    var rest := byOwner.Keys;
    hide ContentsOk, Sent;
    while rest != {}
      invariant rest <= byOwner.Keys && Live(of.Keys)
      invariant forall c :: c in of ==> c.s == if of[c] in rest then old(c.s) else Sent(old(c.s), c.capacity, msg)
    {
      var owner :| owner in rest;
      rest := rest - {owner};
      OfferBucket(byOwner[owner], msg);
    }
  }

  /** Close every channel of one topic, owner by owner. */
  method CloseOwners(byOwner: map<nat, seq<Channel>>, ghost of: map<Channel, nat>)
    requires forall o :: o in byOwner ==> NoRepeats(byOwner[o]) && forall c :: c in byOwner[o] ==> c in of && of[c] == o
    requires forall c :: c in of ==> of[c] in byOwner && c in byOwner[of[c]]
    requires Live(of.Keys)
    modifies of.Keys
    ensures forall c :: c in of ==> c.Valid() && c.closed && c.s == old(c.s).(waiting := 0)
  {
    var rest := byOwner.Keys;
    hide ContentsOk;
    while rest != {}
      invariant rest <= byOwner.Keys
      invariant forall c :: c in of && of[c] in rest ==> c.Valid() && !c.closed && c.s == old(c.s)
      invariant forall c :: c in of && of[c] !in rest ==> c.Valid() && c.closed && c.s == old(c.s).(waiting := 0)
    {
      var owner :| owner in rest;
      rest := rest - {owner};
      CloseSubs(byOwner[owner]);
    }
  }

  class Messenger {
    var subs: Subs
    var owners: map<nat, OwnerState>
    /** The bucket of every registered channel, and every owner state ever made. */
    ghost var slot: map<Channel, (string, nat)>
    ghost var states: set<OwnerState>

    /** An owner state is live exactly while the root knows it, and only live owners have subscriptions. */
    ghost predicate OwnersOk()
      reads this, states
    {
      && StatesOk()
      && Covered(subs, owners.Keys)
    }

    /** Registered channels are open and in one slot each; subscriptions belong to live owners. */
    ghost predicate Valid()
      reads this, slot.Keys, states
    {
      SubsOk(subs, slot) && Live(slot.Keys) && OwnersOk()
    }

    constructor ()
      ensures Valid() && subs == map[] && owners == map[] && states == {}
    {
      subs, owners, slot, states := map[], map[], map[], {};
    }

    /** The state of owner id, made on first use. A state marked dead is never handed out again. */
    method RegisterOwner(id: nat) returns (st: OwnerState)
      requires Valid()
      modifies this`owners, this`states
      ensures Valid() && st in states && st.id == id && !st.dead && owners == old(owners)[id := st]
      ensures if id in old(owners) then st == old(owners)[id] && states == old(states)
          else fresh(st) && states == old(states) + {st}
    {
      if id in owners { return owners[id]; }
      st := new OwnerState(id);
      owners, states := owners[id := st], states + {st};
    }

    /** A dead owner gets a closed channel and leaves no trace; everyone else is appended to a bucket. */
    method Subscribe(state: OwnerState?, topic: string, capacity: nat)
        returns (ch: Channel, sub: Subscription, ok: bool)
      requires Valid() && (state != null ==> state in states)
      modifies this`subs, this`slot
      ensures Valid() && fresh(ch) && fresh(sub) && ch.Valid() && ch.capacity == capacity
      ensures ch.s == Contents([], 0, [], [])
      ensures ok <==> state == null || !state.dead
      ensures ch.closed <==> !ok
      ensures !ok ==> subs == old(subs) && slot == old(slot) && sub.done
      ensures sub.ch == ch && sub.topic == topic && sub.owner == (if state == null then 0 else state.id)
      ensures ok ==>
                OneBucket(old(subs), subs, topic, sub.owner, Bucket(old(subs), topic, sub.owner) + [ch]) && !sub.done
      ensures ok ==> slot == old(slot)[ch := (topic, sub.owner)]
    {
      hide SubsOk, Covered;
      var owner := if state == null then 0 else state.id;
      ch := new Channel(capacity);
      sub := new Subscription(topic, owner, ch);
      if state != null && state.dead {
        ch.Close();
        sub.done := true;
        return ch, sub, false;
      }
      var chs := Bucket(subs, topic, owner) + [ch];
      PutAdds(subs, slot, owners.Keys, topic, owner, ch);
      subs, slot := Put(subs, topic, owner, chs), slot[ch := (topic, owner)];
      assert Live(slot.Keys);
      return ch, sub, true;
    }

    /** Take the handle's channel out of its bucket. The channel stays open; a second call, or one
        after a drain, changes nothing. */
    method Unsubscribe(sub: Subscription)
      requires Valid()
      modifies sub`done, this`subs, this`slot
      ensures Valid() && sub.done
      ensures old(sub.done) || sub.ch !in Bucket(old(subs), sub.topic, sub.owner) ==>
          subs == old(subs) && slot == old(slot)
      ensures !old(sub.done) && sub.ch in Bucket(old(subs), sub.topic, sub.owner) ==>
                && slot == old(slot) - {sub.ch}
                && Unlisted(old(subs), subs, sub.topic, sub.owner, sub.ch)
    {
      if sub.done { return; }
      sub.done := true;
      var chs := Bucket(subs, sub.topic, sub.owner);
      for i := 0 to |chs|
        invariant forall k :: 0 <= k < i ==> chs[k] != sub.ch
      {
        if chs[i] == sub.ch {
          CutBucket(sub.topic, sub.owner, i);
          return;
        }
      }
    }

    method CutBucket(topic: string, owner: nat, i: nat)
      requires Valid() && i < |Bucket(subs, topic, owner)|
      modifies this`subs, this`slot
      ensures Valid() && slot == old(slot) - {Bucket(old(subs), topic, owner)[i]}
      ensures var chs := Bucket(old(subs), topic, owner);
              OneBucket(old(subs), subs, topic, owner, chs[..i] + chs[i + 1..])
    {
      hide SubsOk, Covered, OneBucket;
      var chs := Bucket(subs, topic, owner);
      PutCuts(subs, slot, owners.Keys, topic, owner, i);
      subs, slot := Put(subs, topic, owner, chs[..i] + chs[i + 1..]), slot - {chs[i]};
    }

    method OfferTopic(topic: string, msg: Msg)
      requires SubsOk(subs, slot) && Live(slot.Keys)
      modifies slot.Keys
      ensures Live(slot.Keys)
      ensures forall c :: c in slot ==> c.s == if slot[c].0 == topic then Sent(old(c.s), c.capacity, msg) else old(c.s)
    {
      ghost var of := map c | c in slot && slot[c].0 == topic :: slot[c].1;
      if topic in subs {
        forall o: nat | o in subs[topic] ensures BucketOk(subs[topic][o], topic, o, slot) {
          assert BucketOk(Bucket(subs, topic, o), topic, o, slot);
        }
        OfferOwners(subs[topic], msg, of);
      }
    }

    /** Publish on the given topics, or to everybody when none is given: each registered channel gets
        one non-blocking send for every time its topic is named. */
    method Publish(msg: Msg, topics: seq<string>)
      requires Valid()
      modifies slot.Keys
      ensures Valid()
      ensures forall c :: c in slot ==>
                c.s == SentTimes(old(c.s), c.capacity, msg, if topics == [] then 1 else Times(topics, slot[c].0))
    {
      hide SubsOk;
      if topics == [] { Broadcast(msg); } else { PublishOn(msg, topics); }
    }

    method Broadcast(msg: Msg)
      requires SubsOk(subs, slot) && Live(slot.Keys)
      modifies slot.Keys
      ensures Live(slot.Keys) && forall c :: c in slot ==> c.s == Sent(old(c.s), c.capacity, msg)
    {
      OwnedTopics(subs, slot);
      BroadcastTo(subs.Keys, msg);
    }

    method BroadcastTo(topics: set<string>, msg: Msg)
      requires SubsOk(subs, slot) && Live(slot.Keys)
      modifies slot.Keys
      ensures Live(slot.Keys)
      ensures forall c :: c in slot && slot[c].0 in topics ==> c.s == Sent(old(c.s), c.capacity, msg)
      ensures forall c :: c in slot && slot[c].0 !in topics ==> c.s == old(c.s)
      decreases topics
    {
      hide *;
      if topics == {} { return; }
      var topic :| topic in topics;
      OfferTopic(topic, msg);
      BroadcastTo(topics - {topic}, msg);
    }

    method PublishOn(msg: Msg, topics: seq<string>)
      requires SubsOk(subs, slot) && Live(slot.Keys)
      modifies slot.Keys
      ensures Live(slot.Keys) && forall c :: c in slot ==>
          c.s == SentTimes(old(c.s), c.capacity, msg, Times(topics, slot[c].0))
    {
      hide SubsOk, Live, Sent;
      for i := 0 to |topics|
        invariant Live(slot.Keys)
        invariant forall c :: c in slot ==> c.s == SentTimes(old(c.s), c.capacity, msg, Times(topics[..i], slot[c].0))
      {
        assert topics[..i + 1][..i] == topics[..i];
        OfferTopic(topics[i], msg);
      }
      assert topics[..|topics|] == topics;
    }

    /** Retire one owner: close and remove exactly its channels, and mark its state dead. */
    method DrainOwner(owner: nat)
      requires Valid()
      modifies this`subs, this`slot, this`owners, states, OwnedBy(slot, owner)
      ensures Valid() && owners == old(owners) - {owner}
      ensures forall st :: st in states ==>
          (st.dead <==> old(st.dead) || (owner in old(owners) && st == old(owners)[owner]))
      ensures ClearedOf(old(subs), subs, owner, old(subs).Keys)
      ensures slot == old(slot) - OwnedBy(old(slot), owner)
      ensures forall c :: c in OwnedBy(old(slot), owner) ==> c.closed && c.s == old(c.s).(waiting := 0)
    {
      hide SubsOk, Covered;
      MarkDead(owner);
      AllOwned(subs, slot, owner);
      CloseOwned(owner, subs.Keys);
      CoveredWithout(old(subs), subs, owner, old(owners).Keys);
      assert StatesOk();
      assert Live(slot.Keys);
    }

    ghost predicate StatesOk()
      reads this, states
    {
      && (forall id :: id in owners ==> owners[id] in states && owners[id].id == id && !owners[id].dead)
      && (forall st :: st in states && !st.dead ==> st.id in owners && owners[st.id] == st)
    }

    method MarkDead(owner: nat)
      requires StatesOk()
      modifies this`owners, states
      ensures StatesOk() && owners == old(owners) - {owner}
      ensures forall st :: st in states ==>
          (st.dead <==> old(st.dead) || (owner in old(owners) && st == old(owners)[owner]))
    {
      if owner in owners {
        owners[owner].dead := true;
        owners := owners - {owner};
      }
    }

    /** Close and remove the owner's channels under the given topics. */
    method CloseOwned(owner: nat, topics: set<string>)
      requires SubsOk(subs, slot) && Live(OwnedUnder(slot, owner, topics))
      modifies this`subs, this`slot, OwnedUnder(slot, owner, topics)
      ensures SubsOk(subs, slot) && ClearedOf(old(subs), subs, owner, topics)
      ensures slot == old(slot) - OwnedUnder(old(slot), owner, topics)
      ensures forall c :: c in OwnedUnder(old(slot), owner, topics) ==>
          c.Valid() && c.closed && c.s == old(c.s).(waiting := 0)
      decreases topics
    {
      hide SubsOk, OneBucket, ClearedOf, ContentsOk;
      if topics == {} {
        NoTopics(subs, slot, owner);
        return;
      }
      var topic :| topic in topics;
      ghost var before, slot0 := subs, slot;
      SlotMembers(subs, slot, topic, owner);
      SplitOwned(slot, owner, topics, topic);
      assert forall c :: c in Bucket(subs, topic, owner) ==>
          c in InSlot(slot, topic, owner) && c in OwnedUnder(slot, owner, topics);
      CloseBucket(topic, owner);
      ghost var mid := subs;
      CloseOwned(owner, topics - {topic});
      ClearOne(before, mid, subs, owner, topics, topic);
    }

    /** Retire everything: close every registered channel, forget all subscriptions and owners. */
    method Drain()
      requires Valid()
      modifies this`subs, this`slot, this`owners, states, slot.Keys
      ensures Valid() && subs == map[] && slot == map[] && owners == map[]
      ensures forall st :: st in states ==> st.dead
      ensures forall c :: c in old(slot) ==> c.closed && c.s == old(c.s).(waiting := 0)
    {
      hide SubsOk, Covered;
      CloseAll();
      subs, slot := map[], map[];
      NothingListed();
      MarkAllDead();
      assert slot.Keys == {} && owners.Keys == {};
    }

    method MarkAllDead()
      requires StatesOk()
      modifies this`owners, states
      ensures StatesOk() && owners == map[] && forall st :: st in states ==> st.dead
    {
      var ids := owners.Keys;
      while ids != {}
        invariant ids == owners.Keys && StatesOk()
        decreases ids
      {
        var id :| id in ids;
        ids := ids - {id};
        MarkDead(id);
      }
    }

    method CloseAll()
      requires SubsOk(subs, slot) && Live(slot.Keys)
      modifies slot.Keys
      ensures forall c :: c in slot ==> c.Valid() && c.closed && c.s == old(c.s).(waiting := 0)
    {
      var rest := subs.Keys;
      OwnedTopics(subs, slot);
      while rest != {}
        invariant rest <= subs.Keys
        invariant forall c :: c in slot ==>
                    c.Valid() &&
                        if slot[c].0 in rest then !c.closed && c.s == old(c.s)
                            else c.closed && c.s == old(c.s).(waiting := 0)
      {
        var topic :| topic in rest;
        rest := rest - {topic};
        CloseTopic(topic);
      }
    }

    method CloseTopic(topic: string)
      requires SubsOk(subs, slot) && topic in subs && forall c :: c in slot && slot[c].0 == topic ==>
          c.Valid() && !c.closed
      modifies set c | c in slot && slot[c].0 == topic
      ensures forall c :: c in slot && slot[c].0 == topic ==> c.Valid() && c.closed && c.s == old(c.s).(waiting := 0)
    {
      ghost var of := map c | c in slot && slot[c].0 == topic :: slot[c].1;
      TopicOwners(subs, slot, topic);
      hide SubsOk;
      CloseOwners(subs[topic], of);
      assert forall c :: c in slot && slot[c].0 == topic ==> c in of;
    }

    method CloseBucket(topic: string, owner: nat)
      requires SubsOk(subs, slot) && forall c :: c in Bucket(subs, topic, owner) ==> c.Valid() && !c.closed
      modifies this`subs, this`slot, Bucket(subs, topic, owner)
      ensures SubsOk(subs, slot) && OneBucket(old(subs), subs, topic, owner, [])
      ensures slot == old(slot) - InSlot(old(slot), topic, owner)
      ensures forall c :: c in InSlot(old(slot), topic, owner) ==>
          c.Valid() && c.closed && c.s == old(c.s).(waiting := 0)
    {
      var chs := Bucket(subs, topic, owner);
      PutClears(subs, slot, topic, owner);
      CloseSubs(chs);
      subs, slot := Put(subs, topic, owner, []), slot - InSlot(slot, topic, owner);
    }
  }

  ghost function OwnedBy(slot: map<Channel, (string, nat)>, owner: nat): (r: set<Channel>)
    ensures forall c :: c in r ==> c in slot && slot[c].1 == owner
    ensures forall c :: c in slot && slot[c].1 == owner ==> c in r
  {
    set c | c in slot && slot[c].1 == owner
  }

  ghost function InSlot(slot: map<Channel, (string, nat)>, topic: string, owner: nat): (r: set<Channel>)
    ensures forall c :: c in r ==> c in slot && slot[c] == (topic, owner)
    ensures forall c :: c in slot && slot[c] == (topic, owner) ==> c in r
  {
    set c | c in slot && slot[c] == (topic, owner)
  }

  ghost function OwnedUnder(slot: map<Channel, (string, nat)>, owner: nat, topics: set<string>): (r: set<Channel>)
    ensures forall c :: c in r ==> c in slot && slot[c].1 == owner && slot[c].0 in topics
    ensures forall c :: c in slot && slot[c].1 == owner && slot[c].0 in topics ==> c in r
  {
    set c | c in slot && slot[c].1 == owner && slot[c].0 in topics
  }

  lemma SlotMembers(subs: Subs, slot: map<Channel, (string, nat)>, topic: string, owner: nat)
    requires SubsOk(subs, slot)
    ensures forall c :: c in Bucket(subs, topic, owner) <==> c in InSlot(slot, topic, owner)
  {
    assert BucketOk(Bucket(subs, topic, owner), topic, owner, slot);
  }

  lemma SplitOwned(slot: map<Channel, (string, nat)>, owner: nat, topics: set<string>, topic: string)
    requires topic in topics
    ensures var rest := slot - InSlot(slot, topic, owner);
            && OwnedUnder(slot, owner, topics) == InSlot(slot, topic, owner) + OwnedUnder(rest, owner, topics - {topic})
            && InSlot(slot, topic, owner) !! OwnedUnder(rest, owner, topics - {topic})
            && rest - OwnedUnder(rest, owner, topics - {topic}) == slot - OwnedUnder(slot, owner, topics)
  {
  }

  lemma NothingListed()
    ensures SubsOk(map[], map[]) && Covered(map[], {})
  {
  }

  /** The buckets of one topic list exactly its channels, each under its owner. */
  lemma TopicOwners(subs: Subs, slot: map<Channel, (string, nat)>, topic: string)
    requires SubsOk(subs, slot) && topic in subs
    ensures forall o :: o in subs[topic] ==> NoRepeats(subs[topic][o])
    ensures forall o, c :: o in subs[topic] ==> (c in subs[topic][o] <==> c in slot && slot[c] == (topic, o))
    ensures forall c :: c in slot && slot[c].0 == topic ==> slot[c].1 in subs[topic]
  {
    forall o: nat | o in subs[topic]
      ensures NoRepeats(subs[topic][o]) && forall c :: c in subs[topic][o] <==> c in slot && slot[c] == (topic, o)
    {
      assert BucketOk(Bucket(subs, topic, o), topic, o, slot);
    }
  }

  lemma AllOwned(subs: Subs, slot: map<Channel, (string, nat)>, owner: nat)
    requires SubsOk(subs, slot)
    ensures OwnedUnder(slot, owner, subs.Keys) == OwnedBy(slot, owner)
  {
    OwnedTopics(subs, slot);
  }

  lemma CoveredWithout(before: Subs, after: Subs, owner: nat, ids: set<nat>)
    requires Covered(before, ids) && ClearedOf(before, after, owner, before.Keys)
    ensures Covered(after, ids - {owner})
  {
  }

  /** Under the given topics the owner's buckets are gone; every other bucket is as before. */
  ghost predicate ClearedOf(before: Subs, after: Subs, owner: nat, topics: set<string>) {
    forall t: string, o: nat :: Bucket(after, t, o) == if o == owner && t in topics then [] else Bucket(before, t, o)
  }

  lemma ClearOne(before: Subs, mid: Subs, after: Subs, owner: nat, topics: set<string>, topic: string)
    requires OneBucket(before, mid, topic, owner, []) && ClearedOf(mid, after, owner, topics - {topic})
    requires topic in topics
    ensures ClearedOf(before, after, owner, topics)
  {
  }

  lemma NoTopics(subs: Subs, slot: map<Channel, (string, nat)>, owner: nat)
    ensures ClearedOf(subs, subs, owner, {}) && OwnedUnder(slot, owner, {}) == {}
    ensures slot == slot - OwnedUnder(slot, owner, {})
  {
  }

  lemma OwnedTopics(subs: Subs, slot: map<Channel, (string, nat)>)
    requires SubsOk(subs, slot)
    ensures forall c :: c in slot ==> slot[c].0 in subs
  {
  }

  lemma CutOne(chs: seq<Channel>, i: nat, rest: seq<Channel>)
    requires i < |chs| && NoRepeats(chs) && rest == chs[..i] + chs[i + 1..]
    ensures NoRepeats(rest) && forall c :: c in rest <==> c in chs && c != chs[i]
  {
    forall c | c in chs && c != chs[i] ensures c in rest {
      var k :| 0 <= k < |chs| && chs[k] == c;
      assert c == if k < i then rest[k] else rest[k - 1];
    }
  }
}

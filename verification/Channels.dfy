/** Buffered channels with non-blocking sends, as the messenger uses them. */
module Channels {
  type Msg = string

  /** One message addressed to a channel: taken, or lost because no receiver waited and the buffer
      was full at that moment. */
  datatype Offer = Offer(msg: Msg, full: bool)

  function Taken(offers: seq<Offer>): seq<Msg> {
    if offers == [] then []
    else
      var front := Taken(offers[..|offers| - 1]);
      if offers[|offers| - 1].full then front else front + [offers[|offers| - 1].msg]
  }

  /** sub is an in-order subsequence of all. */
  ghost predicate Subsequence(sub: seq<Msg>, all: seq<Msg>) {
    sub == [] || (all != [] && (Subsequence(sub, all[..|all| - 1])
                               || (sub[|sub| - 1] == all[|all| - 1] &&
                                    Subsequence(sub[..|sub| - 1], all[..|all| - 1]))))
  }

  function Addressed(offers: seq<Offer>): (msgs: seq<Msg>)
    ensures |msgs| == |offers| && forall i :: 0 <= i < |offers| ==> msgs[i] == offers[i].msg
  {
    seq(|offers|, i requires 0 <= i < |offers| => offers[i].msg)
  }

  /** What was taken is an in-order subsequence of what was addressed. */
  lemma {:induction false} TakenInOrder(offers: seq<Offer>)
    ensures Subsequence(Taken(offers), Addressed(offers))
  {
    if offers != [] {
      var front := offers[..|offers| - 1];
      TakenInOrder(front);
      assert Addressed(offers)[..|offers| - 1] == Addressed(front);
      var taken := Taken(offers);
      if !offers[|offers| - 1].full { assert taken[..|taken| - 1] == Taken(front); }
    }
  }

  datatype Contents = Contents(buffer: seq<Msg>, waiting: nat, received: seq<Msg>, offers: seq<Offer>)

  ghost predicate ContentsOk(s: Contents, capacity: nat) {
    && |s.buffer| <= capacity && (s.waiting > 0 ==> s.buffer == [])
    && Taken(s.offers) == s.received + s.buffer
  }

  /** The effect of one non-blocking send: hand over to a waiting receiver, buffer, or drop. */
  function Sent(s: Contents, capacity: nat, msg: Msg): Contents {
    if s.waiting > 0 then
      s.(waiting := s.waiting - 1, received := s.received + [msg], offers := s.offers + [Offer(msg, false)])
    else if |s.buffer| < capacity then s.(buffer := s.buffer + [msg], offers := s.offers + [Offer(msg, false)])
    else s.(offers := s.offers + [Offer(msg, true)])
  }

  function SentTimes(s: Contents, capacity: nat, msg: Msg, n: nat): Contents {
    if n == 0 then s else Sent(SentTimes(s, capacity, msg, n - 1), capacity, msg)
  }

  lemma SentOk(s: Contents, capacity: nat, msg: Msg)
    requires ContentsOk(s, capacity)
    ensures ContentsOk(Sent(s, capacity, msg), capacity)
  {
    var t := Sent(s, capacity, msg);
    assert t.offers[..|s.offers|] == s.offers;
  }

  class Channel {
    const capacity: nat
    var s: Contents
    var closed: bool

    ghost predicate Valid()
      reads this
    {
      ContentsOk(s, capacity) && (closed ==> s.waiting == 0)
    }

    constructor (capacity: nat)
      ensures Valid() && !closed && this.capacity == capacity && s == Contents([], 0, [], [])
    {
      this.capacity := capacity;
      s, closed := Contents([], 0, [], []), false;
    }

    /** Sending on a closed channel panics, so the caller must know that it is open. */
    method TrySend(msg: Msg)
      requires Valid() && !closed
      modifies this`s
      ensures Valid() && s == Sent(old(s), capacity, msg)
      // Lost exactly when the buffer is full and nobody waits.
      ensures s.offers == old(s.offers) + [Offer(msg, |old(s).buffer| == capacity && old(s).waiting == 0)]
    {
      SentOk(s, capacity, msg);
      s := Sent(s, capacity, msg);
    }

    /** Closing a closed channel panics. What is buffered stays receivable. */
    method Close()
      requires Valid() && !closed
      modifies this
      ensures Valid() && closed && s == old(s).(waiting := 0)
    {
      closed, s := true, s.(waiting := 0);
    }

    /** A receiver takes the oldest buffered message, observes the close, or starts to wait. */
    method Receive() returns (msg: Msg, got: bool)
      requires Valid()
      modifies this`s
      ensures Valid() && s.offers == old(s.offers)
      ensures got <==> old(s).buffer != []
      ensures got ==> msg == old(s).buffer[0] && s.received == old(s).received + [msg] && s.buffer == old(s).buffer[1..]
      ensures !got ==> s.received == old(s).received && s.buffer == []
      ensures s.waiting == old(s).waiting + (if !got && !closed then 1 else 0)
    {
      if s.buffer != [] {
        assert s.received + s.buffer == s.received + [s.buffer[0]] + s.buffer[1..];
        msg, got := s.buffer[0], true;
        s := s.(received := s.received + [msg], buffer := s.buffer[1..]);
      } else {
        msg, got := "", false;
        if !closed { s := s.(waiting := s.waiting + 1); }
      }
    }

    /** A waiting receiver gives up, for instance because its context ended. */
    method StopWaiting()
      requires Valid() && s.waiting > 0
      modifies this`s
      ensures Valid() && s == old(s).(waiting := old(s).waiting - 1)
    {
      s := s.(waiting := s.waiting - 1);
    }

    /** What a subscriber got and will get is an in-order part of what was addressed to it, and a
        message is missing from it only if it came while the buffer was full and nobody waited. */
    lemma DeliveryInOrder()
      requires Valid()
      ensures Subsequence(s.received + s.buffer, Addressed(s.offers)) && |s.buffer| <= capacity
      ensures (forall o :: o in s.offers ==> !o.full) ==> s.received + s.buffer == Addressed(s.offers)
    {
      TakenInOrder(s.offers);
      NothingLost(s.offers);
    }
  }

  lemma {:induction false} NothingLost(offers: seq<Offer>)
    ensures (forall o :: o in offers ==> !o.full) ==> Taken(offers) == Addressed(offers)
  {
    if offers != [] {
      NothingLost(offers[..|offers| - 1]);
      assert offers == offers[..|offers| - 1] + [offers[|offers| - 1]];
    }
  }
}

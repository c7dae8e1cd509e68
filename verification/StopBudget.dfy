/** The deadline of a stop, in whole nanoseconds: one budget for a cascade, half of what is left for
    each before-stop hook. User code may take any time, or never return. */
module StopBudget {
  import opened Registry

  /** How one service behaves: durations of its before-stop hook, its Stop and its after-stop hook, its
      own cap on Stop, and the moment its exit channel closes. None stands for never, and for no cap. */
  datatype Behaviour =
    Behaviour(hook: Option<nat>, stop: Option<nat>, after: Option<nat>, cap: Option<nat>, awaited: bool,
        exit: Option<nat>)

  /** When an entry's Stop was called, when its sequence timer would fire, when the entry was through, and
      whether its stop was verified. None stands for never. */
  datatype Outcome = Outcome(begun: nat, stopAt: Option<nat>, timer: Option<nat>, end: Option<nat>, completed: bool)

  function Min(a: nat, b: nat): nat {
    if a <= b then a else b
  }

  function Max(a: int, b: int): int {
    if a >= b then a else b
  }

  /** Both events, one after the other, or never. */
  function Then(a: Option<nat>, b: Option<nat>): Option<nat> {
    if a.Some? && b.Some? then Some(a.value + b.value) else None
  }

  /** A wait cut off at a limit, if there is one. */
  function Until(event: Option<nat>, limit: Option<nat>): Option<nat> {
    if event.Some? && limit.Some? then Some(Min(event.value, limit.value)) else if event.Some? then event else limit
  }

  predicate By(event: Option<nat>, limit: Option<nat>) {
    event.Some? && (limit.Some? ==> event.value <= limit.value)
  }

  function Remaining(now: nat, deadline: nat): (r: nat)
    ensures r >= 1 && (now < deadline ==> now + r == deadline)
  {
    if deadline <= now then 1 else deadline - now
  }

  /** Left to itself, the sequence comes to an end: nothing in it hangs. */
  predicate Ends(b: Behaviour) {
    b.hook.Some? && (b.stop.Some? || b.cap.Some?) && b.after.Some?
  }

  /** The same of the whole stop. */
  predicate Returns(b: Behaviour) {
    Ends(b) && (b.awaited ==> b.exit.Some?)
  }

  /** Left to itself, the stop is verified: its own Stop also keeps to its cap. */
  predicate Verifies(b: Behaviour) {
    Returns(b) && By(b.stop, b.cap)
  }

  /** How long the sequence takes that nothing cuts off but the cap on its Stop. */
  function Took(b: Behaviour): nat
    requires Ends(b)
  {
    b.hook.value + (if By(b.stop, b.cap) then b.stop.value else b.cap.value) + b.after.value
  }

  /** The hook keeps to half of the time left, hook and Stop together to all of it. */
  predicate Fits(left: nat, b: Behaviour)
    requires Ends(b)
  {
    b.hook.value <= left / 2 && Took(b) <= left
  }

  /** The hook keeps to half of what is left, hooks and Stop together to all of it, and the instance is gone
      by the deadline, or by the end of the sequence. */
  predicate InBudget(now: nat, deadline: nat, b: Behaviour)
    requires Verifies(b)
  {
    Fits(Remaining(now, deadline), b) && (b.awaited ==> b.exit.value <= Max(deadline, now + Took(b)))
  }

  /** When an entry is through whose sequence ends at over: then, or at its exit, if it is awaited and exits
      later. */
  function Through(over: nat, b: Behaviour): nat
    requires b.awaited ==> b.exit.Some?
  {
    if b.awaited then Max(over, b.exit.value) else over
  }

  /** How long its before-stop hook may take of the time left. */
  function HookShare(left: nat, b: Behaviour): nat {
    if b.hook.Some? then Min(b.hook.value, left / 2) else left / 2
  }

  /** How long the sequence takes with so much time left: its hook is cut off at half of it, its Stop at its cap,
      and all of it at the end. */
  function Lasts(left: nat, b: Behaviour): (r: nat)
    ensures r <= left
  {
    var ran := if By(b.stop, b.cap) then b.stop else b.cap;
    if ran.None? || b.after.None? then left else Min(HookShare(left, b) + ran.value + b.after.value, left)
  }

  /** The stop sequence of one entry against its timer (stopOneServiceDeadline); o.end is when it is over. */
  method RunSequence(now: nat, deadline: Option<nat>, b: Behaviour) returns (o: Outcome)
    ensures o.begun == now
    ensures deadline.Some? ==>
              var left := Remaining(now, deadline.value);
              && o.timer == Some(now + left) && o.stopAt == Some(now + HookShare(left, b))
              && o.stopAt.value < o.timer.value && o.end == Some(now + Lasts(left, b))
    ensures deadline.None? ==> (o.end.Some? <==> Ends(b)) && (Ends(b) ==> o.end == Some(now + Took(b)))
    ensures o.completed <==>
              Ends(b) && By(b.stop, b.cap) && (deadline.Some? ==> Fits(Remaining(now, deadline.value), b))
  {
    var timer: Option<nat>, hookDeadline: Option<nat> := None, None;
    if deadline.Some? {
      var remaining: int := deadline.value - now;
      if remaining <= 0 { remaining := 1; }
      timer, hookDeadline := Some(now + remaining), Some(now + remaining / 2);
    }
    var hookEnd := Then(Some(now), b.hook);
    var hooked := By(hookEnd, hookDeadline);
    var stopAt := Until(hookEnd, hookDeadline);
    var returned := By(b.stop, b.cap);
    var stopEnd := Then(stopAt, if returned then b.stop else b.cap);
    var over := Then(stopEnd, b.after);
    o := Outcome(now, stopAt, timer, Until(over, timer), hooked && returned && By(over, timer));
  }

  /** When a wait from now on for the exit ends: at the exit, but no later than the deadline, and not before now. */
  function Awaited(now: nat, deadline: Option<nat>, b: Behaviour): Option<nat> {
    if !b.awaited then Some(now)
    else
      var latest := if deadline.Some? then Some(Max(now, deadline.value) as nat) else None;
      if b.exit.None? then latest
      else if latest.None? then Some(Max(now, b.exit.value))
      else Some(Max(now, Min(b.exit.value, latest.value)))
  }

  /** The wait for the exit channel (awaitDone). */
  method AwaitDone(now: nat, deadline: Option<nat>, b: Behaviour) returns (end: Option<nat>, exited: bool)
    ensures end == Awaited(now, deadline, b)
    ensures exited <==> !b.awaited || (b.exit.Some? && (deadline.Some? ==> b.exit.value <= Max(now, deadline.value)))
  {
    end, exited := Some(now), true;
    if b.awaited {
      var limit := if deadline.Some? && deadline.value <= now then end else deadline;
      exited := By(b.exit, limit);
      if !By(b.exit, end) { end := Until(b.exit, limit); }
    }
  }

  /** One entry: its sequence, then the wait for its exit; without a deadline everything is waited for. */
  method StopEntry(now: nat, deadline: Option<nat>, b: Behaviour) returns (o: Outcome)
    ensures o.begun == now
    ensures deadline.Some? ==>
              var left := Remaining(now, deadline.value);
              && o.timer == Some(now + left) && o.stopAt == Some(now + HookShare(left, b))
              && o.stopAt.value < o.timer.value
              && o.end == Awaited(now + Lasts(left, b), deadline, b)
    ensures deadline.None? ==>
              (o.end.Some? <==> Returns(b)) && (Returns(b) ==> o.end == Some(Through(now + Took(b), b)))
    ensures o.completed <==> Verifies(b) && (deadline.Some? ==> InBudget(now, deadline.value, b))
  {
    o := RunSequence(now, deadline, b);
    if o.end.Some? {
      var end, exited := AwaitDone(o.end.value, deadline, b);
      o := o.(end := end, completed := o.completed && exited);
    }
  }

  /** A verified stop takes no longer than it needs: it ends when its hook, its Stop and its after-hook are
      over, or at its exit. */
  lemma VerifiedIsPrompt(now: nat, deadline: nat, b: Behaviour)
    requires Verifies(b) && InBudget(now, deadline, b)
    ensures Lasts(Remaining(now, deadline), b) == Took(b)
    ensures Awaited(now + Took(b), Some(deadline), b) == Some(Through(now + Took(b), b))
  {
  }

  /** More time never hurts, and no deadline at all is the limit of more time: a stop is verified without a
      deadline exactly when it is verified with some deadline, and then with every later one. */
  lemma MoreTimeHelps(now: nat, deadline: nat, later: nat, b: Behaviour)
    requires Verifies(b) && InBudget(now, deadline, b) && deadline <= later
    ensures InBudget(now, later, b)
  {
  }

  lemma SomeDeadlineSuffices(now: nat, b: Behaviour) returns (deadline: nat)
    requires Verifies(b)
    ensures now < deadline && InBudget(now, deadline, b)
  {
    deadline := now + 1 + 2 * (b.hook.value + b.stop.value + b.after.value) + if b.awaited then b.exit.value else 0;
  }

  /** When the entry before the k-th was through. */
  function EndBefore(start: nat, outcomes: seq<Outcome>, k: nat): Option<nat>
    requires k <= |outcomes|
  {
    if k == 0 then Some(start) else outcomes[k - 1].end
  }

  /** What is known of one stop: its Stop was invoked before its timer fired, it ended when it should, and it was
      verified as far as durations and deadline allow. */
  predicate StopOk(deadline: Option<nat>, b: Behaviour, o: Outcome) {
    && (deadline.Some? ==>
          && o.stopAt.Some? && o.timer.Some? && o.begun <= o.stopAt.value < o.timer.value
          && o.end == Awaited(o.begun + Lasts(Remaining(o.begun, deadline.value), b), deadline, b))
    && (deadline.None? ==>
          (o.end.Some? <==> Returns(b)) && (Returns(b) ==> o.end == Some(Through(o.begun + Took(b), b))))
    && (o.completed <==> Verifies(b) && (deadline.Some? ==> InBudget(o.begun, deadline.value, b)))
  }

  /** Each stop made so far was begun when the one before it was through. */
  predicate InTurn(start: nat, deadline: Option<nat>, entries: seq<Behaviour>, outcomes: seq<Outcome>) {
    && |outcomes| <= |entries|
    && forall i :: 0 <= i < |outcomes| ==>
         EndBefore(start, outcomes, i) == Some(outcomes[i].begun) && StopOk(deadline, entries[i], outcomes[i])
  }

  lemma NoneInTurn(start: nat, deadline: Option<nat>, entries: seq<Behaviour>)
    ensures InTurn(start, deadline, entries, [])
  {
  }

  lemma NextInTurn(start: nat, deadline: Option<nat>, entries: seq<Behaviour>, outcomes: seq<Outcome>, o: Outcome)
    requires InTurn(start, deadline, entries, outcomes) && |outcomes| < |entries|
    requires EndBefore(start, outcomes, |outcomes|) == Some(o.begun) && StopOk(deadline, entries[|outcomes|], o)
    ensures InTurn(start, deadline, entries, outcomes + [o])
    ensures EndBefore(start, outcomes + [o], |outcomes| + 1) == o.end
  {
    hide StopOk;
    assert forall k :: 0 <= k <= |outcomes| ==> EndBefore(start, outcomes + [o], k) == EndBefore(start, outcomes, k);
  }

  /** The stop loop of a teardown: every entry in order, against one deadline. It ends no later than the
      deadline plus one nanosecond for each entry; without a deadline it ends exactly when no stop hangs. */
  method StopCascade(start: nat, deadline: Option<nat>, entries: seq<Behaviour>)
      returns (end: Option<nat>, outcomes: seq<Outcome>)
    ensures InTurn(start, deadline, entries, outcomes) && end == EndBefore(start, outcomes, |outcomes|)
    ensures deadline.Some? ==>
              |outcomes| == |entries| && end.Some? && end.value <= Max(start, deadline.value) + |entries|
    ensures deadline.None? ==> (end.Some? <==> forall i :: 0 <= i < |entries| ==> Returns(entries[i]))
    ensures end.Some? ==> |outcomes| == |entries|
  {
    hide Returns, Verifies, InBudget, InTurn, Lasts;
    end, outcomes := Some(start), [];
    assert InTurn(start, deadline, entries, outcomes) by { NoneInTurn(start, deadline, entries); }
    while |outcomes| < |entries| && end.Some?
      invariant |outcomes| <= |entries| && InTurn(start, deadline, entries, outcomes)
      invariant end == EndBefore(start, outcomes, |outcomes|)
      invariant deadline.Some? ==> end.Some? && end.value <= Max(start, deadline.value) + |outcomes|
      invariant deadline.None? && end.Some? ==> forall i :: 0 <= i < |outcomes| ==> Returns(entries[i])
      invariant end.None? ==> |outcomes| > 0 && !Returns(entries[|outcomes| - 1])
      decreases |entries| - |outcomes|
    {
      var o := StopEntry(end.value, deadline, entries[|outcomes|]);
      NextInTurn(start, deadline, entries, outcomes, o);
      outcomes, end := outcomes + [o], o.end;
    }
  }

  predicate AllReturn(entries: seq<Behaviour>) {
    forall i :: 0 <= i < |entries| ==> Returns(entries[i])
  }

  /** How long all the sequences take, one after the other. */
  function Span(entries: seq<Behaviour>): nat
    requires AllReturn(entries)
  {
    if entries == [] then 0 else Span(entries[..|entries| - 1]) + Took(entries[|entries| - 1])
  }

  /** When the last of the awaited instances has exited. */
  function LastExit(start: nat, entries: seq<Behaviour>): nat
    requires AllReturn(entries)
  {
    if entries == [] then start
    else Through(LastExit(start, entries[..|entries| - 1]), entries[|entries| - 1])
  }

  lemma {:induction false} PartOfSpan(start: nat, entries: seq<Behaviour>, k: nat)
    requires AllReturn(entries) && k < |entries|
    ensures Span(entries[..k]) + Took(entries[k]) <= Span(entries)
    ensures Through(LastExit(start, entries[..k]), entries[k]) <= LastExit(start, entries)
  {
    var front := entries[..|entries| - 1];
    if k < |front| {
      assert front[..k] == entries[..k];
      PartOfSpan(start, front, k);
    }
  }

  /** The k-th stop begins no later than the stops before it take, even if each is held up by its exit. */
  lemma {:induction false} BegunInTime(start: nat, deadline: nat, entries: seq<Behaviour>, outcomes: seq<Outcome>,
      k: nat)
    requires InTurn(start, Some(deadline), entries, outcomes) && AllReturn(entries) && k < |outcomes|
    ensures outcomes[k].begun <= LastExit(start, entries[..k]) + Span(entries[..k])
  {
    if k > 0 {
      BegunInTime(start, deadline, entries, outcomes, k - 1);
      assert entries[..k][..k - 1] == entries[..k - 1];
      assert StopOk(Some(deadline), entries[k - 1], outcomes[k - 1]);
      EndsInTime(outcomes[k - 1].begun, deadline, entries[k - 1]);
      assert EndBefore(start, outcomes, k) == Some(outcomes[k].begun);
    }
  }

  lemma EndsInTime(now: nat, deadline: nat, b: Behaviour)
    requires Returns(b)
    ensures var end := Awaited(now + Lasts(Remaining(now, deadline), b), Some(deadline), b);
      end.Some? && end.value <= Through(now + Took(b), b)
  {
  }

  /** One deadline is enough for a whole cascade in which nothing hangs: if it leaves twice the time that all the
      sequences take, counted from the last exit, every well-behaved entry is verified. */
  lemma CascadeIsVerified(start: nat, deadline: nat, entries: seq<Behaviour>, outcomes: seq<Outcome>, k: nat)
    requires InTurn(start, Some(deadline), entries, outcomes) && AllReturn(entries) && k < |outcomes|
    requires deadline > LastExit(start, entries) + 2 * Span(entries)
    ensures Verifies(entries[k]) ==> outcomes[k].completed
  {
    BegunInTime(start, deadline, entries, outcomes, k);
    PartOfSpan(start, entries, k);
    assert StopOk(Some(deadline), entries[k], outcomes[k]);
  }
}

/** Owner ids between the entries and the root messenger, with every lock taken separately. */
module Owners {
  /** A thread inside newOwner, releaseOwner or drainService. */
  datatype Task =
    | Minting(entry: nat, id: nat)
    | Adding(entry: nat, id: nat)
    | Draining(ids: set<nat>)

  /** live is the root's owner map, listed the owner set of each entry. home and drained are history:
      which entry an id was recorded on, and which ids the root has retired. */
  datatype State = State(
    seqNo: nat, live: set<nat>, listed: map<nat, set<nat>>, tasks: map<nat, Task>, home: map<nat, nat>,
    drained: set<nat>)

  function Init(): State {
    State(0, {}, map[], map[], map[], {})
  }

  function Listed(s: State, entry: nat): set<nat> {
    if entry in s.listed then s.listed[entry] else {}
  }

  datatype Step =
    | Mint(t: nat, entry: nat)
    | Register(t: nat)
    | Record(t: nat)
    | Release(t: nat, entry: nat, id: nat)
    | TakeAll(t: nat, entry: nat)
    | Drain(t: nat, id: nat)
    | Finish(t: nat)

  /** An instance or tick releases the id that newOwner returned to it, for the same entry. */
  predicate Can(s: State, a: Step) {
    match a
    case Mint(t, _) => t !in s.tasks
    case Register(t) => t in s.tasks && s.tasks[t].Minting?
    case Record(t) => t in s.tasks && s.tasks[t].Adding?
    case Release(t, entry, id) => t !in s.tasks && id in s.home && s.home[id] == entry
    case TakeAll(t, _) => t !in s.tasks
    case Drain(t, id) => t in s.tasks && s.tasks[t].Draining? && id in s.tasks[t].ids
    case Finish(t) => t in s.tasks && s.tasks[t] == Draining({})
  }

  function Do(s: State, a: Step): State
    requires Can(s, a)
  {
    match a
    case Mint(t, entry) => s.(seqNo := s.seqNo + 1, tasks := s.tasks[t := Minting(entry, s.seqNo + 1)])
    case Register(t) =>
      s.(live := s.live + {s.tasks[t].id}, tasks := s.tasks[t := Adding(s.tasks[t].entry, s.tasks[t].id)])
    case Record(t) =>
      var entry, id := s.tasks[t].entry, s.tasks[t].id;
      s.(listed := s.listed[entry := Listed(s, entry) + {id}], home := s.home[id := entry], tasks := s.tasks - {t})
    case Release(t, entry, id) =>
      s.(listed := s.listed[entry := Listed(s, entry) - {id}], tasks := s.tasks[t := Draining({id})])
    case TakeAll(t, entry) => s.(listed := s.listed[entry := {}], tasks := s.tasks[t := Draining(Listed(s, entry))])
    case Drain(t, id) =>
      s.(live := s.live - {id}, drained := s.drained + {id}, tasks := s.tasks[t := Draining(s.tasks[t].ids - {id})])
    case Finish(t) => s.(tasks := s.tasks - {t})
  }

  predicate Pending(task: Task) {
    task.Minting? || task.Adding?
  }

  /** A drawn id is on its way into the root map and then onto its entry, and nobody else has it. */
  ghost predicate PendingOk(s: State) {
    && (forall t :: t in s.tasks && Pending(s.tasks[t]) ==>
          var id := s.tasks[t].id;
          id <= s.seqNo && id !in s.home && id !in s.drained && (id in s.live <==> s.tasks[t].Adding?))
    && (forall t, u :: t in s.tasks && u in s.tasks && Pending(s.tasks[t]) && Pending(s.tasks[u]) ==>
          s.tasks[t].id == s.tasks[u].id ==> t == u)
  }

  /** What an entry lists is live and listed nowhere else. */
  ghost predicate ListedOk(s: State) {
    forall entry, id :: id in Listed(s, entry) ==> id in s.live && id in s.home && s.home[id] == entry
  }

  /** Ids that a thread is about to drain have left their entry before. */
  ghost predicate DrainingOk(s: State) {
    forall t, id :: t in s.tasks && s.tasks[t].Draining? && id in s.tasks[t].ids ==>
        id in s.home && id !in Listed(s, s.home[id])
  }

  ghost predicate BeingDrained(s: State, id: nat) {
    exists t :: t in s.tasks && s.tasks[t].Draining? && id in s.tasks[t].ids
  }

  ghost predicate BeingAdded(s: State, id: nat) {
    exists t :: t in s.tasks && s.tasks[t].Adding? && s.tasks[t].id == id
  }

  /** A live id is on its way to an entry, listed by it, or on its way out. */
  ghost predicate LiveOk(s: State) {
    && (forall id :: id in s.live ==> id <= s.seqNo && id !in s.drained)
    && (forall id :: id in s.home ==> id <= s.seqNo)
    && (forall id :: id in s.drained ==> id in s.home)
    && (forall id :: id in s.live ==> if id in s.home then id in Listed(s, s.home[id]) || BeingDrained(s, id)
         else BeingAdded(s, id))
  }

  ghost predicate Inv(s: State) {
    PendingOk(s) && ListedOk(s) && DrainingOk(s) && LiveOk(s)
  }

  lemma StepListed(s: State, a: Step)
    requires Inv(s) && Can(s, a)
    ensures ListedOk(Do(s, a)) && DrainingOk(Do(s, a))
  {
    hide LiveOk;
    assert a.Drain? ==> a.id in s.home && a.id !in Listed(s, s.home[a.id]);
    assert a.Record? ==> s.tasks[a.t].id !in s.home && s.tasks[a.t].id in s.live;
    var f := Do(s, a);
    forall entry, id | id in Listed(f, entry) ensures id in f.live && id in f.home && f.home[id] == entry {
      assert id in Listed(s, entry) || (a.Record? && s.tasks[a.t].id == id && s.tasks[a.t].entry == entry);
    }
  }

  lemma StepPending(s: State, a: Step)
    requires Inv(s) && Can(s, a)
    ensures PendingOk(Do(s, a))
  {
    hide ListedOk, Listed, BeingDrained, BeingAdded;
    assert a.Drain? ==> a.id in s.home;
  }

  /** Other threads keep what they have in hand. */
  lemma StepKeepsTasks(s: State, a: Step, u: nat)
    requires Can(s, a) && u in s.tasks && u != a.t
    ensures u in Do(s, a).tasks && Do(s, a).tasks[u] == s.tasks[u]
  {
  }

  lemma StepLive(s: State, a: Step, id: nat)
    requires Inv(s) && Can(s, a) && id in Do(s, a).live
    ensures var f := Do(s, a);
      if id in f.home then id in Listed(f, f.home[id]) || BeingDrained(f, id) else BeingAdded(f, id)
  {
    var f := Do(s, a);
    if id !in s.live {
      assert f.tasks[a.t].Adding? && f.tasks[a.t].id == id;
    } else if id in s.home {
      if id !in Listed(s, s.home[id]) {
        var u :| u in s.tasks && s.tasks[u].Draining? && id in s.tasks[u].ids;
        if u != a.t { StepKeepsTasks(s, a, u); }
        assert u in f.tasks && f.tasks[u].Draining? && id in f.tasks[u].ids;
      } else if id !in Listed(f, f.home[id]) {
        assert a.t in f.tasks && f.tasks[a.t].Draining? && id in f.tasks[a.t].ids;
      }
    } else {
      var u :| u in s.tasks && s.tasks[u].Adding? && s.tasks[u].id == id;
      if u != a.t {
        StepKeepsTasks(s, a, u);
        assert u in f.tasks && f.tasks[u].Adding? && f.tasks[u].id == id;
      }
    }
  }

  lemma StepInv(s: State, a: Step)
    requires Inv(s) && Can(s, a)
    ensures Inv(Do(s, a))
  {
    StepListed(s, a);
    StepPending(s, a);
    forall id | id in Do(s, a).live
      ensures var f := Do(s, a);
        if id in f.home then id in Listed(f, f.home[id]) || BeingDrained(f, id) else BeingAdded(f, id)
    {
      StepLive(s, a, id);
    }
  }

  ghost predicate Run(run: seq<State>, steps: seq<Step>) {
    && |run| == |steps| + 1 && run[0] == Init()
    && forall i :: 0 <= i < |steps| ==> Can(run[i], steps[i]) && run[i + 1] == Do(run[i], steps[i])
  }

  lemma {:induction false} RunInv(run: seq<State>, steps: seq<Step>, n: nat)
    requires Run(run, steps) && n < |run|
    ensures Inv(run[n])
  {
    if n > 0 {
      RunInv(run, steps, n - 1);
      StepInv(run[n - 1], steps[n - 1]);
    }
  }

  /** In every state: what an entry lists is live in the root map, and no id is listed twice. */
  lemma ListedIsLive(run: seq<State>, steps: seq<Step>, n: nat, d: nat, e: nat, id: nat)
    requires Run(run, steps) && n < |run| && id in Listed(run[n], d)
    ensures id in run[n].live && (id in Listed(run[n], e) ==> e == d)
  {
    RunInv(run, steps, n);
  }

  /** A drained id is dead for good, and no entry lists it again. */
  lemma {:induction false} DrainedStaysDead(run: seq<State>, steps: seq<Step>, m: nat, n: nat, id: nat)
    requires Run(run, steps) && m <= n < |run| && id in run[m].drained
    ensures id in run[n].drained && id !in run[n].live && forall e :: id !in Listed(run[n], e)
  {
    RunInv(run, steps, n);
    if m < n {
      DrainedStaysDead(run, steps, m, n - 1, id);
      KeepsDrained(run[n - 1], steps[n - 1], id);
    }
  }

  lemma KeepsDrained(s: State, a: Step, id: nat)
    requires Can(s, a) && id in s.drained
    ensures id in Do(s, a).drained
  {
  }

  /** With no thread in between, the root map holds exactly what the entries list: the two never diverge. */
  lemma RestIsExact(run: seq<State>, steps: seq<Step>, n: nat, id: nat)
    requires Run(run, steps) && n < |run| && run[n].tasks == map[]
    ensures id in run[n].live <==> exists e :: id in Listed(run[n], e)
  {
    RunInv(run, steps, n);
    var s := run[n];
    if id in s.live {
      assert !BeingDrained(s, id) && !BeingAdded(s, id);
      assert id in Listed(s, s.home[id]);
    }
  }

  /** The thread has drawn this id for this entry and not recorded it yet. */
  predicate Drawing(s: State, t: nat, entry: nat, id: nat) {
    t in s.tasks && (s.tasks[t] == Minting(entry, id) || s.tasks[t] == Adding(entry, id))
  }

  lemma {:induction false} StaysDrawing(run: seq<State>, steps: seq<Step>, m: nat, n: nat, t: nat, entry: nat, id: nat)
    requires Run(run, steps) && m <= n < |run| && Drawing(run[m], t, entry, id)
    requires forall k :: m <= k < n ==> steps[k] != Record(t)
    ensures Drawing(run[n], t, entry, id)
  {
    if m < n {
      StaysDrawing(run, steps, m, n - 1, t, entry, id);
      if steps[n - 1].t != t { StepKeepsTasks(run[n - 1], steps[n - 1], t); }
    }
  }

  /** newOwner hands out an id that nobody ever had, and when it returns the entry it was called for lists that id,
      live, whatever else ran meanwhile. */
  lemma NewOwnerIsListed(run: seq<State>, steps: seq<Step>, m: nat, n: nat, t: nat, entry: nat)
    requires Run(run, steps) && m < n < |steps| && steps[m] == Mint(t, entry) && steps[n] == Record(t)
    requires forall k :: m < k < n ==> steps[k] != Record(t)
    ensures var id := run[m].seqNo + 1;
      && id !in run[m].live && id !in run[m].home && id !in run[m].drained
      && id in run[n + 1].live && id in Listed(run[n + 1], entry)
  {
    var id := run[m].seqNo + 1;
    RunInv(run, steps, m);
    assert run[m + 1] == Do(run[m], steps[m]);
    StaysDrawing(run, steps, m + 1, n, t, entry, id);
    RunInv(run, steps, n);
    assert Can(run[n], steps[n]) && run[n + 1] == Do(run[n], steps[n]);
  }

  /** The thread is retiring these ids: what it has not drained yet it has still in hand. */
  ghost predicate Retiring(s: State, t: nat, ids: set<nat>) {
    t in s.tasks && s.tasks[t].Draining? && forall id :: id in ids ==> id in s.drained || id in s.tasks[t].ids
  }

  lemma {:induction false} StaysRetiring(run: seq<State>, steps: seq<Step>, m: nat, n: nat, t: nat, ids: set<nat>)
    requires Run(run, steps) && m <= n < |run| && Retiring(run[m], t, ids)
    requires forall k :: m <= k < n ==> steps[k] != Finish(t)
    ensures Retiring(run[n], t, ids)
  {
    if m < n {
      StaysRetiring(run, steps, m, n - 1, t, ids);
      var s, a := run[n - 1], steps[n - 1];
      if a.t != t { StepKeepsTasks(s, a, t); }
      forall id | id in s.drained ensures id in Do(s, a).drained { KeepsDrained(s, a, id); }
    }
  }

  /** releaseOwner retires the id of the exit, drainService every id that the entry listed when it came: they leave
      the entry at once, and when the call returns they are dead in the root map, for good. */
  lemma ReleaseRetires(run: seq<State>, steps: seq<Step>, m: nat, n: nat, t: nat, entry: nat, ids: set<nat>, p: nat)
    requires Run(run, steps) && m < n < |steps| && n < p < |run|
    requires || (steps[m] == TakeAll(t, entry) && ids == Listed(run[m], entry))
             || exists id: nat :: steps[m] == Release(t, entry, id) && ids == {id}
    requires steps[n] == Finish(t) && forall k :: m < k < n ==> steps[k] != Finish(t)
    ensures Listed(run[m + 1], entry) == Listed(run[m], entry) - ids
    ensures forall id :: id in ids ==> id !in run[p].live && forall e :: id !in Listed(run[p], e)
  {
    assert Can(run[m], steps[m]) && run[m + 1] == Do(run[m], steps[m]);
    StaysRetiring(run, steps, m + 1, n, t, ids);
    assert Can(run[n], steps[n]) && run[n + 1] == Do(run[n], steps[n]);
    forall id | id in ids ensures id !in run[p].live && forall e :: id !in Listed(run[p], e) {
      DrainedStaysDead(run, steps, n + 1, p, id);
    }
  }

  /** No thread waits for another: an idle one can begin, a busy one can go on. */
  lemma NobodyWaits(s: State, t: nat, entry: nat)
    ensures t !in s.tasks ==> Can(s, Mint(t, entry)) && Can(s, TakeAll(t, entry))
    ensures t in s.tasks ==> exists a: Step :: a.t == t && Can(s, a)
  {
    if t in s.tasks {
      match s.tasks[t]
      case Minting(_, _) => assert Can(s, Register(t));
      case Adding(_, _) => assert Can(s, Record(t));
      case Draining(ids) =>
        if ids == {} {
          assert Can(s, Finish(t));
        } else {
          var id :| id in ids;
          assert Can(s, Drain(t, id));
        }
    }
  }
}

/** Promise: its two flags and the moves that carry the obligation to resolve a FutureState
    from one object to another, over any sequence of constructions, calls, moves and
    destructions of any number of promises. */
module PromiseModel {
  import opened Wrappers

  type StateId = nat

  /** A promise variable: not constructed, or an object. A moved-from object has no state. */
  datatype Slot = Vacant | Live(state: Option<StateId>, satisfied: bool, retrieved: bool)

  /** resolved and futures count, for each state made, the results it was given and the
      futures made of it; overwritten is history: the states a move assignment let go of
      unresolved. */
  datatype Sys = Sys(slots: seq<Slot>, resolved: seq<nat>, futures: seq<nat>, overwritten: set<StateId>)

  datatype Event =
    | Make(p: nat)
    | Set(p: nat)                  // setValue or setException
    | GetFuture(p: nat)
    | MoveMake(p: nat, q: nat)     // p is constructed from q
    | MoveAssign(p: nat, q: nat)   // q is assigned to p
    | Destroy(p: nat)

  function Init(n: nat): Sys { Sys(seq(n, _ => Vacant), [], [], {}) }

  function MovedFrom(): Slot { Live(None, true, true) }

  predicate IsLive(s: Sys, p: nat) { p < |s.slots| && s.slots[p].Live? }

  predicate Enabled(s: Sys, e: Event) {
    match e
    case Make(p) => p < |s.slots| && s.slots[p].Vacant?
    case Set(p) => IsLive(s, p)
    case GetFuture(p) => IsLive(s, p)
    case MoveMake(p, q) => p < |s.slots| && s.slots[p].Vacant? && IsLive(s, q)
    case MoveAssign(p, q) => IsLive(s, p) && IsLive(s, q)
    case Destroy(p) => IsLive(s, p)
  }

  function Bump(counts: seq<nat>, state: Option<StateId>): (r: seq<nat>)
    ensures |r| == |counts|
  {
    if state.Some? && state.value < |counts| then counts[state.value := counts[state.value] + 1] else counts
  }

  /** setValue and setException; a satisfied promise throws and nothing changes. Usable says
      when an unsatisfied one has a state to set. */
  function SetS(s: Sys, p: nat): Sys
    requires IsLive(s, p)
  {
    var x := s.slots[p];
    if x.satisfied then s
    else s.(slots := s.slots[p := x.(satisfied := true)], resolved := Bump(s.resolved, x.state))
  }

  function GetFutureS(s: Sys, p: nat): Sys
    requires IsLive(s, p)
  {
    var x := s.slots[p];
    if x.retrieved then s
    else s.(slots := s.slots[p := x.(retrieved := true)], futures := Bump(s.futures, x.state))
  }

  /** A promise assigned to itself loses its state and keeps its flags. */
  function MoveAssignS(s: Sys, p: nat, q: nat): Sys
    requires IsLive(s, p) && IsLive(s, q)
  {
    var x := s.slots[p];
    s.(slots := if p == q then s.slots[p := x.(state := None)] else s.slots[p := s.slots[q]][q := MovedFrom()],
       overwritten := s.overwritten + if !x.satisfied && x.state.Some? then {x.state.value} else {})
  }

  function Do(s: Sys, e: Event): Sys
    requires Enabled(s, e)
  {
    match e
    case Make(p) =>
      s.(slots := s.slots[p := Live(Some(|s.resolved|), false, false)],
         resolved := s.resolved + [0], futures := s.futures + [0])
    case Set(p) => SetS(s, p)
    case GetFuture(p) => GetFutureS(s, p)
    case MoveMake(p, q) => s.(slots := s.slots[p := s.slots[q]][q := MovedFrom()])
    case MoveAssign(p, q) => MoveAssignS(s, p, q)
    case Destroy(p) => var t := SetS(s, p); t.(slots := t.slots[p := Vacant])
  }

  predicate Legal(s: Sys, run: seq<Event>)
    decreases |run|
  {
    run == [] || (Enabled(s, run[0]) && Legal(Do(s, run[0]), run[1..]))
  }

  function After(s: Sys, run: seq<Event>): Sys
    requires Legal(s, run)
    decreases |run|
  {
    if run == [] then s else After(Do(s, run[0]), run[1..])
  }

  // ---- Who owes a result ----

  /** A promise that has yet to resolve x, or to give out its future. */
  predicate Owes(slot: Slot, x: StateId) { slot.Live? && !slot.satisfied && slot.state == Some(x) }
  predicate MayGive(slot: Slot, x: StateId) { slot.Live? && !slot.retrieved && slot.state == Some(x) }

  type Weight = Slot -> nat

  function Debt(x: StateId): Weight { (slot: Slot) => if Owes(slot, x) then 1 else 0 }
  function Gift(x: StateId): Weight { (slot: Slot) => if MayGive(slot, x) then 1 else 0 }

  function Total(w: Weight, slots: seq<Slot>): nat {
    if slots == [] then 0 else w(slots[0]) + Total(w, slots[1..])
  }

  lemma {:induction false} Replace(w: Weight, slots: seq<Slot>, p: nat, slot: Slot)
    requires p < |slots|
    ensures Total(w, slots[p := slot]) + w(slots[p]) == Total(w, slots) + w(slot)
  {
    if p > 0 {
      Replace(w, slots[1..], p - 1, slot);
      assert slots[p := slot][1..] == slots[1..][p - 1 := slot];
    } else {
      assert slots[p := slot][1..] == slots[1..];
    }
  }

  /** The result of each state is in exactly one place: given, owed by one promise, or let go
      of by a move assignment. */
  predicate StateOk(s: Sys, x: StateId) {
    && |s.futures| == |s.resolved|
    && (x < |s.resolved| ==>
          && s.resolved[x] + Total(Debt(x), s.slots) + (if x in s.overwritten then 1 else 0) == 1
          && s.futures[x] + Total(Gift(x), s.slots) <= 1)
    && (x >= |s.resolved| ==> Total(Debt(x), s.slots) == 0 && Total(Gift(x), s.slots) == 0 && x !in s.overwritten)
  }

  predicate SlotsOk(s: Sys) {
    forall p :: 0 <= p < |s.slots| ==> SlotOk(s.slots[p], |s.resolved|)
  }

  predicate SlotOk(slot: Slot, n: nat) {
    slot.Live? && slot.state.Some? ==> slot.state.value < n
  }

  ghost predicate Inv(s: Sys) { SlotsOk(s) && forall x: StateId :: StateOk(s, x) }

  lemma {:induction false} NoneLive(w: Weight, n: nat)
    requires w(Vacant) == 0
    ensures Total(w, seq(n, _ => Vacant)) == 0
  {
    if n > 0 {
      NoneLive(w, n - 1);
      assert seq(n, _ => Vacant)[1..] == seq(n - 1, _ => Vacant);
    }
  }

  /** The owed results in the slots after a move from q to p. */
  lemma MoveTotals(w: Weight, slots: seq<Slot>, p: nat, q: nat)
    requires p < |slots| && q < |slots| && p != q && w(MovedFrom()) == 0
    ensures Total(w, slots[p := slots[q]][q := MovedFrom()]) + w(slots[p]) == Total(w, slots)
  {
    Replace(w, slots, p, slots[q]);
    Replace(w, slots[p := slots[q]], q, MovedFrom());
  }

  lemma SetState(s: Sys, p: nat, x: StateId)
    requires IsLive(s, p) && SlotsOk(s) && StateOk(s, x)
    ensures StateOk(SetS(s, p), x)
    ensures Debt(x)(SetS(s, p).slots[p]) == 0
  {
    var slot := s.slots[p];
    Replace(Debt(x), s.slots, p, slot.(satisfied := true));
    Replace(Gift(x), s.slots, p, slot.(satisfied := true));
  }

  lemma StepState(s: Sys, e: Event, x: StateId)
    requires SlotsOk(s) && StateOk(s, x) && StateOk(s, |s.resolved|) && Enabled(s, e)
    ensures StateOk(Do(s, e), x)
  {
    match e {
      case Make(p) =>
        Replace(Debt(x), s.slots, p, Live(Some(|s.resolved|), false, false));
        Replace(Gift(x), s.slots, p, Live(Some(|s.resolved|), false, false));
        return;
      case Set(p) => SetState(s, p, x); return;
      case GetFuture(p) =>
        Replace(Debt(x), s.slots, p, s.slots[p].(retrieved := true));
        Replace(Gift(x), s.slots, p, s.slots[p].(retrieved := true));
        return;
      case MoveMake(p, q) =>
        MoveTotals(Debt(x), s.slots, p, q);
        MoveTotals(Gift(x), s.slots, p, q);
        return;
      case MoveAssign(p, q) => MoveState(s, p, q, x); return;
      case Destroy(p) =>
        SetState(s, p, x);
        var t := SetS(s, p);
        Replace(Debt(x), t.slots, p, Vacant);
        Replace(Gift(x), t.slots, p, Vacant);
        return;
    }
  }

  lemma {:induction false} HasTotal(w: Weight, slots: seq<Slot>, p: nat)
    requires p < |slots|
    ensures w(slots[p]) <= Total(w, slots)
  {
    if p > 0 {
      HasTotal(w, slots[1..], p - 1);
    }
  }

  lemma MoveState(s: Sys, p: nat, q: nat, x: StateId)
    requires SlotsOk(s) && StateOk(s, x) && IsLive(s, p) && IsLive(s, q)
    ensures StateOk(MoveAssignS(s, p, q), x)
  {
    if p == q {
      Replace(Debt(x), s.slots, p, s.slots[p].(state := None));
      Replace(Gift(x), s.slots, p, s.slots[p].(state := None));
      HasTotal(Debt(x), s.slots, p);
      return;
    }
    MoveTotals(Debt(x), s.slots, p, q);
    MoveTotals(Gift(x), s.slots, p, q);
    HasTotal(Debt(x), s.slots, p);
  }

  lemma StepSlots(s: Sys, e: Event)
    requires SlotsOk(s) && Enabled(s, e)
    ensures SlotsOk(Do(s, e))
  {}

  lemma {:induction false} InvAfter(s: Sys, run: seq<Event>)
    requires Inv(s) && Legal(s, run)
    ensures Inv(After(s, run))
    decreases |run|
  {
    if run != [] {
      StepSlots(s, run[0]);
      forall x: StateId
        ensures StateOk(Do(s, run[0]), x)
      {
        StepState(s, run[0], x);
      }
      InvAfter(Do(s, run[0]), run[1..]);
    }
  }

  lemma InvAt(n: nat, run: seq<Event>)
    requires Legal(Init(n), run)
    ensures Inv(After(Init(n), run))
  {
    forall x: StateId
      ensures StateOk(Init(n), x)
    {
      NoneLive(Debt(x), n);
      NoneLive(Gift(x), n);
    }
    InvAfter(Init(n), run);
  }

  // ---- Over every run ----

  /** No state is given two results or two futures. */
  lemma AtMostOnce(n: nat, run: seq<Event>, x: StateId)
    requires Legal(Init(n), run)
    ensures var s := After(Init(n), run);
      && |s.futures| == |s.resolved|
      && (x < |s.resolved| ==> s.resolved[x] <= 1 && s.futures[x] <= 1)
  {
    InvAt(n, run);
    assert StateOk(After(Init(n), run), x);
  }

  /** The event sets the result of x, or breaks the promise of it. */
  predicate Settles(s: Sys, e: Event, x: StateId)
    requires Enabled(s, e)
  {
    (e.Set? || e.Destroy?) && Owes(s.slots[e.p], x)
  }

  /** The event gives out the future of x. */
  predicate GivesOut(s: Sys, e: Event, x: StateId)
    requires Enabled(s, e)
  {
    e.GetFuture? && MayGive(s.slots[e.p], x)
  }

  /** How many events of a run settle x, and how many give out its future. */
  function Calls(s: Sys, run: seq<Event>, x: StateId): (nat, nat)
    requires Legal(s, run)
    decreases |run|
  {
    if run == [] then (0, 0)
    else
      var (settled, given) := Calls(Do(s, run[0]), run[1..], x);
      (settled + (if Settles(s, run[0], x) then 1 else 0), given + if GivesOut(s, run[0], x) then 1 else 0)
  }

  /** What state x has been given so far, nothing before it is made. */
  function Count(counts: seq<nat>, x: StateId): nat { if x < |counts| then counts[x] else 0 }

  lemma CountStep(s: Sys, e: Event, x: StateId)
    requires SlotsOk(s) && |s.futures| == |s.resolved| && Enabled(s, e)
    ensures |Do(s, e).futures| == |Do(s, e).resolved|
    ensures Count(Do(s, e).resolved, x) == Count(s.resolved, x) + if Settles(s, e, x) then 1 else 0
    ensures Count(Do(s, e).futures, x) == Count(s.futures, x) + if GivesOut(s, e, x) then 1 else 0
  {
    assert e.Make? || SlotOk(s.slots[e.p], |s.resolved|);
  }

  lemma {:induction false} CountCalls(s: Sys, run: seq<Event>, x: StateId)
    requires SlotsOk(s) && |s.futures| == |s.resolved| && Legal(s, run)
    ensures Count(After(s, run).resolved, x) == Count(s.resolved, x) + Calls(s, run, x).0
    ensures Count(After(s, run).futures, x) == Count(s.futures, x) + Calls(s, run, x).1
    decreases |run|
  {
    if run != [] {
      CountStep(s, run[0], x);
      StepSlots(s, run[0]);
      CountCalls(Do(s, run[0]), run[1..], x);
    }
  }

  /** A state has its result, and has given its future, exactly when a call on the promise that
      still owed it did so; and no second call ever does. */
  lemma EachCallCounts(n: nat, run: seq<Event>, x: StateId)
    requires Legal(Init(n), run) && x < |After(Init(n), run).resolved|
    ensures var s := After(Init(n), run);
      && |s.futures| == |s.resolved|
      && s.resolved[x] == Calls(Init(n), run, x).0 <= 1
      && s.futures[x] == Calls(Init(n), run, x).1 <= 1
  {
    AtMostOnce(n, run, x);
    CountCalls(Init(n), run, x);
  }

  /** A call that does not throw has a state to go to. */
  predicate Usable(s: Sys) {
    forall p :: 0 <= p < |s.slots| ==> UsableSlot(s.slots[p])
  }

  predicate UsableSlot(slot: Slot) {
    slot.Live? && (!slot.satisfied || !slot.retrieved) ==> slot.state.Some?
  }

  /** The event assigns to itself a promise that is unsatisfied or has its future to give. */
  predicate SelfAssigns(s: Sys, e: Event)
    requires Enabled(s, e)
  {
    e.MoveAssign? && e.p == e.q && (!s.slots[e.p].satisfied || !s.slots[e.p].retrieved)
  }

  lemma UsableStep(s: Sys, e: Event)
    requires Usable(s) && Enabled(s, e)
    ensures Usable(Do(s, e)) <==> !SelfAssigns(s, e)
  {
    if SelfAssigns(s, e) { assert !UsableSlot(Do(s, e).slots[e.p]); }
  }

  predicate UsableThroughout(s: Sys, run: seq<Event>)
    requires Legal(s, run)
    decreases |run|
  {
    Usable(s) && (run != [] ==> UsableThroughout(Do(s, run[0]), run[1..]))
  }

  predicate NeverSelfAssigns(s: Sys, run: seq<Event>)
    requires Legal(s, run)
    decreases |run|
  {
    run == [] || (!SelfAssigns(s, run[0]) && NeverSelfAssigns(Do(s, run[0]), run[1..]))
  }

  lemma {:induction false} UsableFrom(s: Sys, run: seq<Event>)
    requires Usable(s) && Legal(s, run)
    ensures UsableThroughout(s, run) <==> NeverSelfAssigns(s, run)
    decreases |run|
  {
    if run != [] {
      UsableStep(s, run[0]);
      if !SelfAssigns(s, run[0]) { UsableFrom(Do(s, run[0]), run[1..]); }
    }
  }

  /** All along a run every call that does not throw has a state to go to, if and only if no
      promise is assigned to itself before it is satisfied and its future given. */
  lemma UsableIff(n: nat, run: seq<Event>)
    requires Legal(Init(n), run)
    ensures UsableThroughout(Init(n), run) <==> NeverSelfAssigns(Init(n), run)
  {
    UsableFrom(Init(n), run);
  }

  predicate AllGone(s: Sys) { forall p :: 0 <= p < |s.slots| ==> s.slots[p].Vacant? }

  /** The event assigns over the unsatisfied promise that owes x: unlike the destructor,
      operator= does not break the promise it replaces. */
  predicate Overwrites(s: Sys, e: Event, x: StateId)
    requires Enabled(s, e)
  {
    e.MoveAssign? && Owes(s.slots[e.p], x)
  }

  predicate NeverOverwrites(s: Sys, run: seq<Event>, x: StateId)
    requires Legal(s, run)
    decreases |run|
  {
    run == [] || (!Overwrites(s, run[0], x) && NeverOverwrites(Do(s, run[0]), run[1..], x))
  }

  lemma {:induction false} OverwrittenBy(s: Sys, run: seq<Event>, x: StateId)
    requires Legal(s, run)
    ensures x in After(s, run).overwritten <==> x in s.overwritten || !NeverOverwrites(s, run, x)
    decreases |run|
  {
    if run != [] {
      assert x in Do(s, run[0]).overwritten <==> x in s.overwritten || Overwrites(s, run[0], x);
      OverwrittenBy(Do(s, run[0]), run[1..], x);
    }
  }

  /** Once every promise is gone each state has its one result, broken promises included, if
      and only if no event of the run assigned over the promise that owed it. */
  lemma ResolvedIff(n: nat, run: seq<Event>, x: StateId)
    requires Legal(Init(n), run) && x < |After(Init(n), run).resolved|
    requires AllGone(After(Init(n), run))
    ensures After(Init(n), run).resolved[x] == 1 <==> NeverOverwrites(Init(n), run, x)
  {
    InvAt(n, run);
    OverwrittenBy(Init(n), run, x);
    var s := After(Init(n), run);
    SameSlots(Init(n), run);
    assert StateOk(s, x);
    assert s.slots == seq(n, _ => Vacant);
    NoneLive(Debt(x), n);
  }

  lemma {:induction false} SameSlots(s: Sys, run: seq<Event>)
    requires Legal(s, run)
    ensures |After(s, run).slots| == |s.slots|
    decreases |run|
  {
    if run != [] {
      SameSlots(Do(s, run[0]), run[1..]);
    }
  }

  lemma OverwriteExample()
    ensures var run := [Make(0), Make(1), MoveAssign(0, 1), Destroy(0), Destroy(1)];
            Legal(Init(2), run) && After(Init(2), run).resolved == [0, 1]
  {
    var s1 := Do(Init(2), Make(0));
    var s2 := Do(s1, Make(1));
    var s3 := Do(s2, MoveAssign(0, 1));
    var s4 := Do(s3, Destroy(0));
    var s5 := Do(s4, Destroy(1));
    assert s5.resolved == [0, 1];
    assert Legal(s5, []) && After(s5, []) == s5;
    assert Legal(s4, [Destroy(1)]) && After(s4, [Destroy(1)]) == s5;
    assert Legal(s3, [Destroy(0), Destroy(1)]) && After(s3, [Destroy(0), Destroy(1)]) == s5;
    assert Legal(s2, [MoveAssign(0, 1), Destroy(0), Destroy(1)]);
    assert After(s2, [MoveAssign(0, 1), Destroy(0), Destroy(1)]) == s5;
    assert Legal(s1, [Make(1), MoveAssign(0, 1), Destroy(0), Destroy(1)]);
    assert After(s1, [Make(1), MoveAssign(0, 1), Destroy(0), Destroy(1)]) == s5;
  }
}

/** The class itself. A call that throws reports it in its result. */
module Promises {

  /** A FutureState, as far as its promise is concerned: the results it has been given and the
      futures made of it. */
  class SharedState {
    var resolved: nat
    var futures: nat

    constructor ()
      ensures resolved == 0 && futures == 0
    {
      resolved, futures := 0, 0;
    }
  }

  datatype Call = Done | AlreadySatisfied | AlreadyRetrieved

  class Promise {
    var state: SharedState?
    var satisfied: bool
    var retrieved: bool

    predicate Valid()
      reads this
    {
      !satisfied || !retrieved ==> state != null
    }

    constructor ()
      ensures Valid() && fresh(state) && !satisfied && !retrieved
      ensures state != null && state.resolved == 0 && state.futures == 0
    {
      state := new SharedState();
      satisfied, retrieved := false, false;
    }

    /** The move constructor. */
    constructor MoveFrom(other: Promise)
      modifies other
      ensures Valid() == old(other.Valid()) && state == old(other.state)
      ensures satisfied == old(other.satisfied) && retrieved == old(other.retrieved)
      ensures other.Valid() && other.state == null && other.satisfied && other.retrieved
    {
      state, satisfied, retrieved := other.state, other.satisfied, other.retrieved;
      new;
      other.state, other.satisfied, other.retrieved := null, true, true;
    }

    /** operator=: the state held before is let go of, resolved or not; a promise assigned to
        itself lets go of its own and keeps its flags. */
    method Assign(other: Promise)
      modifies this, other
      ensures satisfied == old(other.satisfied) && retrieved == old(other.retrieved)
      ensures other != this ==> Valid() == old(other.Valid()) && state == old(other.state)
      ensures other != this ==> other.Valid() && other.state == null && other.satisfied && other.retrieved
      ensures other == this ==> state == null && (Valid() <==> satisfied && retrieved)
      ensures old(state) != null && old(state) != old(other.state) ==> unchanged(old(state))
    {
      state := other.state;
      other.state := null;
      var flag := other.satisfied;
      other.satisfied := true;
      satisfied := flag;
      flag := other.retrieved;
      other.retrieved := true;
      retrieved := flag;
    }

    /** setValue and setException. An unsatisfied promise without a state is beyond them. */
    method Set() returns (r: Call)
      requires !satisfied ==> state != null
      modifies this`satisfied, state
      ensures satisfied && r == if old(satisfied) then AlreadySatisfied else Done
      ensures old(Valid()) ==> Valid()
      ensures state != null ==>
                && state.resolved == old(state.resolved) + (if old(satisfied) then 0 else 1)
                && state.futures == old(state.futures)
    {
      if satisfied {
        return AlreadySatisfied;
      }
      satisfied := true;
      state.resolved := state.resolved + 1;
      return Done;
    }

    /** Without a state the future given has none either. */
    method GetFuture() returns (r: Call, future: SharedState?)
      modifies this`retrieved, state
      ensures retrieved && r == if old(retrieved) then AlreadyRetrieved else Done
      ensures old(Valid()) ==> Valid()
      ensures future == if r.Done? then state else null
      ensures state != null ==>
                && state.futures == old(state.futures) + (if old(retrieved) then 0 else 1)
                && state.resolved == old(state.resolved)
    {
      if retrieved {
        return AlreadyRetrieved, null;
      }
      retrieved := true;
      if state != null {
        state.futures := state.futures + 1;
      }
      return Done, state;
    }

    /** The destructor: a promise still unsatisfied is broken. */
    method Destroy()
      requires !satisfied ==> state != null
      modifies this`satisfied, state
      ensures satisfied
      ensures state != null ==> state.resolved == old(state.resolved) + if old(satisfied) then 0 else 1
    {
      if !satisfied {
        var _ := Set();
      }
    }
  }

  /** Promises that can all be resolved: none satisfied, no state shared. */
  predicate Pending(promises: seq<Promise>)
    reads promises
  {
    && (forall i :: 0 <= i < |promises| ==>
          promises[i].Valid() && !promises[i].satisfied && promises[i].state != null)
    && (forall i, j :: 0 <= i < j < |promises| ==>
          promises[i] != promises[j] && promises[i].state != promises[j].state)
  }

  /** resolvePromises: each one once, then the list is cleared. */
  method ResolvePromises(promises: seq<Promise>) returns (left: seq<Promise>)
    requires Pending(promises)
    modifies promises, set p <- promises :: p.state
    ensures left == []
    ensures forall p :: p in promises ==>
              p.satisfied && p.state == old(p.state) && p.state != null && p.state.resolved == old(p.state.resolved) + 1
  {
    for i := 0 to |promises|
      invariant forall k :: 0 <= k < |promises| ==>
                  && promises[k].state == old(promises[k].state) && promises[k].state != null && promises[k].Valid()
                  && promises[k].satisfied == (k < i)
                  && promises[k].state.resolved == old(promises[k].state.resolved) + if k < i then 1 else 0
    {
      assert promises[i] in promises;
      assert forall k :: 0 <= k < |promises| && k != i ==> promises[k] != promises[i];
      var _ := promises[i].Set();
    }
    left := [];
  }
}

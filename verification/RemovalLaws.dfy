/** Removals that wait are let go, and a handler that its own callback has destroyed is not
    touched again. */
module RemovalLaws {
  import opened ContextState
  import opened CloseProtocol
  import opened Wrappers
  import opened CloseInvariant
  import CloseTheorems
  import J = StageOnContext

  /** The removals of h under way. */
  function RemOf(h: HandlerId, st: Stack): nat {
    match st
    case Empty => 0
    case Cons(f, rest) => (if Removes(f) && f.h == h then 1 else 0) + RemOf(h, rest)
  }

  function RemTotal(h: HandlerId, ts: seq<Stack>): nat {
    if ts == [] then 0 else RemOf(h, ts[0]) + RemTotal(h, ts[1..])
  }

  predicate Removing(s: State, h: HandlerId) { h < |s.handlers| && s.handlers[h].removal.Removing? }

  /** The closing thread is in the callback of h, or about to mark it done. */
  predicate Underway(s: State, h: HandlerId) {
    s.closer.Some? && s.closer.value < |s.threads| && CloseTheorems.Calling(s.threads[s.closer.value], h)
  }

  /** A handler that was popped and is neither done nor destroyed is being called. */
  predicate MarkOk(s: State, h: HandlerId) {
    h < |s.handlers| && s.handlers[h].place.Popped? && !s.handlers[h].done && !s.handlers[h].destroyed ==>
      Underway(s, h)
  }

  predicate RecordOk(s: State, h: HandlerId) {
    h < |s.handlers| ==>
      && (s.handlers[h].place.Unlinked? ==> s.handlers[h].removal.RemovedByOther?)
      && (s.handlers[h].destroyed ==> s.handlers[h].removal.RemovedByCloser?)
  }

  ghost predicate HandlerInv(s: State, h: HandlerId) {
    && RemTotal(h, s.threads) == One(Removing(s, h))
    && MarkOk(s, h) && RecordOk(s, h)
  }

  // ---- The removal of one handler, seen from the thread that takes the step ----

  predicate RemMoves(s: State, t: nat, h: HandlerId, s': State)
    requires t < |s.threads| == |s'.threads|
  {
    && One(Removing(s', h)) + RemOf(h, s.threads[t]) == One(Removing(s, h)) + RemOf(h, s'.threads[t])
    && RecordOk(s', h)
  }

  lemma RemPlain(s: State, t: nat, h: HandlerId)
    requires t < |s.threads| && Enabled(s, t, Step) && !Touches(s.threads[t].top) && RecordOk(s, h)
    ensures RemMoves(s, t, h, DoStep(s, t))
  {
    Untouched(s, t);
    var f := s.threads[t].top;
    if Leaves(f) { return; }
    if Runs(f) { return; }
  }

  lemma RemAdds(s: State, t: nat, h: HandlerId)
    requires t < |s.threads| && Enabled(s, t, Step) && Adds(s.threads[t].top) && RecordOk(s, h)
    ensures RemMoves(s, t, h, DoStep(s, t))
  {}

  lemma RemRemoves(s: State, t: nat, h: HandlerId)
    requires t < |s.threads| && Enabled(s, t, Step) && Removes(s.threads[t].top) && RecordOk(s, h)
    requires FrameOk(s, s.threads[t].top) && RemOf(h, s.threads[t]) <= One(Removing(s, h))
    ensures RemMoves(s, t, h, DoStep(s, t))
  {
    var f := s.threads[t].top;
    if f.RemSearch? { RemSearches(s, t, h); return; }
    if f.RemLocking? { return; }
  }

  lemma RemSearches(s: State, t: nat, h: HandlerId)
    requires t < |s.threads| && Enabled(s, t, Step) && s.threads[t].top.RemSearch? && RecordOk(s, h)
    requires FrameOk(s, s.threads[t].top) && RemOf(h, s.threads[t]) <= One(Removing(s, h))
    ensures RemMoves(s, t, h, DoStep(s, t))
  {
    var f := s.threads[t].top;
    if f.h in s.list { return; }
    if ClosingHere(s.threads[t].rest) { return; }
  }

  lemma RemCalls(s: State, t: nat, h: HandlerId)
    requires t < |s.threads| && Enabled(s, t, Step) && Calls(s.threads[t].top) && RecordOk(s, h) && HandlersOk(s)
    ensures RemMoves(s, t, h, DoStep(s, t))
  {
    assert s.list != [] ==> s.list[0] in s.list;
    assert s.list != [] ==> HandlerOk(s.handlers[s.list[0]], true);
    var f := s.threads[t].top;
    if f.CloseLoop? { return; }
    if f.CloseMark? { return; }
  }

  lemma RemReturns(s: State, t: nat, throws: bool, h: HandlerId)
    requires t < |s.threads| && Enabled(s, t, Return(throws)) && RecordOk(s, h)
    ensures RemMoves(s, t, h, DoReturn(s, t, throws))
  {
    var Cons(f, rest) := s.threads[t];
    if f.StartFn? {
      assert RemOf(h, Cons(AddLeave, rest)) == RemOf(h, rest);
      return;
    }
    if f.CloseCall? { return; }
  }

  lemma RemMovesAt(s: State, t: nat, a: Action, h: HandlerId)
    requires t < |s.threads| && Inv(s) && Enabled(s, t, a) && RecordOk(s, h)
    requires RemOf(h, s.threads[t]) <= One(Removing(s, h))
    ensures RemMoves(s, t, h, Do(s, t, a))
  {
    assert AllOk(s, s.threads[t]);
    match a {
      case Step =>
        var f := s.threads[t].top;
        if Adds(f) { RemAdds(s, t, h); return; }
        if Removes(f) { RemRemoves(s, t, h); return; }
        if Calls(f) { RemCalls(s, t, h); return; }
        RemPlain(s, t, h);
        return;
      case Return(throws) => RemReturns(s, t, throws, h); return;
      case CallExec => return;
      case CallAdd(_) => return;
      case CallRemove(_) => return;
      case CallClose => return;
      case Inline => return;
      case Take => return;
      case DropQueued => return;
      case NewHandle => return;
      case DropHandle => return;
    }
  }

  lemma {:induction false} RemReplace(h: HandlerId, ts: seq<Stack>, t: nat, st: Stack)
    requires t < |ts|
    ensures RemTotal(h, ts[t := st]) + RemOf(h, ts[t]) == RemTotal(h, ts) + RemOf(h, st)
    ensures RemOf(h, ts[t]) <= RemTotal(h, ts)
  {
    if t > 0 {
      RemReplace(h, ts[1..], t - 1, st);
      assert ts[t := st][1..] == ts[1..][t - 1 := st];
    } else {
      assert ts[t := st][1..] == ts[1..];
    }
  }

  // ---- Its record ----

  /** done and destroyed are never taken back, and done is set only by the mark that follows
      the callback, of a handler that is still there. */
  predicate RecordMoves(s: State, t: nat, a: Action, h: HandlerId, s': State)
    requires t < |s.threads| && h < |s.handlers|
  {
    && h < |s'.handlers|
    && (s.handlers[h].done ==> s'.handlers[h].done)
    && (s.handlers[h].destroyed ==> s'.handlers[h].destroyed)
    && (s'.handlers[h].done && !s.handlers[h].done ==>
          a.Step? && s.threads[t].Cons? && s.threads[t].top == CloseMark(h) && !s.handlers[h].destroyed)
    && (a.Step? && s.threads[t].Cons? && s.threads[t].top == CloseMark(h) ==>
          s'.handlers[h].done || s'.handlers[h].destroyed)
  }

  lemma RecordStep(s: State, t: nat, a: Action, h: HandlerId)
    requires t < |s.threads| && Inv(s) && Enabled(s, t, a) && h < |s.handlers|
    ensures RecordMoves(s, t, a, h, Do(s, t, a))
  {
    assert AllOk(s, s.threads[t]);
    if a.Step? {
      var f := s.threads[t].top;
      if Adds(f) { return; }
      if Removes(f) { RecordRemove(s, t, h); return; }
      if Calls(f) { RecordCall(s, t, h); return; }
      Untouched(s, t);
      return;
    }
    if a.Return? { return; }
  }

  lemma RecordRemove(s: State, t: nat, h: HandlerId)
    requires t < |s.threads| && Enabled(s, t, Step) && h < |s.handlers|
    requires Removes(s.threads[t].top) && FrameOk(s, s.threads[t].top)
    ensures RecordMoves(s, t, Step, h, DoStep(s, t))
  {
    var f := s.threads[t].top;
    if !f.RemSearch? { return; }
    if f.h in s.list { return; }
    if ClosingHere(s.threads[t].rest) { return; }
  }

  lemma RecordCall(s: State, t: nat, h: HandlerId)
    requires t < |s.threads| && Enabled(s, t, Step) && h < |s.handlers|
    requires Calls(s.threads[t].top) && FrameOk(s, s.threads[t].top) && HandlersOk(s)
    ensures RecordMoves(s, t, Step, h, DoStep(s, t))
  {
    assert s.list != [] ==> s.list[0] in s.list;
    var f := s.threads[t].top;
    if f.CloseLoop? { return; }
    if f.CloseMark? { return; }
  }

  // ---- The callback under way ----

  lemma CallingBelow(st: Stack, st': Stack, h: HandlerId)
    requires J.Follows(st, st') && st.Cons? && CloseTheorems.Calling(st.rest, h)
    ensures CloseTheorems.Calling(st', h)
  {}

  lemma CallingGoes(s: State, t: nat, a: Action, h: HandlerId)
    requires t < |s.threads| && Enabled(s, t, a)
    requires s.threads[t].Cons? && CloseTheorems.CallsHandler(s.threads[t].top, h)
    requires !(a.Step? && s.threads[t].top.CloseMark?)
    ensures CloseTheorems.Calling(Do(s, t, a).threads[t], h)
  {
    if a.Step? { return; }
    if a.Return? { return; }
  }

  lemma Follow(s: State, t: nat, a: Action)
    requires t < |s.threads| && Enabled(s, t, a)
    ensures J.Follows(s.threads[t], Do(s, t, a).threads[t])
  {
    if J.RemovalBegins(s, t, a, 0) { return; }
    J.Stacks(s, t, a, 0);
  }

  lemma UnderwayStep(s: State, t: nat, a: Action, h: HandlerId)
    requires t < |s.threads| && Inv(s) && Enabled(s, t, a) && h < |s.handlers| && Underway(s, h)
    ensures Underway(Do(s, t, a), h) || (a.Step? && s.threads[t].Cons? && s.threads[t].top == CloseMark(h))
  {
    var c := s.closer.value;
    CloseTheorems.Onward(s, [Event(t, a)]);
    OneStep(s, t, a);
    OwnStack(s, t, a);
    CallingCloses(s.threads[c], h);
    Part(Late, s.threads, c);
    if t != c { return; }
    Follow(s, t, a);
    if CloseTheorems.CallsHandler(s.threads[t].top, h) {
      if !(a.Step? && s.threads[t].top.CloseMark?) { CallingGoes(s, t, a, h); }
    } else {
      CallingBelow(s.threads[t], Do(s, t, a).threads[t], h);
    }
  }

  lemma OneStep(s: State, t: nat, a: Action)
    requires t < |s.threads| && Enabled(s, t, a)
    ensures Legal(s, [Event(t, a)]) && After(s, [Event(t, a)]) == Do(s, t, a)
  {
    assert [Event(t, a)][1..] == [];
  }

  lemma {:induction false} CallingCloses(st: Stack, h: HandlerId)
    requires CloseTheorems.Calling(st, h)
    ensures Sum(Late, st) > 0
  {
    if !CloseTheorems.CallsHandler(st.top, h) { CallingCloses(st.rest, h); }
  }

  lemma MarkStep(s: State, t: nat, a: Action, h: HandlerId)
    requires t < |s.threads| && Inv(s) && Enabled(s, t, a) && h < |s.handlers| && MarkOk(s, h)
    ensures MarkOk(Do(s, t, a), h)
  {
    RecordStep(s, t, a, h);
    J.Places(s, t, a, h);
    if J.Pops(s, t, a, h) { PopCalls(s, t, h); return; }
    if s.handlers[h].place.Popped? && !s.handlers[h].done && !s.handlers[h].destroyed {
      UnderwayStep(s, t, a, h);
    }
  }

  lemma PopCalls(s: State, t: nat, h: HandlerId)
    requires t < |s.threads| && Inv(s) && Enabled(s, t, Step) && J.Pops(s, t, Step, h) && h < |s.handlers|
    ensures Underway(Do(s, t, Step), h)
  {
    CloserIs(s, t);
    J.Flags(s, t, Step);
  }

  // ---- Every handler, over every run ----

  lemma HandlerStep(s: State, t: nat, a: Action, h: HandlerId)
    requires t < |s.threads| && Inv(s) && Enabled(s, t, a) && HandlerInv(s, h)
    ensures HandlerInv(Do(s, t, a), h)
  {
    var s' := Do(s, t, a);
    OwnStack(s, t, a);
    RemReplace(h, s.threads, t, s'.threads[t]);
    RemMovesAt(s, t, a, h);
    if h < |s.handlers| { MarkStep(s, t, a, h); }
    else { NewListed(s, t, a, h); }
  }

  lemma NewListed(s: State, t: nat, a: Action, h: HandlerId)
    requires t < |s.threads| && Inv(s) && Enabled(s, t, a) && h >= |s.handlers|
    ensures h < |Do(s, t, a).handlers| ==> Do(s, t, a).handlers[h].place.Listed?
  {
    assert AllOk(s, s.threads[t]);
    if a.Step? {
      var f := s.threads[t].top;
      if Adds(f) { return; }
      if Removes(f) { return; }
      if Calls(f) { return; }
      Untouched(s, t);
      return;
    }
    if a.Return? { return; }
  }

  ghost predicate AllHandlers(s: State) { forall h: nat :: HandlerInv(s, h) }

  lemma {:induction false} HandlersAfter(s: State, run: seq<Event>)
    requires Inv(s) && AllHandlers(s) && Legal(s, run)
    ensures AllHandlers(After(s, run))
    decreases |run|
  {
    if run != [] {
      var t, a := run[0].t, run[0].a;
      InvStep(s, t, a);
      forall h: nat
        ensures HandlerInv(Do(s, t, a), h)
      {
        HandlerStep(s, t, a, h);
      }
      HandlersAfter(Do(s, t, a), run[1..]);
    }
  }

  lemma {:induction false} NoneYet(h: HandlerId, n: nat)
    ensures RemTotal(h, seq(n, _ => Empty)) == 0
  {
    if n > 0 {
      NoneYet(h, n - 1);
      assert seq(n, _ => Empty)[1..] == seq(n - 1, _ => Empty);
    }
  }

  lemma HandlersAt(n: nat, run: seq<Event>)
    requires Legal(Init(n), run)
    ensures Inv(CloseTheorems.State(n, run)) && AllHandlers(CloseTheorems.State(n, run))
  {
    CloseTheorems.Reached(n, run);
    InvInit(n);
    forall h: nat
      ensures HandlerInv(Init(n), h)
    {
      NoneYet(h, n);
    }
    HandlersAfter(Init(n), run);
  }

  // ---- No thread waits for itself ----

  /** A thread that waits in a removal is not the one that closes the context. */
  predicate WaitsElsewhere(st: Stack) { st.Cons? && st.top.RemWait? ==> !ClosingHere(st.rest) }

  lemma ElsewhereList(s: State, t: nat)
    requires t < |s.threads| && Shaped(s.threads[t]) && Enabled(s, t, Step)
    requires Removes(s.threads[t].top) || Calls(s.threads[t].top)
    ensures WaitsElsewhere(DoStep(s, t).threads[t])
  {
    var f := s.threads[t].top;
    if f.RemSearch? {
      if f.h in s.list { return; }
      if ClosingHere(s.threads[t].rest) { return; }
      return;
    }
    if Removes(f) { return; }
    if f.CloseLoop? { return; }
  }

  lemma ElsewhereStep(s: State, t: nat, a: Action)
    requires t < |s.threads| && Shaped(s.threads[t]) && Enabled(s, t, a) && WaitsElsewhere(s.threads[t])
    ensures WaitsElsewhere(Do(s, t, a).threads[t])
  {
    if a.Step? {
      var f := s.threads[t].top;
      if Removes(f) || Calls(f) { ElsewhereList(s, t); } else { ElsewherePlain(s, t); }
      return;
    }
    if a.Return? { return; }
  }

  lemma ElsewherePlain(s: State, t: nat)
    requires t < |s.threads| && Shaped(s.threads[t]) && Enabled(s, t, Step)
    requires !Removes(s.threads[t].top) && !Calls(s.threads[t].top)
    ensures WaitsElsewhere(DoStep(s, t).threads[t])
  {
    var f := s.threads[t].top;
    if Leaves(f) { return; }
    if Runs(f) { return; }
    if Adds(f) { return; }
  }

  predicate AllElsewhere(s: State) { forall t :: 0 <= t < |s.threads| ==> WaitsElsewhere(s.threads[t]) }

  lemma {:induction false} ElsewhereAfter(s: State, run: seq<Event>)
    requires Inv(s) && AllElsewhere(s) && Legal(s, run)
    ensures AllElsewhere(After(s, run))
    decreases |run|
  {
    if run != [] {
      var t, a := run[0].t, run[0].a;
      InvStep(s, t, a);
      OwnStack(s, t, a);
      assert Shaped(s.threads[t]);
      ElsewhereStep(s, t, a);
      ElsewhereAfter(Do(s, t, a), run[1..]);
    }
  }

  lemma LetGo(s: State, u: nat, h: HandlerId)
    requires Inv(s) && HandlerInv(s, h) && u < |s.threads| && WaitsElsewhere(s.threads[u])
    requires s.threads[u].Cons? && s.threads[u].top == RemWait(h)
    ensures Enabled(s, u, Step) || (Underway(s, h) && s.closer != Some(u))
    ensures s.w.closed ==> Enabled(s, u, Step)
  {
    assert AllOk(s, s.threads[u]);
    assert HandlerOk(s.handlers[h], h in s.list);
    RemReplace(h, s.threads, u, Empty);
    if !s.handlers[h].done {
      CallingCloses(s.threads[s.closer.value], h);
      Part(Late, s.threads, s.closer.value);
    }
  }

  // ---- What removeCloseHandler promises its caller ----

  /** A removal that has to wait waits for a callback: another thread, the closing one, is in
      aoContextClose of this very handler, or about to mark it done. Once the context is
      closed, and at any other time, it can return. */
  lemma RemovalReleased(n: nat, run: seq<Event>, u: nat, h: HandlerId)
    requires Legal(Init(n), run) && u < |CloseTheorems.State(n, run).threads|
    requires CloseTheorems.State(n, run).threads[u].Cons? && CloseTheorems.State(n, run).threads[u].top == RemWait(h)
    ensures var s := CloseTheorems.State(n, run);
      && (Enabled(s, u, Step) || (Underway(s, h) && s.closer != Some(u)))
      && (s.w.closed ==> Enabled(s, u, Step))
  {
    HandlersAt(n, run);
    InvInit(n);
    ElsewhereAfter(Init(n), run);
    var s := CloseTheorems.State(n, run);
    assert HandlerInv(s, h) && WaitsElsewhere(s.threads[u]);
    LetGo(s, u, h);
  }

  /** A removal that was begun is under way on exactly one thread, or has returned: then the
      handler was unlinked or is through its callback. */
  lemma RemovedOnce(n: nat, run: seq<Event>, h: HandlerId)
    requires Legal(Init(n), run) && h < |CloseTheorems.State(n, run).handlers|
    ensures var s := CloseTheorems.State(n, run);
      && RemTotal(h, s.threads) <= 1
      && (s.handlers[h].removal.NotRemoved? ==> RemTotal(h, s.threads) == 0)
      && (!s.handlers[h].removal.NotRemoved? && RemTotal(h, s.threads) == 0 ==>
            s.handlers[h].place.Unlinked? || s.handlers[h].done || s.handlers[h].destroyed)
  {
    HandlersAt(n, run);
    var s := CloseTheorems.State(n, run);
    assert HandlerInv(s, h) && HandlerOk(s.handlers[h], h in s.list);
  }

  // ---- A handler that is gone ----

  lemma {:induction false} GoneStays(s: State, run: seq<Event>, h: HandlerId)
    requires Inv(s) && AllHandlers(s) && Legal(s, run) && h < |s.handlers| && s.handlers[h].destroyed
    ensures h < |After(s, run).handlers| && After(s, run).handlers[h].done == s.handlers[h].done
    ensures After(s, run).handlers[h].destroyed
    decreases |run|
  {
    if run != [] {
      var t, a := run[0].t, run[0].a;
      RecordStep(s, t, a, h);
      InvStep(s, t, a);
      forall k: nat
        ensures HandlerInv(Do(s, t, a), k)
      {
        HandlerStep(s, t, a, k);
      }
      GoneStays(Do(s, t, a), run[1..], h);
    }
  }

  /** A handler destroyed from within its callback is never written to by the closing thread
      again. */
  lemma DestroyedUntouched(n: nat, run: seq<Event>, more: seq<Event>, h: HandlerId)
    requires Legal(Init(n), run) && Legal(CloseTheorems.State(n, run), more)
    requires h < |CloseTheorems.State(n, run).handlers| && CloseTheorems.State(n, run).handlers[h].destroyed
    ensures var s, s' := CloseTheorems.State(n, run), After(CloseTheorems.State(n, run), more);
      h < |s'.handlers| && s'.handlers[h].destroyed && s'.handlers[h].done == s.handlers[h].done
  {
    HandlersAt(n, run);
    GoneStays(CloseTheorems.State(n, run), more, h);
  }

  /** Once the context is closed each handler was unlinked, or has been called once and is
      done, or was destroyed in its callback. */
  lemma HandlersFinished(n: nat, run: seq<Event>, h: HandlerId)
    requires Legal(Init(n), run) && CloseTheorems.State(n, run).w.closed && h < |CloseTheorems.State(n, run).handlers|
    ensures var hd := CloseTheorems.State(n, run).handlers[h];
      (hd.place.Unlinked? && hd.calls == 0) || (hd.place.Popped? && hd.calls == 1 && (hd.done || hd.destroyed))
  {
    HandlersAt(n, run);
    var s := CloseTheorems.State(n, run);
    assert HandlerInv(s, h) && HandlerOk(s.handlers[h], h in s.list);
    if s.handlers[h].place.Popped? && !s.handlers[h].done && !s.handlers[h].destroyed {
      CallingCloses(s.threads[s.closer.value], h);
      Part(Late, s.threads, s.closer.value);
    }
  }

  // ---- startCancellableTask ----

  /** The function of startCancellableTask begins with its handler in the list. */
  lemma StartsListed(n: nat, run: seq<Event>, t: nat, start: bool)
    requires Legal(Init(n), run) && t < |CloseTheorems.State(n, run).threads|
    requires CloseTheorems.State(n, run).threads[t].Cons?
    requires CloseTheorems.State(n, run).threads[t].top == AddInsert(start)
    ensures var s, s' := CloseTheorems.State(n, run), Do(CloseTheorems.State(n, run), t, Step); var h := |s.handlers|;
      && |s'.handlers| == h + 1 && s'.handlers[h].place.Listed? && h in s'.list
      && s'.handlers[h].removal.NotRemoved? && s'.handlers[h].calls == 0
      && s'.threads[t].Cons? && (start <==> s'.threads[t].top == StartFn(h)) && (start <==> User(s'.threads[t].top))
  {}

  lemma {:induction false} StaysBegun(s: State, run: seq<Event>, h: HandlerId)
    requires Inv(s) && Legal(s, run) && h < |s.handlers| && !s.handlers[h].removal.NotRemoved?
    ensures h < |After(s, run).handlers| && !After(s, run).handlers[h].removal.NotRemoved?
    decreases |run|
  {
    if run != [] {
      J.Places(s, run[0].t, run[0].a, h);
      InvStep(s, run[0].t, run[0].a);
      StaysBegun(Do(s, run[0].t, run[0].a), run[1..], h);
    }
  }

  /** When that function throws, its handler is taken back: at any time after, unless the
      removal is still under way, it was unlinked or is through its callback. */
  lemma ThrowRemoves(n: nat, run: seq<Event>, t: nat, h: HandlerId, more: seq<Event>)
    requires Legal(Init(n), run) && t < |CloseTheorems.State(n, run).threads|
    requires CloseTheorems.State(n, run).threads[t].Cons? && CloseTheorems.State(n, run).threads[t].top == StartFn(h)
    requires Legal(CloseTheorems.State(n, run), [Event(t, Return(true))] + more)
    ensures var s := After(CloseTheorems.State(n, run), [Event(t, Return(true))] + more);
      && h < |s.handlers|
      && (RemTotal(h, s.threads) == 0 ==>
            s.handlers[h].place.Unlinked? || s.handlers[h].done || s.handlers[h].destroyed)
  {
    HandlersAt(n, run);
    var s := CloseTheorems.State(n, run);
    assert AllOk(s, s.threads[t]);
    var e := Event(t, Return(true));
    assert ([e] + more)[1..] == more;
    InvStep(s, t, e.a);
    StaysBegun(Do(s, t, e.a), more, h);
    HandlersAfter(s, [e] + more);
    InvAfter(s, [e] + more);
    var s' := After(s, [e] + more);
    assert HandlerInv(s', h) && HandlerOk(s'.handlers[h], h in s'.list);
  }
}

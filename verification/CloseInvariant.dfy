/** What every step of the close protocol keeps. */
module CloseInvariant {
  import opened ContextState
  import opened CloseProtocol
  import opened Wrappers

  // ---- Sums over stacks ----

  lemma {:induction false} Replace(w: Measure, ts: seq<Stack>, t: nat, st: Stack)
    requires t < |ts|
    ensures Total(w, ts[t := st]) + Sum(w, ts[t]) == Total(w, ts) + Sum(w, st)
  {
    if t > 0 {
      Replace(w, ts[1..], t - 1, st);
      assert ts[t := st][1..] == ts[1..][t - 1 := st];
    } else {
      assert ts[t := st][1..] == ts[1..];
    }
  }

  lemma {:induction false} Part(w: Measure, ts: seq<Stack>, t: nat)
    requires t < |ts|
    ensures Sum(w, ts[t]) <= Total(w, ts)
  {
    if t > 0 { Part(w, ts[1..], t - 1); }
  }

  lemma {:induction false} Parts(w: Measure, ts: seq<Stack>, t: nat, u: nat)
    requires t < |ts| && u < |ts| && t != u
    ensures Sum(w, ts[t]) + Sum(w, ts[u]) <= Total(w, ts)
  {
    if t == 0 { Part(w, ts[1..], u - 1); }
    else if u == 0 { Part(w, ts[1..], t - 1); }
    else { Parts(w, ts[1..], t - 1, u - 1); }
  }

  // ---- The invariant ----

  function One(b: bool): nat { if b then 1 else 0 }

  /** The families of steps, as DoStep divides them. */
  predicate Leaves(f: Frame) {
    f.ExecRefused? || f.ExecReady? || f.ExecLeave? || f.AddRefused? || f.AddLeave? || f.CloseLost?
  }
  predicate Runs(f: Frame) { f.RunTaken? || f.RunRefused? || f.RunDrop? }
  predicate Adds(f: Frame) { f.AddLocking? || f.AddInsert? }
  predicate Begins(f: Frame) { f.CloseAnchor? || f.CloseWait? || f.CloseFlag? }
  predicate Ends(f: Frame) { f.CloseReset? || f.CloseDone? || f.CloseRelease? }
  predicate Calls(f: Frame) { f.CloseLocking? || f.CloseLoop? || f.CloseRelock? || f.CloseMark? }
  predicate Removes(f: Frame) { f.RemLocking? || f.RemSearch? || f.RemWait? }

  /** Only user code has anything above it, but for the removal startCancellableTask
      makes when its function throws; nested work has its thread's own item below. */
  predicate Shaped(st: Stack) {
    st.Cons? ==>
      Shaped(st.rest)
      && (st.rest.Cons? ==> User(st.rest.top) || (st.rest.top.AddLeave? && Removes(st.top)))
      && (st.top.RunNested? ==> Sum(Items, st.rest) > 0)
  }

  predicate ShapeOk(s: State) { forall t :: 0 <= t < |s.threads| ==> Shaped(s.threads[t]) }

  /** The counters of the word count; the context is deleted once, at zero. */
  ghost predicate CountOk(s: State) {
    && s.w.blocks == Total(Blocks, s.threads)
    && s.w.refs == s.handles + s.queue + Total(Refs, s.threads)
    && One(s.w.locked) == Total(Locks, s.threads)
    && (Total(Pins, s.threads) > 0 ==> s.handles > 0)
    && s.deletions == One(s.w.refs == 0)
  }

  /** The flags follow the one closing thread. */
  ghost predicate PhaseOk(s: State) {
    && (s.w.closed ==> s.w.closing) && (s.w.closing ==> s.passed) && (s.passed ==> s.w.preparing)
    && Total(Early, s.threads) == One(s.w.preparing && !s.passed)
    && Total(Middle, s.threads) == One(s.passed && !s.w.closing)
    && Total(Late, s.threads) == One(s.w.closing && !s.w.closed)
    && (s.w.preparing ==> s.closer.Some? && s.closer.value < |s.threads|)
    && (s.w.preparing && !s.w.closed ==> Closers(s.threads[s.closer.value]) == 1)
  }

  /** Beyond waitForClosing no other thread is in a blocked section, and the closing thread
      is in none that could register a handler or use the executor. */
  ghost predicate BarrierOk(s: State)
    requires PhaseOk(s)
  {
    s.passed ==>
      && (forall u :: 0 <= u < |s.threads| && u != s.closer.value ==> Sum(Holds, s.threads[u]) == 0)
      && Sum(Fresh, s.threads[s.closer.value]) == 0
  }

  predicate FrameOk(s: State, f: Frame) {
    && (f.RemLocking? || f.RemSearch? || f.StartFn? ==> f.h < |s.handlers|)
    && (f.RemWait? ==> f.h < |s.handlers| && !s.handlers[f.h].place.Listed?)
    && (f.CloseCall? || f.CloseRelock? || f.CloseMark? ==>
          f.h < |s.handlers| && s.handlers[f.h].place.Popped? && !s.handlers[f.h].done)
    && (f.CloseReset? || f.CloseDone? ==> s.list == [])
  }

  predicate AllOk(s: State, st: Stack) {
    st.Cons? ==> FrameOk(s, st.top) && AllOk(s, st.rest)
  }

  ghost predicate FramesOk(s: State) { forall t :: 0 <= t < |s.threads| ==> AllOk(s, s.threads[t]) }

  predicate NoDup(list: seq<HandlerId>) { forall i, j :: 0 <= i < j < |list| ==> list[i] != list[j] }

  /** Each registered handler is in the list, or popped and called once, or unlinked and
      never called; a removal that has returned found it unlinked or finished. */
  predicate HandlerOk(hd: Handler, inList: bool) {
    && (hd.place.Listed? <==> inList)
    && hd.calls == One(hd.place.Popped?)
    && (hd.done || hd.destroyed ==> hd.place.Popped?)
    && (hd.removal.RemovedByOther? ==> hd.place.Unlinked? || hd.done)
    && (hd.removal.RemovedByCloser? ==> hd.place.Unlinked? || hd.done || hd.destroyed)
  }

  ghost predicate HandlersOk(s: State) {
    && NoDup(s.list)
    && (forall h :: h in s.list ==> h < |s.handlers|)
    && (forall h :: 0 <= h < |s.handlers| ==> HandlerOk(s.handlers[h], h in s.list))
    && (s.w.closed ==> s.list == [])
  }

  ghost predicate Inv(s: State) {
    ShapeOk(s) && CountOk(s) && PhaseOk(s) && BarrierOk(s) && FramesOk(s) && HandlersOk(s)
  }

  // ---- What one step may do, seen from the thread that takes it ----

  /** The thread's share of the counters. */
  ghost predicate CountHere(s: State, st: Stack) {
    && Sum(Blocks, st) <= s.w.blocks
    && s.handles + s.queue + Sum(Refs, st) <= s.w.refs
    && Sum(Locks, st) <= One(s.w.locked)
    && (Sum(Pins, st) > 0 ==> s.handles > 0)
  }

  /** The thread's share of the closing. */
  ghost predicate PhaseHere(s: State, st: Stack) {
    && (s.w.closed ==> s.w.closing) && (s.w.closing ==> s.passed) && (s.passed ==> s.w.preparing)
    && Sum(Early, st) <= One(s.w.preparing && !s.passed)
    && Sum(Middle, st) <= One(s.passed && !s.w.closing)
    && Sum(Late, st) <= One(s.w.closing && !s.w.closed)
  }

  lemma IsHere(s: State, t: nat)
    requires t < |s.threads| && Inv(s)
    ensures CountHere(s, s.threads[t]) && PhaseHere(s, s.threads[t])
  {
    Part(Blocks, s.threads, t);
    Part(Refs, s.threads, t);
    Part(Locks, s.threads, t);
    Part(Pins, s.threads, t);
    Part(Early, s.threads, t);
    Part(Middle, s.threads, t);
    Part(Late, s.threads, t);
  }

  /** The counters move with what the stack holds. */
  ghost predicate CountMove(s: State, t: nat, s': State)
    requires t < |s.threads| == |s'.threads|
  {
    var st, st' := s.threads[t], s'.threads[t];
    && s'.w.blocks + Sum(Blocks, st) == s.w.blocks + Sum(Blocks, st')
    && s'.w.refs + s.handles + s.queue + Sum(Refs, st) == s.w.refs + s'.handles + s'.queue + Sum(Refs, st')
    && One(s'.w.locked) + Sum(Locks, st) == One(s.w.locked) + Sum(Locks, st')
    && (s'.handles > 0 || (s.handles == s'.handles && Sum(Pins, st') <= Sum(Pins, st)))
    && s.w.refs > 0 && s'.deletions == s.deletions + One(s'.w.refs == 0)
  }

  /** The flags move with the closing thread; once passed, a thread takes on nothing that
      the barrier excludes. */
  ghost predicate PhaseMove(s: State, t: nat, s': State)
    requires t < |s.threads| == |s'.threads|
  {
    var st, st' := s.threads[t], s'.threads[t];
    && (s'.w.closed ==> s'.w.closing) && (s'.w.closing ==> s'.passed) && (s'.passed ==> s'.w.preparing)
    && (s.w.preparing ==> s'.w.preparing && s'.closer == s.closer) && (s.w.closed ==> s'.w.closed)
    && One(s'.w.preparing && !s'.passed) + Sum(Early, st) == One(s.w.preparing && !s.passed) + Sum(Early, st')
    && One(s'.passed && !s'.w.closing) + Sum(Middle, st) == One(s.passed && !s.w.closing) + Sum(Middle, st')
    && One(s'.w.closing && !s'.w.closed) + Sum(Late, st) == One(s.w.closing && !s.w.closed) + Sum(Late, st')
    && (s.w.preparing && !s'.w.closed ==> Closers(st') == Closers(st))
    && (!s.w.preparing && s'.w.preparing ==> s'.closer == Some(t) && Closers(st') == 1)
    && (s.passed ==> s'.passed && Sum(Holds, st') <= Sum(Holds, st) && Sum(Fresh, st') <= Sum(Fresh, st))
    && (!s.passed && s'.passed ==> st.Cons? && st.top.CloseWait? && s.w.blocks <= Sum(Items, st)
                                   && Sum(Holds, st') == Sum(Holds, st) && Sum(Fresh, st') == Sum(Fresh, st))
  }

  lemma LeaveCounts(s: State, t: nat)
    requires t < |s.threads| && CountHere(s, s.threads[t]) && Enabled(s, t, Step)
    requires Leaves(s.threads[t].top)
    ensures CountMove(s, t, DoLeave(s, t))
  {}

  lemma LeavePhase(s: State, t: nat)
    requires t < |s.threads| && PhaseHere(s, s.threads[t]) && Enabled(s, t, Step)
    requires Leaves(s.threads[t].top)
    ensures PhaseMove(s, t, DoLeave(s, t))
  {}

  lemma RunCounts(s: State, t: nat)
    requires t < |s.threads| && CountHere(s, s.threads[t]) && Enabled(s, t, Step)
    requires Runs(s.threads[t].top)
    ensures CountMove(s, t, DoRun(s, t))
  {
    if s.threads[t].top.RunTaken? { return; }
    if s.threads[t].top.RunRefused? { return; }
  }

  lemma RunPhase(s: State, t: nat)
    requires t < |s.threads| && PhaseHere(s, s.threads[t]) && Enabled(s, t, Step)
    requires Runs(s.threads[t].top)
    ensures PhaseMove(s, t, DoRun(s, t))
  {
    var f := s.threads[t].top;
    if f.RunRefused? { return; }
    if f.RunDrop? { return; }
  }

  lemma AddCounts(s: State, t: nat)
    requires t < |s.threads| && CountHere(s, s.threads[t]) && Enabled(s, t, Step)
    requires Adds(s.threads[t].top)
    ensures CountMove(s, t, DoAdd(s, t))
  {}

  lemma AddPhase(s: State, t: nat)
    requires t < |s.threads| && PhaseHere(s, s.threads[t]) && Enabled(s, t, Step)
    requires Adds(s.threads[t].top)
    ensures PhaseMove(s, t, DoAdd(s, t))
  {}

  lemma RemoveCounts(s: State, t: nat)
    requires t < |s.threads| && CountHere(s, s.threads[t]) && AllOk(s, s.threads[t]) && Enabled(s, t, Step)
    requires Removes(s.threads[t].top)
    requires !s.threads[t].top.RemSearch?
    ensures CountMove(s, t, DoRemove(s, t))
  {
    if s.threads[t].top.RemLocking? { return; }
  }

  lemma RemoveCountsSearch(s: State, t: nat)
    requires t < |s.threads| && CountHere(s, s.threads[t]) && AllOk(s, s.threads[t]) && Enabled(s, t, Step)
    requires Removes(s.threads[t].top)
    requires s.threads[t].top.RemSearch?
    ensures CountMove(s, t, DoRemove(s, t))
  {
    var h := s.threads[t].top.h;
    if IndexOf(s.list, h) < |s.list| { return; }
    if ClosingHere(s.threads[t].rest) { return; }
  }

  lemma RemovePhase(s: State, t: nat)
    requires t < |s.threads| && PhaseHere(s, s.threads[t]) && AllOk(s, s.threads[t]) && Enabled(s, t, Step)
    requires Removes(s.threads[t].top)
    requires !s.threads[t].top.RemSearch?
    ensures PhaseMove(s, t, DoRemove(s, t))
  {
    if s.threads[t].top.RemLocking? { return; }
  }

  lemma RemovePhaseSearch(s: State, t: nat)
    requires t < |s.threads| && PhaseHere(s, s.threads[t]) && AllOk(s, s.threads[t]) && Enabled(s, t, Step)
    requires Removes(s.threads[t].top)
    requires s.threads[t].top.RemSearch?
    ensures PhaseMove(s, t, DoRemove(s, t))
  {
    if s.threads[t].top.h in s.list { SearchFoundPhase(s, t); return; }
    if ClosingHere(s.threads[t].rest) { SearchClosingPhase(s, t); return; }
  }

  lemma SearchFoundPhase(s: State, t: nat)
    requires t < |s.threads| && PhaseHere(s, s.threads[t]) && Enabled(s, t, Step)
    requires s.threads[t].top.RemSearch? && s.threads[t].top.h in s.list && FrameOk(s, s.threads[t].top)
    ensures PhaseMove(s, t, DoRemove(s, t))
  {}

  lemma SearchClosingPhase(s: State, t: nat)
    requires t < |s.threads| && PhaseHere(s, s.threads[t]) && Enabled(s, t, Step)
    requires s.threads[t].top.RemSearch? && s.threads[t].top.h !in s.list && FrameOk(s, s.threads[t].top)
    requires ClosingHere(s.threads[t].rest)
    ensures PhaseMove(s, t, DoRemove(s, t))
  {}

  lemma CloseCounts(s: State, t: nat)
    requires t < |s.threads| && CountHere(s, s.threads[t]) && Enabled(s, t, Step)
    requires Begins(s.threads[t].top)
    ensures CountMove(s, t, DoClose(s, t))
  {
    if s.threads[t].top.CloseAnchor? { return; }
    if s.threads[t].top.CloseWait? { return; }
  }

  lemma CloseCountsEnd(s: State, t: nat)
    requires t < |s.threads| && CountHere(s, s.threads[t]) && Enabled(s, t, Step)
    requires Ends(s.threads[t].top)
    ensures CountMove(s, t, DoClose(s, t))
  {
    if s.threads[t].top.CloseReset? { return; }
    if s.threads[t].top.CloseDone? { return; }
  }

  lemma ClosePhase(s: State, t: nat)
    requires t < |s.threads| && PhaseHere(s, s.threads[t]) && Enabled(s, t, Step)
    requires Begins(s.threads[t].top)
    ensures PhaseMove(s, t, DoClose(s, t))
  {}

  lemma ClosedPhase(s: State, t: nat)
    requires t < |s.threads| && PhaseHere(s, s.threads[t]) && Enabled(s, t, Step)
    requires Ends(s.threads[t].top)
    ensures PhaseMove(s, t, DoClose(s, t))
  {}

  lemma CallCounts(s: State, t: nat)
    requires t < |s.threads| && CountHere(s, s.threads[t]) && HandlersOk(s) && Enabled(s, t, Step)
    requires Calls(s.threads[t].top)
    requires !s.threads[t].top.CloseLoop?
    ensures CountMove(s, t, DoCall(s, t))
  {
    if s.threads[t].top.CloseLocking? { return; }
    if s.threads[t].top.CloseRelock? { return; }
  }

  lemma CallCountsPop(s: State, t: nat)
    requires t < |s.threads| && CountHere(s, s.threads[t]) && HandlersOk(s) && Enabled(s, t, Step)
    requires Calls(s.threads[t].top)
    requires s.threads[t].top.CloseLoop?
    ensures CountMove(s, t, DoCall(s, t))
  {
    assert s.list != [] ==> s.list[0] in s.list;
  }

  lemma CallPhase(s: State, t: nat)
    requires t < |s.threads| && PhaseHere(s, s.threads[t]) && HandlersOk(s) && Enabled(s, t, Step)
    requires Calls(s.threads[t].top)
    requires !s.threads[t].top.CloseLoop?
    ensures PhaseMove(s, t, DoCall(s, t))
  {}

  lemma CallPhasePop(s: State, t: nat)
    requires t < |s.threads| && PhaseHere(s, s.threads[t]) && HandlersOk(s) && Enabled(s, t, Step)
    requires Calls(s.threads[t].top)
    requires s.threads[t].top.CloseLoop?
    ensures PhaseMove(s, t, DoCall(s, t))
  {
    assert s.list != [] ==> s.list[0] in s.list;
  }

  lemma ReturnCounts(s: State, t: nat, throws: bool)
    requires t < |s.threads| && CountHere(s, s.threads[t]) && Enabled(s, t, Return(throws))
    requires s.threads[t].top.ExecInline? || s.threads[t].top.RunNested? || s.threads[t].top.RunWork?
    ensures CountMove(s, t, DoReturn(s, t, throws))
  {}

  lemma ReturnCountsOther(s: State, t: nat, throws: bool)
    requires t < |s.threads| && CountHere(s, s.threads[t]) && Enabled(s, t, Return(throws))
    requires s.threads[t].top.StartFn? || s.threads[t].top.CloseCall?
    ensures CountMove(s, t, DoReturn(s, t, throws))
  {}

  lemma ReturnPhase(s: State, t: nat, throws: bool)
    requires t < |s.threads| && PhaseHere(s, s.threads[t]) && Enabled(s, t, Return(throws))
    requires s.threads[t].top.ExecInline? || s.threads[t].top.RunNested? || s.threads[t].top.RunWork?
    ensures PhaseMove(s, t, DoReturn(s, t, throws))
  {
    if s.threads[t].top.ExecInline? { return; }
    if s.threads[t].top.RunNested? { return; }
  }

  lemma ReturnPhaseOther(s: State, t: nat, throws: bool)
    requires t < |s.threads| && PhaseHere(s, s.threads[t]) && Enabled(s, t, Return(throws))
    requires s.threads[t].top.StartFn? || s.threads[t].top.CloseCall?
    ensures PhaseMove(s, t, DoReturn(s, t, throws))
  {}

  lemma CallsCount(s: State, t: nat, a: Action)
    requires t < |s.threads| && CountHere(s, s.threads[t]) && Enabled(s, t, a)
    requires a.CallExec? || a.CallAdd? || a.CallRemove? || a.CallClose?
    ensures CountMove(s, t, Do(s, t, a))
  {
    match a {
      case CallExec => CallExecCounts(s, t); return;
      case CallAdd(start) => CallAddCounts(s, t, start); return;
      case CallClose => CallCloseCounts(s, t); return;
      case CallRemove(h) => CallRemoveCounts(s, t, h); return;
      case Return(_) => return;
      case Step => return;
      case Inline => return;
      case Take => return;
      case DropQueued => return;
      case NewHandle => return;
      case DropHandle => return;
    }
  }

  lemma CallCloseCounts(s: State, t: nat)
    requires t < |s.threads| && CountHere(s, s.threads[t]) && Enabled(s, t, CallClose)
    ensures CountMove(s, t, Do(s, t, CallClose))
  {}

  lemma CallRemoveCounts(s: State, t: nat, h: HandlerId)
    requires t < |s.threads| && CountHere(s, s.threads[t]) && Enabled(s, t, CallRemove(h))
    ensures CountMove(s, t, Do(s, t, CallRemove(h)))
  {}

  lemma CallExecCounts(s: State, t: nat)
    requires t < |s.threads| && CountHere(s, s.threads[t]) && Enabled(s, t, CallExec)
    ensures CountMove(s, t, Do(s, t, CallExec))
  {}

  lemma CallAddCounts(s: State, t: nat, start: bool)
    requires t < |s.threads| && CountHere(s, s.threads[t]) && Enabled(s, t, CallAdd(start))
    ensures CountMove(s, t, Do(s, t, CallAdd(start)))
  {}

  lemma CallExecPhase(s: State, t: nat)
    requires t < |s.threads| && PhaseHere(s, s.threads[t]) && Enabled(s, t, CallExec)
    ensures PhaseMove(s, t, Do(s, t, CallExec))
  {}

  lemma CallAddPhase(s: State, t: nat, start: bool)
    requires t < |s.threads| && PhaseHere(s, s.threads[t]) && Enabled(s, t, CallAdd(start))
    ensures PhaseMove(s, t, Do(s, t, CallAdd(start)))
  {}

  lemma CallClosePhase(s: State, t: nat)
    requires t < |s.threads| && PhaseHere(s, s.threads[t]) && Enabled(s, t, CallClose)
    ensures PhaseMove(s, t, Do(s, t, CallClose))
  {
    if s.w.preparing { return; }
  }

  lemma CallsPhase(s: State, t: nat, a: Action)
    requires t < |s.threads| && PhaseHere(s, s.threads[t]) && Enabled(s, t, a)
    requires a.CallExec? || a.CallAdd? || a.CallRemove? || a.CallClose?
    ensures PhaseMove(s, t, Do(s, t, a))
  {
    match a {
      case CallExec => CallExecPhase(s, t); return;
      case CallAdd(start) => CallAddPhase(s, t, start); return;
      case CallClose => CallClosePhase(s, t); return;
      case CallRemove(_) => return;
      case Return(_) => return;
      case Step => return;
      case Inline => return;
      case Take => return;
      case DropQueued => return;
      case NewHandle => return;
      case DropHandle => return;
    }
  }

  lemma OthersCount(s: State, t: nat, a: Action)
    requires t < |s.threads| && CountHere(s, s.threads[t]) && Enabled(s, t, a)
    requires a.Inline? || a.Take? || a.DropQueued? || a.NewHandle?
    ensures CountMove(s, t, Do(s, t, a))
  {}

  lemma OthersPhase(s: State, t: nat, a: Action)
    requires t < |s.threads| && PhaseHere(s, s.threads[t]) && Enabled(s, t, a)
    requires a.Inline? || a.Take? || a.DropQueued? || a.NewHandle? || a.DropHandle?
    ensures PhaseMove(s, t, Do(s, t, a))
  {
    if a.Inline? { return; }
    if a.Take? { return; }
    if a.DropQueued? { return; }
    if a.NewHandle? { return; }
  }

  lemma CountMovesStepList(s: State, t: nat)
    requires t < |s.threads| && Inv(s) && Enabled(s, t, Step)
    requires Removes(s.threads[t].top) || Calls(s.threads[t].top)
    ensures CountMove(s, t, DoStep(s, t))
  {
    IsHere(s, t);
    var f := s.threads[t].top;
    if f.RemSearch? { RemoveCountsSearch(s, t); return; }
    if Removes(f) { RemoveCounts(s, t); return; }
    if f.CloseLoop? { CallCountsPop(s, t); return; }
    CallCounts(s, t);
  }

  lemma CountMovesStep(s: State, t: nat)
    requires t < |s.threads| && Inv(s) && Enabled(s, t, Step)
    ensures CountMove(s, t, DoStep(s, t))
  {
    var f := s.threads[t].top;
    if Removes(f) || Calls(f) { CountMovesStepList(s, t); return; }
    IsHere(s, t);
    if Leaves(f) { LeaveCounts(s, t); return; }
    if Runs(f) { RunCounts(s, t); return; }
    if Adds(f) { AddCounts(s, t); return; }
    if Begins(f) { CloseCounts(s, t); return; }
    CloseCountsEnd(s, t);
  }

  lemma CountMoves(s: State, t: nat, a: Action)
    requires t < |s.threads| && Inv(s) && Enabled(s, t, a) && !a.DropHandle?
    ensures CountMove(s, t, Do(s, t, a))
  {
    IsHere(s, t);
    if a.Step? {
      CountMovesStep(s, t);
    } else if a.Return? {
      if s.threads[t].top.StartFn? || s.threads[t].top.CloseCall? { ReturnCountsOther(s, t, a.throws); }
      else { ReturnCounts(s, t, a.throws); }
    } else if a.CallExec? || a.CallAdd? || a.CallRemove? || a.CallClose? {
      CallsCount(s, t, a);
    } else {
      OthersCount(s, t, a);
    }
  }

  lemma PhaseMovesStepList(s: State, t: nat)
    requires t < |s.threads| && Inv(s) && Enabled(s, t, Step)
    requires Removes(s.threads[t].top) || Calls(s.threads[t].top)
    ensures PhaseMove(s, t, DoStep(s, t))
  {
    IsHere(s, t);
    var f := s.threads[t].top;
    if f.RemSearch? { RemovePhaseSearch(s, t); return; }
    if Removes(f) { RemovePhase(s, t); return; }
    if f.CloseLoop? { CallPhasePop(s, t); return; }
    CallPhase(s, t);
  }

  lemma PhaseMovesStep(s: State, t: nat)
    requires t < |s.threads| && Inv(s) && Enabled(s, t, Step)
    ensures PhaseMove(s, t, DoStep(s, t))
  {
    var f := s.threads[t].top;
    if Removes(f) || Calls(f) { PhaseMovesStepList(s, t); return; }
    IsHere(s, t);
    if Leaves(f) { LeavePhase(s, t); return; }
    if Runs(f) { RunPhase(s, t); return; }
    if Adds(f) { AddPhase(s, t); return; }
    if Begins(f) { ClosePhase(s, t); return; }
    ClosedPhase(s, t);
  }

  lemma PhaseMoves(s: State, t: nat, a: Action)
    requires t < |s.threads| && Inv(s) && Enabled(s, t, a)
    ensures PhaseMove(s, t, Do(s, t, a))
  {
    IsHere(s, t);
    if a.Step? {
      PhaseMovesStep(s, t);
    } else if a.Return? {
      if s.threads[t].top.StartFn? || s.threads[t].top.CloseCall? { ReturnPhaseOther(s, t, a.throws); }
      else { ReturnPhase(s, t, a.throws); }
    } else if a.CallExec? || a.CallAdd? || a.CallRemove? || a.CallClose? {
      CallsPhase(s, t, a);
    } else {
      OthersPhase(s, t, a);
    }
  }

  /** Every step changes one stack. */
  lemma OwnStep(s: State, t: nat)
    requires t < |s.threads| && Enabled(s, t, Step)
    ensures var s' := DoStep(s, t); s'.threads == s.threads[t := s'.threads[t]]
  {
    var f := s.threads[t].top;
    if Leaves(f) { return; }
    if Runs(f) { return; }
    if Adds(f) { return; }
    if Removes(f) { return; }
    if Calls(f) { return; }
  }

  lemma OwnStack(s: State, t: nat, a: Action)
    requires t < |s.threads| && Enabled(s, t, a)
    ensures var s' := Do(s, t, a); s'.threads == s.threads[t := s'.threads[t]]
  {
    if a.Step? { OwnStep(s, t); return; }
    if a.Return? { return; }
  }

  lemma Moved(w: Measure, s: State, t: nat, s': State)
    requires t < |s.threads| == |s'.threads| && s'.threads == s.threads[t := s'.threads[t]]
    ensures Total(w, s'.threads) + Sum(w, s.threads[t]) == Total(w, s.threads) + Sum(w, s'.threads[t])
  {
    Replace(w, s.threads, t, s'.threads[t]);
  }

  lemma CountKept(s: State, t: nat, s': State)
    requires t < |s.threads| == |s'.threads| && s'.threads == s.threads[t := s'.threads[t]]
    requires CountOk(s) && CountMove(s, t, s')
    ensures CountOk(s')
  {
    Moved(Blocks, s, t, s');
    Moved(Refs, s, t, s');
    Moved(Locks, s, t, s');
    Moved(Pins, s, t, s');
  }

  /** A handle is given up by an owner no call still relies on. */
  lemma DropCounts(s: State, t: nat)
    requires t < |s.threads| && Inv(s) && Enabled(s, t, DropHandle)
    ensures CountOk(Do(s, t, DropHandle))
  {}

  lemma PhaseKept(s: State, t: nat, s': State)
    requires t < |s.threads| == |s'.threads| && s'.threads == s.threads[t := s'.threads[t]]
    requires PhaseOk(s) && PhaseMove(s, t, s')
    ensures PhaseOk(s')
  {
    Moved(Early, s, t, s');
    Moved(Middle, s, t, s');
    Moved(Late, s, t, s');
  }

  /** The items of a thread and its unfinished registrations are all blocks. */
  lemma {:induction false} ItemsWithin(st: Stack)
    ensures Sum(Items, st) <= Sum(Blocks, st) && Sum(Holds, st) <= Sum(Blocks, st)
    ensures Sum(Blocks, st) == Sum(Holds, st) + Sum(Refused, st)
  {
    if st.Cons? { ItemsWithin(st.rest); }
  }

  /** Below a closing frame there is only user code, so what is neither item nor handed
      over yet is a start function, which holds a block of its own. */
  lemma {:induction false} FreshWithin(st: Stack)
    requires Shaped(st) && (st.Cons? ==> User(st.top))
    ensures Sum(Items, st) + Sum(Fresh, st) <= Sum(Blocks, st)
  {
    if st.Cons? { FreshWithin(st.rest); }
  }

  /** The moment the closing thread leaves waitForClosing. */
  lemma BarrierReached(s: State, t: nat, u: nat)
    requires t < |s.threads| && u < |s.threads| && Inv(s)
    requires s.threads[t].Cons? && s.threads[t].top.CloseWait? && s.w.blocks <= Sum(Items, s.threads[t])
    ensures s.closer == Some(t) && Sum(Fresh, s.threads[t]) == 0
    ensures u != t ==> Sum(Holds, s.threads[u]) == 0
  {
    var st := s.threads[t];
    ItemsWithin(st);
    FreshWithin(st.rest);
    Part(Blocks, s.threads, t);
    Part(Early, s.threads, t);
    CloserIs(s, t);
    if u != t {
      Parts(Blocks, s.threads, t, u);
      ItemsWithin(s.threads[u]);
    }
  }

  /** A closing frame is on the closing thread. */
  lemma CloserIs(s: State, t: nat)
    requires t < |s.threads| && PhaseOk(s) && Closers(s.threads[t]) > 0
    ensures s.closer == Some(t)
  {
    Part(Early, s.threads, t);
    Part(Middle, s.threads, t);
    Part(Late, s.threads, t);
    var c := s.closer.value;
    if c != t {
      Parts(Early, s.threads, t, c);
      Parts(Middle, s.threads, t, c);
      Parts(Late, s.threads, t, c);
    }
  }

  lemma BarrierKept(s: State, t: nat, s': State)
    requires t < |s.threads| == |s'.threads| && s'.threads == s.threads[t := s'.threads[t]]
    requires Inv(s) && PhaseMove(s, t, s') && PhaseOk(s')
    ensures BarrierOk(s')
  {
    if s'.passed && !s.passed {
      BarrierReached(s, t, t);
      forall u | 0 <= u < |s'.threads| && u != s'.closer.value
        ensures Sum(Holds, s'.threads[u]) == 0
      {
        BarrierReached(s, t, u);
      }
    }
  }

  // ---- Shapes ----

  lemma ShapeStep(s: State, t: nat)
    requires t < |s.threads| && Shaped(s.threads[t]) && Enabled(s, t, Step)
    ensures Shaped(DoStep(s, t).threads[t])
  {
    var f := s.threads[t].top;
    if Removes(f) || Calls(f) { ShapeList(s, t); return; }
    if Leaves(f) { return; }
    if Runs(f) { return; }
    if Adds(f) { return; }
  }

  lemma ShapeList(s: State, t: nat)
    requires t < |s.threads| && Shaped(s.threads[t]) && Enabled(s, t, Step)
    requires Removes(s.threads[t].top) || Calls(s.threads[t].top)
    ensures Shaped(DoStep(s, t).threads[t])
  {
    if Removes(s.threads[t].top) { return; }
  }

  lemma ShapeKept(s: State, t: nat, a: Action)
    requires t < |s.threads| && ShapeOk(s) && Enabled(s, t, a)
    ensures ShapeOk(Do(s, t, a))
  {
    OwnStack(s, t, a);
    assert Shaped(s.threads[t]);
    ShapeOwn(s, t, a);
  }

  lemma ShapeOwn(s: State, t: nat, a: Action)
    requires t < |s.threads| && Shaped(s.threads[t]) && Enabled(s, t, a)
    ensures Shaped(Do(s, t, a).threads[t])
  {
    if a.Step? { ShapeStep(s, t); return; }
    if a.Return? { return; }
    if a.Take? { return; }
    if a.CallClose? { return; }
  }

  // ---- Frames and handlers ----

  /** A handler leaves the list once and for all. */
  predicate Steady(s: State, s': State) {
    && |s.handlers| <= |s'.handlers|
    && (forall h :: 0 <= h < |s.handlers| && !s.handlers[h].place.Listed? ==>
          s'.handlers[h].place == s.handlers[h].place)
  }

  predicate Quiet(s: State, s': State) {
    && (s.list == [] ==> s'.list == [])
    && (forall h :: 0 <= h < |s.handlers| && h < |s'.handlers| ==> s'.handlers[h].done == s.handlers[h].done)
  }

  lemma {:induction false} StillOk(s: State, s': State, st: Stack)
    requires AllOk(s, st) && Steady(s, s') && (Quiet(s, s') || Sum(Late, st) == 0)
    ensures AllOk(s', st)
  {
    if st.Cons? { StillOk(s, s', st.rest); }
  }

  /** Nobody registers a handler once the barrier is passed. */
  lemma InsertsBefore(s: State, t: nat)
    requires t < |s.threads| && Inv(s) && s.threads[t].Cons? && Adds(s.threads[t].top)
    ensures !s.passed && Total(Late, s.threads) == 0
  {}

  predicate Touches(f: Frame) { Adds(f) || Removes(f) || Calls(f) }

  lemma Untouched(s: State, t: nat)
    requires t < |s.threads| && Enabled(s, t, Step) && !Touches(s.threads[t].top)
    ensures DoStep(s, t).handlers == s.handlers && DoStep(s, t).list == s.list
  {
    if Leaves(s.threads[t].top) { return; }
    if Runs(s.threads[t].top) { return; }
  }

  lemma RemoveSeen(s: State, t: nat)
    requires t < |s.threads| && Inv(s) && Enabled(s, t, Step) && Removes(s.threads[t].top)
    ensures Steady(s, DoRemove(s, t)) && Quiet(s, DoRemove(s, t))
  {
    assert AllOk(s, s.threads[t]);
    var f := s.threads[t].top;
    if f.RemLocking? || f.RemWait? { return; }
    if IndexOf(s.list, f.h) < |s.list| { return; }
    if ClosingHere(s.threads[t].rest) { return; }
  }

  lemma CallSeen(s: State, t: nat)
    requires t < |s.threads| && Inv(s) && Enabled(s, t, Step) && Calls(s.threads[t].top)
    ensures Steady(s, DoCall(s, t)) && (Quiet(s, DoCall(s, t)) || s.threads[t].top.CloseMark?)
  {
    assert AllOk(s, s.threads[t]);
    assert s.list != [] ==> s.list[0] in s.list;
    var f := s.threads[t].top;
    if f.CloseLocking? || f.CloseRelock? { return; }
    if f.CloseMark? { return; }
  }

  /** What the other frames see of a step. */
  lemma Seen(s: State, t: nat, a: Action)
    requires t < |s.threads| && Inv(s) && Enabled(s, t, a)
    ensures Steady(s, Do(s, t, a))
    ensures Quiet(s, Do(s, t, a))
            || (a.Step? && (s.threads[t].top.CloseMark? || s.threads[t].top.AddInsert?))
  {
    if a.Step? { StepSeen(s, t); return; }
    if a.Return? { return; }
  }

  lemma StepSeen(s: State, t: nat)
    requires t < |s.threads| && Inv(s) && Enabled(s, t, Step)
    ensures Steady(s, DoStep(s, t))
    ensures Quiet(s, DoStep(s, t)) || s.threads[t].top.CloseMark? || s.threads[t].top.AddInsert?
  {
    if Removes(s.threads[t].top) { RemoveSeen(s, t); return; }
    if Calls(s.threads[t].top) { CallSeen(s, t); return; }
    if !Adds(s.threads[t].top) { Untouched(s, t); return; }
  }

  lemma OthersOk(s: State, t: nat, a: Action, u: nat)
    requires t < |s.threads| && u < |s.threads| && u != t && Inv(s) && Enabled(s, t, a)
    ensures AllOk(Do(s, t, a), Do(s, t, a).threads[u])
  {
    Seen(s, t, a);
    OwnStack(s, t, a);
    assert AllOk(s, s.threads[u]);
    if !Quiet(s, Do(s, t, a)) {
      if s.threads[t].top.AddInsert? { InsertsBefore(s, t); }
      Parts(Late, s.threads, t, u);
    }
    StillOk(s, Do(s, t, a), s.threads[u]);
  }

  lemma RestOk(s: State, t: nat, a: Action)
    requires t < |s.threads| && s.threads[t].Cons? && Inv(s) && Enabled(s, t, a)
    ensures AllOk(Do(s, t, a), s.threads[t].rest)
  {
    Seen(s, t, a);
    assert AllOk(s, s.threads[t]);
    if !Quiet(s, Do(s, t, a)) {
      if s.threads[t].top.AddInsert? { InsertsBefore(s, t); }
      Part(Late, s.threads, t);
    }
    StillOk(s, Do(s, t, a), s.threads[t].rest);
  }

  lemma AddTop(s: State, t: nat)
    requires t < |s.threads| && s.threads[t].Cons? && Adds(s.threads[t].top)
    requires AllOk(DoAdd(s, t), s.threads[t].rest)
    ensures AllOk(DoAdd(s, t), DoAdd(s, t).threads[t])
  {}

  lemma RemoveTop(s: State, t: nat)
    requires t < |s.threads| && s.threads[t].Cons? && Removes(s.threads[t].top)
    requires FrameOk(s, s.threads[t].top) && HandlersOk(s)
    requires AllOk(DoRemove(s, t), s.threads[t].rest)
    ensures AllOk(DoRemove(s, t), DoRemove(s, t).threads[t])
  {
    var f := s.threads[t].top;
    if f.RemLocking? || f.RemWait? { return; }
    if IndexOf(s.list, f.h) < |s.list| { return; }
    if ClosingHere(s.threads[t].rest) { return; }
  }

  lemma CallTop(s: State, t: nat)
    requires t < |s.threads| && s.threads[t].Cons? && Calls(s.threads[t].top)
    requires FrameOk(s, s.threads[t].top) && HandlersOk(s)
    requires AllOk(DoCall(s, t), s.threads[t].rest)
    ensures AllOk(DoCall(s, t), DoCall(s, t).threads[t])
  {
    assert s.list != [] ==> s.list[0] in s.list;
    var f := s.threads[t].top;
    if f.CloseLocking? || f.CloseRelock? { return; }
    if f.CloseMark? { return; }
  }

  lemma PlainTop(s: State, t: nat)
    requires t < |s.threads| && s.threads[t].Cons? && Enabled(s, t, Step) && !Touches(s.threads[t].top)
    requires FrameOk(s, s.threads[t].top)
    requires AllOk(DoStep(s, t), s.threads[t].rest)
    ensures AllOk(DoStep(s, t), DoStep(s, t).threads[t])
  {
    var f := s.threads[t].top;
    if Leaves(f) { return; }
    if Runs(f) { return; }
    CloseTop(s, t);
  }

  lemma CloseTop(s: State, t: nat)
    requires t < |s.threads| && s.threads[t].Cons? && (Begins(s.threads[t].top) || Ends(s.threads[t].top))
    requires FrameOk(s, s.threads[t].top)
    requires AllOk(DoClose(s, t), s.threads[t].rest)
    ensures AllOk(DoClose(s, t), DoClose(s, t).threads[t])
  {
    if Begins(s.threads[t].top) { return; }
  }

  lemma StepOk(s: State, t: nat)
    requires t < |s.threads| && Inv(s) && Enabled(s, t, Step)
    requires AllOk(DoStep(s, t), s.threads[t].rest)
    ensures AllOk(DoStep(s, t), DoStep(s, t).threads[t])
  {
    assert AllOk(s, s.threads[t]);
    var f := s.threads[t].top;
    if Adds(f) { AddTop(s, t); }
    else if Removes(f) { RemoveTop(s, t); }
    else if Calls(f) { CallTop(s, t); }
    else { PlainTop(s, t); }
  }

  lemma OwnOk(s: State, t: nat, a: Action)
    requires t < |s.threads| && Inv(s) && Enabled(s, t, a)
    ensures AllOk(Do(s, t, a), Do(s, t, a).threads[t])
  {
    if !a.Step? && !a.Return? && !a.Inline? {
      OwnCalls(s, t, a);
      return;
    }
    if s.threads[t].Cons? { RestOk(s, t, a); }
    if a.Step? {
      StepOk(s, t);
      return;
    }
    assert AllOk(s, s.threads[t]);
    if a.Return? { return; }
  }

  lemma OwnCalls(s: State, t: nat, a: Action)
    requires t < |s.threads| && Inv(s) && Enabled(s, t, a) && !a.Step? && !a.Return? && !a.Inline?
    ensures AllOk(Do(s, t, a), Do(s, t, a).threads[t])
  {
    assert AllOk(s, s.threads[t]);
    Seen(s, t, a);
    StillOk(s, Do(s, t, a), s.threads[t]);
    if a.CallRemove? { return; }
    if a.Take? { return; }
  }

  lemma FramesKept(s: State, t: nat, a: Action)
    requires t < |s.threads| && Inv(s) && Enabled(s, t, a)
    ensures FramesOk(Do(s, t, a))
  {
    var s' := Do(s, t, a);
    forall u | 0 <= u < |s'.threads|
      ensures AllOk(s', s'.threads[u])
    {
      if u == t { OwnOk(s, t, a); } else { OthersOk(s, t, a, u); }
    }
  }

  // ---- The handlers ----

  lemma FrontNoDup(list: seq<HandlerId>, h: HandlerId)
    requires NoDup(list) && forall x :: x in list ==> x < h
    ensures NoDup([h] + list)
    ensures forall x :: x in [h] + list <==> x == h || x in list
  {
    var q := [h] + list;
    assert forall k :: 0 <= k < |list| ==> q[k + 1] == list[k] && list[k] in list;
    forall i, j | 0 <= i < j < |q|
      ensures q[i] != q[j]
    {
      assert q[j] == list[j - 1];
    }
  }

  lemma AddHandler(s: State, t: nat)
    requires t < |s.threads| && Inv(s) && Enabled(s, t, Step) && Adds(s.threads[t].top)
    ensures HandlersOk(DoAdd(s, t))
  {
    if s.threads[t].top.AddLocking? {
      return;
    }
    InsertsBefore(s, t);
    FrontNoDup(s.list, |s.handlers|);
  }

  lemma Without(list: seq<HandlerId>, i: nat, h: HandlerId)
    requires i < |list| && NoDup(list)
    ensures NoDup(list[..i] + list[i + 1..])
    ensures h in list[..i] + list[i + 1..] <==> h in list && h != list[i]
  {
    var rest := list[..i] + list[i + 1..];
    if h in list && h != list[i] {
      var k :| 0 <= k < |list| && list[k] == h;
      assert rest[if k < i then k else k - 1] == h;
    }
  }

  lemma RemoveHandler(s: State, t: nat)
    requires t < |s.threads| && Inv(s) && Enabled(s, t, Step) && Removes(s.threads[t].top)
    ensures HandlersOk(DoRemove(s, t))
  {
    assert AllOk(s, s.threads[t]);
    var f := s.threads[t].top;
    if f.RemLocking? { return; }
    if f.RemWait? { return; }
    if IndexOf(s.list, f.h) < |s.list| {
      UnlinkHandler(s, t);
      return;
    }
    if ClosingHere(s.threads[t].rest) { return; }
  }

  lemma UnlinkHandler(s: State, t: nat)
    requires t < |s.threads| && Inv(s) && Enabled(s, t, Step) && s.threads[t].top.RemSearch?
    requires IndexOf(s.list, s.threads[t].top.h) < |s.list|
    ensures HandlersOk(DoRemove(s, t))
  {
    var f := s.threads[t].top;
    var i := IndexOf(s.list, f.h);
    var s' := DoRemove(s, t);
    forall h: nat
      ensures h in s'.list <==> h in s.list && h != f.h
    {
      Without(s.list, i, h);
    }
    Without(s.list, i, f.h);
  }

  lemma PopHandler(s: State, t: nat)
    requires t < |s.threads| && HandlersOk(s) && s.threads[t].Cons? && s.list != [] && !s.w.closed
    ensures HandlersOk(DoPop(s.(w := s.w.(locked := false)), t))
  {
    var h := s.list[0];
    var s' := DoPop(s.(w := s.w.(locked := false)), t);
    assert h in s.list && HandlerOk(s.handlers[h], true);
    assert s.list[..0] + s.list[0 + 1..] == s.list[1..];
    forall k: nat
      ensures k in s'.list <==> k in s.list && k != h
    {
      Without(s.list, 0, k);
    }
    Without(s.list, 0, h);
  }

  lemma CallHandler(s: State, t: nat)
    requires t < |s.threads| && Inv(s) && Enabled(s, t, Step) && Calls(s.threads[t].top)
    ensures HandlersOk(DoCall(s, t))
  {
    assert AllOk(s, s.threads[t]);
    Part(Late, s.threads, t);
    if s.threads[t].top.CloseLoop? {
      if s.list != [] { PopHandler(s, t); }
      return;
    }
    if s.threads[t].top.CloseMark? { return; }
  }

  lemma HandlersKept(s: State, t: nat, a: Action)
    requires t < |s.threads| && Inv(s) && Enabled(s, t, a)
    ensures HandlersOk(Do(s, t, a))
  {
    if a.Step? {
      var f := s.threads[t].top;
      if Adds(f) { AddHandler(s, t); }
      else if Removes(f) { RemoveHandler(s, t); }
      else if Calls(f) { CallHandler(s, t); }
      else {
        Untouched(s, t);
        assert AllOk(s, s.threads[t]);
        ClosedAt(s, t);
      }
    } else if a.Return? {
      return;
    }
  }

  /** Closed is only set with the list empty. */
  lemma ClosedAt(s: State, t: nat)
    requires t < |s.threads| && Enabled(s, t, Step) && !Touches(s.threads[t].top)
    requires FrameOk(s, s.threads[t].top) && (s.w.closed ==> s.list == [])
    ensures DoStep(s, t).w.closed ==> s.list == []
  {
    if Leaves(s.threads[t].top) { return; }
    if Runs(s.threads[t].top) { return; }
  }

  // ---- The invariant holds throughout ----

  lemma InvStep(s: State, t: nat, a: Action)
    requires t < |s.threads| && Inv(s) && Enabled(s, t, a)
    ensures Inv(Do(s, t, a))
  {
    var s' := Do(s, t, a);
    OwnStack(s, t, a);
    ShapeKept(s, t, a);
    if a.DropHandle? {
      DropCounts(s, t);
    } else {
      CountMoves(s, t, a);
      CountKept(s, t, s');
    }
    PhaseMoves(s, t, a);
    PhaseKept(s, t, s');
    BarrierKept(s, t, s');
    FramesKept(s, t, a);
    HandlersKept(s, t, a);
  }

  lemma {:induction false} Idle(w: Measure, n: nat)
    ensures Total(w, seq(n, _ => Empty)) == 0
  {
    var ts := seq(n, _ => Empty);
    if n > 0 {
      Idle(w, n - 1);
      assert ts[1..] == seq(n - 1, _ => Empty);
    }
  }

  lemma InvInit(n: nat)
    ensures Inv(Init(n))
  {
    Idle(Blocks, n);
    Idle(Refs, n);
    Idle(Locks, n);
    Idle(Pins, n);
    Idle(Early, n);
    Idle(Middle, n);
    Idle(Late, n);
  }

  lemma {:induction false} InvAfter(s: State, run: seq<Event>)
    requires Inv(s) && Legal(s, run)
    ensures Inv(After(s, run))
    decreases |run|
  {
    if run != [] {
      InvStep(s, run[0].t, run[0].a);
      InvAfter(Do(s, run[0].t, run[0].a), run[1..]);
    }
  }
}

/** What the close protocol promises, for every number of threads and every schedule. */
module CloseTheorems {
  import opened ContextState
  import opened CloseProtocol
  import opened Wrappers
  import opened CloseInvariant

  /** The state a schedule leads to from a new context. */
  function State(n: nat, run: seq<Event>): CloseProtocol.State
    requires Legal(Init(n), run)
  {
    After(Init(n), run)
  }

  lemma Reached(n: nat, run: seq<Event>)
    requires Legal(Init(n), run)
    ensures Inv(State(n, run))
  {
    InvInit(n);
    InvAfter(Init(n), run);
  }

  /** What is never taken back. */
  ghost predicate Later(s: CloseProtocol.State, s': CloseProtocol.State) {
    && |s'.threads| == |s.threads|
    && (s.w.preparing ==> s'.w.preparing && s'.closer == s.closer)
    && (s.passed ==> s'.passed) && (s.w.closed ==> s'.w.closed)
    && Steady(s, s')
  }

  lemma {:induction false} Onward(s: CloseProtocol.State, run: seq<Event>)
    requires Inv(s) && Legal(s, run)
    ensures Later(s, After(s, run)) && Inv(After(s, run))
    decreases |run|
  {
    if run != [] {
      var t, a := run[0].t, run[0].a;
      InvStep(s, t, a);
      PhaseMoves(s, t, a);
      Seen(s, t, a);
      Onward(Do(s, t, a), run[1..]);
    }
  }

  // ---- The close barrier ----

  lemma {:induction false} NoWork(st: Stack)
    requires Shaped(st) && Sum(Holds, st) == 0
    ensures Sum(Works, st) == 0 && Sum(Items, st) == 0
  {
    if st.Cons? { NoWork(st.rest); }
  }

  /** From the moment the closing thread leaves waitForClosing no other thread is in a
      successfully blocked section or runs work of the context, now or ever again, and no
      thread is about to use the executor. */
  lemma CloseBarrier(n: nat, run: seq<Event>, more: seq<Event>, u: nat)
    requires Legal(Init(n), run) && State(n, run).passed && Legal(State(n, run), more) && u < n
    ensures State(n, run).closer.Some?
    ensures var s := After(State(n, run), more);
            && u < |s.threads|
            && (State(n, run).closer != Some(u) ==>
                  Sum(Holds, s.threads[u]) == 0 && Sum(Works, s.threads[u]) == 0)
            && !(s.threads[u].Cons? && s.threads[u].top.ExecReady?)
            && !(s.threads[u].Cons? && Adds(s.threads[u].top))
  {
    Reached(n, run);
    Threads(Init(n), run);
    Onward(State(n, run), more);
    var s := After(State(n, run), more);
    assert Shaped(s.threads[u]);
    if State(n, run).closer != Some(u) { NoWork(s.threads[u]); }
  }

  lemma {:induction false} Threads(s: CloseProtocol.State, run: seq<Event>)
    requires Legal(s, run)
    ensures |After(s, run).threads| == |s.threads|
    decreases |run|
  {
    if run != [] { Threads(Do(s, run[0].t, run[0].a), run[1..]); }
  }

  // ---- Counting and deletion ----

  lemma {:induction false} TotalBlocks(ts: seq<Stack>)
    ensures Total(Blocks, ts) == Total(Holds, ts) + Total(Refused, ts)
  {
    if ts != [] {
      ItemsWithin(ts[0]);
      TotalBlocks(ts[1..]);
    }
  }

  /** The counters of the word: blocks are the holders and the failing attempts, references
      are the handles, the queued closures and what the threads have in hand. */
  lemma CountersExact(n: nat, run: seq<Event>)
    requires Legal(Init(n), run)
    ensures var s := State(n, run);
            && s.w.blocks == Total(Holds, s.threads) + Total(Refused, s.threads)
            && s.w.refs == s.handles + s.queue + Total(Refs, s.threads)
  {
    Reached(n, run);
    TotalBlocks(State(n, run).threads);
  }

  lemma NoFrames(s: CloseProtocol.State, t: nat)
    requires Inv(s) && s.w.refs == 0 && t < |s.threads|
    ensures s.threads[t] == Empty
  {
    Part(Refs, s.threads, t);
    Part(Pins, s.threads, t);
  }

  /** The context is deleted at most once, exactly when the last reference goes; then no
      thread is inside it, no closure is queued, and nothing can touch it any more. */
  lemma DeletedOnce(n: nat, run: seq<Event>)
    requires Legal(Init(n), run)
    ensures var s := State(n, run);
            && s.deletions == (if s.w.refs == 0 then 1 else 0)
            && (s.deletions == 1 ==>
                  && s.handles == 0 && s.queue == 0
                  && (forall t :: 0 <= t < |s.threads| ==> s.threads[t] == Empty)
                  && (forall t: nat, a :: t < |s.threads| ==> !Enabled(s, t, a)))
  {
    Reached(n, run);
    var s := State(n, run);
    if s.deletions == 1 {
      forall t | 0 <= t < |s.threads|
        ensures s.threads[t] == Empty
      {
        NoFrames(s, t);
      }
    }
  }

  // ---- The flags ----

  /** One thread closes; Closed implies Closing implies PreparingForClosing; the assertions
      in setClosingFlag, setClosedFlag and unlockCloseHandlerList hold; the list has at most
      one lock holder. */
  lemma FlagsInOrder(n: nat, run: seq<Event>, t: nat)
    requires Legal(Init(n), run) && t < |State(n, run).threads|
    ensures var s := State(n, run);
            && (s.w.closed ==> s.w.closing) && (s.w.closing ==> s.w.preparing)
            && Total(Early, s.threads) + Total(Middle, s.threads) + Total(Late, s.threads)
               == (if s.w.preparing && !s.w.closed then 1 else 0)
            && Total(Locks, s.threads) <= 1
            && (s.threads[t].Cons? ==>
                  && (s.threads[t].top.CloseFlag? ==> !s.w.closing)
                  && (s.threads[t].top.CloseDone? ==> !s.w.closed)
                  && (Locks(s.threads[t].top) == 1 ==> s.w.locked))
  {
    Reached(n, run);
    var s := State(n, run);
    Part(Middle, s.threads, t);
    Part(Late, s.threads, t);
    Part(Locks, s.threads, t);
  }

  // ---- The handlers ----

  /** Once Closed is set the list is empty for good, and every handler ever registered was
      either unlinked and never called or popped and called exactly once. */
  lemma HandlersServed(n: nat, run: seq<Event>, more: seq<Event>)
    requires Legal(Init(n), run) && State(n, run).w.closed && Legal(State(n, run), more)
    ensures var s := After(State(n, run), more);
            && s.list == []
            && (forall h :: 0 <= h < |s.handlers| ==>
                  (s.handlers[h].place.Unlinked? && s.handlers[h].calls == 0)
                  || (s.handlers[h].place.Popped? && s.handlers[h].calls == 1))
  {
    Reached(n, run);
    Onward(State(n, run), more);
  }

  predicate CallsHandler(f: Frame, h: HandlerId) {
    f == CloseCall(h) || f == CloseRelock(h) || f == CloseMark(h)
  }

  /** aoContextClose of h is under way on this stack. */
  predicate Calling(st: Stack, h: HandlerId) {
    st.Cons? && (CallsHandler(st.top, h) || Calling(st.rest, h))
  }

  lemma {:induction false} CallingIs(s: CloseProtocol.State, st: Stack, h: HandlerId)
    requires AllOk(s, st) && Calling(st, h)
    ensures h < |s.handlers| && s.handlers[h].place.Popped? && !s.handlers[h].done
  {
    if !CallsHandler(st.top, h) { CallingIs(s, st.rest, h); }
  }

  lemma {:induction false} StaysDone(s: CloseProtocol.State, run: seq<Event>, h: HandlerId)
    requires Inv(s) && Legal(s, run) && h < |s.handlers| && s.handlers[h].done
    ensures h < |After(s, run).handlers| && After(s, run).handlers[h].done
    decreases |run|
  {
    if run != [] {
      var t, a := run[0].t, run[0].a;
      InvStep(s, t, a);
      DoneStep(s, t, a, h);
      StaysDone(Do(s, t, a), run[1..], h);
    }
  }

  lemma DoneStep(s: CloseProtocol.State, t: nat, a: Action, h: HandlerId)
    requires Inv(s) && t < |s.threads| && Enabled(s, t, a) && h < |s.handlers| && s.handlers[h].done
    ensures h < |Do(s, t, a).handlers| && Do(s, t, a).handlers[h].done
  {
    Seen(s, t, a);
    if a.Step? && s.threads[t].top.CloseMark? { return; }
    if a.Step? && s.threads[t].top.AddInsert? { return; }
  }

  /** When removeCloseHandler returns on a thread that is not closing the context, the
      handler's aoContextClose is not running and never will be again. */
  lemma RemovalHandshake(n: nat, run: seq<Event>, more: seq<Event>, h: HandlerId, u: nat)
    requires Legal(Init(n), run) && Legal(State(n, run), more) && u < |State(n, run).threads|
    requires h < |State(n, run).handlers| && State(n, run).handlers[h].removal.RemovedByOther?
    ensures var s, s' := State(n, run), After(State(n, run), more);
            && u < |s'.threads| && !Calling(s'.threads[u], h)
            && h < |s'.handlers| && s'.handlers[h].calls == s.handlers[h].calls
  {
    Reached(n, run);
    var s, s' := State(n, run), After(State(n, run), more);
    Onward(s, more);
    assert HandlerOk(s.handlers[h], h in s.list) && HandlerOk(s'.handlers[h], h in s'.list);
    if s.handlers[h].done { StaysDone(s, more, h); }
    assert AllOk(s', s'.threads[u]);
    if Calling(s'.threads[u], h) { CallingIs(s', s'.threads[u], h); }
  }

  /** After the callback the closing thread writes to the handler only if it has not been
      marked destroyed, and then no removal of it has returned, so it is still there. */
  lemma CloserTouchesLive(n: nat, run: seq<Event>, t: nat, h: HandlerId)
    requires Legal(Init(n), run) && t < |State(n, run).threads|
    requires State(n, run).threads[t].Cons? && State(n, run).threads[t].top == CloseMark(h)
    ensures h < |State(n, run).handlers|
    ensures State(n, run).handlers[h].destroyed
            || State(n, run).handlers[h].removal.NotRemoved? || State(n, run).handlers[h].removal.Removing?
  {
    Reached(n, run);
    var s := State(n, run);
    assert AllOk(s, s.threads[t]);
    assert HandlerOk(s.handlers[h], h in s.list);
  }

  // ---- The word ----

  /** The atomic operation of AOContextState behind a step. */
  function OpOf(s: CloseProtocol.State, t: nat, a: Action): WordOp
    requires t < |s.threads| && Enabled(s, t, a)
  {
    match a
    case CallExec => Add(ONE_BLOCK + ONE_REF)
    case CallAdd(_) => Add(ONE_BLOCK)
    case CallClose => SetFlag(PREPARING_FOR_CLOSING)
    case NewHandle => Add(ONE_REF)
    case DropQueued | DropHandle => Sub(ONE_REF)
    case CallRemove(_) | Inline | Take => Keep
    case Return(_) =>
      var f := s.threads[t].top;
      if f.ExecInline? then Sub(ONE_REF)
      else if f.RunWork? then Sub(ONE_BLOCK + ONE_REF)
      else Keep
    case Step => StepOp(s.threads[t].top)
  }

  function StepOp(f: Frame): WordOp {
    if f.ExecRefused? then Sub(ONE_BLOCK + ONE_REF)
    else if f.ExecLeave? || f.RunRefused? || f.AddRefused? || f.AddLeave? then Sub(ONE_BLOCK)
    else if f.RunTaken? then Add(ONE_BLOCK)
    else if f.RunDrop? || f.CloseRelease? then Sub(ONE_REF)
    else if f.AddLocking? || f.RemLocking? || f.CloseLocking? || f.CloseRelock? then SetFlag(LOCK_CLOSE_HANDLER_LIST)
    else if f.AddInsert? || f.RemSearch? || f.CloseLoop? then ClearFlag(LOCK_CLOSE_HANDLER_LIST)
    else if f.CloseAnchor? then Add(ONE_REF)
    else if f.CloseFlag? then SetFlag(CLOSING)
    else if f.CloseDone? then SetFlag(CLOSED)
    else Keep
  }

  /** The record after an operation, while the counters fit their fields. */
  function Apply(op: WordOp, w: Fields): Fields {
    match op
    case Keep => w
    case Add(k) => if k == ONE_REF then w.(refs := w.refs + 1)
                   else if k == ONE_BLOCK then w.(blocks := w.blocks + 1)
                   else w.(refs := w.refs + 1, blocks := w.blocks + 1)
    case Sub(k) => if k == ONE_REF then w.(refs := w.refs - 1)
                   else if k == ONE_BLOCK then w.(blocks := w.blocks - 1)
                   else w.(refs := w.refs - 1, blocks := w.blocks - 1)
    case SetFlag(flag) => if flag == PREPARING_FOR_CLOSING then w.(preparing := true)
                          else if flag == CLOSING then w.(closing := true)
                          else if flag == CLOSED then w.(closed := true)
                          else w.(locked := true)
    case ClearFlag(_) => w.(locked := false)
  }

  lemma PlainOpFits(s: CloseProtocol.State, t: nat)
    requires t < |s.threads| && Enabled(s, t, Step)
    requires Leaves(s.threads[t].top) || Runs(s.threads[t].top)
    ensures DoStep(s, t).w == Apply(StepOp(s.threads[t].top), s.w)
  {
    if Leaves(s.threads[t].top) { return; }
  }

  lemma ListOpFits(s: CloseProtocol.State, t: nat)
    requires t < |s.threads| && Enabled(s, t, Step) && FrameOk(s, s.threads[t].top) && HandlersOk(s)
    requires Removes(s.threads[t].top) || Calls(s.threads[t].top)
    ensures DoStep(s, t).w == Apply(StepOp(s.threads[t].top), s.w)
  {
    assert s.list != [] ==> s.list[0] in s.list;
    if Removes(s.threads[t].top) { return; }
  }

  lemma StepOpFits(s: CloseProtocol.State, t: nat)
    requires t < |s.threads| && Inv(s) && Enabled(s, t, Step)
    ensures DoStep(s, t).w == Apply(StepOp(s.threads[t].top), s.w) && Known(StepOp(s.threads[t].top))
  {
    assert AllOk(s, s.threads[t]);
    var f := s.threads[t].top;
    if Leaves(f) || Runs(f) { PlainOpFits(s, t); }
    else if Removes(f) || Calls(f) { ListOpFits(s, t); }
    else if Adds(f) { return; }
    else if Begins(f) { return; }
  }

  predicate Known(op: WordOp) {
    match op
    case Keep => true
    case Add(k) => k == ONE_REF || k == ONE_BLOCK || k == ONE_BLOCK + ONE_REF
    case Sub(k) => k == ONE_REF || k == ONE_BLOCK || k == ONE_BLOCK + ONE_REF
    case SetFlag(flag) => flag == 1 || flag == 2 || flag == 4 || flag == 8
    case ClearFlag(flag) => flag == LOCK_CLOSE_HANDLER_LIST
  }

  lemma OnWordIs(op: WordOp, w: Fields)
    requires Known(op) && w.InRange() && Apply(op, w).InRange()
    ensures OnWord(op, w.Pack()) == Apply(op, w).Pack()
  {
    match op {
      case Keep =>
      case Add(k) => Counted(w, Apply(op, w), k);
      case Sub(k) => Counted(Apply(op, w), w, k);
      case SetFlag(flag) => SetFlags(w);
      case ClearFlag(_) => ClearLockIs(w);
    }
  }

  lemma Counted(w: Fields, w': Fields, k: nat)
    requires w.InRange() && w'.InRange() && Known(Add(k)) && w' == Apply(Add(k), w)
    ensures FetchAdd(w.Pack(), k) == w'.Pack() && FetchSub(w'.Pack(), k) == w.Pack()
  {
    if k == ONE_REF { Count(w, 1, 0); }
    else if k == ONE_BLOCK { Count(w, 0, 1); }
    else { Count(w, 1, 1); }
  }

  lemma SetFlags(w: Fields)
    requires w.InRange()
    ensures OnWord(SetFlag(1), w.Pack()) == w.(preparing := true).Pack()
    ensures OnWord(SetFlag(2), w.Pack()) == w.(closing := true).Pack()
    ensures OnWord(SetFlag(4), w.Pack()) == w.(closed := true).Pack()
    ensures OnWord(SetFlag(8), w.Pack()) == w.(locked := true).Pack()
  {
    Powers();
    SetFlagIs(w, 0);
    SetFlagIs(w, 1);
    SetFlagIs(w, 2);
    SetFlagIs(w, 3);
  }

  /** While the counters stay below 2^32 references and 2^24 blocks, each step is one atomic
      operation on the 64-bit word, with no carry or borrow between its fields. */
  lemma WordRefines(n: nat, run: seq<Event>, t: nat, a: Action)
    requires Legal(Init(n), run) && t < |State(n, run).threads| && Enabled(State(n, run), t, a)
    requires State(n, run).w.refs <= MAX_REFS && State(n, run).w.blocks <= MAX_BLOCKS
    requires Do(State(n, run), t, a).w.refs <= MAX_REFS && Do(State(n, run), t, a).w.blocks <= MAX_BLOCKS
    ensures var s := State(n, run);
            && s.w.InRange() && Do(s, t, a).w.InRange()
            && OnWord(OpOf(s, t, a), s.w.Pack()) == Do(s, t, a).w.Pack()
            && View(Do(s, t, a).w.Pack()) == Do(s, t, a).w
  {
    var s := State(n, run);
    Reached(n, run);
    InvStep(s, t, a);
    OpFits(s, t, a);
    OnWordIs(OpOf(s, t, a), s.w);
    ViewPack(Do(s, t, a).w);
  }

  lemma OpFits(s: CloseProtocol.State, t: nat, a: Action)
    requires t < |s.threads| && Inv(s) && Enabled(s, t, a)
    ensures Do(s, t, a).w == Apply(OpOf(s, t, a), s.w) && Known(OpOf(s, t, a))
  {
    if a.Step? {
      StepOpFits(s, t);
      return;
    }
    if a.Return? { return; }
    if a.CallExec? { return; }
  }

  // ---- A close that gets through ----

  /** A thread at frame f of close, with no one else about, as handlers are listed. */
  function Alone(w: Fields, f: Frame, passed: bool): CloseProtocol.State {
    CloseProtocol.State.State(w, 1, 0, 0, [], [], [Cons(f, Empty)], passed, Some(0))
  }

  lemma Next(s: CloseProtocol.State, s': CloseProtocol.State, rest: seq<Event>) returns (run: seq<Event>)
    requires |s.threads| > 0 && Enabled(s, 0, Step) && Do(s, 0, Step) == s' && Legal(s', rest)
    ensures Legal(s, run) && After(s, run) == After(s', rest)
  {
    run := [Event(0, Step)] + rest;
    assert run[1..] == rest;
  }

  const OPEN := Fields(true, false, false, false, 1, 0)
  const HELD := Fields(true, false, false, false, 2, 0)
  const SHUT := Fields(true, true, false, false, 2, 0)
  const DONE := Fields(true, true, true, false, 2, 0)

  lemma FirstSteps()
    ensures Enabled(Alone(OPEN, CloseAnchor, false), 0, Step)
    ensures Do(Alone(OPEN, CloseAnchor, false), 0, Step) == Alone(HELD, CloseWait, false)
    ensures Enabled(Alone(HELD, CloseWait, false), 0, Step)
    ensures Do(Alone(HELD, CloseWait, false), 0, Step) == Alone(HELD, CloseFlag, true)
  {
    assert Sum(Items, Empty) == 0;
  }

  lemma FlagStep()
    ensures Enabled(Alone(HELD, CloseFlag, true), 0, Step)
    ensures Do(Alone(HELD, CloseFlag, true), 0, Step) == Alone(SHUT, CloseLocking, true)
  {}

  lemma ListSteps()
    ensures Enabled(Alone(SHUT, CloseLocking, true), 0, Step)
    ensures Do(Alone(SHUT, CloseLocking, true), 0, Step) == Alone(SHUT.(locked := true), CloseLoop, true)
    ensures Enabled(Alone(SHUT.(locked := true), CloseLoop, true), 0, Step)
    ensures Do(Alone(SHUT.(locked := true), CloseLoop, true), 0, Step) == Alone(SHUT, CloseReset, true)
  {}

  lemma LastSteps()
    ensures Enabled(Alone(SHUT, CloseReset, true), 0, Step)
    ensures Do(Alone(SHUT, CloseReset, true), 0, Step) == Alone(SHUT, CloseDone, true)
    ensures Enabled(Alone(SHUT, CloseDone, true), 0, Step)
    ensures Do(Alone(SHUT, CloseDone, true), 0, Step) == Alone(DONE, CloseRelease, true)
  {}

  /** The premises of the theorems are met: a lone thread calls close and gets to Closed. */
  lemma CloseExample() returns (run: seq<Event>)
    ensures Legal(Init(1), run) && After(Init(1), run).w.closed
  {
    FirstSteps();
    FlagStep();
    ListSteps();
    LastSteps();
    run := [];
    run := Next(Alone(SHUT, CloseDone, true), Alone(DONE, CloseRelease, true), run);
    run := Next(Alone(SHUT, CloseReset, true), Alone(SHUT, CloseDone, true), run);
    run := Next(Alone(SHUT.(locked := true), CloseLoop, true), Alone(SHUT, CloseReset, true), run);
    run := Next(Alone(SHUT, CloseLocking, true), Alone(SHUT.(locked := true), CloseLoop, true), run);
    run := Next(Alone(HELD, CloseFlag, true), Alone(SHUT, CloseLocking, true), run);
    run := Next(Alone(HELD, CloseWait, false), Alone(HELD, CloseFlag, true), run);
    run := Next(Alone(OPEN, CloseAnchor, false), Alone(HELD, CloseWait, false), run);
    CallStep(run);
    run := [Event(0, CallClose)] + run;
  }

  lemma CallStep(rest: seq<Event>)
    requires Legal(Alone(OPEN, CloseAnchor, false), rest)
    ensures var run := [Event(0, CallClose)] + rest;
            Legal(Init(1), run) && After(Init(1), run) == After(Alone(OPEN, CloseAnchor, false), rest)
  {
    assert Do(Init(1), 0, CallClose) == Alone(OPEN, CloseAnchor, false);
    assert ([Event(0, CallClose)] + rest)[1..] == rest;
  }
}

/** The close protocol of an AOContext as a step system: any number of threads run exec,
    addCloseHandler, startCancellableTask, removeCloseHandler and close, nested in each
    other as their user code pleases, one atomic step at a time. */
module CloseProtocol {
  import opened ContextState
  import opened Wrappers

  type HandlerId = nat

  datatype Place = Listed | Popped | Unlinked
  datatype Removal = NotRemoved | Removing | RemovedByOther | RemovedByCloser

  /** calls counts aoContextClose; done and destroyed are m_done and *m_destroyed. */
  datatype Handler = Handler(place: Place, calls: nat, done: bool, destroyed: bool, removal: Removal)

  /** One activation on a thread's stack, named after what the thread does next. */
  datatype Frame =
    // exec
    | ExecRefused
    | ExecReady
    | ExecInline
    | ExecLeave
    // a closure taken from the executor
    | RunTaken
    | RunRefused
    | RunNested
    | RunWork
    | RunDrop
    // addCloseHandler and startCancellableTask
    | AddRefused
    | AddLocking(start: bool)
    | AddInsert(start: bool)
    | StartFn(h: HandlerId)
    | AddLeave
    // removeCloseHandler
    | RemLocking(h: HandlerId)
    | RemSearch(h: HandlerId)
    | RemWait(h: HandlerId)
    // close, by the thread that set the flag first
    | CloseAnchor
    | CloseWait
    | CloseFlag
    | CloseLocking
    | CloseLoop
    | CloseCall(h: HandlerId)
    | CloseRelock(h: HandlerId)
    | CloseMark(h: HandlerId)
    | CloseReset
    | CloseDone
    | CloseRelease
    // close, by any other thread
    | CloseLost

  datatype Stack = Empty | Cons(top: Frame, rest: Stack)

  /** w is the atomic word, handles the AOContext and AOContextRef objects, queue the
      closures the executor still owns. passed and closer are history: the closing thread
      has left waitForClosing, and which thread it is. */
  datatype State = State(
    w: Fields, handles: nat, queue: nat, deletions: nat,
    list: seq<HandlerId>, handlers: seq<Handler>,
    threads: seq<Stack>, passed: bool, closer: Option<nat>)

  datatype Action =
    | CallExec | CallAdd(start: bool) | CallRemove(h: HandlerId) | CallClose
    | Return(throws: bool)      // user code ends
    | Step                      // the next atomic step of the top frame
    | Inline                    // the executor runs the closure inside exec
    | Take                      // the executor runs a queued closure on this thread
    | DropQueued                // the executor destroys a queued closure
    | NewHandle | DropHandle

  // ---- Weights: what a frame holds ----

  /** Contributions to the block-close counter, failing attempts included. */
  function Blocks(f: Frame): nat {
    if f.ExecRefused? || f.ExecReady? || f.ExecInline? || f.ExecLeave? || f.RunRefused? ||
       f.RunWork? || f.AddRefused? || f.AddLocking? || f.AddInsert? || f.StartFn? || f.AddLeave? then 1 else 0
  }

  /** Attempts that came after PreparingForClosing and are about to be undone. */
  function Refused(f: Frame): nat {
    if f.ExecRefused? || f.RunRefused? || f.AddRefused? then 1 else 0
  }

  /** A successfully blocked section. */
  function Holds(f: Frame): nat { Blocks(f) - Refused(f) }

  /** Entries of WorkingInThisThreadSet. */
  function Items(f: Frame): nat {
    if f.ExecReady? || f.ExecInline? || f.RunWork? then 1 else 0
  }

  /** Sections that may still register a handler or use the executor. */
  function Fresh(f: Frame): nat {
    if f.AddLocking? || f.AddInsert? || f.StartFn? || f.AddLeave? || f.ExecReady? then 1 else 0
  }

  /** Work of the context in progress. */
  function Works(f: Frame): nat {
    if f.ExecInline? || f.RunNested? || f.RunWork? then 1 else 0
  }

  /** References held by closures being handled and by the closer's anchor. */
  function Refs(f: Frame): nat {
    if f.ExecRefused? || f.ExecReady? || f.ExecInline? || f.RunTaken? || f.RunRefused? ||
       f.RunNested? || f.RunWork? || f.RunDrop? || f.CloseWait? || f.CloseFlag? ||
       f.CloseLocking? || f.CloseLoop? || f.CloseCall? || f.CloseRelock? || f.CloseMark? ||
       f.CloseReset? || f.CloseDone? || f.CloseRelease? then 1 else 0
  }

  /** Calls that rely on their caller's handle to keep the context alive. */
  function Pins(f: Frame): nat {
    if f.ExecRefused? || f.ExecReady? || f.ExecInline? || f.ExecLeave? || f.AddRefused? ||
       f.AddLocking? || f.AddInsert? || f.StartFn? || f.AddLeave? || f.RemLocking? ||
       f.RemSearch? || f.RemWait? || f.CloseAnchor? || f.CloseLost? then 1 else 0
  }

  /** Holders of the list's spin bit. */
  function Locks(f: Frame): nat {
    if f.AddInsert? || f.RemSearch? || f.CloseLoop? || f.CloseMark? then 1 else 0
  }

  /** The closer before it leaves waitForClosing, before it sets Closing, before Closed. */
  function Early(f: Frame): nat { if f.CloseAnchor? || f.CloseWait? then 1 else 0 }
  function Middle(f: Frame): nat { if f.CloseFlag? then 1 else 0 }
  function Late(f: Frame): nat {
    if f.CloseLocking? || f.CloseLoop? || f.CloseCall? || f.CloseRelock? || f.CloseMark? ||
       f.CloseReset? || f.CloseDone? then 1 else 0
  }

  type Measure = Frame -> nat

  function Sum(w: Measure, st: Stack): nat {
    match st
    case Empty => 0
    case Cons(f, rest) => w(f) + Sum(w, rest)
  }

  function Total(w: Measure, ts: seq<Stack>): nat {
    if ts == [] then 0 else Sum(w, ts[0]) + Total(w, ts[1..])
  }

  /** The frames of a stack that belong to the closing in progress. */
  function Closers(st: Stack): nat { Sum(Early, st) + Sum(Middle, st) + Sum(Late, st) }

  /** Frames in which user code runs and may call the context again. */
  predicate User(f: Frame) {
    f.ExecInline? || f.RunNested? || f.RunWork? || f.StartFn? || f.CloseCall?
  }

  predicate InUserCode(st: Stack) { st.Empty? || User(st.top) }

  /** ClosingInThisThreadSet::contains(this) */
  predicate ClosingHere(st: Stack) {
    Closers(st) > 0 || (st.Cons? && st.top.CloseRelease?)
  }

  // ---- The steps ----

  predicate Enabled(s: State, t: nat, a: Action)
    requires t < |s.threads|
  {
    var st := s.threads[t];
    match a
    case CallExec | CallAdd(_) | CallClose => InUserCode(st) && s.handles > 0
    case CallRemove(h) =>
      InUserCode(st) && s.handles > 0 && h < |s.handlers| && s.handlers[h].removal == NotRemoved
    case Return(throws) =>
      st.Cons? && User(st.top)
      && (st.top.StartFn? && throws ==>
            st.top.h < |s.handlers| && s.handlers[st.top.h].removal == NotRemoved)
    case Step => st.Cons? && !User(st.top) && StepEnabled(s, st)
    case Inline => st.Cons? && st.top.ExecReady?
    case Take => InUserCode(st) && s.queue > 0
    case DropQueued => s.queue > 0
    case NewHandle => InUserCode(st) && s.handles > 0
    case DropHandle => InUserCode(st) && s.handles > 0 && (s.handles > 1 || Total(Pins, s.threads) == 0)
  }

  /** The guards of the spinning and waiting steps. */
  predicate StepEnabled(s: State, st: Stack)
    requires st.Cons?
  {
    var f := st.top;
    if f.AddLocking? || f.RemLocking? || f.CloseLocking? || f.CloseRelock? then !s.w.locked
    else if f.RemWait? then f.h < |s.handlers| && s.handlers[f.h].done
    else if f.CloseWait? then s.w.blocks <= Sum(Items, st)
    else if f.CloseLost? then s.w.closed || ClosingHere(st) || Sum(Items, st) > 0
    else true
  }

  function Unblock(w: Fields): Fields {
    w.(blocks := w.blocks - 1)
  }

  /** Gives a reference back; the one that brings the counter to zero deletes the context. */
  function Release(s: State): State {
    s.(w := s.w.(refs := s.w.refs - 1), deletions := s.deletions + (if s.w.refs == 1 then 1 else 0))
  }

  function At(s: State, t: nat, st: Stack): State
    requires t < |s.threads|
  {
    s.(threads := s.threads[t := st])
  }

  function Do(s: State, t: nat, a: Action): (s': State)
    requires t < |s.threads| && Enabled(s, t, a)
    ensures |s'.threads| == |s.threads|
  {
    var st := s.threads[t];
    match a
    case CallExec =>
      At(s.(w := s.w.(blocks := s.w.blocks + 1, refs := s.w.refs + 1)), t,
         Cons(if s.w.preparing then ExecRefused else ExecReady, st))
    case CallAdd(start) =>
      At(s.(w := s.w.(blocks := s.w.blocks + 1)), t,
         Cons(if s.w.preparing then AddRefused else AddLocking(start), st))
    case CallRemove(h) =>
      At(s.(handlers := s.handlers[h := s.handlers[h].(removal := Removing)]), t, Cons(RemLocking(h), st))
    case CallClose =>
      if s.w.preparing then At(s, t, Cons(CloseLost, st))
      else At(s.(w := s.w.(preparing := true), closer := Some(t)), t, Cons(CloseAnchor, st))
    case Return(throws) => DoReturn(s, t, throws)
    case Step => DoStep(s, t)
    case Inline => At(s, t, Cons(ExecInline, st.rest))
    case Take =>
      At(s.(queue := s.queue - 1), t, Cons(if Sum(Items, st) > 0 then RunNested else RunTaken, st))
    case DropQueued => Release(s.(queue := s.queue - 1))
    case NewHandle => s.(handles := s.handles + 1, w := s.w.(refs := s.w.refs + 1))
    case DropHandle => Release(s.(handles := s.handles - 1))
  }

  function DoReturn(s: State, t: nat, throws: bool): (s': State)
    requires t < |s.threads| && Enabled(s, t, Return(throws))
    ensures |s'.threads| == |s.threads|
  {
    var Cons(f, rest) := s.threads[t];
    if f.ExecInline? then At(Release(s), t, Cons(ExecLeave, rest))
    else if f.RunNested? then At(s, t, Cons(RunDrop, rest))
    else if f.RunWork? then At(Release(s.(w := Unblock(s.w))), t, rest)
    else if f.StartFn? then
      if throws then
        At(s.(handlers := s.handlers[f.h := s.handlers[f.h].(removal := Removing)]), t,
           Cons(RemLocking(f.h), Cons(AddLeave, rest)))
      else At(s, t, Cons(AddLeave, rest))
    else At(s, t, Cons(CloseRelock(f.h), rest))
  }

  function DoStep(s: State, t: nat): (s': State)
    requires t < |s.threads| && Enabled(s, t, Step)
    ensures |s'.threads| == |s.threads|
  {
    var f := s.threads[t].top;
    if f.RunTaken? || f.RunRefused? || f.RunDrop? then DoRun(s, t)
    else if f.AddLocking? || f.AddInsert? then DoAdd(s, t)
    else if f.RemLocking? || f.RemSearch? || f.RemWait? then DoRemove(s, t)
    else if f.CloseLocking? || f.CloseLoop? || f.CloseRelock? || f.CloseMark? then DoCall(s, t)
    else if f.CloseAnchor? || f.CloseWait? || f.CloseFlag? || f.CloseReset? || f.CloseDone?
            || f.CloseRelease? then DoClose(s, t)
    else DoLeave(s, t)
  }

  /** Handing a closure over, and the ends of exec, addCloseHandler and a lost close. */
  function DoLeave(s: State, t: nat): (s': State)
    requires t < |s.threads| && s.threads[t].Cons?
    ensures |s'.threads| == |s.threads|
  {
    var Cons(f, rest) := s.threads[t];
    if f.ExecRefused? then
      // blockCloseAndAddRef ignores whether this was the last reference
      At(s.(w := Unblock(s.w).(refs := s.w.refs - 1)), t, rest)
    else if f.ExecReady? then At(s.(queue := s.queue + 1), t, Cons(ExecLeave, rest))
    else if f.CloseLost? then At(s, t, rest)
    else At(s.(w := Unblock(s.w)), t, rest)
  }

  function DoRun(s: State, t: nat): (s': State)
    requires t < |s.threads| && s.threads[t].Cons?
    ensures |s'.threads| == |s.threads|
  {
    var Cons(f, rest) := s.threads[t];
    if f.RunTaken? then
      At(s.(w := s.w.(blocks := s.w.blocks + 1)), t,
         Cons(if s.w.preparing then RunRefused else RunWork, rest))
    else if f.RunRefused? then At(s.(w := Unblock(s.w)), t, Cons(RunDrop, rest))
    else At(Release(s), t, rest)
  }

  function DoAdd(s: State, t: nat): (s': State)
    requires t < |s.threads| && s.threads[t].Cons?
    ensures |s'.threads| == |s.threads|
  {
    var Cons(f, rest) := s.threads[t];
    if f.AddLocking? then At(s.(w := s.w.(locked := true)), t, Cons(AddInsert(f.start), rest))
    else if f.AddInsert? then
      var h := |s.handlers|;
      At(s.(w := s.w.(locked := false), list := [h] + s.list,
            handlers := s.handlers + [Handler(Listed, 0, false, false, NotRemoved)]), t,
         Cons(if f.start then StartFn(h) else AddLeave, rest))
    else s
  }

  function DoRemove(s: State, t: nat): (s': State)
    requires t < |s.threads| && s.threads[t].Cons?
    ensures |s'.threads| == |s.threads|
  {
    var Cons(f, rest) := s.threads[t];
    if f.RemLocking? then At(s.(w := s.w.(locked := true)), t, Cons(RemSearch(f.h), rest))
    else if f.RemSearch? then DoSearch(s.(w := s.w.(locked := false)), t, f.h)
    else if f.RemWait? && f.h < |s.handlers| then
      At(s.(handlers := s.handlers[f.h := s.handlers[f.h].(removal := RemovedByOther)]), t, rest)
    else s
  }

  function DoClose(s: State, t: nat): (s': State)
    requires t < |s.threads| && s.threads[t].Cons?
    ensures |s'.threads| == |s.threads|
  {
    var Cons(f, rest) := s.threads[t];
    if f.CloseAnchor? then At(s.(w := s.w.(refs := s.w.refs + 1)), t, Cons(CloseWait, rest))
    else if f.CloseWait? then At(s.(passed := true), t, Cons(CloseFlag, rest))
    else if f.CloseFlag? then At(s.(w := s.w.(closing := true)), t, Cons(CloseLocking, rest))
    else if f.CloseReset? then At(s, t, Cons(CloseDone, rest))
    else if f.CloseDone? then At(s.(w := s.w.(closed := true)), t, Cons(CloseRelease, rest))
    else At(Release(s), t, rest)
  }

  /** callCloseHandlers */
  function DoCall(s: State, t: nat): (s': State)
    requires t < |s.threads| && s.threads[t].Cons?
    ensures |s'.threads| == |s.threads|
  {
    var Cons(f, rest) := s.threads[t];
    if f.CloseLocking? then At(s.(w := s.w.(locked := true)), t, Cons(CloseLoop, rest))
    else if f.CloseLoop? then DoPop(s.(w := s.w.(locked := false)), t)
    else if f.CloseRelock? then At(s.(w := s.w.(locked := true)), t, Cons(CloseMark(f.h), rest))
    else if f.CloseMark? && f.h < |s.handlers| && !s.handlers[f.h].destroyed then
      At(s.(handlers := s.handlers[f.h := s.handlers[f.h].(done := true)]), t, Cons(CloseLoop, rest))
    else At(s, t, Cons(CloseLoop, rest))
  }

  /** The position of h in the list, or its length. */
  function IndexOf(list: seq<HandlerId>, h: HandlerId): (i: nat)
    ensures i <= |list| && (i < |list| ==> list[i] == h)
    ensures h in list <==> i < |list|
  {
    if list == [] then 0 else if list[0] == h then 0 else 1 + IndexOf(list[1..], h)
  }

  /** removeCloseHandler under the lock, and the unlock. */
  function DoSearch(s: State, t: nat, h: HandlerId): (s': State)
    requires t < |s.threads| && s.threads[t].Cons?
    ensures |s'.threads| == |s.threads|
  {
    var rest := s.threads[t].rest;
    var i := IndexOf(s.list, h);
    if h >= |s.handlers| then s
    else if i < |s.list| then
      At(s.(list := s.list[..i] + s.list[i + 1..],
            handlers := s.handlers[h := s.handlers[h].(place := Unlinked, removal := RemovedByOther)]), t, rest)
    else if ClosingHere(rest) then
      var hd := s.handlers[h];
      At(s.(handlers := s.handlers[h := hd.(removal := RemovedByCloser,
                                            destroyed := hd.destroyed || (hd.place.Popped? && !hd.done))]), t, rest)
    else At(s, t, Cons(RemWait(h), rest))
  }

  /** One turn of callCloseHandlers under the lock, and the unlock. */
  function DoPop(s: State, t: nat): (s': State)
    requires t < |s.threads| && s.threads[t].Cons?
    ensures |s'.threads| == |s.threads|
  {
    var rest := s.threads[t].rest;
    if s.list == [] then At(s, t, Cons(CloseReset, rest))
    else
      var h := s.list[0];
      if h >= |s.handlers| then s
      else
        At(s.(list := s.list[1..],
              handlers := s.handlers[h := s.handlers[h].(place := Popped, calls := s.handlers[h].calls + 1)]),
           t, Cons(CloseCall(h), rest))
  }

  /** A context just created by its first handle, and any number of idle threads. */
  function Init(n: nat): State {
    State(Fields(false, false, false, false, 1, 0), 1, 0, 0, [], [], seq(n, _ => Empty), false, None)
  }

  datatype Event = Event(t: nat, a: Action)

  /** run is a schedule the protocol allows from s. */
  predicate Legal(s: State, run: seq<Event>)
    decreases |run|
  {
    run == [] ||
    (run[0].t < |s.threads| && Enabled(s, run[0].t, run[0].a)
     && Legal(Do(s, run[0].t, run[0].a), run[1..]))
  }

  function After(s: State, run: seq<Event>): State
    requires Legal(s, run)
    decreases |run|
  {
    if run == [] then s else After(Do(s, run[0].t, run[0].a), run[1..])
  }
}

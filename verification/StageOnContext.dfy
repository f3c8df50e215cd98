/** A stage bound to a context, run on the close protocol itself: any number of threads, any
    schedule of the protocol's own steps, and in it one close handler that is a
    FutureCallbackWithAOContext with the closure it offers to exec. Every step is an event
    of BoundStage or leaves the stage as it was, so what BoundStage shows of its schedules
    holds of every schedule of the protocol. */
module StageOnContext {
  import opened ContextState
  import opened CloseProtocol
  import opened CloseInvariant
  import opened Wrappers
  import BoundStage
  import CloseTheorems

  /** Where the stage's closure is: not offered yet, with the frame at height d of thread
      t's stack, with the executor, or destroyed. */
  datatype Loc = NotOffered | On(t: nat, d: nat) | InQueue | Gone

  /** The callback, whose close handler is h. entered: futureReady of the stage has been
      called; inFn: its function is running; the rest is as in BoundStage. */
  datatype Stage = Stage(h: HandlerId, loc: Loc, entered: bool, inFn: bool,
                         armed: bool, resolved: nat, given: BoundStage.Given, owners: bool)

  datatype Joint = Joint(s: State, g: Stage)

  /** Ctx is a step of the protocol; mine: the closure that it offers, takes up or destroys
      is the stage's. */
  datatype Move =
    | Ctx(t: nat, a: Action, mine: bool)
    | Enter(direct: bool)
    | Leave
    | Free                      // the work goes when tryCall returns
    | Cancel(t: nat)            // futureCancelled, in aoContextClose
    | DropOwners

  function Depth(st: Stack): nat {
    match st
    case Empty => 0
    case Cons(_, rest) => 1 + Depth(rest)
  }

  /** The frame at height d, counted from the bottom. */
  function FrameAt(st: Stack, d: nat): Frame
    requires 0 < d <= Depth(st)
  {
    if d == Depth(st) then st.top else FrameAt(st.rest, d)
  }

  /** The stage's closure is with the top frame of thread t. */
  predicate OnTop(j: Joint, t: nat)
    requires t < |j.s.threads|
  {
    j.s.threads[t].Cons? && j.g.loc == On(t, Depth(j.s.threads[t]))
  }

  /** How the stage uses the protocol: its closure is offered once, while the source state is
      alive, and a sequential executor takes it up on no thread that is in work of the
      context; the closure calls futureReady first and returns after it; aoContextClose
      begins with futureCancelled; the handler is removed when the callback is destroyed,
      after its owners and its closure; tryCall takes the work by value, so the closure goes
      when the stage has returned, before its frame does. */
  predicate Allowed(j: Joint, t: nat, a: Action, mine: bool)
    requires t < |j.s.threads| && CloseProtocol.Enabled(j.s, t, a)
  {
    var st, g := j.s.threads[t], j.g;
    && (mine ==> (a.CallExec? && g.loc.NotOffered? && g.owners)
                 || (a.Take? && g.loc.InQueue? && Sum(Items, st) == 0)
                 || (a.DropQueued? && g.loc.InQueue?))
    && (!mine && (a.Take? || a.DropQueued?) && g.loc.InQueue? ==> j.s.queue > 1)
    && (a == CallRemove(g.h) ==> !g.owners && (g.loc.NotOffered? || g.loc.Gone?))
    && (a.Return? ==> st.top != StartFn(g.h))
    && (OnTop(j, t) && User(st.top) && !a.DropQueued? ==> g.entered && !a.Return?)
    && (st.Cons? && st.top == CloseCall(g.h) && !a.DropQueued? ==> !g.armed)
  }

  predicate Enabled(j: Joint, e: Move) {
    match e
    case Ctx(t, a, mine) =>
      t < |j.s.threads| && CloseProtocol.Enabled(j.s, t, a) && Allowed(j, t, a, mine)
    case Enter(_) =>
      j.g.loc.On? && j.g.loc.t < |j.s.threads| && OnTop(j, j.g.loc.t)
      && User(j.s.threads[j.g.loc.t].top) && !j.g.entered
    case Leave => j.g.loc.On? && j.g.loc.t < |j.s.threads| && OnTop(j, j.g.loc.t) && j.g.inFn
    case Free =>
      j.g.loc.On? && j.g.loc.t < |j.s.threads| && OnTop(j, j.g.loc.t) && j.g.entered && !j.g.inFn
    case Cancel(t) =>
      t < |j.s.threads| && j.s.threads[t].Cons? && j.s.threads[t].top == CloseCall(j.g.h) && j.g.armed
    case DropOwners => j.g.owners
  }

  function NextLoc(j: Joint, t: nat, a: Action, mine: bool): Loc
    requires t < |j.s.threads|
  {
    var st := j.s.threads[t];
    if mine then if a.DropQueued? then Gone else On(t, Depth(st) + 1)
    else if !OnTop(j, t) then j.g.loc
    else if a.Step? && st.top.ExecReady? then InQueue
    else if a.Step? && (st.top.ExecRefused? || st.top.RunDrop?) then Gone
    else j.g.loc
  }

  function Do(j: Joint, e: Move): Joint
    requires Enabled(j, e)
  {
    var g := j.g;
    match e
    case Ctx(t, a, mine) => Joint(CloseProtocol.Do(j.s, t, a), g.(loc := NextLoc(j, t, a, mine)))
    case Enter(direct) =>
      j.(g := g.(entered := true, armed := false, inFn := !direct,
                 resolved := g.resolved + (if direct then 1 else 0),
                 given := if direct then BoundStage.ByStage else g.given))
    case Leave => j.(g := g.(inFn := false, resolved := g.resolved + 1, given := BoundStage.ByStage))
    case Free => j.(g := g.(loc := Gone))
    case Cancel(_) => j.(g := g.(armed := false, resolved := g.resolved + 1, given := BoundStage.ByClose))
    case DropOwners => j.(g := g.(owners := false))
  }

  predicate Legal(j: Joint, run: seq<Move>)
    decreases |run|
  {
    run == [] || (Enabled(j, run[0]) && Legal(Do(j, run[0]), run[1..]))
  }

  function After(j: Joint, run: seq<Move>): Joint
    requires Legal(j, run)
    decreases |run|
  {
    if run == [] then j else After(Do(j, run[0]), run[1..])
  }

  /** A thread is about to put the callback's handler into the list. */
  predicate Registering(s: State, t: nat) {
    t < |s.threads| && s.threads[t].Cons? && s.threads[t].top == AddInsert(false)
  }

  /** After then() has registered the callback. */
  function Registered(s: State, t: nat): Joint
    requires Registering(s, t)
  {
    Joint(CloseProtocol.Do(s, t, Step),
          Stage(|s.handlers|, NotOffered, false, false, true, 0, BoundStage.Nothing, true))
  }

  // ---- The stage of the protocol as a BoundStage ----

  function WorkOf(j: Joint): BoundStage.Work {
    if j.g.inFn then BoundStage.InFunction
    else if j.g.entered then BoundStage.Finished
    else
      match j.g.loc
      case NotOffered => BoundStage.NotReady
      case InQueue => BoundStage.Queued
      case Gone => BoundStage.Gone
      case On(t, d) =>
        if t < |j.s.threads| && 0 < d <= Depth(j.s.threads[t]) then WorkAt(FrameAt(j.s.threads[t], d))
        else BoundStage.Gone
  }

  function WorkAt(f: Frame): BoundStage.Work {
    if f.ExecReady? then BoundStage.Offered
    else if f.RunTaken? then BoundStage.Queued
    else if f.ExecInline? || f.RunWork? then BoundStage.Started
    else BoundStage.Gone
  }

  function PlaceOf(place: Place): BoundStage.Place {
    match place
    case Listed => BoundStage.Listed
    case Popped => BoundStage.Popped
    case Unlinked => BoundStage.Unlinked
  }

  function Image(j: Joint): BoundStage.Sys
    requires j.g.h < |j.s.handlers|
  {
    BoundStage.Sys(WorkOf(j), j.g.armed, j.g.resolved, j.g.given, PlaceOf(j.s.handlers[j.g.h].place),
                   j.s.w.preparing, j.s.passed, j.s.w.closed, j.g.owners)
  }

  // ---- The invariant ----

  predicate Carries(f: Frame) {
    f.ExecRefused? || f.ExecReady? || f.ExecInline? || f.RunTaken? || f.RunRefused? || f.RunWork? || f.RunDrop?
  }

  /** The closure is where its location says, and only once it has called the stage is there
      anything above its frame. */
  predicate LocOk(j: Joint) {
    && (j.g.inFn ==> j.g.entered && j.g.loc.On?)
    && (j.g.entered ==> j.g.loc.On? || j.g.loc.Gone?)
    && (j.g.loc.On? ==>
          && j.g.loc.t < |j.s.threads| && 0 < j.g.loc.d <= Depth(j.s.threads[j.g.loc.t])
          && var f := FrameAt(j.s.threads[j.g.loc.t], j.g.loc.d);
          && Carries(f)
          && (j.g.loc.d < Depth(j.s.threads[j.g.loc.t]) ==> j.g.entered)
          && (j.g.entered ==> f.ExecInline? || f.RunWork?))
  }

  predicate NoRemoval(st: Stack, h: HandlerId) {
    st.Cons? ==>
      && st.top != RemLocking(h) && st.top != RemSearch(h) && st.top != RemWait(h)
      && NoRemoval(st.rest, h)
  }

  /** The handler is unlinked only by the removal that the callback's destruction begins. */
  ghost predicate RemovalOk(j: Joint) {
    && j.g.h < |j.s.handlers|
    && (j.s.handlers[j.g.h].removal.NotRemoved? ==>
          && !j.s.handlers[j.g.h].place.Unlinked?
          && forall u :: 0 <= u < |j.s.threads| ==> NoRemoval(j.s.threads[u], j.g.h))
    && (!j.s.handlers[j.g.h].removal.NotRemoved? ==> !j.g.owners && (j.g.loc.NotOffered? || j.g.loc.Gone?))
  }

  /** The closing thread has popped the handler and is about to call futureCancelled. */
  predicate Cancelling(j: Joint) {
    var c := j.s.closer;
    && c.Some? && c.value < |j.s.threads| && j.s.threads[c.value].Cons?
    && j.s.threads[c.value].top == CloseCall(j.g.h)
  }

  ghost predicate PlacesOk(j: Joint) {
    && LocOk(j) && RemovalOk(j)
    && (j.g.loc.InQueue? ==> j.s.queue > 0)
    && (j.g.armed && j.s.handlers[j.g.h].place.Popped? ==> Cancelling(j))
  }

  ghost predicate JointInv(j: Joint) {
    CloseInvariant.Inv(j.s) && PlacesOk(j) && BoundStage.Inv(Image(j))
  }

  // ---- What a step does to the flags and to the handler ----

  predicate FlagsMove(s: State, t: nat, a: Action, s': State)
    requires t < |s.threads|
  {
    && s'.w.preparing == (s.w.preparing || a.CallClose?)
    && s'.closer == (if a.CallClose? && !s.w.preparing then Some(t) else s.closer)
    && s'.passed == (s.passed || (a.Step? && s.threads[t].Cons? && s.threads[t].top.CloseWait?))
    && s'.w.closed == (s.w.closed || (a.Step? && s.threads[t].Cons? && s.threads[t].top.CloseDone?))
  }

  lemma FlagsList(s: State, t: nat)
    requires t < |s.threads| && CloseProtocol.Enabled(s, t, Step)
    requires Removes(s.threads[t].top) || Calls(s.threads[t].top)
    ensures FlagsMove(s, t, Step, DoStep(s, t))
  {
    var f := s.threads[t].top;
    if f.RemSearch? {
      if IndexOf(s.list, f.h) < |s.list| { return; }
      if ClosingHere(s.threads[t].rest) { return; }
      return;
    }
    if Removes(f) { return; }
    if f.CloseLoop? { return; }
  }

  lemma FlagsStep(s: State, t: nat)
    requires t < |s.threads| && CloseProtocol.Enabled(s, t, Step)
    ensures FlagsMove(s, t, Step, DoStep(s, t))
  {
    var f := s.threads[t].top;
    if Removes(f) || Calls(f) { FlagsList(s, t); return; }
    if Runs(f) { return; }
    if Adds(f) { return; }
    if Leaves(f) { return; }
  }

  lemma Flags(s: State, t: nat, a: Action)
    requires t < |s.threads| && CloseProtocol.Enabled(s, t, a)
    ensures FlagsMove(s, t, a, CloseProtocol.Do(s, t, a))
  {
    if a.Step? { FlagsStep(s, t); return; }
    if a.Return? { return; }
  }

  predicate Pops(s: State, t: nat, a: Action, h: HandlerId)
    requires t < |s.threads|
  {
    a.Step? && s.threads[t].Cons? && s.threads[t].top.CloseLoop? && s.list != [] && s.list[0] == h
  }

  predicate Unlinks(s: State, t: nat, a: Action, h: HandlerId)
    requires t < |s.threads|
  {
    a.Step? && s.threads[t].Cons? && s.threads[t].top == RemSearch(h) && h in s.list
  }

  predicate RemovalBegins(s: State, t: nat, a: Action, h: HandlerId)
    requires t < |s.threads|
  {
    a == CallRemove(h) || (a.Return? && s.threads[t].Cons? && s.threads[t].top == StartFn(h))
  }

  predicate PlaceMoves(s: State, t: nat, a: Action, h: HandlerId, s': State)
    requires t < |s.threads| && h < |s.handlers|
  {
    && h < |s'.handlers|
    && s'.handlers[h].place ==
         (if Pops(s, t, a, h) then Popped else if Unlinks(s, t, a, h) then Unlinked else s.handlers[h].place)
    && (s'.handlers[h].removal.NotRemoved? ==> s.handlers[h].removal.NotRemoved?)
    && (s.handlers[h].removal.NotRemoved? && NoRemoval(s.threads[t], h) && !RemovalBegins(s, t, a, h) ==>
          s'.handlers[h].removal.NotRemoved?)
  }

  lemma PlaceStep(s: State, t: nat, h: HandlerId)
    requires t < |s.threads| && CloseInvariant.Inv(s) && CloseProtocol.Enabled(s, t, Step) && h < |s.handlers|
    ensures PlaceMoves(s, t, Step, h, DoStep(s, t))
  {
    assert AllOk(s, s.threads[t]);
    assert s.list != [] ==> s.list[0] in s.list;
    var f := s.threads[t].top;
    if Removes(f) { PlaceRemove(s, t, h); return; }
    if Calls(f) { PlaceCall(s, t, h); return; }
    if Adds(f) { return; }
    Untouched(s, t);
  }

  lemma PlaceRemove(s: State, t: nat, h: HandlerId)
    requires t < |s.threads| && CloseProtocol.Enabled(s, t, Step) && h < |s.handlers|
    requires Removes(s.threads[t].top) && FrameOk(s, s.threads[t].top)
    ensures PlaceMoves(s, t, Step, h, DoStep(s, t))
  {
    var f := s.threads[t].top;
    if !f.RemSearch? { return; }
    if IndexOf(s.list, f.h) < |s.list| { return; }
    if ClosingHere(s.threads[t].rest) { return; }
  }

  lemma PlaceCall(s: State, t: nat, h: HandlerId)
    requires t < |s.threads| && CloseProtocol.Enabled(s, t, Step) && h < |s.handlers|
    requires Calls(s.threads[t].top) && HandlersOk(s)
    ensures PlaceMoves(s, t, Step, h, DoStep(s, t))
  {
    assert s.list != [] ==> s.list[0] in s.list;
    var f := s.threads[t].top;
    if f.CloseLoop? { return; }
    if f.CloseMark? { return; }
  }

  lemma Places(s: State, t: nat, a: Action, h: HandlerId)
    requires t < |s.threads| && CloseInvariant.Inv(s) && CloseProtocol.Enabled(s, t, a) && h < |s.handlers|
    ensures PlaceMoves(s, t, a, h, CloseProtocol.Do(s, t, a))
  {
    if a.Step? { PlaceStep(s, t, h); return; }
    if a.Return? { return; }
  }

  // ---- What a step does to a stack ----

  /** Only the top of a stack changes. */
  predicate Follows(st: Stack, st': Stack) {
    || st' == st || (st'.Cons? && st'.rest == st)
    || (st.Cons? && (st' == st.rest || (st'.Cons? && st'.rest == st.rest)
                     || (st'.Cons? && st'.rest.Cons? && st'.rest.rest == st.rest)))
  }

  predicate StackMoves(st: Stack, st': Stack, h: HandlerId) {
    Follows(st, st') && (NoRemoval(st, h) ==> NoRemoval(st', h))
  }

  lemma StackList(s: State, t: nat, h: HandlerId)
    requires t < |s.threads| && CloseProtocol.Enabled(s, t, Step)
    requires Removes(s.threads[t].top) || Calls(s.threads[t].top)
    ensures StackMoves(s.threads[t], DoStep(s, t).threads[t], h)
  {
    var f := s.threads[t].top;
    if f.RemSearch? {
      if IndexOf(s.list, f.h) < |s.list| { return; }
      if ClosingHere(s.threads[t].rest) { return; }
      return;
    }
    if Removes(f) { return; }
    if f.CloseLoop? { return; }
  }

  lemma StackStep(s: State, t: nat, h: HandlerId)
    requires t < |s.threads| && CloseProtocol.Enabled(s, t, Step)
    ensures StackMoves(s.threads[t], DoStep(s, t).threads[t], h)
  {
    var f := s.threads[t].top;
    if Removes(f) || Calls(f) { StackList(s, t, h); return; }
    if Runs(f) { return; }
    if Adds(f) { return; }
    if Leaves(f) { return; }
  }

  lemma Stacks(s: State, t: nat, a: Action, h: HandlerId)
    requires t < |s.threads| && CloseProtocol.Enabled(s, t, a) && !RemovalBegins(s, t, a, h)
    ensures StackMoves(s.threads[t], CloseProtocol.Do(s, t, a).threads[t], h)
  {
    if a.Step? { StackStep(s, t, h); return; }
    if a.Return? { return; }
  }

  lemma FrameBelow(st: Stack, st': Stack, d: nat)
    requires Follows(st, st') && 0 < d < Depth(st)
    ensures d <= Depth(st') && FrameAt(st', d) == FrameAt(st, d)
  {}

  lemma FramePushed(st: Stack, st': Stack, d: nat)
    requires (st' == st || (st'.Cons? && st'.rest == st)) && 0 < d <= Depth(st)
    ensures d <= Depth(st') && FrameAt(st', d) == FrameAt(st, d)
  {}

  /** The life of a closure, as long as its frame is the top one. */
  predicate CarryMoves(s: State, st: Stack, a: Action, st': Stack)
    requires st.Cons?
  {
    var f := st.top;
    if a.Step? then
      if f.ExecReady? then st' == Cons(ExecLeave, st.rest)
      else if f.RunTaken? then st' == Cons(if s.w.preparing then RunRefused else RunWork, st.rest)
      else if f.RunRefused? then st' == Cons(RunDrop, st.rest)
      else st' == st.rest
    else if a.Inline? then st' == Cons(ExecInline, st.rest)
    else if a.Return? then true
    else st' == st || (st'.Cons? && st'.rest == st)
  }

  lemma Carried(s: State, t: nat, a: Action)
    requires t < |s.threads| && CloseProtocol.Enabled(s, t, a)
    requires s.threads[t].Cons? && Carries(s.threads[t].top)
    ensures CarryMoves(s, s.threads[t], a, CloseProtocol.Do(s, t, a).threads[t])
  {
    if a.Step? {
      if Runs(s.threads[t].top) { return; }
      return;
    }
  }

  /** The work of the stage after a step of the protocol. */
  function NextWork(j: Joint, t: nat, a: Action, mine: bool): BoundStage.Work
    requires t < |j.s.threads|
  {
    var st, refused := j.s.threads[t], j.s.w.preparing;
    if mine then
      if a.CallExec? then if refused then BoundStage.Gone else BoundStage.Offered
      else if a.DropQueued? then BoundStage.Gone else BoundStage.Queued
    else if !OnTop(j, t) || j.g.entered then WorkOf(j)
    else if a.Inline? then BoundStage.Started
    else if a.Step? && st.top.ExecReady? then BoundStage.Queued
    else if a.Step? && st.top.RunTaken? then if refused then BoundStage.Gone else BoundStage.Started
    else WorkOf(j)
  }

  /** The closure is where it is said to be, and does the work it is said to do. */
  predicate WorkMoves(j: Joint, t: nat, a: Action, mine: bool)
    requires Enabled(j, Ctx(t, a, mine))
  {
    var j' := Do(j, Ctx(t, a, mine));
    LocOk(j') && WorkOf(j') == NextWork(j, t, a, mine)
  }

  lemma WorkMine(j: Joint, t: nat, a: Action)
    requires LocOk(j) && Enabled(j, Ctx(t, a, true))
    ensures WorkMoves(j, t, a, true)
  {}

  lemma WorkOnTop(j: Joint, t: nat, a: Action)
    requires LocOk(j) && Enabled(j, Ctx(t, a, false)) && OnTop(j, t)
    ensures WorkMoves(j, t, a, false)
  {
    Carried(j.s, t, a);
    var st, st' := j.s.threads[t], CloseProtocol.Do(j.s, t, a).threads[t];
    if User(st.top) {
      FramePushed(st, st', Depth(st));
    }
  }

  lemma WorkElsewhere(j: Joint, t: nat, a: Action)
    requires LocOk(j) && Enabled(j, Ctx(t, a, false)) && !OnTop(j, t)
    requires Follows(j.s.threads[t], CloseProtocol.Do(j.s, t, a).threads[t])
    ensures WorkMoves(j, t, a, false)
  {
    OwnStack(j.s, t, a);
    if j.g.loc.On? && j.g.loc.t == t {
      FrameBelow(j.s.threads[t], CloseProtocol.Do(j.s, t, a).threads[t], j.g.loc.d);
    }
  }

  lemma Works(j: Joint, t: nat, a: Action, mine: bool)
    requires PlacesOk(j) && Enabled(j, Ctx(t, a, mine))
    ensures WorkMoves(j, t, a, mine)
  {
    if mine { WorkMine(j, t, a); return; }
    if OnTop(j, t) { WorkOnTop(j, t, a); return; }
    if RemovalBegins(j.s, t, a, j.g.h) { return; }
    Stacks(j.s, t, a, j.g.h);
    WorkElsewhere(j, t, a);
  }

  // ---- The invariant is kept ----

  lemma RemovalKept(j: Joint, t: nat, a: Action, mine: bool)
    requires CloseInvariant.Inv(j.s) && PlacesOk(j) && Enabled(j, Ctx(t, a, mine))
    ensures RemovalOk(Do(j, Ctx(t, a, mine)))
  {
    var s, h := j.s, j.g.h;
    var s' := CloseProtocol.Do(s, t, a);
    Places(s, t, a, h);
    if s'.handlers[h].removal.NotRemoved? {
      if RemovalBegins(s, t, a, h) { return; }
      Stacks(s, t, a, h);
      OwnStack(s, t, a);
      assert NoRemoval(s.threads[t], h);
    }
  }

  lemma QueueStep(s: State, t: nat)
    requires t < |s.threads| && CloseProtocol.Enabled(s, t, Step)
    ensures DoStep(s, t).queue == s.queue + if s.threads[t].top.ExecReady? then 1 else 0
  {
    var f := s.threads[t].top;
    if Removes(f) { return; }
    if Calls(f) { return; }
    if Runs(f) { return; }
    if Adds(f) { return; }
    if Leaves(f) { return; }
  }

  /** The stage's closure is among those the executor owns. */
  lemma QueueKept(j: Joint, t: nat, a: Action, mine: bool)
    requires (j.g.loc.InQueue? ==> j.s.queue > 0) && Enabled(j, Ctx(t, a, mine))
    ensures Do(j, Ctx(t, a, mine)).g.loc.InQueue? ==> Do(j, Ctx(t, a, mine)).s.queue > 0
  {
    if a.Step? { QueueStep(j.s, t); return; }
    if a.Return? { return; }
  }

  lemma CancellingKept(j: Joint, t: nat, a: Action, mine: bool)
    requires CloseInvariant.Inv(j.s) && PlacesOk(j) && Enabled(j, Ctx(t, a, mine)) && j.g.armed
    requires j.s.handlers[j.g.h].place.Popped?
    ensures Cancelling(Do(j, Ctx(t, a, mine)))
  {
    Flags(j.s, t, a);
    OwnStack(j.s, t, a);
    Part(Late, j.s.threads, j.s.closer.value);
    if j.s.closer.value == t { assert a.DropQueued?; }
  }

  lemma CancellingBegins(j: Joint, t: nat, a: Action, mine: bool)
    requires CloseInvariant.Inv(j.s) && PlacesOk(j) && Enabled(j, Ctx(t, a, mine))
    requires Pops(j.s, t, a, j.g.h)
    ensures Cancelling(Do(j, Ctx(t, a, mine)))
  {
    Flags(j.s, t, a);
    CloserIs(j.s, t);
  }

  lemma PlacesKept(j: Joint, t: nat, a: Action, mine: bool)
    requires CloseInvariant.Inv(j.s) && PlacesOk(j) && Enabled(j, Ctx(t, a, mine))
    ensures PlacesOk(Do(j, Ctx(t, a, mine)))
  {
    var j' := Do(j, Ctx(t, a, mine));
    Works(j, t, a, mine);
    RemovalKept(j, t, a, mine);
    QueueKept(j, t, a, mine);
    Places(j.s, t, a, j.g.h);
    if j.g.armed && j'.s.handlers[j.g.h].place.Popped? {
      if Pops(j.s, t, a, j.g.h) { CancellingBegins(j, t, a, mine); }
      else { CancellingKept(j, t, a, mine); }
    }
  }

  // ---- Every step is an event of BoundStage, or none ----

  function CtxEvent(j: Joint, t: nat, a: Action, mine: bool): Option<BoundStage.Event>
    requires t < |j.s.threads|
  {
    var st := j.s.threads[t];
    if mine then
      if a.CallExec? then Some(BoundStage.Ready)
      else if a.DropQueued? then Some(BoundStage.DropClosure)
      else None
    else if a.CallClose? then if j.s.w.preparing then None else Some(BoundStage.StartClose)
    else if a.Inline? then if OnTop(j, t) then Some(BoundStage.Inline) else None
    else if !a.Step? || st.Empty? then None
    else if st.top.ExecReady? then if OnTop(j, t) then Some(BoundStage.Post) else None
    else if st.top.RunTaken? then if OnTop(j, t) then Some(BoundStage.Start) else None
    else if st.top.CloseWait? then Some(BoundStage.Pass)
    else if st.top.CloseDone? then Some(BoundStage.CloseDone)
    else if Pops(j.s, t, a, j.g.h) then Some(BoundStage.Pop)
    else if Unlinks(j.s, t, a, j.g.h) then Some(BoundStage.Unlink)
    else None
  }

  function EventOf(j: Joint, e: Move): Option<BoundStage.Event>
    requires Enabled(j, e)
  {
    match e
    case Ctx(t, a, mine) => CtxEvent(j, t, a, mine)
    case Enter(direct) => Some(BoundStage.Enter(direct))
    case Leave => Some(BoundStage.Leave)
    case Free => None
    case Cancel(_) => Some(BoundStage.Cancel)
    case DropOwners => Some(BoundStage.DropOwners)
  }

  /** s' is s after the event, or s itself. */
  predicate Follow(s: BoundStage.Sys, e: Option<BoundStage.Event>, s': BoundStage.Sys) {
    if e.None? then s' == s else BoundStage.Enabled(s, e.value) && s' == BoundStage.Do(s, e.value)
  }

  /** The barrier: when the closing thread leaves waitForClosing the closure is neither with
      the executor on a blocked thread nor about to call the stage. */
  lemma PassFinds(j: Joint, t: nat)
    requires CloseInvariant.Inv(j.s) && PlacesOk(j) && t < |j.s.threads|
    requires CloseProtocol.Enabled(j.s, t, Step) && j.s.threads[t].top.CloseWait?
    ensures j.s.w.preparing && !j.s.passed && !WorkOf(j).Offered? && !WorkOf(j).Started?
  {
    Part(Early, j.s.threads, t);
    if j.g.loc.On? && !j.g.entered {
      BarrierReached(j.s, t, j.g.loc.t);
    }
  }

  /** When the closing thread sets Closed the handler is no longer waiting to be called. */
  lemma DoneFinds(j: Joint, t: nat)
    requires CloseInvariant.Inv(j.s) && PlacesOk(j) && t < |j.s.threads|
    requires j.s.threads[t].Cons? && j.s.threads[t].top.CloseDone?
    ensures j.s.passed && !j.s.w.closed
    ensures !Image(j).place.Listed? && !(j.g.armed && Image(j).place.Popped?)
  {
    Part(Late, j.s.threads, t);
    CloserIs(j.s, t);
    assert AllOk(j.s, j.s.threads[t]);
    assert HandlerOk(j.s.handlers[j.g.h], j.g.h in j.s.list);
  }

  lemma PopFinds(j: Joint, t: nat, a: Action)
    requires CloseInvariant.Inv(j.s) && PlacesOk(j) && t < |j.s.threads| && Pops(j.s, t, a, j.g.h)
    ensures j.s.passed && !j.s.w.closed && j.s.handlers[j.g.h].place.Listed?
  {
    Part(Late, j.s.threads, t);
    assert j.s.list[0] in j.s.list;
    assert HandlerOk(j.s.handlers[j.g.h], j.g.h in j.s.list);
  }

  lemma UnlinkFinds(j: Joint, t: nat, a: Action)
    requires CloseInvariant.Inv(j.s) && PlacesOk(j) && t < |j.s.threads| && Unlinks(j.s, t, a, j.g.h)
    ensures j.s.handlers[j.g.h].place.Listed? && BoundStage.Orphaned(Image(j))
  {
    assert !NoRemoval(j.s.threads[t], j.g.h);
    assert HandlerOk(j.s.handlers[j.g.h], j.g.h in j.s.list);
  }

  lemma CancelFinds(j: Joint, t: nat)
    requires CloseInvariant.Inv(j.s) && PlacesOk(j) && Enabled(j, Cancel(t))
    ensures j.s.passed && !j.s.w.closed && j.s.handlers[j.g.h].place.Popped?
  {
    Part(Late, j.s.threads, t);
    assert AllOk(j.s, j.s.threads[t]);
  }

  /** The image after a step, by what the step does to the flags, the handler and the work. */
  function NextImage(j: Joint, t: nat, a: Action, mine: bool): BoundStage.Sys
    requires t < |j.s.threads| && j.g.h < |j.s.handlers|
  {
    var s, g, st := j.s, j.g, j.s.threads[t];
    var place := if Pops(s, t, a, g.h) then Popped else if Unlinks(s, t, a, g.h) then Unlinked
                 else s.handlers[g.h].place;
    BoundStage.Sys(NextWork(j, t, a, mine), g.armed, g.resolved, g.given, PlaceOf(place),
                   s.w.preparing || a.CallClose?,
                   s.passed || (a.Step? && st.Cons? && st.top.CloseWait?),
                   s.w.closed || (a.Step? && st.Cons? && st.top.CloseDone?), g.owners)
  }

  lemma ImageMoves(j: Joint, t: nat, a: Action, mine: bool)
    requires CloseInvariant.Inv(j.s) && PlacesOk(j) && Enabled(j, Ctx(t, a, mine))
    ensures RemovalOk(Do(j, Ctx(t, a, mine)))
    ensures Image(Do(j, Ctx(t, a, mine))) == NextImage(j, t, a, mine)
  {
    Flags(j.s, t, a);
    Places(j.s, t, a, j.g.h);
    Works(j, t, a, mine);
    RemovalKept(j, t, a, mine);
  }

  lemma CtxRefines(j: Joint, t: nat, a: Action, mine: bool)
    requires CloseInvariant.Inv(j.s) && PlacesOk(j) && Enabled(j, Ctx(t, a, mine))
    ensures Follow(Image(j), CtxEvent(j, t, a, mine), NextImage(j, t, a, mine))
  {
    if mine { return; }
    if a.Step? {
      var f := j.s.threads[t].top;
      if f.CloseWait? || f.CloseDone? { CloserRefines(j, t); return; }
      if Pops(j.s, t, a, j.g.h) || Unlinks(j.s, t, a, j.g.h) { ListRefines(j, t); return; }
      PlainRefines(j, t);
    }
  }

  lemma CloserRefines(j: Joint, t: nat)
    requires CloseInvariant.Inv(j.s) && PlacesOk(j) && Enabled(j, Ctx(t, Step, false))
    requires j.s.threads[t].top.CloseWait? || j.s.threads[t].top.CloseDone?
    ensures Follow(Image(j), CtxEvent(j, t, Step, false), NextImage(j, t, Step, false))
  {
    if j.s.threads[t].top.CloseWait? { PassFinds(j, t); return; }
    DoneFinds(j, t);
  }

  lemma ListRefines(j: Joint, t: nat)
    requires CloseInvariant.Inv(j.s) && PlacesOk(j) && Enabled(j, Ctx(t, Step, false))
    requires Pops(j.s, t, Step, j.g.h) || Unlinks(j.s, t, Step, j.g.h)
    ensures Follow(Image(j), CtxEvent(j, t, Step, false), NextImage(j, t, Step, false))
  {
    if Pops(j.s, t, Step, j.g.h) { PopFinds(j, t, Step); return; }
    UnlinkFinds(j, t, Step);
  }

  lemma PlainRefines(j: Joint, t: nat)
    requires PlacesOk(j) && Enabled(j, Ctx(t, Step, false))
    requires !j.s.threads[t].top.CloseWait? && !j.s.threads[t].top.CloseDone?
    requires !Pops(j.s, t, Step, j.g.h) && !Unlinks(j.s, t, Step, j.g.h)
    ensures Follow(Image(j), CtxEvent(j, t, Step, false), NextImage(j, t, Step, false))
  {}

  lemma CtxKeeps(j: Joint, t: nat, a: Action, mine: bool)
    requires CloseInvariant.Inv(j.s) && PlacesOk(j) && Enabled(j, Ctx(t, a, mine))
    ensures CloseInvariant.Inv(Do(j, Ctx(t, a, mine)).s) && PlacesOk(Do(j, Ctx(t, a, mine)))
    ensures Follow(Image(j), CtxEvent(j, t, a, mine), Image(Do(j, Ctx(t, a, mine))))
  {
    InvStep(j.s, t, a);
    PlacesKept(j, t, a, mine);
    ImageMoves(j, t, a, mine);
    CtxRefines(j, t, a, mine);
  }

  lemma CancelKeeps(j: Joint, t: nat)
    requires CloseInvariant.Inv(j.s) && PlacesOk(j) && Enabled(j, Cancel(t))
    ensures PlacesOk(Do(j, Cancel(t)))
    ensures Follow(Image(j), Some(BoundStage.Cancel), Image(Do(j, Cancel(t))))
  {
    CancelFinds(j, t);
  }

  /** A stage that is about to be called is not yet popped. */
  lemma EnterFinds(j: Joint, e: Move)
    requires JointInv(j) && Enabled(j, e) && e.Enter?
    ensures WorkOf(j).Started? && j.g.armed && !j.s.handlers[j.g.h].place.Popped?
  {
    assert WorkOf(j).Started?;
  }

  lemma OwnKeeps(j: Joint, e: Move)
    requires PlacesOk(j) && Enabled(j, e) && !e.Ctx? && !e.Cancel?
    requires e.Enter? ==> !j.s.handlers[j.g.h].place.Popped?
    ensures PlacesOk(Do(j, e)) && Follow(Image(j), EventOf(j, e), Image(Do(j, e)))
  {}

  /** Every step of the protocol with its stage is an event of BoundStage, or none. */
  lemma Refines(j: Joint, e: Move)
    requires JointInv(j) && Enabled(j, e)
    ensures JointInv(Do(j, e))
    ensures Follow(Image(j), EventOf(j, e), Image(Do(j, e)))
  {
    if e.Ctx? { CtxKeeps(j, e.t, e.a, e.mine); }
    else if e.Cancel? { CancelKeeps(j, e.t); }
    else {
      if e.Enter? { EnterFinds(j, e); }
      OwnKeeps(j, e);
    }
    FollowInv(Image(j), EventOf(j, e), Image(Do(j, e)));
  }

  lemma FollowInv(s: BoundStage.Sys, e: Option<BoundStage.Event>, s': BoundStage.Sys)
    requires Follow(s, e, s') && BoundStage.Inv(s)
    ensures BoundStage.Inv(s')
  {
    if e.Some? { BoundStage.InvStep(s, e.value); }
  }

  // ---- Runs ----

  /** The steps of the protocol in a schedule. */
  function Steps(run: seq<Move>): seq<Event> {
    if run == [] then []
    else (if run[0].Ctx? then [Event(run[0].t, run[0].a)] else []) + Steps(run[1..])
  }

  /** The events of the stage in a schedule. */
  function Events(j: Joint, run: seq<Move>): seq<BoundStage.Event>
    requires Legal(j, run)
    decreases |run|
  {
    if run == [] then []
    else
      (if EventOf(j, run[0]).Some? then [EventOf(j, run[0]).value] else [])
      + Events(Do(j, run[0]), run[1..])
  }

  /** With the stage left out a schedule is one of the protocol. */
  lemma {:induction false} RunsProtocol(j: Joint, run: seq<Move>)
    requires Legal(j, run)
    ensures CloseProtocol.Legal(j.s, Steps(run))
    ensures CloseProtocol.After(j.s, Steps(run)) == After(j, run).s && After(j, run).g.h == j.g.h
    decreases |run|
  {
    if run != [] {
      var rest := Steps(run[1..]);
      RunsProtocol(Do(j, run[0]), run[1..]);
      if run[0].Ctx? {
        assert Steps(run)[1..] == rest;
      } else {
        assert Steps(run) == rest;
      }
    }
  }

  /** With the protocol left out it is one of BoundStage. */
  lemma {:induction false} RunRefines(j: Joint, run: seq<Move>)
    requires JointInv(j) && Legal(j, run)
    ensures JointInv(After(j, run))
    ensures BoundStage.Legal(Image(j), Events(j, run))
    ensures BoundStage.After(Image(j), Events(j, run)) == Image(After(j, run))
    decreases |run|
  {
    if run != [] {
      var e := EventOf(j, run[0]);
      var rest := Events(Do(j, run[0]), run[1..]);
      Refines(j, run[0]);
      RunRefines(Do(j, run[0]), run[1..]);
      if e.Some? {
        BoundStage.Extend(Image(j), e.value, rest);
        assert Events(j, run) == [e.value] + rest;
      } else {
        assert Events(j, run) == rest;
      }
    }
  }

  lemma {:induction false} NoneYet(s: State, st: Stack)
    requires AllOk(s, st)
    ensures NoRemoval(st, |s.handlers|)
  {
    if st.Cons? { NoneYet(s, st.rest); }
  }

  lemma StackRegistered(s: State, t: nat)
    requires CloseInvariant.Inv(s) && Registering(s, t)
    ensures RemovalOk(Registered(s, t))
  {
    var s' := CloseProtocol.Do(s, t, Step);
    forall u | 0 <= u < |s'.threads|
      ensures NoRemoval(s'.threads[u], |s.handlers|)
    {
      assert AllOk(s, s.threads[u]);
      NoneYet(s, s.threads[u]);
    }
  }

  lemma Starts(s: State, t: nat)
    requires CloseInvariant.Inv(s) && Registering(s, t)
    ensures JointInv(Registered(s, t))
    ensures Image(Registered(s, t)) == BoundStage.Init(s.w.preparing)
  {
    InvStep(s, t, Step);
    InsertsBefore(s, t);
    StackRegistered(s, t);
  }

  // ---- What then and fail promise, on every schedule of the protocol ----

  /** A schedule of n threads and a new context up to the registration of a callback by
      thread t, and on from there. */
  predicate IsRun(n: nat, past: seq<Event>, t: nat, run: seq<Move>) {
    && CloseProtocol.Legal(CloseProtocol.Init(n), past)
    && Registering(CloseTheorems.State(n, past), t)
    && Legal(Registered(CloseTheorems.State(n, past), t), run)
  }

  function End(n: nat, past: seq<Event>, t: nat, run: seq<Move>): Joint
    requires IsRun(n, past, t, run)
  {
    After(Registered(CloseTheorems.State(n, past), t), run)
  }

  lemma Reached(n: nat, past: seq<Event>, t: nat, run: seq<Move>)
    requires IsRun(n, past, t, run)
    ensures JointInv(End(n, past, t, run))
  {
    CloseTheorems.Reached(n, past);
    Starts(CloseTheorems.State(n, past), t);
    RunRefines(Registered(CloseTheorems.State(n, past), t), run);
  }

  /** The next future is resolved at most once, and the assertion that m_nextFutureState is
      there when the stage is called holds. */
  lemma ResolvedAtMostOnce(n: nat, past: seq<Event>, t: nat, run: seq<Move>, direct: bool)
    requires IsRun(n, past, t, run)
    ensures End(n, past, t, run).g.resolved <= 1
    ensures Enabled(End(n, past, t, run), Enter(direct)) ==> End(n, past, t, run).g.armed
  {
    Reached(n, past, t, run);
    var j := End(n, past, t, run);
    if Enabled(j, Enter(direct)) { EnterFinds(j, Enter(direct)); }
  }

  /** The context is closed and the stage not running. */
  predicate AtRest(j: Joint) { j.s.w.closed && !j.g.inFn }

  lemma ClosedFinds(j: Joint)
    requires JointInv(j) && j.s.w.closed
    ensures j.g.armed <==> !j.g.entered && j.s.handlers[j.g.h].place.Unlinked?
    ensures j.s.handlers[j.g.h].place.Popped? || j.s.handlers[j.g.h].place.Unlinked?
  {
    assert HandlerOk(j.s.handlers[j.g.h], j.g.h in j.s.list);
  }

  /** Once the context is closed and the stage is not running, the next future has its one
      result if and only if the stage was called or its close handler was: what the stage made
      of it in the one case, and in the other that it was cancelled. The callback that was
      destroyed first, unlinked and with its stage not called, leaves it without. */
  lemma ResolvedAtClose(n: nat, past: seq<Event>, t: nat, run: seq<Move>)
    requires IsRun(n, past, t, run) && AtRest(End(n, past, t, run))
    ensures var j := End(n, past, t, run);
      && j.g.h < |j.s.handlers|
      && (j.g.resolved == 1 <==> j.g.entered || j.s.handlers[j.g.h].calls == 1)
      && (j.g.resolved == 0 <==> !j.g.entered && j.s.handlers[j.g.h].place.Unlinked?)
      && (j.g.given.ByStage? <==> j.g.entered)
      && (j.g.given.ByClose? <==> !j.g.entered && j.s.handlers[j.g.h].calls == 1)
  {
    Reached(n, past, t, run);
    var j := End(n, past, t, run);
    ClosedFinds(j);
    assert HandlerOk(j.s.handlers[j.g.h], j.g.h in j.s.list);
  }

  /** Whoever keeps the promise of the source future until the context is closed is sure of
      it: exactly one result. */
  lemma ResolvedIfOwned(n: nat, past: seq<Event>, t: nat, run: seq<Move>)
    requires IsRun(n, past, t, run) && AtRest(End(n, past, t, run)) && End(n, past, t, run).g.owners
    ensures End(n, past, t, run).g.resolved == 1
  {
    Reached(n, past, t, run);
    ClosedFinds(End(n, past, t, run));
  }
}

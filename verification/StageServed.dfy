/** When a close that has begun is sure to give the next future its result, and how it is
    lost when that is not sure: on the close protocol itself. */
module StageServed {
  import opened ContextState
  import opened P = CloseProtocol
  import opened CloseInvariant
  import opened Wrappers
  import opened J = StageOnContext
  import BoundStage
  import CloseTheorems
  import RemovalLaws

  // ---- When a close that has begun is sure to serve the stage ----

  /** The closing thread has the list locked and takes the handler off it next. */
  predicate IsNext(j: Joint) {
    var c := j.s.closer;
    && c.Some? && c.value < |j.s.threads| && j.s.threads[c.value].Cons?
    && (j.s.threads[c.value].top.CloseLoop? || j.s.threads[c.value].top.CloseMark?)
    && j.s.list != [] && j.s.list[0] == j.g.h
  }

  /** The next future has been given its result, or is certain to be: the closure is running,
      or the closing thread has come to the handler. */
  predicate Sure(j: Joint)
    requires j.g.h < |j.s.handlers|
  {
    BoundStage.Sure(Image(j)) || IsNext(j)
  }

  lemma ListKept(s: State, t: nat, a: Action)
    requires t < |s.threads| && P.Enabled(s, t, a) && (s.threads[t].Cons? ==> FrameOk(s, s.threads[t].top))
    requires a.Step? ==> !s.threads[t].top.AddInsert? && !s.threads[t].top.RemSearch? && !s.threads[t].top.CloseLoop?
    ensures P.Do(s, t, a).list == s.list
  {
    if a.Return? { return; }
    if a.Step? {
      if Touches(s.threads[t].top) { return; }
      Untouched(s, t);
    }
  }

  /** While the list is locked for the closing thread nothing gets in before the handler. */
  lemma NextStays(j: Joint, t: nat, a: Action, mine: bool)
    requires CloseInvariant.Inv(j.s) && J.Enabled(j, Ctx(t, a, mine)) && IsNext(j)
    ensures Pops(j.s, t, a, j.g.h) || IsNext(J.Do(j, Ctx(t, a, mine)))
  {
    var c := j.s.closer.value;
    Part(Late, j.s.threads, c);
    Flags(j.s, t, a);
    OwnStack(j.s, t, a);
    assert AllOk(j.s, j.s.threads[t]);
    if t != c {
      Parts(Locks, j.s.threads, t, c);
      ListKept(j.s, t, a);
      return;
    }
    if a.DropQueued? { return; }
    MarkGoesOn(j.s, c);
  }

  lemma MarkGoesOn(s: State, c: nat)
    requires c < |s.threads| && P.Enabled(s, c, Step) && (s.threads[c].top.CloseMark? || s.threads[c].top.CloseLoop?)
    ensures s.threads[c].top.CloseMark? ==>
              P.Do(s, c, Step).list == s.list && P.Do(s, c, Step).threads[c] == Cons(CloseLoop, s.threads[c].rest)
  {}

  lemma FollowSure(s: BoundStage.Sys, e: Option<BoundStage.Event>, s': BoundStage.Sys)
    requires Follow(s, e, s') && BoundStage.Inv(s) && s.preparing
    ensures s'.preparing && (BoundStage.Sure(s) ==> BoundStage.Sure(s'))
  {}

  lemma NextSure(j: Joint, e: Move)
    requires JointInv(j) && J.Enabled(j, e) && IsNext(j)
    requires j.g.h < |J.Do(j, e).s.handlers|
    ensures Sure(J.Do(j, e))
  {
    if e.Ctx? {
      Places(j.s, e.t, e.a, j.g.h);
      NextStays(j, e.t, e.a, e.mine);
    }
  }

  lemma SureStep(j: Joint, e: Move)
    requires JointInv(j) && J.Enabled(j, e) && JointInv(J.Do(j, e)) && j.s.w.preparing && Sure(j)
    requires Follow(Image(j), EventOf(j, e), Image(J.Do(j, e)))
    ensures J.Do(j, e).s.w.preparing && Sure(J.Do(j, e))
  {
    FollowSure(Image(j), EventOf(j, e), Image(J.Do(j, e)));
    if IsNext(j) { NextSure(j, e); }
  }

  lemma {:induction false} StaysSure(j: Joint, more: seq<Move>)
    requires JointInv(j) && J.Legal(j, more) && j.s.w.preparing && Sure(j)
    ensures JointInv(J.After(j, more)) && Sure(J.After(j, more))
    decreases |more|
  {
    if more != [] {
      Refines(j, more[0]);
      SureStep(j, more[0]);
      StaysSure(J.Do(j, more[0]), more[1..]);
    }
  }

  lemma SureAtRest(j: Joint)
    requires JointInv(j) && Sure(j) && AtRest(j)
    ensures j.g.resolved == 1
  {
    ClosedFinds(j);
  }

  /** From any state in which a close has begun and the result is sure, every schedule that
      comes to rest has given the next future its one result. */
  lemma ServedOnceSure(n: nat, past: seq<Event>, t: nat, run: seq<Move>, more: seq<Move>)
    requires IsRun(n, past, t, run) && J.Legal(End(n, past, t, run), more)
    requires End(n, past, t, run).s.w.preparing && End(n, past, t, run).g.h < |End(n, past, t, run).s.handlers|
    requires Sure(End(n, past, t, run)) && AtRest(J.After(End(n, past, t, run), more))
    ensures J.After(End(n, past, t, run), more).g.resolved == 1
  {
    Reached(n, past, t, run);
    var j := End(n, past, t, run);
    StaysSure(j, more);
    SureAtRest(J.After(j, more));
  }

  // ---- When it is not ----

  predicate Closing(f: Frame) { Early(f) + Middle(f) + Late(f) > 0 }

  /** Thread c is in close and no other thread is in any call of the context, but for st on
      thread u. */
  predicate Quiet(s: State, c: nat, u: nat, st: Stack) {
    && c < |s.threads| && u < |s.threads| && c != u
    && s.threads[c].Cons? && Closing(s.threads[c].top) && s.threads[c].rest == Empty
    && s.threads[u] == st
    && (forall t :: 0 <= t < |s.threads| && t != c && t != u ==> s.threads[t] == Empty)
  }

  lemma {:induction false} NoneTotal(w: Measure, ts: seq<Stack>)
    requires forall t :: 0 <= t < |ts| ==> ts[t] == Empty
    ensures Total(w, ts) == 0
  {
    if ts != [] { NoneTotal(w, ts[1..]); }
  }

  lemma QuietTotal(w: Measure, s: State, c: nat, u: nat, st: Stack)
    requires Quiet(s, c, u, st)
    ensures Total(w, s.threads) == w(s.threads[c].top) + Sum(w, st)
  {
    Replace(w, s.threads, c, Empty);
    Replace(w, s.threads[c := Empty], u, Empty);
    NoneTotal(w, s.threads[c := Empty][u := Empty]);
    assert Sum(w, Empty) == 0;
  }

  // ---- The closing thread alone ----

  function Goes(f: Frame): Action { if f.CloseCall? then Return(false) else Step }

  function Rank(f: Frame): nat {
    if f.CloseAnchor? then 6 else if f.CloseWait? then 5 else if f.CloseFlag? then 4
    else if f.CloseLocking? then 3 else if f.CloseReset? then 1 else if f.CloseDone? then 0 else 2
  }

  function Turn(f: Frame): nat {
    if f.CloseCall? then 3 else if f.CloseRelock? then 2 else if f.CloseMark? then 1 else 0
  }

  /** The closing thread is nearer to the end at f' with list' than at f with list. */
  predicate Nearer(f': Frame, list': seq<HandlerId>, f: Frame, list: seq<HandlerId>) {
    || Rank(f') < Rank(f)
    || (Rank(f') == Rank(f) && (|list'| < |list| || (|list'| == |list| && Turn(f') < Turn(f))))
  }

  predicate CloserMoves(s: State, c: nat, s': State)
    requires c < |s.threads| && s.threads[c].Cons?
  {
    var f := s.threads[c].top;
    && s'.handles == s.handles && |s'.threads| == |s.threads|
    && (f.CloseDone? ==> s'.w.closed)
    && (!f.CloseDone? ==>
          && s'.threads[c].Cons? && Closing(s'.threads[c].top) && s'.threads[c].rest == s.threads[c].rest
          && Nearer(s'.threads[c].top, s'.list, f, s.list))
  }

  lemma CloserCanGo(s: State, c: nat, u: nat)
    requires CloseInvariant.Inv(s) && Quiet(s, c, u, Empty)
    ensures P.Enabled(s, c, Goes(s.threads[c].top))
  {
    QuietTotal(Blocks, s, c, u, Empty);
    QuietTotal(Locks, s, c, u, Empty);
    assert Sum(Items, s.threads[c]) == 0;
  }

  lemma CloserGoes(s: State, c: nat)
    requires c < |s.threads| && s.threads[c].Cons? && Closing(s.threads[c].top) && HandlersOk(s)
    requires P.Enabled(s, c, Goes(s.threads[c].top)) && FrameOk(s, s.threads[c].top)
    ensures CloserMoves(s, c, P.Do(s, c, Goes(s.threads[c].top)))
  {
    var f := s.threads[c].top;
    if f.CloseCall? { return; }
    if Calls(f) { CloserTurns(s, c); return; }
  }

  lemma CloserTurns(s: State, c: nat)
    requires c < |s.threads| && s.threads[c].Cons? && Calls(s.threads[c].top) && HandlersOk(s)
    requires P.Enabled(s, c, Step)
    ensures CloserMoves(s, c, P.Do(s, c, Step))
  {
    assert s.list != [] ==> s.list[0] in s.list;
    var f := s.threads[c].top;
    if f.CloseLoop? { return; }
    if f.CloseMark? { return; }
  }

  /** A close is under way on thread c alone, and the next future still waits for its result. */
  ghost predicate Calm(j: Joint, c: nat, u: nat, st: Stack) {
    && JointInv(j) && Quiet(j.s, c, u, st)
    && j.s.handles > 0 && j.s.w.preparing && !j.s.w.closed && j.g.armed
  }

  function CloserMove(j: Joint, c: nat): Move
    requires c < |j.s.threads| && j.s.threads[c].Cons?
  {
    Ctx(c, Goes(j.s.threads[c].top), false)
  }

  /** The closing thread can go on, unless it is at the stage's own handler. */
  lemma CloserAllowed(j: Joint, c: nat, u: nat)
    requires Calm(j, c, u, Empty) && !j.s.handlers[j.g.h].place.Popped?
    ensures J.Enabled(j, CloserMove(j, c)) && J.Do(j, CloserMove(j, c)).g == j.g
  {
    CloserCanGo(j.s, c, u);
    assert AllOk(j.s, j.s.threads[c]);
  }

  lemma CloserStep(j: Joint, c: nat, u: nat)
    requires Calm(j, c, u, Empty) && !j.s.handlers[j.g.h].place.Popped? && J.Enabled(j, CloserMove(j, c))
    requires J.Do(j, CloserMove(j, c)).g == j.g
    ensures CloserMoves(j.s, c, J.Do(j, CloserMove(j, c)).s)
    ensures J.Do(j, CloserMove(j, c)).s.w.closed || Calm(J.Do(j, CloserMove(j, c)), c, u, Empty)
    ensures PlaceMoves(j.s, c, Goes(j.s.threads[c].top), j.g.h, J.Do(j, CloserMove(j, c)).s)
  {
    var a := Goes(j.s.threads[c].top);
    assert AllOk(j.s, j.s.threads[c]);
    CloserGoes(j.s, c);
    OwnStack(j.s, c, a);
    Flags(j.s, c, a);
    Places(j.s, c, a, j.g.h);
    Refines(j, CloserMove(j, c));
  }

  // ---- Schedules that lose the result ----

  /** The schedule ends with the context closed and the stage not running. */
  predicate Ends(j: Joint, more: seq<Move>) { J.Legal(j, more) && AtRest(J.After(j, more)) }

  /** It ends with the next future unresolved. */
  predicate Loses(j: Joint, more: seq<Move>) { Ends(j, more) && J.After(j, more).g.resolved == 0 }

  lemma Before(j: Joint, e: Move, j': Joint, rest: seq<Move>)
    requires J.Enabled(j, e) && J.Do(j, e) == j' && Loses(j', rest)
    ensures Loses(j, [e] + rest)
  {
    assert ([e] + rest)[1..] == rest;
  }

  lemma AtOnce(j: Joint)
    requires AtRest(j) && j.g.resolved == 0
    ensures Loses(j, [])
  {}

  lemma WaitsUnresolved(j: Joint)
    requires JointInv(j) && j.g.armed
    ensures j.g.resolved == 0 && !j.g.inFn
  {}

  /** Once the callback is destroyed the closing thread goes through the list without it. */
  lemma {:induction false} RunsOut(j: Joint, c: nat, u: nat) returns (more: seq<Move>)
    requires Calm(j, c, u, Empty) && j.s.handlers[j.g.h].place.Unlinked?
    ensures Loses(j, more)
    decreases Rank(j.s.threads[c].top), |j.s.list|, Turn(j.s.threads[c].top)
  {
    var e := CloserMove(j, c);
    CloserAllowed(j, c, u);
    CloserStep(j, c, u);
    var j' := J.Do(j, e);
    StaysUnlinked(j, c);
    var rest := [];
    if j'.s.w.closed {
      WaitsUnresolved(j);
      AtOnce(j');
    } else {
      rest := RunsOut(j', c, u);
    }
    Before(j, e, j', rest);
    more := [e] + rest;
  }

  lemma StaysUnlinked(j: Joint, c: nat)
    requires JointInv(j) && c < |j.s.threads| && j.s.handlers[j.g.h].place.Unlinked?
    ensures !Pops(j.s, c, Step, j.g.h)
  {
    assert j.s.list != [] ==> j.s.list[0] in j.s.list;
    assert HandlerOk(j.s.handlers[j.g.h], j.g.h in j.s.list);
  }

  // ---- The idle thread destroys the callback ----

  function Only(f: Frame): Stack { Cons(f, Empty) }

  /** A step of thread u leaves the closing thread where it is. */
  lemma OtherMoves(j: Joint, c: nat, u: nat, st: Stack, a: Action, mine: bool)
    requires Calm(j, c, u, st) && J.Enabled(j, Ctx(u, a, mine)) && !a.CallClose?
    requires a.Step? ==> st.Cons? && !Closing(st.top)
    requires J.Do(j, Ctx(u, a, mine)).s.handles == j.s.handles
    ensures Calm(J.Do(j, Ctx(u, a, mine)), c, u, J.Do(j, Ctx(u, a, mine)).s.threads[u])
  {
    Refines(j, Ctx(u, a, mine));
    OwnStack(j.s, u, a);
    Flags(j.s, u, a);
  }

  /** The list is not locked for the closing thread. */
  predicate Unlocked(s: State, c: nat)
    requires c < |s.threads|
  {
    s.threads[c].Cons? && Locks(s.threads[c].top) == 0
  }

  lemma Unlinks(j: Joint, c: nat, u: nat) returns (more: seq<Move>)
    requires Calm(j, c, u, Only(RemSearch(j.g.h))) && j.s.handlers[j.g.h].place.Listed?
    ensures Loses(j, more)
  {
    var e := Ctx(u, Step, false);
    SearchFinds(j, c, u);
    OtherMoves(j, c, u, Only(RemSearch(j.g.h)), Step, false);
    var rest := RunsOut(J.Do(j, e), c, u);
    Before(j, e, J.Do(j, e), rest);
    more := [e] + rest;
  }

  lemma SearchFinds(j: Joint, c: nat, u: nat)
    requires Calm(j, c, u, Only(RemSearch(j.g.h))) && j.s.handlers[j.g.h].place.Listed?
    ensures J.Enabled(j, Ctx(u, Step, false))
    ensures var s' := J.Do(j, Ctx(u, Step, false)).s;
      s'.handles == j.s.handles && s'.threads[u] == Empty
      && j.g.h < |s'.handlers| && s'.handlers[j.g.h].place.Unlinked?
  {
    assert HandlerOk(j.s.handlers[j.g.h], j.g.h in j.s.list);
  }

  lemma TakesLock(j: Joint, c: nat, u: nat) returns (more: seq<Move>)
    requires Calm(j, c, u, Only(RemLocking(j.g.h))) && j.s.handlers[j.g.h].place.Listed? && Unlocked(j.s, c)
    ensures Loses(j, more)
  {
    var e := Ctx(u, Step, false);
    LockIsFree(j, c, u);
    OtherMoves(j, c, u, Only(RemLocking(j.g.h)), Step, false);
    var rest := Unlinks(J.Do(j, e), c, u);
    Before(j, e, J.Do(j, e), rest);
    more := [e] + rest;
  }

  lemma LockIsFree(j: Joint, c: nat, u: nat)
    requires Calm(j, c, u, Only(RemLocking(j.g.h))) && Unlocked(j.s, c)
    ensures J.Enabled(j, Ctx(u, Step, false))
    ensures var j' := J.Do(j, Ctx(u, Step, false));
      j'.s.handles == j.s.handles && j'.s.threads[u] == Only(RemSearch(j.g.h))
      && j'.s.handlers == j.s.handlers && j'.g == j.g
  {
    QuietTotal(Locks, j.s, c, u, Only(RemLocking(j.g.h)));
    assert Sum(Locks, Only(RemLocking(j.g.h))) == Sum(Locks, Empty) == 0;
  }

  /** The handler is in the list and its removal has not begun. */
  predicate Removable(j: Joint) {
    && j.g.h < |j.s.handlers|
    && j.s.handlers[j.g.h].place.Listed? && j.s.handlers[j.g.h].removal.NotRemoved?
  }

  lemma BeginsRemoval(j: Joint, c: nat, u: nat) returns (more: seq<Move>)
    requires Calm(j, c, u, Empty) && Removable(j) && Unlocked(j.s, c)
    requires !j.g.owners && (j.g.loc.NotOffered? || j.g.loc.Gone?)
    ensures Loses(j, more)
  {
    var e := Ctx(u, CallRemove(j.g.h), false);
    OtherMoves(j, c, u, Empty, CallRemove(j.g.h), false);
    var rest := TakesLock(J.Do(j, e), c, u);
    Before(j, e, J.Do(j, e), rest);
    more := [e] + rest;
  }

  lemma LosesOwners(j: Joint, c: nat, u: nat) returns (more: seq<Move>)
    requires Calm(j, c, u, Empty) && Removable(j) && Unlocked(j.s, c)
    requires j.g.loc.NotOffered? || j.g.loc.Gone?
    ensures Loses(j, more)
  {
    if !j.g.owners {
      more := BeginsRemoval(j, c, u);
      return;
    }
    Refines(j, DropOwners);
    var rest := BeginsRemoval(J.Do(j, DropOwners), c, u);
    Before(j, DropOwners, J.Do(j, DropOwners), rest);
    more := [DropOwners] + rest;
  }

  // ---- The executor takes the closure up and is refused ----

  /** Thread u goes on with the refused closure, and nothing else changes for the stage. */
  predicate RefusalMoves(j: Joint, u: nat, st': Stack, loc: Loc, j': Joint)
    requires u < |j'.s.threads|
  {
    && j'.s.threads[u] == st' && j'.g == j.g.(loc := loc)
    && j'.s.handles == j.s.handles && j'.s.handlers == j.s.handlers
  }

  lemma Dropped(j: Joint, c: nat, u: nat) returns (more: seq<Move>)
    requires Calm(j, c, u, Only(RunDrop)) && Removable(j) && Unlocked(j.s, c) && j.g.loc == On(u, 1)
    ensures Loses(j, more)
  {
    var e := Ctx(u, Step, false);
    assert RefusalMoves(j, u, Empty, Gone, J.Do(j, e));
    OtherMoves(j, c, u, Only(RunDrop), Step, false);
    OwnStack(j.s, u, Step);
    var rest := LosesOwners(J.Do(j, e), c, u);
    Before(j, e, J.Do(j, e), rest);
    more := [e] + rest;
  }

  lemma Unblocked(j: Joint, c: nat, u: nat) returns (more: seq<Move>)
    requires Calm(j, c, u, Only(RunRefused)) && Removable(j) && Unlocked(j.s, c) && j.g.loc == On(u, 1)
    ensures Loses(j, more)
  {
    var e := Ctx(u, Step, false);
    assert RefusalMoves(j, u, Only(RunDrop), On(u, 1), J.Do(j, e));
    OtherMoves(j, c, u, Only(RunRefused), Step, false);
    OwnStack(j.s, u, Step);
    var rest := Dropped(J.Do(j, e), c, u);
    Before(j, e, J.Do(j, e), rest);
    more := [e] + rest;
  }

  lemma IsRefused(j: Joint, c: nat, u: nat) returns (more: seq<Move>)
    requires Calm(j, c, u, Only(RunTaken)) && Removable(j) && Unlocked(j.s, c) && j.g.loc == On(u, 1)
    ensures Loses(j, more)
  {
    var e := Ctx(u, Step, false);
    assert RefusalMoves(j, u, Only(RunRefused), On(u, 1), J.Do(j, e));
    OtherMoves(j, c, u, Only(RunTaken), Step, false);
    OwnStack(j.s, u, Step);
    var rest := Unblocked(J.Do(j, e), c, u);
    Before(j, e, J.Do(j, e), rest);
    more := [e] + rest;
  }

  lemma TakenUp(j: Joint, c: nat, u: nat) returns (more: seq<Move>)
    requires Calm(j, c, u, Empty) && Removable(j) && Unlocked(j.s, c) && j.g.loc.InQueue?
    ensures Loses(j, more)
  {
    var e := Ctx(u, Take, true);
    assert Sum(Items, j.s.threads[u]) == 0;
    assert RefusalMoves(j, u, Only(RunTaken), On(u, 1), J.Do(j, e));
    OtherMoves(j, c, u, Empty, Take, true);
    OwnStack(j.s, u, Take);
    var rest := IsRefused(J.Do(j, e), c, u);
    Before(j, e, J.Do(j, e), rest);
    more := [e] + rest;
  }

  /** The closing thread is in no work of the stage, nor is anyone else. */
  lemma NotRunning(j: Joint, c: nat, u: nat)
    requires Calm(j, c, u, Empty)
    ensures !j.g.loc.On?
  {}

  lemma LosesUnlocked(j: Joint, c: nat, u: nat) returns (more: seq<Move>)
    requires Calm(j, c, u, Empty) && Removable(j) && Unlocked(j.s, c)
    ensures Loses(j, more)
  {
    NotRunning(j, c, u);
    if j.g.loc.InQueue? { more := TakenUp(j, c, u); }
    else { more := LosesOwners(j, c, u); }
  }

  // ---- Until the closing thread gives the lock back ----

  /** Holding the lock, the closing thread goes on to another handler than the stage's. */
  lemma PassesBy(j: Joint, c: nat, u: nat)
    requires Calm(j, c, u, Empty) && Removable(j) && !Unlocked(j.s, c) && !IsNext(j)
    requires J.Enabled(j, CloserMove(j, c))
    ensures var f, j' := j.s.threads[c].top, J.Do(j, CloserMove(j, c));
      && Removable(j') && j'.s.threads[c].Cons?
      && (f.CloseMark? ==> j'.s.threads[c].top.CloseLoop? && j'.s.list == j.s.list)
      && (f.CloseLoop? ==> Unlocked(j'.s, c))
  {
    assert AllOk(j.s, j.s.threads[c]);
    Part(Late, j.s.threads, c);
    CloserIs(j.s, c);
    assert HandlerOk(j.s.handlers[j.g.h], j.g.h in j.s.list);
    assert j.s.list[0] in j.s.list;
  }

  /** A closing thread at work on the list, with the stage's handler still in it. */
  lemma {:induction false} LosesCalm(j: Joint, c: nat, u: nat) returns (more: seq<Move>)
    requires Calm(j, c, u, Empty) && Removable(j) && !IsNext(j)
    ensures Loses(j, more)
    decreases |j.s.list|, Turn(j.s.threads[c].top)
  {
    if Unlocked(j.s, c) {
      more := LosesUnlocked(j, c, u);
      return;
    }
    var e := CloserMove(j, c);
    CloserAllowed(j, c, u);
    CloserStep(j, c, u);
    PassesBy(j, c, u);
    var rest;
    if j.s.threads[c].top.CloseMark? { rest := LosesCalm(J.Do(j, e), c, u); }
    else { rest := LosesUnlocked(J.Do(j, e), c, u); }
    Before(j, e, J.Do(j, e), rest);
    more := [e] + rest;
  }

  /** Thread c is in close and u and every other thread outside the context, whose handle
      someone keeps. */
  predicate IsCalm(j: Joint, c: nat, u: nat) {
    Quiet(j.s, c, u, Empty) && j.s.handles > 0 && j.s.w.preparing && !j.s.w.closed
  }

  /** A listed handler whose removal is not under way has not been removed. */
  lemma CalmRemovable(s: State, c: nat, u: nat, h: HandlerId)
    requires CloseInvariant.Inv(s) && Quiet(s, c, u, Empty) && RemovalLaws.HandlerInv(s, h)
    requires h < |s.handlers| && s.handlers[h].place.Listed?
    ensures s.handlers[h].removal.NotRemoved?
  {
    assert HandlerOk(s.handlers[h], h in s.list);
    QuietRemovals(s.threads, h);
  }

  lemma {:induction false} QuietRemovals(ts: seq<Stack>, h: HandlerId)
    requires forall t :: 0 <= t < |ts| ==> ts[t].Empty? || (ts[t].rest.Empty? && !Removes(ts[t].top))
    ensures RemovalLaws.RemTotal(h, ts) == 0
  {
    if ts != [] {
      QuietRemovals(ts[1..], h);
      assert RemovalLaws.RemOf(h, Empty) == 0;
      assert RemovalLaws.RemOf(h, ts[0]) == 0;
    }
  }

  lemma HandlersKnown(n: nat, past: seq<Event>, t: nat, run: seq<Move>)
    requires IsRun(n, past, t, run)
    ensures RemovalLaws.AllHandlers(End(n, past, t, run).s)
  {
    var s := CloseTheorems.State(n, past);
    var j := Registered(s, t);
    RemovalLaws.HandlersAt(n, past);
    RemovalLaws.OneStep(s, t, Step);
    RemovalLaws.HandlersAfter(s, [Event(t, Step)]);
    InvStep(s, t, Step);
    RunsProtocol(j, run);
    RemovalLaws.HandlersAfter(j.s, Steps(run));
  }

  lemma LosesUnsure(j: Joint, c: nat, u: nat) returns (more: seq<Move>)
    requires JointInv(j) && IsCalm(j, c, u) && !Sure(j)
    requires j.s.handlers[j.g.h].place.Listed? ==> j.s.handlers[j.g.h].removal.NotRemoved?
    ensures Loses(j, more)
  {
    if j.s.handlers[j.g.h].place.Unlinked? { more := RunsOut(j, c, u); }
    else { more := LosesCalm(j, c, u); }
  }

  /** With a close under way and nothing else going on in the context, every schedule of the
      protocol that comes to rest gives the next future its one result if and only if that is
      sure already. Otherwise the executor can refuse the closure, the source state go and the
      callback with it, before the closing thread has come to the handler. */
  lemma ServedIff(n: nat, past: seq<Event>, t: nat, run: seq<Move>, c: nat, u: nat)
    requires IsRun(n, past, t, run) && IsCalm(End(n, past, t, run), c, u)
    ensures End(n, past, t, run).g.h < |End(n, past, t, run).s.handlers|
    ensures var j := End(n, past, t, run);
      (forall more :: Ends(j, more) ==> J.After(j, more).g.resolved == 1) <==> Sure(j)
  {
    Reached(n, past, t, run);
    var j := End(n, past, t, run);
    if Sure(j) {
      forall more | Ends(j, more)
        ensures J.After(j, more).g.resolved == 1
      {
        StaysSure(j, more);
        SureAtRest(J.After(j, more));
      }
    } else {
      HandlersKnown(n, past, t, run);
      assert RemovalLaws.HandlerInv(j.s, j.g.h);
      if j.s.handlers[j.g.h].place.Listed? { CalmRemovable(j.s, c, u, j.g.h); }
      var more := LosesUnsure(j, c, u);
      assert Ends(j, more);
    }
  }

  // ---- A run that loses the result ----

  /** Two threads outside the context, then the second in close: the handler waits in the list
      and the closure has not been offered. */
  function Waiting(preparing: bool, blocks: nat, st0: Stack, st1: Stack): Joint {
    Joint(State(Fields(preparing, false, false, false, 1, blocks), 1, 0, 0, [0],
                [Handler(Listed, 0, false, false, NotRemoved)], [st0, st1], false,
                if preparing then Some(1) else None),
          Stage(0, NotOffered, false, false, true, 0, BoundStage.Nothing, true))
  }

  /** The first thread has come to register the callback. */
  lemma Prelude() returns (past: seq<Event>)
    ensures P.Legal(P.Init(2), past) && Registering(CloseTheorems.State(2, past), 0)
    ensures Registered(CloseTheorems.State(2, past), 0) == Waiting(false, 1, Only(AddLeave), Empty)
  {
    past := [Event(0, CallAdd(false)), Event(0, Step)];
    var s0 := P.Init(2);
    assert s0.threads == [Empty, Empty];
    var s1 := P.Do(s0, 0, CallAdd(false));
    var s2 := P.Do(s1, 0, Step);
    assert P.Legal(s1, [Event(0, Step)]) && P.After(s1, [Event(0, Step)]) == s2;
    assert s2.threads == [Only(AddInsert(false)), Empty];
  }

  lemma Registers()
    ensures J.Enabled(Waiting(false, 1, Only(AddLeave), Empty), Ctx(0, Step, false))
    ensures J.Do(Waiting(false, 1, Only(AddLeave), Empty), Ctx(0, Step, false)) == Waiting(false, 0, Empty, Empty)
  {}

  lemma Closes()
    ensures J.Enabled(Waiting(false, 0, Empty, Empty), Ctx(1, CallClose, false))
    ensures J.Do(Waiting(false, 0, Empty, Empty), Ctx(1, CallClose, false))
            == Waiting(true, 0, Empty, Only(CloseAnchor))
  {}

  lemma IsCalmThen()
    ensures IsCalm(Waiting(true, 0, Empty, Only(CloseAnchor)), 1, 0)
    ensures !Sure(Waiting(true, 0, Empty, Only(CloseAnchor)))
    ensures Waiting(true, 0, Empty, Only(CloseAnchor)).s.handlers[0].removal.NotRemoved?
  {}

  lemma LosesAfter(j: Joint, e: Move, j1: Joint, e1: Move, j2: Joint) returns (run: seq<Move>)
    requires JointInv(j) && J.Enabled(j, e) && J.Do(j, e) == j1 && J.Enabled(j1, e1) && J.Do(j1, e1) == j2
    requires IsCalm(j2, 1, 0) && j2.g.h < |j2.s.handlers| && !Sure(j2)
    requires j2.s.handlers[j2.g.h].removal.NotRemoved?
    ensures Loses(j, run)
  {
    Refines(j, e);
    Refines(j1, e1);
    var rest := LosesUnsure(j2, 1, 0);
    Before(j1, e1, j2, rest);
    Before(j, e, j1, [e1] + rest);
    run := [e] + ([e1] + rest);
  }

  lemma Ending(past: seq<Event>, j: Joint, run: seq<Move>)
    requires P.Legal(P.Init(2), past) && Registering(CloseTheorems.State(2, past), 0)
    requires Registered(CloseTheorems.State(2, past), 0) == j && Loses(j, run)
    ensures IsRun(2, past, 0, run) && AtRest(End(2, past, 0, run)) && End(2, past, 0, run).g.resolved == 0
  {}

  lemma StartsWell(past: seq<Event>, j: Joint)
    requires P.Legal(P.Init(2), past) && Registering(CloseTheorems.State(2, past), 0)
    requires Registered(CloseTheorems.State(2, past), 0) == j
    ensures JointInv(j)
  {
    CloseTheorems.Reached(2, past);
    Starts(CloseTheorems.State(2, past), 0);
  }

  /** The loss is real: a schedule of the protocol that closes the context, ends the stage and
      leaves the next future without a result. */
  lemma LossExample() returns (past: seq<Event>, run: seq<Move>)
    ensures IsRun(2, past, 0, run) && AtRest(End(2, past, 0, run)) && End(2, past, 0, run).g.resolved == 0
  {
    var j := Waiting(false, 1, Only(AddLeave), Empty);
    var j1 := Waiting(false, 0, Empty, Empty);
    var j2 := Waiting(true, 0, Empty, Only(CloseAnchor));
    past := Prelude();
    StartsWell(past, j);
    Registers();
    Closes();
    IsCalmThen();
    run := LosesAfter(j, Ctx(0, Step, false), j1, Ctx(1, CallClose, false), j2);
    Ending(past, j, run);
  }
}

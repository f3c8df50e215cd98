/** What the calls of a context do for their callers: a close returns when the context is
    closed, a closure offered to an open context is run, a removal is let go, and nothing is
    written to a handler that is gone. */
module CloseLaws {
  import opened ContextState
  import opened CloseProtocol
  import opened Wrappers
  import opened CloseInvariant
  import CloseTheorems
  import J = StageOnContext

  // ---- A close returns when the context is closed ----

  /** A frame of a close that has won, or lost, the race and has not returned. */
  predicate InClose(f: Frame) { Early(f) + Middle(f) + Late(f) > 0 || f.CloseLost? }

  /** Somewhere on the stack a close or a work of the context is under way. */
  predicate Within(st: Stack) {
    st.Cons? && (Early(st.top) + Middle(st.top) + Late(st.top) > 0 || st.top.CloseRelease?
                 || Items(st.top) > 0 || Within(st.rest))
  }

  lemma {:induction false} WithinIs(st: Stack)
    ensures ClosingHere(st) || Sum(Items, st) > 0 ==> Within(st)
  {
    if st.Cons? { WithinIs(st.rest); }
  }

  /** The close that lost the race returns with the context closed, or inside a close or a work
      of the context on the same thread, where it must not wait. */
  lemma LostReturns(n: nat, run: seq<Event>, t: nat)
    requires Legal(Init(n), run) && t < |CloseTheorems.State(n, run).threads|
    requires var s := CloseTheorems.State(n, run);
      s.threads[t].Cons? && s.threads[t].top.CloseLost? && Enabled(s, t, Step)
    ensures var s := CloseTheorems.State(n, run); s.w.closed || Within(s.threads[t].rest)
  {
    WithinIs(CloseTheorems.State(n, run).threads[t].rest);
  }

  function Bottom(st: Stack): Frame
    requires st.Cons?
  {
    if st.rest.Empty? then st.top else Bottom(st.rest)
  }

  /** The context is closed, or the thread is still in the close it called from outside. */
  predicate Waits(s: State, t: nat)
    requires t < |s.threads|
  {
    s.w.closed || (s.threads[t].Cons? && InClose(Bottom(s.threads[t])))
  }

  lemma BottomBelow(st: Stack, st': Stack)
    requires J.Follows(st, st') && st.Cons? && st.rest.Cons?
    ensures st'.Cons? && Bottom(st') == Bottom(st)
  {}

  /** The outermost call of the thread makes a step. */
  lemma OutermostGoes(s: State, t: nat, a: Action)
    requires t < |s.threads| && Enabled(s, t, a) && !s.w.closed
    requires s.threads[t].Cons? && s.threads[t].rest.Empty? && InClose(s.threads[t].top)
    ensures Waits(Do(s, t, a), t)
  {
    var f := s.threads[t].top;
    if a.Step? {
      if f.CloseLost? { assert Sum(Items, Empty) == 0; return; }
      if Calls(f) { return; }
      return;
    }
    if a.Return? { return; }
  }

  lemma WaitsStep(s: State, t: nat, u: nat, a: Action)
    requires t < |s.threads| && u < |s.threads| && Enabled(s, u, a) && Waits(s, t)
    ensures Waits(Do(s, u, a), t)
  {
    J.Flags(s, u, a);
    OwnStack(s, u, a);
    if u != t || s.w.closed { return; }
    if s.threads[t].rest.Empty? { OutermostGoes(s, t, a); return; }
    StackFollows(s, t, a);
    BottomBelow(s.threads[t], Do(s, t, a).threads[t]);
  }

  lemma StackFollows(s: State, t: nat, a: Action)
    requires t < |s.threads| && Enabled(s, t, a)
    ensures J.Follows(s.threads[t], Do(s, t, a).threads[t])
  {
    if J.RemovalBegins(s, t, a, 0) { return; }
    J.Stacks(s, t, a, 0);
  }

  lemma {:induction false} WaitsAfter(s: State, t: nat, run: seq<Event>)
    requires t < |s.threads| && Waits(s, t) && Legal(s, run)
    ensures t < |After(s, run).threads| && Waits(After(s, run), t)
    decreases |run|
  {
    if run != [] {
      WaitsStep(s, t, run[0].t, run[0].a);
      WaitsAfter(Do(s, run[0].t, run[0].a), t, run[1..]);
    }
  }

  lemma {:induction false} Cut(s: State, run: seq<Event>, i: nat)
    requires Legal(s, run) && i <= |run|
    ensures Legal(s, run[..i]) && Legal(After(s, run[..i]), run[i..])
    ensures After(After(s, run[..i]), run[i..]) == After(s, run)
    decreases |run|
  {
    if i > 0 {
      Cut(Do(s, run[0].t, run[0].a), run[1..], i - 1);
      assert run[..i][1..] == run[1..][..i - 1] && run[1..][i - 1..] == run[i..];
    }
  }

  /** Event i of the run is a call of close from outside the context. */
  predicate ClosesFromOutside(n: nat, run: seq<Event>, i: nat, t: nat) {
    && i < |run| && run[i] == Event(t, CallClose) && Legal(Init(n), run[..i])
    && t < |CloseTheorems.State(n, run[..i]).threads| && CloseTheorems.State(n, run[..i]).threads[t].Empty?
  }

  /** Whoever calls close from outside the context, first or not, and is back outside, finds
      it closed. */
  lemma CloseReturnsClosed(n: nat, run: seq<Event>, i: nat, t: nat)
    requires Legal(Init(n), run) && ClosesFromOutside(n, run, i, t)
    ensures t < |CloseTheorems.State(n, run).threads|
    ensures CloseTheorems.State(n, run).threads[t].Empty? ==> CloseTheorems.State(n, run).w.closed
  {
    Cut(Init(n), run, i);
    var s := CloseTheorems.State(n, run[..i]);
    assert run[i..][0] == run[i];
    WaitsAfter(Do(s, t, CallClose), t, run[i..][1..]);
  }

  // ---- What becomes of a closure ----

  /** A closure on its way: offered, or taken up, and not begun or given up yet. */
  function OnItsWay(f: Frame): nat {
    if f.ExecRefused? || f.ExecReady? || f.RunTaken? || f.RunRefused? then 1 else 0
  }

  /** The step gives up a closure that was refused. */
  predicate GivesUp(s: State, t: nat, a: Action)
    requires t < |s.threads|
  {
    a.Step? && s.threads[t].Cons? && (s.threads[t].top.ExecRefused? || s.threads[t].top.RunRefused?)
  }

  /** A work frame appears: the closure has begun. */
  predicate BeginsWork(s: State, t: nat, s': State)
    requires t < |s.threads| && t < |s'.threads|
  {
    Sum(Works, s'.threads[t]) > Sum(Works, s.threads[t])
  }

  /** Offered, begun, given up and destroyed by the executor, over a run. */
  datatype Ledger = Ledger(offered: nat, begun: nat, refused: nat, dropped: nat)

  function Entry(s: State, t: nat, a: Action): Ledger
    requires t < |s.threads| && Enabled(s, t, a)
  {
    Ledger(One(a.CallExec?), One(BeginsWork(s, t, Do(s, t, a))), One(GivesUp(s, t, a)), One(a.DropQueued?))
  }

  function Sums(x: Ledger, y: Ledger): Ledger {
    Ledger(x.offered + y.offered, x.begun + y.begun, x.refused + y.refused, x.dropped + y.dropped)
  }

  function Account(s: State, run: seq<Event>): Ledger
    requires Legal(s, run)
    decreases |run|
  {
    if run == [] then Ledger(0, 0, 0, 0)
    else Sums(Entry(s, run[0].t, run[0].a), Account(Do(s, run[0].t, run[0].a), run[1..]))
  }

  /** The closures of the thread and the queue move by the entry. */
  predicate Balances(s: State, t: nat, s': State, e: Ledger)
    requires t < |s.threads| == |s'.threads|
  {
    && s'.queue + Sum(OnItsWay, s'.threads[t]) + e.begun + e.refused + e.dropped
       == s.queue + Sum(OnItsWay, s.threads[t]) + e.offered
    && (e.refused > 0 || Sum(Refused, s'.threads[t]) > Sum(Refused, s.threads[t]) ==>
          s.w.preparing || Sum(Refused, s.threads[t]) > 0)
    && (Sum(Refused, s'.threads[t]) <= Sum(Refused, s.threads[t]) || s.w.preparing)
  }

  lemma StepBalances(s: State, t: nat)
    requires t < |s.threads| && Enabled(s, t, Step)
    ensures Balances(s, t, DoStep(s, t), Entry(s, t, Step))
  {
    var f := s.threads[t].top;
    if Removes(f) || Calls(f) { ListBalances(s, t); return; }
    if Leaves(f) { return; }
    if Runs(f) { return; }
    if Adds(f) { return; }
    CloseBalances(s, t);
  }

  lemma CloseBalances(s: State, t: nat)
    requires t < |s.threads| && Enabled(s, t, Step) && (Begins(s.threads[t].top) || Ends(s.threads[t].top))
    ensures Balances(s, t, DoStep(s, t), Entry(s, t, Step))
  {
    if Begins(s.threads[t].top) { return; }
  }

  lemma ListBalances(s: State, t: nat)
    requires t < |s.threads| && Enabled(s, t, Step) && (Removes(s.threads[t].top) || Calls(s.threads[t].top))
    ensures Balances(s, t, DoStep(s, t), Entry(s, t, Step))
  {
    var f := s.threads[t].top;
    if f.RemSearch? { SearchBalances(s, t); return; }
    if Removes(f) { return; }
    if f.CloseLoop? { return; }
    if f.CloseMark? { return; }
  }

  lemma SearchBalances(s: State, t: nat)
    requires t < |s.threads| && Enabled(s, t, Step) && s.threads[t].top.RemSearch?
    ensures Balances(s, t, DoStep(s, t), Entry(s, t, Step))
  {
    if s.threads[t].top.h in s.list { return; }
    if ClosingHere(s.threads[t].rest) { return; }
  }

  lemma EntryBalances(s: State, t: nat, a: Action)
    requires t < |s.threads| && Enabled(s, t, a)
    ensures Balances(s, t, Do(s, t, a), Entry(s, t, a))
  {
    match a {
      case Step => StepBalances(s, t); return;
      case Return(throws) => ReturnBalances(s, t, throws); return;
      case CallExec => ExecBalances(s, t); return;
      case CallAdd(start) => AddBalances(s, t, start); return;
      case CallRemove(_) => return;
      case CallClose => return;
      case Inline => return;
      case Take => TakeBalances(s, t); return;
      case DropQueued => return;
      case NewHandle => return;
      case DropHandle => return;
    }
  }

  lemma ReturnBalances(s: State, t: nat, throws: bool)
    requires t < |s.threads| && Enabled(s, t, Return(throws))
    ensures Balances(s, t, Do(s, t, Return(throws)), Entry(s, t, Return(throws)))
  {
    var Cons(f, rest) := s.threads[t];
    if f.ExecInline? || f.RunNested? { return; }
    if f.RunWork? { return; }
    if f.StartFn? {
      var leave := Cons(AddLeave, rest);
      assert Sum(OnItsWay, leave) == Sum(OnItsWay, rest) && Sum(Refused, leave) == Sum(Refused, rest);
      assert Sum(Works, leave) == Sum(Works, rest);
      return;
    }
  }

  lemma ExecBalances(s: State, t: nat)
    requires t < |s.threads| && Enabled(s, t, CallExec)
    ensures Balances(s, t, Do(s, t, CallExec), Entry(s, t, CallExec))
  {}

  lemma AddBalances(s: State, t: nat, start: bool)
    requires t < |s.threads| && Enabled(s, t, CallAdd(start))
    ensures Balances(s, t, Do(s, t, CallAdd(start)), Entry(s, t, CallAdd(start)))
  {}

  lemma TakeBalances(s: State, t: nat)
    requires t < |s.threads| && Enabled(s, t, Take)
    ensures Balances(s, t, Do(s, t, Take), Entry(s, t, Take))
  {}

  /** No attempt has been refused before a close has begun. */
  ghost predicate NoneRefused(s: State) { s.w.preparing || Total(Refused, s.threads) == 0 }

  lemma BalanceStep(s: State, t: nat, a: Action)
    requires t < |s.threads| && Enabled(s, t, a) && NoneRefused(s)
    ensures NoneRefused(Do(s, t, a))
    ensures var s', e := Do(s, t, a), Entry(s, t, a);
      && s'.queue + Total(OnItsWay, s'.threads) + e.begun + e.refused + e.dropped
         == s.queue + Total(OnItsWay, s.threads) + e.offered
      && (e.refused > 0 ==> s.w.preparing)
      && (s.w.preparing ==> s'.w.preparing)
  {
    var s' := Do(s, t, a);
    EntryBalances(s, t, a);
    OwnStack(s, t, a);
    J.Flags(s, t, a);
    Moved(OnItsWay, s, t, s');
    Moved(Refused, s, t, s');
    Part(Refused, s.threads, t);
  }

  lemma {:induction false} Accounts(s: State, run: seq<Event>)
    requires Legal(s, run) && NoneRefused(s)
    ensures var s', e := After(s, run), Account(s, run);
      && NoneRefused(s')
      && s'.queue + Total(OnItsWay, s'.threads) + e.begun + e.refused + e.dropped
         == s.queue + Total(OnItsWay, s.threads) + e.offered
      && (e.refused > 0 ==> s'.w.preparing) && (s.w.preparing ==> s'.w.preparing)
    decreases |run|
  {
    if run != [] {
      BalanceStep(s, run[0].t, run[0].a);
      Accounts(Do(s, run[0].t, run[0].a), run[1..]);
    }
  }

  /** Every closure given to exec has begun, is queued or on its way, was destroyed by the
      executor, or was refused; and as long as no close has begun nothing is refused, neither
      a closure nor a handler. */
  lemma ClosuresAccounted(n: nat, run: seq<Event>)
    requires Legal(Init(n), run)
    ensures var s, e := CloseTheorems.State(n, run), Account(Init(n), run);
      && e.offered == e.begun + e.refused + e.dropped + s.queue + Total(OnItsWay, s.threads)
      && (!s.w.preparing ==> e.refused == 0 && Total(Refused, s.threads) == 0)
  {
    Idle(Refused, n);
    Idle(OnItsWay, n);
    Accounts(Init(n), run);
  }

  /** A closure taken up on a thread that is in work of the context already begins at once,
      whether a close has begun or not. */
  lemma NestedBegins(n: nat, run: seq<Event>, t: nat)
    requires Legal(Init(n), run) && t < |CloseTheorems.State(n, run).threads|
    requires Enabled(CloseTheorems.State(n, run), t, Take)
    requires Sum(Items, CloseTheorems.State(n, run).threads[t]) > 0
    ensures var s := CloseTheorems.State(n, run); BeginsWork(s, t, Do(s, t, Take))
  {}
}

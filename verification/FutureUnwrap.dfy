/** unwrap() on a Future<Future<...<T>>>: one callback moves inward level by level while the
    promises of the levels are resolved by anyone in any order. Each level has a thread that
    resolves it and one more thread calls unwrap; whoever comes second at a level runs the
    callback and carries it inward. Every load, compare-and-exchange and store is its own
    step. */
module FutureUnwrap {
  import opened Wrappers
  import opened FutureFlags
  import opened FutureChain

  /** What the promise of one level is resolved with. */
  datatype Level = Inner | Leaf(v: Payload) | Raises(e: Exn)

  /** Only the innermost level holds a plain value. */
  predicate Nested(levels: seq<Level>) {
    && levels != []
    && (forall i :: 0 <= i < |levels| - 1 ==> !levels[i].Leaf?)
    && !levels[|levels| - 1].Inner?
  }

  /** The innermost value or the first exception on the way in. */
  function Unwrapped(levels: seq<Level>): Outcome
    requires Nested(levels)
  {
    match levels[0]
    case Inner => Unwrapped(levels[1..])
    case Leaf(v) => Value(v)
    case Raises(e) => Exception(e)
  }

  /** The level at which the way in ends. */
  function Depth(levels: seq<Level>): (d: nat)
    requires Nested(levels)
    ensures d < |levels|
  {
    if levels[0].Inner? then 1 + Depth(levels[1..]) else 0
  }

  lemma {:induction false} DepthIs(levels: seq<Level>, k: nat)
    requires Nested(levels) && k <= Depth(levels)
    ensures k < |levels| && (levels[k].Inner? <==> k < Depth(levels))
    ensures k == Depth(levels) ==>
              Unwrapped(levels) == if levels[k].Leaf? then Value(levels[k].v) else Exception(levels[k].e)
  {
    if k > 0 { DepthIs(levels[1..], k - 1); }
  }

  // ---- The step system ----

  /** Thread k resolves level k and the last thread calls unwrap. sets counts the results
      given to the unwrapped future; at and holder are history: the level the callback has
      come to, and the thread that has it in hand. */
  datatype Sys = Sys(fs: seq<FutureState<Level>>, threads: seq<Pc<Level>>, final: Option<Outcome>, sets: nat,
                     at: nat, holder: Option<nat>)

  function Start(levels: seq<Level>, t: nat): Pc<Level> {
    if t < |levels| then Store(SetResult(t, levels[t])) else Store(SetCallback(0))
  }

  function Init(levels: seq<Level>): Sys {
    Sys.Sys(seq(|levels|, _ => FutureState(0, None, false)), seq(|levels| + 1, t requires 0 <= t => Start(levels, t)),
            None, 0, 0, Some(|levels|))
  }

  predicate Fits(levels: seq<Level>, s: Sys) {
    && |s.fs| == |levels| && |s.threads| == |levels| + 1
    && forall t :: 0 <= t < |s.threads| ==> s.threads[t].Idle? || s.threads[t].job.k < |levels|
  }

  predicate Enabled(s: Sys, t: nat) { t < |s.threads| && !s.threads[t].Idle? }

  function At(s: Sys, t: nat, pc: Pc<Level>): Sys
    requires t < |s.threads|
  {
    s.(threads := s.threads[t := pc])
  }

  /** futureReady of UnwrapperFutureCallback at level k. */
  function Unwrap(s: Sys, t: nat, k: nat): Sys
    requires t < |s.threads| && k < |s.fs|
  {
    match s.fs[k].result
    case None => At(s, t, Idle)
    case Some(Raises(e)) => At(s, t, Idle).(final := Some(Exception(e)), sets := s.sets + 1, holder := None)
    case Some(Leaf(v)) => At(s, t, Idle).(final := Some(Value(v)), sets := s.sets + 1, holder := None)
    case Some(Inner) =>
      if k + 1 < |s.fs| then At(s, t, Store(SetCallback(k + 1))).(at := k + 1) else At(s, t, Idle)
  }

  /** Whoever leaves the callback behind no longer has it; whoever is ready to run it does. */
  function Holder(s: Sys, t: nat, pc: Pc<Level>, pc': Pc<Level>): Option<nat>
    requires !pc.Idle?
  {
    if pc'.Ready? then Some(t) else if pc'.Idle? && pc.job.SetCallback? then None else s.holder
  }

  function Do(levels: seq<Level>, s: Sys, t: nat): Sys
    requires Fits(levels, s) && Enabled(s, t)
  {
    var pc := s.threads[t];
    if pc.Ready? then Unwrap(s, t, pc.job.k)
    else
      var (f', pc') := Bring(s.fs[pc.job.k], pc);
      At(s, t, pc').(fs := s.fs[pc.job.k := f'], holder := Holder(s, t, pc, pc'))
  }

  predicate Legal(levels: seq<Level>, s: Sys, run: seq<nat>)
    decreases |run|
  {
    run == [] || (Fits(levels, s) && Enabled(s, run[0]) && Legal(levels, Do(levels, s, run[0]), run[1..]))
  }

  function After(levels: seq<Level>, s: Sys, run: seq<nat>): Sys
    requires Legal(levels, s, run)
    decreases |run|
  {
    if run == [] then s else After(levels, Do(levels, s, run[0]), run[1..])
  }

  // ---- The invariant ----

  /** The result of level k has not been announced yet. */
  predicate Owes(s: Sys, k: nat)
    requires k < |s.threads|
  {
    var pc := s.threads[k];
    !pc.Idle? && !pc.Ready? && pc.job.SetResult?
  }

  predicate ResultOk(levels: seq<Level>, s: Sys, k: nat)
    requires k < |levels| == |s.fs| && |s.threads| == |levels| + 1
  {
    var pc, f := s.threads[k], s.fs[k];
    && f.flags <= HAS_BOTH
    && if Owes(s, k) then
         && pc.job == SetResult(k, levels[k]) && !HasResult(f)
         && (f.result == if pc.Store? then None else Some(levels[k]))
         && (pc.Both? ==> f.flags == HAS_CALLBACK)
       else f.result == Some(levels[k]) && HasResult(f)
  }

  /** The callback has been left at the levels it came through and is nowhere beyond. */
  predicate CallbackOk(s: Sys, k: nat)
    requires k < |s.fs| && |s.threads| == |s.fs| + 1
  {
    && (k < s.at ==> s.fs[k].callback && HasCallback(s.fs[k]) && !Owes(s, k))
    && (k > s.at ==> !s.fs[k].callback && !HasCallback(s.fs[k]))
  }

  /** The thread that has the callback in hand, on its way to f or ready to run it there. */
  predicate Carries(pc: Pc<Level>, at: nat, f: FutureState<Level>) {
    && !pc.Idle? && pc.job.k == at
    && (!pc.Ready? ==> pc.job.SetCallback? && (f.callback <==> !pc.Store?) && !HasCallback(f))
    && (pc.Both? ==> f.flags == HAS_RESULT)
    && (pc.Ready? ==> f.flags == HAS_BOTH && f.callback)
  }

  /** The callback is in one place: with a thread, waiting at a level, or done. */
  predicate HolderOk(s: Sys)
    requires s.at < |s.fs| && |s.threads| == |s.fs| + 1
  {
    match s.holder
    case Some(t) => s.final.None? && t < |s.threads| && Carries(s.threads[t], s.at, s.fs[s.at])
    case None => s.fs[s.at].callback && HasCallback(s.fs[s.at]) && (s.final.None? <==> Owes(s, s.at))
  }

  predicate ThreadOk(s: Sys, t: nat)
    requires t < |s.threads|
  {
    s.holder == Some(t) || s.threads[t].Idle? || (t < |s.threads| - 1 && Owes(s, t))
  }

  predicate Inv(levels: seq<Level>, s: Sys)
    requires Nested(levels)
  {
    && Fits(levels, s) && s.at <= Depth(levels)
    && (forall k :: 0 <= k < |levels| ==> ResultOk(levels, s, k))
    && (forall k :: 0 <= k < |levels| ==> CallbackOk(s, k))
    && (forall t :: 0 <= t < |s.threads| ==> ThreadOk(s, t))
    && HolderOk(s)
    && s.sets == (if s.final.Some? then 1 else 0)
    && (s.final.Some? ==> s.at == Depth(levels) && s.final.value == Unwrapped(levels))
  }

  lemma InvInit(levels: seq<Level>)
    requires Nested(levels)
    ensures Inv(levels, Init(levels))
  {}

  /** A thread that brings the result of its level. */
  lemma BringsResult(levels: seq<Level>, s: Sys, t: nat)
    requires Nested(levels) && Inv(levels, s) && t < |levels| && Owes(s, t)
    ensures Inv(levels, Do(levels, s, t))
  {
    var s' := Do(levels, s, t);
    assert ResultOk(levels, s, t) && CallbackOk(s, t);
    assert ResultOk(levels, s', t);
    forall k | 0 <= k < |levels|
      ensures ResultOk(levels, s', k) && CallbackOk(s', k)
    {
      assert ResultOk(levels, s, k) && CallbackOk(s, k);
    }
    forall u | 0 <= u < |s'.threads|
      ensures ThreadOk(s', u)
    {
      assert ThreadOk(s, u);
    }
  }

  /** The thread that has the callback in hand brings it to its level. */
  lemma BringsCallback(levels: seq<Level>, s: Sys, t: nat)
    requires Nested(levels) && Inv(levels, s) && s.holder == Some(t) && !s.threads[t].Ready?
    ensures Inv(levels, Do(levels, s, t))
  {
    var s' := Do(levels, s, t);
    assert ResultOk(levels, s, s.at) && CallbackOk(s, s.at);
    forall k | 0 <= k < |levels|
      ensures ResultOk(levels, s', k) && CallbackOk(s', k)
    {
      assert ResultOk(levels, s, k) && CallbackOk(s, k);
    }
    forall u | 0 <= u < |s'.threads|
      ensures ThreadOk(s', u)
    {
      assert ThreadOk(s, u);
    }
  }

  /** It runs the callback, with the result in place. */
  lemma RunsCallback(levels: seq<Level>, s: Sys, t: nat)
    requires Nested(levels) && Inv(levels, s) && s.holder == Some(t) && s.threads[t].Ready?
    ensures Inv(levels, Do(levels, s, t))
  {
    var s' := Do(levels, s, t);
    DepthIs(levels, s.at);
    assert ResultOk(levels, s, s.at) && CallbackOk(s, s.at);
    assert s.at + 1 < |levels| ==> CallbackOk(s, s.at + 1);
    forall k | 0 <= k < |levels|
      ensures ResultOk(levels, s', k) && CallbackOk(s', k)
    {
      assert ResultOk(levels, s, k) && CallbackOk(s, k);
    }
    forall u | 0 <= u < |s'.threads|
      ensures ThreadOk(s', u)
    {
      assert ThreadOk(s, u);
    }
  }

  lemma InvStep(levels: seq<Level>, s: Sys, t: nat)
    requires Nested(levels) && Inv(levels, s) && Enabled(s, t)
    ensures Inv(levels, Do(levels, s, t))
  {
    assert ThreadOk(s, t);
    if s.holder != Some(t) { BringsResult(levels, s, t); }
    else if s.threads[t].Ready? { RunsCallback(levels, s, t); }
    else { BringsCallback(levels, s, t); }
  }

  lemma {:induction false} InvAfter(levels: seq<Level>, s: Sys, run: seq<nat>)
    requires Nested(levels) && Inv(levels, s) && Legal(levels, s, run)
    ensures Inv(levels, After(levels, s, run))
    decreases |run|
  {
    if run != [] {
      InvStep(levels, s, run[0]);
      InvAfter(levels, Do(levels, s, run[0]), run[1..]);
    }
  }

  // ---- Over every schedule ----

  /** At any depth and in every interleaving the unwrapped future gets one result at most, the
      innermost value or the first exception, and whoever runs the callback at a level finds
      its result in place. */
  lemma UnwrapIsInnermost(levels: seq<Level>, run: seq<nat>)
    requires Nested(levels) && Legal(levels, Init(levels), run)
    ensures var s := After(levels, Init(levels), run);
      && |s.fs| == |levels|
      && s.sets == (if s.final.Some? then 1 else 0)
      && (s.final.Some? ==> s.final.value == Unwrapped(levels))
      && (s.final.Some? ==>
            && s.at < |levels| && !levels[s.at].Inner? && (forall i :: 0 <= i < s.at ==> levels[i].Inner?)
            && s.final.value == if levels[s.at].Leaf? then Value(levels[s.at].v) else Exception(levels[s.at].e))
      && (s.final.Some? ==> forall i :: 0 <= i <= Depth(levels) ==> s.fs[i].result == Some(levels[i]))
      && (forall t :: 0 <= t < |s.threads| && s.threads[t].Ready? ==>
            s.threads[t].job.k < |levels| && s.fs[s.threads[t].job.k].result == Some(levels[s.threads[t].job.k]))
  {
    InvInit(levels);
    InvAfter(levels, Init(levels), run);
    var s := After(levels, Init(levels), run);
    DepthIs(levels, s.at);
    forall i | 0 <= i < s.at
      ensures levels[i].Inner?
    {
      DepthIs(levels, i);
    }
    forall i | 0 <= i <= Depth(levels) && s.final.Some?
      ensures s.fs[i].result == Some(levels[i])
    {
      assert ResultOk(levels, s, i) && CallbackOk(s, i);
    }
    forall t | 0 <= t < |s.threads| && s.threads[t].Ready?
      ensures s.threads[t].job.k < |levels| && s.fs[s.threads[t].job.k].result == Some(levels[s.threads[t].job.k])
    {
      assert ThreadOk(s, t) && ResultOk(levels, s, s.at);
    }
  }

  /** Every thread has finished or not begun. */
  predicate Resting(levels: seq<Level>, s: Sys) {
    forall t :: 0 <= t < |s.threads| ==> s.threads[t].Idle? || s.threads[t] == Start(levels, t)
  }

  /** Whenever no call is under way, the unwrapped future has its result exactly when unwrap
      has been called and every level up to the end of the way in has been resolved. */
  lemma UnwrapCompletes(levels: seq<Level>, run: seq<nat>)
    requires Nested(levels) && Legal(levels, Init(levels), run)
    requires Resting(levels, After(levels, Init(levels), run))
    ensures var s := After(levels, Init(levels), run);
      && |s.threads| == |levels| + 1
      && (s.final.Some? <==> s.threads[|levels|].Idle? && forall i :: 0 <= i <= Depth(levels) ==> s.threads[i].Idle?)
  {
    InvInit(levels);
    InvAfter(levels, Init(levels), run);
    var s := After(levels, Init(levels), run);
    assert ThreadOk(s, |levels|);
    if s.final.Some? {
      forall i | 0 <= i <= Depth(levels)
        ensures s.threads[i].Idle?
      {
        assert ThreadOk(s, i) && CallbackOk(s, i);
      }
    } else if s.holder.Some? {
      assert s.threads[s.holder.value] == Start(levels, s.holder.value);
    }
  }
}

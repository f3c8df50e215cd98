/** A chain of futures built with then and fail, without an AOContext: one thread attaches
    the stages, another resolves the first promise, and they meet at each FutureState
    through its two flags. Every load, compare-and-exchange and store is its own step. */
module FutureChain {
  import opened Wrappers
  import opened FutureFlags

  type Payload(!new)
  type Error(!new)

  datatype Exn = AsyncOperationWasCancelled | Thrown(error: Error)
  datatype Outcome = Value(v: Payload) | Exception(e: Exn)

  /** A function that returns normally yields a Value, one that throws an Exception. */
  datatype Stage = Then(fn: Payload -> Outcome) | Fail(handler: Exn -> Outcome)

  // ---- The sequential meaning of a chain ----

  /** futureReady of FutureThenCallback and FutureFailCallback. */
  function StageResult(stage: Stage, r: Outcome, cancelled: bool): Outcome {
    match stage
    case Then(fn) =>
      if r.Exception? then r
      else if cancelled then Exception(AsyncOperationWasCancelled)
      else fn(r.v)
    case Fail(handler) => if r.Value? then r else handler(r.e)
  }

  /** Whether the stage's function is called. */
  predicate Runs(stage: Stage, r: Outcome, cancelled: bool) {
    if stage.Then? then r.Value? && !cancelled else r.Exception?
  }

  /** The result after k stages when the stages from cut on see the cancel flag set. */
  function Fold(stages: seq<Stage>, r: Outcome, cut: nat, k: nat): Outcome
    requires k <= |stages|
  {
    if k == 0 then r else StageResult(stages[k - 1], Fold(stages, r, cut, k - 1), cut <= k - 1)
  }

  // ---- The step system ----

  /** next is the stage to attach next. calls counts the calls of each stage's function and
      ready those of futureReady; front and cut are history: the future whose result is
      current, and the first stage that saw the cancel flag. */
  datatype Sys = Sys(fs: seq<FutureState<Outcome>>, resolver: Pc<Outcome>, attacher: Pc<Outcome>, next: nat,
                     cancelled: bool, calls: seq<nat>, ready: seq<nat>, front: nat, cut: nat)

  datatype Event = Resolver | Attacher | Cancel

  predicate Fits(stages: seq<Stage>, s: Sys) {
    && |s.fs| == |stages| + 1 && |s.calls| == |s.ready| == |stages|
    && s.next <= |stages| && s.front <= |stages|
    && PcFits(stages, s.resolver) && PcFits(stages, s.attacher)
  }

  predicate PcFits(stages: seq<Stage>, pc: Pc<Outcome>) {
    pc.Idle? || (if pc.job.SetResult? then pc.job.k <= |stages| else pc.job.k < |stages|)
  }

  function Init(stages: seq<Stage>, r: Outcome): Sys {
    Sys(seq(|stages| + 1, _ => FutureState(0, None, false)), Store(SetResult(0, r)), Idle, 0, false,
        seq(|stages|, _ => 0), seq(|stages|, _ => 0), 0, |stages|)
  }

  predicate Enabled(stages: seq<Stage>, s: Sys, e: Event) {
    match e
    case Resolver => !s.resolver.Idle?
    case Attacher => !s.attacher.Idle? || s.next < |stages|
    case Cancel => true
  }

  /** One atomic step of a thread at pc: the shared state and the thread's next position. */
  function Advance(stages: seq<Stage>, s: Sys, pc: Pc<Outcome>): (Sys, Pc<Outcome>)
    requires Fits(stages, s) && PcFits(stages, pc) && !pc.Idle?
  {
    var k := pc.job.k;
    var f := s.fs[k];
    if pc.Ready? then if k < |stages| && f.result.Some? then Fire(stages, s, k) else (s, Idle)
    else
      var (f', pc') := Bring(f, pc);
      (s.(fs := s.fs[k := f']), pc')
  }

  /** The callback of future k: look at the result and the cancel flag, run the stage, and
      go on to set the result of the next future. */
  function Fire(stages: seq<Stage>, s: Sys, k: nat): (Sys, Pc<Outcome>)
    requires Fits(stages, s) && k < |stages| && s.fs[k].result.Some?
  {
    var r := s.fs[k].result.value;
    (s.(calls := s.calls[k := s.calls[k] + (if Runs(stages[k], r, s.cancelled) then 1 else 0)],
        ready := s.ready[k := s.ready[k] + 1],
        front := k + 1, cut := if s.cancelled && k < s.cut then k else s.cut),
     Store(SetResult(k + 1, StageResult(stages[k], r, s.cancelled))))
  }

  function Do(stages: seq<Stage>, s: Sys, e: Event): Sys
    requires Fits(stages, s) && Enabled(stages, s, e)
  {
    match e
    case Cancel => s.(cancelled := true)
    case Resolver => var (s', pc) := Advance(stages, s, s.resolver); s'.(resolver := pc)
    case Attacher =>
      if s.attacher.Idle? then s.(attacher := Store(SetCallback(s.next)), next := s.next + 1)
      else var (s', pc) := Advance(stages, s, s.attacher); s'.(attacher := pc)
  }

  predicate Legal(stages: seq<Stage>, s: Sys, run: seq<Event>)
    decreases |run|
  {
    run == [] ||
    (Fits(stages, s) && Enabled(stages, s, run[0]) && Legal(stages, Do(stages, s, run[0]), run[1..]))
  }

  function After(stages: seq<Stage>, s: Sys, run: seq<Event>): Sys
    requires Legal(stages, s, run)
    decreases |run|
  {
    if run == [] then s else After(stages, Do(stages, s, run[0]), run[1..])
  }

  // ---- The invariant ----

  /** The thread at pc is producing or passing on the current result. */
  predicate Carries(pc: Pc<Outcome>) { pc.Ready? || (!pc.Idle? && pc.job.SetResult?) }

  ghost predicate CarryOk(stages: seq<Stage>, r: Outcome, s: Sys, pc: Pc<Outcome>)
    requires Fits(stages, s)
  {
    var f := s.fs[s.front];
    && !pc.Idle? && pc.job.k == s.front
    && (pc.Ready? ==> f.flags == HAS_BOTH && f.result.Some? && f.callback && s.front < |stages|)
    && (!pc.Ready? ==> !HasResult(f))
    && (pc.Store? ==> f.result.None? && pc.job.SetResult? && pc.job.r == Fold(stages, r, s.cut, s.front))
    && (pc.Load? || pc.Cas? ==> f.result.Some?)
    && (pc.Both? ==> f.result.Some? && f.flags == HAS_CALLBACK)
  }

  ghost predicate AttachOk(stages: seq<Stage>, s: Sys)
    requires Fits(stages, s)
  {
    var pc := s.attacher;
    && (forall k :: s.next <= k < |s.fs| ==> !s.fs[k].callback && !HasCallback(s.fs[k]))
    && (forall k :: 0 <= k < Attached(s) ==> s.fs[k].callback && HasCallback(s.fs[k]))
    && (!pc.Idle? && pc.job.SetResult? ==> pc.job.k == s.next && !pc.Both? && !pc.Ready?)
    && (!pc.Idle? && pc.job.SetCallback? ==>
          && pc.job.k + 1 == s.next
          && (pc.Store? ==> !s.fs[pc.job.k].callback && !HasCallback(s.fs[pc.job.k]))
          && (pc.Load? || pc.Cas? ==> s.fs[pc.job.k].callback && !HasCallback(s.fs[pc.job.k]))
          && (pc.Both? ==> s.fs[pc.job.k].callback)
          && (pc.Both? ==> s.fs[pc.job.k].flags == HAS_RESULT))
  }

  /** How many callbacks are in place for good. */
  function Attached(s: Sys): nat {
    if !s.attacher.Idle? && s.attacher.job.SetCallback? && s.next > 0 && !s.attacher.Ready? then s.next - 1 else s.next
  }

  /** Flags and results around the current future. */
  ghost predicate FlagsOk(s: Sys) {
    && (forall k :: 0 <= k < |s.fs| ==> s.fs[k].flags <= HAS_BOTH)
    && (forall k :: 0 <= k < |s.fs| && k < s.front ==> s.fs[k].flags == HAS_BOTH && s.fs[k].result.Some?)
    && (forall k :: s.front < k < |s.fs| ==> s.fs[k].result.None? && !HasResult(s.fs[k]))
  }

  ghost predicate ValuesOk(stages: seq<Stage>, r: Outcome, s: Sys)
    requires Fits(stages, s)
  {
    forall k :: 0 <= k < |s.fs| && s.fs[k].result.Some? ==>
      s.fs[k].result.value == Fold(stages, r, s.cut, k)
  }

  ghost predicate CallsOk(stages: seq<Stage>, r: Outcome, s: Sys)
    requires Fits(stages, s)
  {
    && (forall k :: 0 <= k < |stages| ==> s.ready[k] == (if k < s.front then 1 else 0))
    && (forall k {:trigger s.calls[k]} :: 0 <= k < |stages| ==>
          s.calls[k] == if k < s.front && Runs(stages[k], Fold(stages, r, s.cut, k), s.cut <= k) then 1 else 0)
    && (s.cut == |stages| || (s.cut < s.front && s.cancelled))
  }

  ghost predicate Inv(stages: seq<Stage>, r: Outcome, s: Sys) {
    && Fits(stages, s) && FlagsOk(s) && ValuesOk(stages, r, s) && CallsOk(stages, r, s) && AttachOk(stages, s)
    && (s.resolver.Idle? || (Carries(s.resolver) && s.resolver.job.SetResult?))
    && !(Carries(s.resolver) && Carries(s.attacher))
    && (Carries(s.resolver) ==> CarryOk(stages, r, s, s.resolver))
    && (Carries(s.attacher) ==> CarryOk(stages, r, s, s.attacher))
    && (!Carries(s.resolver) && !Carries(s.attacher) ==>
          s.fs[s.front].flags == HAS_RESULT && s.fs[s.front].result.Some?)
  }

  lemma {:induction false} FoldCut(stages: seq<Stage>, r: Outcome, cut: nat, cut': nat, k: nat)
    requires k <= |stages| && k <= cut && k <= cut'
    ensures Fold(stages, r, cut, k) == Fold(stages, r, cut', k)
  {
    if k > 0 { FoldCut(stages, r, cut, cut', k - 1); }
  }

  lemma InvInit(stages: seq<Stage>, r: Outcome)
    ensures Inv(stages, r, Init(stages, r))
  {}

  /** The facts a thread at pc relies on when it takes its next step. */
  ghost predicate Local(stages: seq<Stage>, r: Outcome, s: Sys, pc: Pc<Outcome>)
    requires Fits(stages, s)
  {
    && !pc.Idle? && PcFits(stages, pc)
    && (Carries(pc) ==> CarryOk(stages, r, s, pc))
    && (!Carries(pc) && pc.Both? ==> s.fs[pc.job.k].flags == HAS_RESULT)
    && (!Carries(pc) && pc.Both? ==> s.fs[pc.job.k].result.Some?)
    && (!Carries(pc) ==> pc.job.k >= s.front)
    && (!Carries(pc) && pc.Both? ==> pc.job.k == s.front)
  }

  lemma StepFits(stages: seq<Stage>, r: Outcome, s: Sys, pc: Pc<Outcome>)
    requires Fits(stages, s) && Local(stages, r, s, pc)
    ensures var (s', pc') := Advance(stages, s, pc);
            Fits(stages, s') && PcFits(stages, pc') && s'.next == s.next
            && s'.attacher == s.attacher && s'.resolver == s.resolver && s'.cancelled == s.cancelled
  {
    if pc.Ready? { return; }
  }

  lemma StepFlags(stages: seq<Stage>, r: Outcome, s: Sys, pc: Pc<Outcome>)
    requires Fits(stages, s) && Local(stages, r, s, pc) && FlagsOk(s) && !pc.Ready?
    ensures FlagsOk(Advance(stages, s, pc).0)
  {
    if pc.Store? { return; }
    if pc.Load? { return; }
    if pc.Cas? { return; }
  }

  lemma StepValues(stages: seq<Stage>, r: Outcome, s: Sys, pc: Pc<Outcome>)
    requires Fits(stages, s) && Local(stages, r, s, pc) && ValuesOk(stages, r, s) && !pc.Ready?
    ensures Fits(stages, Advance(stages, s, pc).0) && ValuesOk(stages, r, Advance(stages, s, pc).0)
  {
    if pc.Store? { return; }
    if pc.Load? { return; }
  }

  /** Looking at the cancel flag now fixes what the later stages see, not what is past. */
  lemma FireCut(stages: seq<Stage>, r: Outcome, s: Sys, k: nat, j: nat)
    requires Fits(stages, s) && k == s.front < |stages| && s.fs[k].result.Some? && CallsOk(stages, r, s) && j <= k
    ensures Fold(stages, r, s.cut, j) == Fold(stages, r, Fire(stages, s, k).0.cut, j)
    ensures j < k ==> (s.cut <= j <==> Fire(stages, s, k).0.cut <= j)
  {
    if Fire(stages, s, k).0.cut != s.cut { FoldCut(stages, r, s.cut, k, j); }
  }

  lemma FireValues(stages: seq<Stage>, r: Outcome, s: Sys, k: nat)
    requires Fits(stages, s) && FlagsOk(s) && ValuesOk(stages, r, s) && CallsOk(stages, r, s)
    requires k == s.front < |stages| && s.fs[k].result.Some?
    ensures Fits(stages, Fire(stages, s, k).0) && ValuesOk(stages, r, Fire(stages, s, k).0)
  {
    var s' := Fire(stages, s, k).0;
    forall j | 0 <= j < |s'.fs| && s'.fs[j].result.Some?
      ensures s'.fs[j].result.value == Fold(stages, r, s'.cut, j)
    {
      FireCut(stages, r, s, k, j);
    }
  }

  lemma FireCalls(stages: seq<Stage>, r: Outcome, s: Sys, k: nat)
    requires Fits(stages, s) && FlagsOk(s) && ValuesOk(stages, r, s) && CallsOk(stages, r, s)
    requires k == s.front < |stages| && s.fs[k].result.Some?
    ensures Fits(stages, Fire(stages, s, k).0) && CallsOk(stages, r, Fire(stages, s, k).0)
  {
    var s' := Fire(stages, s, k).0;
    forall j | 0 <= j < |stages|
      ensures s'.calls[j] == if j < s'.front && Runs(stages[j], Fold(stages, r, s'.cut, j), s'.cut <= j) then 1 else 0
    {
      if j <= k { FireCut(stages, r, s, k, j); }
    }
  }

  lemma FireNext(stages: seq<Stage>, r: Outcome, s: Sys, k: nat)
    requires Fits(stages, s) && ValuesOk(stages, r, s) && CallsOk(stages, r, s)
    requires k == s.front < |stages| && s.fs[k].result.Some?
    ensures var (s', pc') := Fire(stages, s, k);
            pc' == Store(SetResult(k + 1, Fold(stages, r, s'.cut, k + 1)))
  {
    FireCut(stages, r, s, k, k);
  }

  lemma FireFlags(stages: seq<Stage>, s: Sys, k: nat)
    requires Fits(stages, s) && FlagsOk(s) && k == s.front < |stages| && s.fs[k].result.Some?
    requires s.fs[k].flags == HAS_BOTH
    ensures FlagsOk(Fire(stages, s, k).0)
  {}

  lemma StepFire(stages: seq<Stage>, r: Outcome, s: Sys, pc: Pc<Outcome>)
    requires Fits(stages, s) && pc.Ready? && CarryOk(stages, r, s, pc)
    requires FlagsOk(s) && ValuesOk(stages, r, s) && CallsOk(stages, r, s)
    ensures var (s', pc') := Advance(stages, s, pc);
            && Fits(stages, s') && FlagsOk(s') && ValuesOk(stages, r, s') && CallsOk(stages, r, s')
            && s'.fs == s.fs && s'.front == s.front + 1 && s'.next == s.next
            && s'.attacher == s.attacher && s'.resolver == s.resolver
            && pc' == Store(SetResult(s'.front, Fold(stages, r, s'.cut, s'.front)))
  {
    FireFlags(stages, s, s.front);
    FireValues(stages, r, s, s.front);
    FireCalls(stages, r, s, s.front);
    FireNext(stages, r, s, s.front);
  }

  lemma FireCarries(stages: seq<Stage>, r: Outcome, s: Sys, pc: Pc<Outcome>)
    requires Fits(stages, s) && pc.Ready? && CarryOk(stages, r, s, pc)
    requires FlagsOk(s) && ValuesOk(stages, r, s) && CallsOk(stages, r, s)
    ensures var (s', pc') := Advance(stages, s, pc);
            Fits(stages, s') && Carries(pc') && pc'.job.SetResult? && CarryOk(stages, r, s', pc')
  {
    StepFire(stages, r, s, pc);
  }

  lemma Kept(stages: seq<Stage>, r: Outcome, s: Sys, pc: Pc<Outcome>)
    requires Inv(stages, r, s) && Local(stages, r, s, pc)
    ensures var s' := Advance(stages, s, pc).0;
            Fits(stages, s') && FlagsOk(s') && ValuesOk(stages, r, s') && CallsOk(stages, r, s')
  {
    StepFits(stages, r, s, pc);
    if pc.Ready? {
      StepFire(stages, r, s, pc);
    } else {
      StepFlags(stages, r, s, pc);
      StepValues(stages, r, s, pc);
    }
  }

  // ---- The resolving thread ----

  lemma ResolverCarries(stages: seq<Stage>, r: Outcome, s: Sys)
    requires Inv(stages, r, s) && !s.resolver.Idle?
    ensures var (s', pc') := Advance(stages, s, s.resolver);
            && Fits(stages, s')
            && (pc'.Idle? || (Carries(pc') && pc'.job.SetResult? && CarryOk(stages, r, s', pc')))
            && (pc'.Idle? ==> s'.fs[s'.front].flags == HAS_RESULT && s'.fs[s'.front].result.Some?)
  {
    var pc := s.resolver;
    if pc.Ready? { FireCarries(stages, r, s, pc); return; }
    SetCarries(stages, r, s, pc);
  }

  /** The steps of setResult before the callback. */
  lemma SetCarries(stages: seq<Stage>, r: Outcome, s: Sys, pc: Pc<Outcome>)
    requires Fits(stages, s) && FlagsOk(s) && AttachOk(stages, s)
    requires !pc.Ready? && CarryOk(stages, r, s, pc) && pc.job.SetResult?
    ensures var (s', pc') := Advance(stages, s, pc);
            && Fits(stages, s')
            && (pc'.Idle? || (Carries(pc') && pc'.job.SetResult? && CarryOk(stages, r, s', pc')))
            && (pc'.Idle? ==> s'.fs[s'.front].flags == HAS_RESULT && s'.fs[s'.front].result.Some?)
  {
    if pc.Store? { return; }
    if pc.Load? { return; }
    if pc.Cas? { return; }
  }

  lemma ResolverAttach(stages: seq<Stage>, r: Outcome, s: Sys)
    requires Inv(stages, r, s) && !s.resolver.Idle?
    ensures var s' := Advance(stages, s, s.resolver).0;
            Fits(stages, s') && AttachOk(stages, s')
  {
    var pc := s.resolver;
    if pc.Ready? { StepFire(stages, r, s, pc); return; }
    if pc.Store? { return; }
    if pc.Load? { return; }
    if pc.Cas? { return; }
  }

  lemma InvResolver(stages: seq<Stage>, r: Outcome, s: Sys)
    requires Inv(stages, r, s) && Enabled(stages, s, Resolver)
    ensures Inv(stages, r, Do(stages, s, Resolver))
  {
    StepFits(stages, r, s, s.resolver);
    Kept(stages, r, s, s.resolver);
    ResolverCarries(stages, r, s);
    ResolverAttach(stages, r, s);
    var (s', pc') := Advance(stages, s, s.resolver);
    Moved(stages, r, s', pc', s'.attacher, s'.next);
  }

  /** The positions of the threads do not matter to the flags and the results. */
  lemma Moved(stages: seq<Stage>, r: Outcome, s: Sys, resolver: Pc<Outcome>, attacher: Pc<Outcome>, next: nat)
    requires Fits(stages, s) && FlagsOk(s) && ValuesOk(stages, r, s) && CallsOk(stages, r, s)
    ensures var s' := s.(resolver := resolver, attacher := attacher, next := next);
            Fits(stages, s') ==> FlagsOk(s') && ValuesOk(stages, r, s') && CallsOk(stages, r, s')
  {}

  // ---- The attaching thread ----

  lemma AttacherFires(stages: seq<Stage>, r: Outcome, s: Sys)
    requires Inv(stages, r, s) && s.attacher.Ready?
    ensures var (s', pc') := Advance(stages, s, s.attacher);
            Fits(stages, s'.(attacher := pc')) && AttachOk(stages, s'.(attacher := pc'))
  {
    StepFire(stages, r, s, s.attacher);
  }

  lemma AttacherStores(stages: seq<Stage>, r: Outcome, s: Sys)
    requires Inv(stages, r, s) && s.attacher.Store?
    ensures var (s', pc') := Advance(stages, s, s.attacher);
            Fits(stages, s'.(attacher := pc')) && AttachOk(stages, s'.(attacher := pc'))
  {}

  lemma AttacherStep(stages: seq<Stage>, r: Outcome, s: Sys)
    requires Inv(stages, r, s) && !s.attacher.Idle?
    ensures var (s', pc') := Advance(stages, s, s.attacher);
            Fits(stages, s'.(attacher := pc')) && AttachOk(stages, s'.(attacher := pc'))
  {
    var pc := s.attacher;
    if pc.Ready? { AttacherFires(stages, r, s); return; }
    if pc.Store? { AttacherStores(stages, r, s); return; }
    if pc.Load? { return; }
    if pc.Cas? { return; }
  }

  lemma AttacherCarries(stages: seq<Stage>, r: Outcome, s: Sys)
    requires Inv(stages, r, s) && !s.attacher.Idle?
    ensures var (s', pc') := Advance(stages, s, s.attacher);
            && Fits(stages, s')
            && (Carries(pc') ==> !Carries(s.resolver) && CarryOk(stages, r, s', pc'))
            && (Carries(s.resolver) ==> CarryOk(stages, r, s', s.resolver))
            && (!Carries(pc') && !Carries(s.resolver) ==>
                  s'.fs[s'.front].flags == HAS_RESULT && s'.fs[s'.front].result.Some?)
  {
    var pc := s.attacher;
    if pc.Ready? { StepFire(stages, r, s, pc); return; }
    if pc.Store? { return; }
    if pc.Load? { return; }
    if pc.Cas? { return; }
  }

  lemma AttacherLocal(stages: seq<Stage>, r: Outcome, s: Sys)
    requires Inv(stages, r, s) && !s.attacher.Idle?
    ensures Local(stages, r, s, s.attacher)
  {}

  lemma AttacherMoves(stages: seq<Stage>, r: Outcome, s: Sys)
    requires Inv(stages, r, s) && !s.attacher.Idle?
    ensures Inv(stages, r, Do(stages, s, Attacher))
  {
    AttacherLocal(stages, r, s);
    StepFits(stages, r, s, s.attacher);
    Kept(stages, r, s, s.attacher);
    AttacherStep(stages, r, s);
    AttacherCarries(stages, r, s);
    var (s', pc') := Advance(stages, s, s.attacher);
    Moved(stages, r, s', s'.resolver, pc', s'.next);
  }

  lemma InvAttacher(stages: seq<Stage>, r: Outcome, s: Sys)
    requires Inv(stages, r, s) && Enabled(stages, s, Attacher)
    ensures Inv(stages, r, Do(stages, s, Attacher))
  {
    if s.attacher.Idle? {
      Moved(stages, r, s, s.resolver, Store(SetCallback(s.next)), s.next + 1);
      return;
    }
    AttacherMoves(stages, r, s);
  }

  lemma InvStep(stages: seq<Stage>, r: Outcome, s: Sys, e: Event)
    requires Inv(stages, r, s) && Enabled(stages, s, e)
    ensures Inv(stages, r, Do(stages, s, e))
  {
    match e {
      case Resolver => InvResolver(stages, r, s);
      case Attacher => InvAttacher(stages, r, s);
      case Cancel =>
    }
  }

  lemma {:induction false} InvAfter(stages: seq<Stage>, r: Outcome, s: Sys, run: seq<Event>)
    requires Inv(stages, r, s) && Legal(stages, s, run)
    ensures Inv(stages, r, After(stages, s, run))
    decreases |run|
  {
    if run != [] {
      InvStep(stages, r, s, run[0]);
      InvAfter(stages, r, Do(stages, s, run[0]), run[1..]);
    }
  }

  // ---- What the chain promises ----

  /** In every interleaving a stored result is the sequential fold of its stages, each stage
      function has been called once or not at all, as the fold says, and futureReady of each
      future has run at most once. */
  lemma ChainIsFold(stages: seq<Stage>, r: Outcome, run: seq<Event>, k: nat)
    requires Legal(stages, Init(stages, r), run) && k <= |stages|
    ensures var s := After(stages, Init(stages, r), run);
            && |s.fs| == |stages| + 1 && |s.calls| == |s.ready| == |stages|
            && (s.fs[k].result.Some? ==> s.fs[k].result.value == Fold(stages, r, s.cut, k))
            && (k < |stages| ==> s.ready[k] <= 1 && s.calls[k] <= s.ready[k])
            && (k < |stages| && s.ready[k] == 1 ==>
                  (s.calls[k] == 1 <==> Runs(stages[k], Fold(stages, r, s.cut, k), s.cut <= k)))
            && (!s.cancelled ==> s.cut == |stages|)
  {
    InvInit(stages, r);
    InvAfter(stages, r, Init(stages, r), run);
    var s := After(stages, Init(stages, r), run);
    assert k < |stages| ==> s.ready[k] == if k < s.front then 1 else 0;
  }

  // ---- What a stage does with what it finds ----

  /** From the result before to the result after a stage whose function was called or not,
      with the cancel flag set by now or not. */
  predicate Passes(stage: Stage, before: Outcome, called: bool, cancelled: bool, after: Outcome) {
    match stage
    case Then(fn) =>
      && (before.Exception? ==> !called && after == before)
      && (before.Value? && called ==> after == fn(before.v))
      && (before.Value? && !called ==> cancelled && after == Exception(AsyncOperationWasCancelled))
    case Fail(handler) =>
      && (before.Value? ==> !called && after == before)
      && (before.Exception? ==> called && after == handler(before.e))
  }

  /** Wherever a result has come out of a stage, one had come in: a then calls its function
      with a value, unless the cancel flag was set, and lets an exception by; a fail calls its
      handler with an exception and lets a value by; what the function returns or throws is
      the result. */
  lemma StagePasses(stages: seq<Stage>, r: Outcome, run: seq<Event>, k: nat)
    requires Legal(stages, Init(stages, r), run) && k < |stages|
    ensures var s := After(stages, Init(stages, r), run);
      && |s.fs| == |stages| + 1 && |s.calls| == |stages|
      && (s.fs[k + 1].result.Some? ==>
            && s.fs[k].result.Some?
            && Passes(stages[k], s.fs[k].result.value, s.calls[k] == 1, s.cancelled, s.fs[k + 1].result.value))
      && (s.fs[0].result.Some? ==> s.fs[0].result.value == r)
  {
    InvInit(stages, r);
    InvAfter(stages, r, Init(stages, r), run);
    var s := After(stages, Init(stages, r), run);
    assert s.calls[k] == if k < s.front && Runs(stages[k], Fold(stages, r, s.cut, k), s.cut <= k) then 1 else 0;
  }

  /** The stages from i to k are of the kind that lets the outcome by. */
  predicate LetBy(stages: seq<Stage>, i: nat, k: nat, r: Outcome) {
    i <= k <= |stages| && forall m :: i <= m < k ==> if r.Value? then stages[m].Fail? else stages[m].Then?
  }

  /** A value skips any run of fails and an exception any run of thens: it comes out as it
      went in, and none of their functions is called. So the first then gets that very value
      and the first fail that very exception, and what no stage takes is the result of the
      chain. */
  lemma {:induction false} Skips(stages: seq<Stage>, r: Outcome, run: seq<Event>, i: nat, k: nat)
    requires Legal(stages, Init(stages, r), run) && i <= k <= |stages|
    requires var s := After(stages, Init(stages, r), run);
      |s.fs| == |stages| + 1 && |s.calls| == |stages| && s.fs[i].result.Some? && s.fs[k].result.Some?
    requires LetBy(stages, i, k, After(stages, Init(stages, r), run).fs[i].result.value)
    ensures var s := After(stages, Init(stages, r), run);
      && s.fs[k].result == s.fs[i].result
      && forall m :: i <= m < k ==> s.calls[m] != 1
    decreases k
  {
    if i < k {
      StagePasses(stages, r, run, k - 1);
      Skips(stages, r, run, i, k - 1);
    }
  }

  /** A function is called only where there is something for it, and with the cancel flag
      unset all along exactly there. */
  lemma CalledIff(stages: seq<Stage>, r: Outcome, run: seq<Event>, k: nat)
    requires Legal(stages, Init(stages, r), run) && k < |stages|
    ensures var s := After(stages, Init(stages, r), run);
      && |s.fs| == |stages| + 1 && |s.calls| == |s.ready| == |stages|
      && (s.calls[k] == 1 ==> s.fs[k].result.Some? && (stages[k].Then? <==> s.fs[k].result.value.Value?))
      && (s.ready[k] == 1 && !s.cancelled ==>
            s.fs[k].result.Some? && (s.calls[k] == 1 <==> (stages[k].Then? <==> s.fs[k].result.value.Value?)))
      && s.calls[k] <= s.ready[k] <= 1
  {
    InvInit(stages, r);
    InvAfter(stages, r, Init(stages, r), run);
    var s := After(stages, Init(stages, r), run);
    assert s.calls[k] == if k < s.front && Runs(stages[k], Fold(stages, r, s.cut, k), s.cut <= k) then 1 else 0;
    assert s.ready[k] == if k < s.front then 1 else 0;
  }

  /** When neither thread has anything left to do, every stage has been passed through and
      the last future holds the fold of the whole chain. */
  lemma ChainCompletes(stages: seq<Stage>, r: Outcome, run: seq<Event>)
    requires Legal(stages, Init(stages, r), run)
    ensures var s := After(stages, Init(stages, r), run);
            Fits(stages, s) &&
            (!Enabled(stages, s, Resolver) && !Enabled(stages, s, Attacher) ==>
               && s.fs[|stages|].result == Some(Fold(stages, r, s.cut, |stages|))
               && HasResult(s.fs[|stages|])
               && (forall k :: 0 <= k < |stages| ==> s.ready[k] == 1))
  {
    InvInit(stages, r);
    InvAfter(stages, r, Init(stages, r), run);
    var s := After(stages, Init(stages, r), run);
    if !Enabled(stages, s, Resolver) && !Enabled(stages, s, Attacher) { Quiescent(stages, r, s); }
  }

  /** A result that waits for a callback that is already there would have been passed on. */
  lemma Quiescent(stages: seq<Stage>, r: Outcome, s: Sys)
    requires Inv(stages, r, s) && s.resolver.Idle? && s.attacher.Idle? && s.next == |stages|
    ensures s.front == |stages|
  {}

  /** What the flags of future k say, and where a thread at work on it may be. */
  ghost predicate Meets(stages: seq<Stage>, s: Sys, k: nat, pc: Pc<Outcome>) {
    && k < |s.fs| && |s.ready| == |stages|
    && (HasResult(s.fs[k]) ==> s.fs[k].result.Some?)
    && (HasCallback(s.fs[k]) ==> s.fs[k].callback)
    && (pc.Store? || pc.Load? ==> s.fs[k].flags == 0 || s.fs[k].flags + FlagOf(pc.job) == HAS_BOTH)
    && (pc.Store? && pc.job.SetResult? ==> s.fs[k].result.None?)
    && (pc.Store? && pc.job.SetCallback? ==> !s.fs[k].callback)
    && (pc.Both? ==> s.fs[k].flags + FlagOf(pc.job) == HAS_BOTH && s.fs[k].result.Some? && s.fs[k].callback)
    && (pc.Ready? ==> s.fs[k].flags == HAS_BOTH && s.fs[k].result.Some? && s.fs[k].callback
                      && k < |stages| && s.ready[k] == 0)
  }

  lemma ResolverMeets(stages: seq<Stage>, r: Outcome, s: Sys)
    requires Inv(stages, r, s) && !s.resolver.Idle?
    ensures Meets(stages, s, s.resolver.job.k, s.resolver)
  {}

  lemma AttacherMeets(stages: seq<Stage>, r: Outcome, s: Sys)
    requires Inv(stages, r, s) && !s.attacher.Idle?
    ensures Meets(stages, s, s.attacher.job.k, s.attacher)
  {
    var k := s.attacher.job.k;
    if s.attacher.Store? { return; }
    if s.attacher.Load? { return; }
    if s.attacher.Cas? { return; }
  }

  /** hasResult and hasCallback tell the truth of future k. */
  predicate Truthful(f: FutureState<Outcome>) {
    (HasResult(f) ==> f.result.Some?) && (HasCallback(f) ==> f.callback)
  }

  lemma AllTruthful(stages: seq<Stage>, r: Outcome, s: Sys, k: nat)
    requires Inv(stages, r, s) && k < |s.fs|
    ensures Truthful(s.fs[k])
  {
    ResultTruthful(stages, r, s, k);
    CallbackTruthful(stages, r, s, k);
  }

  lemma ResultTruthful(stages: seq<Stage>, r: Outcome, s: Sys, k: nat)
    requires Inv(stages, r, s) && k < |s.fs|
    ensures HasResult(s.fs[k]) ==> s.fs[k].result.Some?
  {
    if k != s.front { return; }
    if Carries(s.resolver) { return; }
    if Carries(s.attacher) { return; }
  }

  lemma CallbackTruthful(stages: seq<Stage>, r: Outcome, s: Sys, k: nat)
    requires Inv(stages, r, s) && k < |s.fs|
    ensures HasCallback(s.fs[k]) ==> s.fs[k].callback
  {
    if k < Attached(s) { return; }
    if k >= s.next { return; }
    if s.attacher.Store? { return; }
    if s.attacher.Load? { return; }
    if s.attacher.Cas? { return; }
  }

  /** At every future of the chain hasResult and hasCallback never run ahead of what they
      announce; where a thread is at work the assertions of setFlag hold, and the thread that
      runs futureReady is the one that arrived second, with result and callback both in place
      and for the first time. */
  lemma Rendezvous(stages: seq<Stage>, r: Outcome, run: seq<Event>)
    requires Legal(stages, Init(stages, r), run)
    ensures var s := After(stages, Init(stages, r), run);
            && |s.fs| == |stages| + 1
            && (forall k :: 0 <= k < |s.fs| ==> Truthful(s.fs[k]))
            && (!s.resolver.Idle? ==> Meets(stages, s, s.resolver.job.k, s.resolver))
            && (!s.attacher.Idle? ==> Meets(stages, s, s.attacher.job.k, s.attacher))
  {
    InvInit(stages, r);
    InvAfter(stages, r, Init(stages, r), run);
    var s := After(stages, Init(stages, r), run);
    if !s.resolver.Idle? { ResolverMeets(stages, r, s); }
    if !s.attacher.Idle? { AttacherMeets(stages, r, s); }
    forall k | 0 <= k < |s.fs|
      ensures Truthful(s.fs[k])
    {
      AllTruthful(stages, r, s, k);
    }
  }

  /** Once the cancel flag is set no function given to then starts. */
  lemma CancelStopsThen(stages: seq<Stage>, r: Outcome, run: seq<Event>, more: seq<Event>, k: nat)
    requires Legal(stages, Init(stages, r), run) && Legal(stages, After(stages, Init(stages, r), run), more)
    requires k < |stages| && stages[k].Then? && After(stages, Init(stages, r), run).cancelled
    ensures var s, s' := After(stages, Init(stages, r), run), After(stages, After(stages, Init(stages, r), run), more);
            |s.calls| == |s'.calls| == |stages| && s'.calls[k] == s.calls[k]
  {
    InvInit(stages, r);
    InvAfter(stages, r, Init(stages, r), run);
    NoNewThen(stages, r, After(stages, Init(stages, r), run), more, k);
  }

  lemma {:induction false} NoNewThen(stages: seq<Stage>, r: Outcome, s: Sys, run: seq<Event>, k: nat)
    requires Inv(stages, r, s) && Legal(stages, s, run) && k < |stages| && stages[k].Then? && s.cancelled
    ensures Inv(stages, r, After(stages, s, run)) && After(stages, s, run).calls[k] == s.calls[k]
    decreases |run|
  {
    if run != [] {
      var s' := Do(stages, s, run[0]);
      InvStep(stages, r, s, run[0]);
      NoCall(stages, s, run[0], k);
      NoNewThen(stages, r, s', run[1..], k);
    }
  }

  lemma NoCall(stages: seq<Stage>, s: Sys, e: Event, k: nat)
    requires Fits(stages, s) && Enabled(stages, s, e) && k < |stages| && stages[k].Then? && s.cancelled
    ensures Do(stages, s, e).cancelled && |Do(stages, s, e).calls| == |stages|
    ensures Do(stages, s, e).calls[k] == s.calls[k]
  {}

  // ---- Every schedule ends ----

  function Rank(pc: Pc<Outcome>): nat {
    match pc
    case Store(_) => 5
    case Load(_) => 4
    case Cas(_) => 3
    case Both(_) => 2
    case Ready(_) => 1
    case Idle => 0
  }

  function Remaining(stages: seq<Stage>, s: Sys): nat
    requires Fits(stages, s)
  {
    7 * (|stages| - s.front) + 7 * (|stages| - s.next) + Rank(s.resolver) + Rank(s.attacher)
  }

  lemma Decreases(stages: seq<Stage>, r: Outcome, s: Sys, e: Event)
    requires Inv(stages, r, s) && Enabled(stages, s, e) && e != Cancel
    ensures Fits(stages, Do(stages, s, e)) && Remaining(stages, Do(stages, s, e)) < Remaining(stages, s)
  {
    if e == Resolver {
      StepFits(stages, r, s, s.resolver);
      RankFalls(stages, r, s, s.resolver);
      return;
    }
    if !s.attacher.Idle? {
      AttacherLocal(stages, r, s);
      StepFits(stages, r, s, s.attacher);
      RankFalls(stages, r, s, s.attacher);
    }
  }

  lemma RankFalls(stages: seq<Stage>, r: Outcome, s: Sys, pc: Pc<Outcome>)
    requires Fits(stages, s) && Local(stages, r, s, pc)
    ensures var (s', pc') := Advance(stages, s, pc);
            s'.next == s.next && 7 * (|stages| - s'.front) + Rank(pc') < 7 * (|stages| - s.front) + Rank(pc)
  {
    if pc.Ready? { return; }
    if pc.Store? { return; }
    if pc.Load? { return; }
    if pc.Cas? { return; }
  }

  function Steps(run: seq<Event>): nat {
    if run == [] then 0 else (if run[0] == Cancel then 0 else 1) + Steps(run[1..])
  }

  lemma {:induction false} Bounded(stages: seq<Stage>, r: Outcome, s: Sys, run: seq<Event>)
    requires Inv(stages, r, s) && Legal(stages, s, run)
    ensures Steps(run) <= Remaining(stages, s)
    decreases |run|
  {
    if run != [] {
      InvStep(stages, r, s, run[0]);
      if run[0] != Cancel { Decreases(stages, r, s, run[0]); }
      Bounded(stages, r, Do(stages, s, run[0]), run[1..]);
    }
  }

  /** No schedule takes more than a fixed number of steps, so every chain completes. */
  lemma ChainTerminates(stages: seq<Stage>, r: Outcome, run: seq<Event>)
    requires Legal(stages, Init(stages, r), run)
    ensures Steps(run) <= 14 * |stages| + 5
  {
    InvInit(stages, r);
    Bounded(stages, r, Init(stages, r), run);
  }
}

/** ManageableTaskImpl: a seven-state machine shared by any number of controllers and one
    worker thread. Every critical section of the mutex is one step; the worker drops the
    mutex while it sleeps and while beginPause and endPause resolve promises. Step functions
    on a snapshot are the specification; the class below carries them out on its fields. */
module ManageableTask {
  import opened Wrappers

  datatype State = WaitForStart | Running | Pausing | Paused | Resuming | Stopping | Stopped

  /** A promise, by the order of its creation. */
  type Id = nat

  /** Where the worker is. AwaitStart and PauseLoop are the two condition-variable loops;
      the others hold the promises it is about to resolve with the mutex released. */
  datatype Worker =
    | AwaitStart
    | FirstCheck
    | BeginPause(promises: seq<Id>, first: bool)
    | PauseLoop(first: bool)
    | EndPause(promises: seq<Id>, first: bool)
    | Body
    | Finishing
    | Resolving(promises: seq<Id>)
    | Exited
    | Threw

  /** sleeping: the worker is inside condition_variable::wait; woken: it has been notified
      and has not run yet. created counts the promises; resolved is the log of resolved ones;
      outdated holds those a controller has taken off a list and has yet to resolve. ran is
      history: the task function has been called. */
  datatype Task = Task(
    state: State, pausing: seq<Id>, resuming: seq<Id>, stopping: seq<Id>,
    worker: Worker, sleeping: bool, woken: bool,
    created: nat, outdated: seq<Id>, resolved: seq<Id>, ran: bool)

  datatype Event =
    | AsyncPause | AsyncResume | AsyncStop | AsyncWaitForStopped
    | ResolveOutdated
    | Wake                          // spurious wake-ups included
    | Work                          // the worker's next step
    | CheckPoint(allowed: bool)     // in the task function; allowed: what beforePause returns
    | Finish                        // the task function returns or throws

  function Init(): Task {
    Task(WaitForStart, [], [], [], AwaitStart, false, false, 0,
         [], [], false)
  }

  // ---- Controllers ----

  function Notify(t: Task): Task { if t.sleeping then t.(woken := true) else t }

  /** A promise on one of the lists; its future is what the caller gets. */
  function NewPausing(t: Task): Task { t.(pausing := t.pausing + [t.created], created := t.created + 1) }
  function NewResuming(t: Task): Task { t.(resuming := t.resuming + [t.created], created := t.created + 1) }
  function NewStopping(t: Task): Task { t.(stopping := t.stopping + [t.created], created := t.created + 1) }

  function AsyncPauseS(t: Task): Task {
    match t.state
    case Running => NewPausing(Notify(t.(state := Pausing)))
    case Resuming => t.(state := Paused, outdated := t.outdated + t.resuming, resuming := [])
    case Pausing | Stopping => NewPausing(t)
    case Paused | WaitForStart | Stopped => t
  }

  function AsyncResumeS(t: Task): Task {
    match t.state
    case Stopping | Running | Stopped => t
    case Pausing => t.(state := Running, outdated := t.outdated + t.pausing, pausing := [])
    case Resuming => NewResuming(t)
    case WaitForStart => Notify(t.(state := Running))
    case Paused => NewResuming(Notify(t.(state := Resuming)))
  }

  function AsyncStopS(t: Task): Task {
    if t.state.Stopping? || t.state.Stopped? then t else Notify(t.(state := Stopping))
  }

  function AsyncWaitForStoppedS(t: Task): Task {
    if t.state.Stopped? then t else NewStopping(t)
  }

  // ---- The worker ----

  predicate Started(st: State) { st.Running? || st.Stopping? || st.Pausing? }

  /** checkPoint with the mutex held; first: the call in run before the task function. */
  function CheckPointS(t: Task, allowed: bool, first: bool): Task {
    match t.state
    case Running => t.(worker := Body, ran := true)
    case Pausing =>
      if allowed then t.(state := Paused, worker := BeginPause(t.pausing, first), pausing := [])
      else t.(worker := Body, ran := true)
    case Stopping => t.(worker := if first then Finishing else Body)
    case WaitForStart | Paused | Resuming | Stopped => t.(worker := Threw)
  }

  /** endPause up to the point where it releases the mutex. NoAssertFails proves its
      assertion. */
  function EndPauseS(t: Task, first: bool): Task {
    t.(state := if t.state.Resuming? then Running else t.state,
       worker := EndPause(t.resuming, first), resuming := [])
  }

  /** resolvePromises on the worker, with the mutex released. */
  function ResolveS(t: Task, promises: seq<Id>, next: Worker): Task {
    t.(resolved := t.resolved + promises, worker := next)
  }

  /** stopped(): every list goes to the worker. */
  function StoppedS(t: Task): Task {
    t.(state := Stopped, worker := Resolving(t.pausing + t.resuming + t.stopping),
       pausing := [], resuming := [], stopping := [])
  }

  function WorkS(t: Task): Task {
    match t.worker
    case AwaitStart =>
      if Started(t.state) then t.(worker := FirstCheck, sleeping := false, woken := false)
      else t.(sleeping := true, woken := false)
    case FirstCheck => CheckPointS(t, true, true)
    case BeginPause(promises, first) => ResolveS(t, promises, PauseLoop(first))
    case PauseLoop(first) =>
      if t.state.Paused? then t.(sleeping := true, woken := false)
      else EndPauseS(t.(sleeping := false, woken := false), first)
    case EndPause(promises, first) =>
      // checkPoint returns m_state != Stopping
      if first && t.state.Stopping? then ResolveS(t, promises, Finishing)
      else ResolveS(t.(ran := t.ran || first), promises, Body)
    case Finishing => StoppedS(t)
    case Resolving(promises) => ResolveS(t, promises, Exited)
    case Threw => t.(worker := Finishing)
    case Body | Exited => t
  }

  predicate Enabled(t: Task, e: Event) {
    match e
    case AsyncPause | AsyncResume | AsyncStop | AsyncWaitForStopped => true
    case ResolveOutdated => t.outdated != []
    case Wake => t.sleeping
    case Work => !t.sleeping && !t.worker.Body? && !t.worker.Exited?
    case CheckPoint(_) => t.worker.Body?
    case Finish => t.worker.Body?
  }

  function Do(t: Task, e: Event): Task
    requires Enabled(t, e)
  {
    match e
    case AsyncPause => AsyncPauseS(t)
    case AsyncResume => AsyncResumeS(t)
    case AsyncStop => AsyncStopS(t)
    case AsyncWaitForStopped => AsyncWaitForStoppedS(t)
    case ResolveOutdated => t.(resolved := t.resolved + t.outdated, outdated := [])
    case Wake => WorkS(t.(sleeping := false))
    case Work => WorkS(t)
    case CheckPoint(allowed) => CheckPointS(t, allowed, false)
    case Finish => t.(worker := Finishing)
  }

  predicate Legal(t: Task, run: seq<Event>)
    decreases |run|
  {
    run == [] || (Enabled(t, run[0]) && Legal(Do(t, run[0]), run[1..]))
  }

  function After(t: Task, run: seq<Event>): Task
    requires Legal(t, run)
    decreases |run|
  {
    if run == [] then t else After(Do(t, run[0]), run[1..])
  }

  // ---- What every step keeps ----

  function InHand(w: Worker): seq<Id> {
    match w
    case BeginPause(promises, _) => promises
    case EndPause(promises, _) => promises
    case Resolving(promises) => promises
    case AwaitStart | FirstCheck | PauseLoop(_) | Body | Finishing | Exited | Threw => []
  }

  /** How often a promise is on a list, in a thread's hands, or in the log of resolutions. */
  function Held(t: Task, x: Id): nat {
    Occurs(t.pausing, x) + Occurs(t.resuming, x) + Occurs(t.stopping, x)
    + Occurs(InHand(t.worker), x) + Occurs(t.outdated, x) + Occurs(t.resolved, x)
  }

  function Occurs(s: seq<Id>, x: Id): nat { multiset(s)[x] }

  /** Each promise made is in exactly one of these places, once. */
  predicate PromiseOk(t: Task, x: Id) { Held(t, x) == if x < t.created then 1 else 0 }

  ghost predicate PromisesOk(t: Task) { forall x :: PromiseOk(t, x) }

  /** Where the worker can be in each state. */
  predicate PlaceOk(t: Task) {
    && (t.sleeping ==> t.worker.AwaitStart? || t.worker.PauseLoop?)
    && (t.woken ==> t.sleeping)
    && (t.worker.AwaitStart? ==> t.state.WaitForStart? || Started(t.state))
    && (t.state.WaitForStart? ==> t.worker.AwaitStart?)
    && (t.worker.FirstCheck? || t.worker.Body? || t.worker.Finishing? || t.worker.EndPause? ==> Started(t.state))
    && (t.worker.BeginPause? || t.worker.PauseLoop? ==>
          t.state.Paused? || t.state.Resuming? || t.state.Stopping?)
    && (t.state.Paused? || t.state.Resuming? ==> t.worker.BeginPause? || t.worker.PauseLoop?)
    && (t.state.Stopped? <==> t.worker.Resolving? || t.worker.Exited?)
    && !t.worker.Threw?
  }

  /** Which lists can hold promises in each state; a sleeper that was not notified has
      nothing to do. */
  predicate ListsOk(t: Task) {
    && (t.pausing != [] ==> t.state.Pausing? || t.state.Stopping?)
    && (t.resuming != [] ==> t.state.Resuming? || t.state.Stopping?)
    && (t.stopping != [] ==> !t.state.Stopped?)
    && (t.sleeping && !t.woken ==>
          if t.worker.AwaitStart? then t.state.WaitForStart? else t.state.Paused?)
  }

  ghost predicate Inv(t: Task) { PromisesOk(t) && PlaceOk(t) && ListsOk(t) }

  lemma PausePromise(t: Task, x: Id)
    requires PromiseOk(t, x)
    ensures PromiseOk(AsyncPauseS(t), x)
  {
    match t.state {
      case Running => return;
      case Resuming => return;
      case Pausing => return;
      case Stopping => return;
      case Paused => return;
      case WaitForStart => return;
      case Stopped => return;
    }
  }

  lemma ResumePromise(t: Task, x: Id)
    requires PromiseOk(t, x)
    ensures PromiseOk(AsyncResumeS(t), x)
  {
    match t.state {
      case Running => return;
      case Resuming => return;
      case Pausing => return;
      case Stopping => return;
      case Paused => return;
      case WaitForStart => return;
      case Stopped => return;
    }
  }

  lemma BeginPromise(t: Task, first: bool, x: Id)
    requires PromiseOk(t, x) && InHand(t.worker) == []
    ensures PromiseOk(t.(state := Paused, worker := BeginPause(t.pausing, first), pausing := []), x)
  {}

  lemma CheckPromise(t: Task, allowed: bool, first: bool, x: Id)
    requires PromiseOk(t, x) && (t.worker.FirstCheck? || t.worker.Body?)
    ensures PromiseOk(CheckPointS(t, allowed, first), x)
  {
    match t.state {
      case Running => MovePromise(t.(ran := true), Body, x); return;
      case Pausing =>
        if allowed {
          BeginPromise(t, first, x);
          return;
        }
        MovePromise(t.(ran := true), Body, x);
        return;
      case Stopping => MovePromise(t, Finishing, x); MovePromise(t, Body, x); return;
      case WaitForStart => MovePromise(t, Threw, x); return;
      case Paused => MovePromise(t, Threw, x); return;
      case Resuming => MovePromise(t, Threw, x); return;
      case Stopped => MovePromise(t, Threw, x); return;
    }
  }

  /** A worker with nothing in hand may go anywhere with nothing in hand. */
  lemma MovePromise(t: Task, next: Worker, x: Id)
    requires PromiseOk(t, x) && InHand(t.worker) == []
    ensures InHand(next) == [] ==> PromiseOk(t.(worker := next), x)
  {}

  lemma ResolvePromise(t: Task, next: Worker, x: Id)
    requires PromiseOk(t, x) && InHand(next) == []
    ensures PromiseOk(ResolveS(t, InHand(t.worker), next), x)
  {}

  lemma EndPromise(t: Task, first: bool, x: Id)
    requires PromiseOk(t, x) && InHand(t.worker) == []
    ensures PromiseOk(EndPauseS(t, first), x)
  {}

  lemma StoppedPromise(t: Task, x: Id)
    requires PromiseOk(t, x) && InHand(t.worker) == []
    ensures PromiseOk(StoppedS(t), x)
  {}

  lemma ReturnPromise(t: Task, first: bool, x: Id)
    requires PromiseOk(t, x) && t.worker.EndPause? && t.worker.first == first
    ensures PromiseOk(WorkS(t), x)
  {
    if first && t.state.Stopping? {
      ResolvePromise(t, Finishing, x);
      return;
    }
    ResolvePromise(t.(ran := t.ran || first), Body, x);
  }

  lemma WorkPromise(t: Task, x: Id)
    requires PromiseOk(t, x)
    ensures PromiseOk(WorkS(t), x)
  {
    match t.worker {
      case AwaitStart =>
        MovePromise(t.(sleeping := false, woken := false), FirstCheck, x);
        return;
      case FirstCheck => CheckPromise(t, true, true, x); return;
      case BeginPause(_, first) => ResolvePromise(t, PauseLoop(first), x); return;
      case PauseLoop(first) =>
        if t.state.Paused? {
          return;
        }
        EndPromise(t.(sleeping := false, woken := false), first, x);
        return;
      case EndPause(_, first) => ReturnPromise(t, first, x); return;
      case Finishing => StoppedPromise(t, x); return;
      case Resolving(_) => ResolvePromise(t, Exited, x); return;
      case Threw => return;
      case Body => return;
      case Exited => return;
    }
  }

  lemma OutdatedPromise(t: Task, x: Id)
    requires PromiseOk(t, x)
    ensures PromiseOk(t.(resolved := t.resolved + t.outdated, outdated := []), x)
  {}

  lemma ControlPromise(t: Task, e: Event, x: Id)
    requires PromiseOk(t, x) && Enabled(t, e) && !ByWorker(e)
    ensures PromiseOk(Do(t, e), x)
  {
    if e.AsyncPause? { PausePromise(t, x); return; }
    if e.AsyncResume? { ResumePromise(t, x); return; }
    if e.AsyncStop? { return; }
  }

  lemma PromiseStep(t: Task, e: Event, x: Id)
    requires PromiseOk(t, x) && PlaceOk(t) && Enabled(t, e)
    ensures PromiseOk(Do(t, e), x)
  {
    if !ByWorker(e) { ControlPromise(t, e, x); return; }
    if e.ResolveOutdated? { OutdatedPromise(t, x); return; }
    if e.Wake? { WorkPromise(t.(sleeping := false), x); return; }
    if e.Work? { WorkPromise(t, x); return; }
    if e.CheckPoint? { CheckPromise(t, e.allowed, false, x); return; }
  }

  lemma PromisesStep(t: Task, e: Event)
    requires PromisesOk(t) && PlaceOk(t) && Enabled(t, e)
    ensures PromisesOk(Do(t, e))
  {
    forall x
      ensures PromiseOk(Do(t, e), x)
    {
      PromiseStep(t, e, x);
    }
  }

  lemma PlaceStep(t: Task, e: Event)
    requires PlaceOk(t) && Enabled(t, e)
    ensures PlaceOk(Do(t, e))
  {}

  lemma ListsStep(t: Task, e: Event)
    requires PlaceOk(t) && ListsOk(t) && Enabled(t, e)
    ensures ListsOk(Do(t, e))
  {}

  lemma {:induction false} InvAfter(t: Task, run: seq<Event>)
    requires Inv(t) && Legal(t, run)
    ensures Inv(After(t, run))
    decreases |run|
  {
    if run != [] {
      PromisesStep(t, run[0]);
      PlaceStep(t, run[0]);
      ListsStep(t, run[0]);
      InvAfter(Do(t, run[0]), run[1..]);
    }
  }

  // ---- Over every run of any number of controllers and the worker ----

  function At(run: seq<Event>): Task
    requires Legal(Init(), run)
  {
    After(Init(), run)
  }

  lemma InvInit()
    ensures Inv(Init())
  {}

  lemma InvAt(run: seq<Event>)
    requires Legal(Init(), run)
    ensures Inv(At(run))
  {
    InvInit();
    InvAfter(Init(), run);
  }

  /** The two assertions and the throw: doPause is entered only from Pausing, endPause is
      entered only in Resuming or Stopping, and checkPoint never finds a state it rejects. */
  lemma NoAssertFails(run: seq<Event>)
    requires Legal(Init(), run)
    ensures var t := At(run);
      && !t.worker.Threw?
      && (t.worker.PauseLoop? && !t.state.Paused? ==> t.state.Resuming? || t.state.Stopping?)
      && (t.worker.FirstCheck? || t.worker.Body? ==> t.state.Running? || t.state.Pausing? || t.state.Stopping?)
  {
    InvAt(run);
  }

  /** A worker that sleeps with no wake-up on its way is one nobody has asked to go on. */
  lemma NoLostWakeUp(run: seq<Event>)
    requires Legal(Init(), run)
    ensures var t := At(run);
      && (t.sleeping && !t.woken ==> t.state.WaitForStart? || t.state.Paused?)
      && (t.state.Paused? || t.state.WaitForStart? ==> !t.worker.Body?)
  {
    InvAt(run);
  }

  lemma ListsByState(run: seq<Event>)
    requires Legal(Init(), run)
    ensures var t := At(run);
      && (t.pausing != [] ==> t.state.Pausing? || t.state.Stopping?)
      && (t.resuming != [] ==> t.state.Resuming? || t.state.Stopping?)
      && (t.state.Stopped? ==> t.pausing == [] && t.resuming == [] && t.stopping == [])
  {
    InvAt(run);
  }

  /** No promise is resolved twice, none that was not made is, and once the worker has left
      and the controllers have resolved what they took, each one made has been resolved. */
  lemma ResolvedOnce(run: seq<Event>, x: Id)
    requires Legal(Init(), run)
    ensures Occurs(At(run).resolved, x) <= (if x < At(run).created then 1 else 0)
    ensures At(run).worker.Exited? && At(run).outdated == [] && x < At(run).created ==>
              Occurs(At(run).resolved, x) == 1
  {
    InvAt(run);
    assert PromiseOk(At(run), x);
  }

  /** A list of promises left over after the worker has exited would never be resolved: the
      promise asked for from a stopped task is ready at once, so the lists stay empty. */
  lemma {:induction false} StoppedIsFinal(t: Task, run: seq<Event>)
    requires Inv(t) && t.state.Stopped? && Legal(t, run)
    ensures After(t, run).state.Stopped? && After(t, run).created == t.created
    ensures After(t, run).ran == t.ran
    decreases |run|
  {
    if run != [] {
      PromisesStep(t, run[0]);
      PlaceStep(t, run[0]);
      ListsStep(t, run[0]);
      StoppedIsFinal(Do(t, run[0]), run[1..]);
    }
  }

  /** Stopping is left only for Stopped, and a task told to stop before its function was
      called never calls it. */
  lemma {:induction false} StoppingStays(t: Task, run: seq<Event>)
    requires PlaceOk(t) && (t.state.Stopping? || t.state.Stopped?) && Legal(t, run)
    ensures After(t, run).state.Stopping? || After(t, run).state.Stopped?
    ensures !t.ran ==> !After(t, run).ran
    decreases |run|
  {
    if run != [] {
      PlaceStep(t, run[0]);
      StoppingStep(t, run[0]);
      StoppingStays(Do(t, run[0]), run[1..]);
    }
  }

  lemma StoppingStep(t: Task, e: Event)
    requires PlaceOk(t) && (t.state.Stopping? || t.state.Stopped?) && Enabled(t, e)
    ensures Do(t, e).state.Stopping? || Do(t, e).state.Stopped?
    ensures !t.ran ==> !Do(t, e).ran
  {}

  // ---- The blocking calls: pause, resume, stop ----

  predicate ByWorker(e: Event) { e.Wake? || e.Work? || e.CheckPoint? || e.Finish? || e.ResolveOutdated? }

  /** The promise a blocking call waits on, while the state it asked to leave lasts. */
  predicate Waits(t: Task, p: Id) {
    match t.state
    case Pausing => p in t.pausing
    case Resuming => p in t.resuming
    case Stopping => p in t.pausing || p in t.stopping
    case WaitForStart | Running | Paused | Stopped => false
  }

  /** The states a call can end in, by the state it waits in. */
  predicate Outcome(from: State, to: State) {
    match from
    case Pausing => to.Paused? || to.Stopped?
    case Resuming => to.Running? || to.Stopped?
    case Stopping => to.Stopped?
    case WaitForStart | Running | Paused | Stopped => false
  }

  /** Left to itself the worker either lets the promise wait or takes the state on. */
  lemma WorkerStep(t: Task, e: Event, p: Id)
    requires PlaceOk(t) && Enabled(t, e) && ByWorker(e)
    ensures Waits(t, p) ==> (Waits(Do(t, e), p) && Do(t, e).state == t.state) || Outcome(t.state, Do(t, e).state)
    ensures t.state.Paused? || t.state.Stopped? || t.state.WaitForStart? ==> Do(t, e).state == t.state
    ensures t.state.Running? ==> Do(t, e).state.Running? || Do(t, e).state.Stopped?
  {}

  predicate AllByWorker(run: seq<Event>) { forall i :: 0 <= i < |run| ==> ByWorker(run[i]) }

  lemma {:induction false} StaysOut(t: Task, run: seq<Event>, from: State)
    requires Inv(t) && Outcome(from, t.state) && Legal(t, run) && AllByWorker(run)
    ensures Outcome(from, After(t, run).state)
    decreases |run|
  {
    if run != [] {
      WorkerStep(t, run[0], 0);
      PromisesStep(t, run[0]);
      PlaceStep(t, run[0]);
      ListsStep(t, run[0]);
      StaysOut(Do(t, run[0]), run[1..], from);
    }
  }

  /** With one controller, when the promise it waits on is resolved the task has got where it
      was sent, or has stopped: pause() ends in Paused or Stopped, resume() in Running or
      Stopped, stop() in Stopped. */
  lemma {:induction false} Settles(t: Task, p: Id, run: seq<Event>)
    requires Inv(t) && Waits(t, p) && Legal(t, run) && AllByWorker(run)
    ensures p in After(t, run).resolved ==> Outcome(t.state, After(t, run).state)
    decreases |run|
  {
    if run == [] {
      assert PromiseOk(t, p);
    } else {
      var e := run[0];
      WorkerStep(t, e, p);
      PromisesStep(t, e);
      PlaceStep(t, e);
      ListsStep(t, e);
      if Outcome(t.state, Do(t, e).state) {
        StaysOut(Do(t, e), run[1..], t.state);
      } else {
        Settles(Do(t, e), p, run[1..]);
      }
    }
  }

  // ---- What the calls ask for ----

  lemma {:induction false} Extend(t: Task, run: seq<Event>, e: Event)
    requires Legal(t, run) && Enabled(After(t, run), e)
    ensures Legal(t, run + [e]) && After(t, run + [e]) == Do(After(t, run), e)
    decreases |run|
  {
    if run == [] {
      assert [e][1..] == [];
    } else {
      Extend(Do(t, run[0]), run[1..], e);
      assert (run + [e])[1..] == run[1..] + [e];
    }
  }

  /** After asyncPause the task is where it cannot run, or the promise made by the call is one
      to wait on. */
  lemma PauseAsks(run: seq<Event>)
    requires Legal(Init(), run)
    ensures var t, t' := At(run), Do(At(run), AsyncPause);
      || (t'.created == t.created && (t'.state.Paused? || t'.state.WaitForStart? || t'.state.Stopped?))
      || (t'.created == t.created + 1 && Waits(t', t.created) && (t'.state.Pausing? || t'.state.Stopping?))
  {
    InvAt(run);
  }

  /** After asyncResume the task is let run or about to stop, or the promise made by the call
      is one to wait on. */
  lemma ResumeAsks(run: seq<Event>)
    requires Legal(Init(), run)
    ensures var t, t' := At(run), Do(At(run), AsyncResume);
      || (t'.created == t.created && (t'.state.Running? || t'.state.Stopping? || t'.state.Stopped?))
      || (t'.created == t.created + 1 && Waits(t', t.created) && t'.state.Resuming?)
  {
    InvAt(run);
  }

  /** After asyncStop the task is stopping or stopped, and its worker is not left asleep. */
  lemma StopAsks(run: seq<Event>)
    requires Legal(Init(), run)
    ensures var t' := Do(At(run), AsyncStop);
      && (t'.state.Stopping? || t'.state.Stopped?) && (t'.sleeping ==> t'.woken)
  {
    InvAt(run);
    ListsStep(At(run), AsyncStop);
  }

  /** waitForStopped is over at once for a stopped task and otherwise has a promise. */
  lemma WaitAsks(run: seq<Event>)
    requires Legal(Init(), run)
    ensures var t, t' := At(run), Do(At(run), AsyncWaitForStopped);
      && t'.state == t.state
      && (if t.state.Stopped? then t'.created == t.created else t'.created == t.created + 1 && t.created in t'.stopping)
  {
    InvAt(run);
  }

  /** The first asks before the second, and nobody else: stop() and then what it waits on. */
  lemma StopAndWaitAsks(run: seq<Event>)
    requires Legal(Init(), run)
    ensures var t, t' := At(run), Do(Do(At(run), AsyncStop), AsyncWaitForStopped);
      t'.state.Stopped? || (t'.state.Stopping? && t'.created == t.created + 1 && Waits(t', t.created))
  {
    StopAsks(run);
    Extend(Init(), run, AsyncStop);
    WaitAsks(run + [AsyncStop]);
  }

  /** pause() of a task that one controller alone controls ends with the task paused, stopped
      or not yet started. */
  lemma PauseSettles(run: seq<Event>, more: seq<Event>)
    requires Legal(Init(), run) && Legal(Do(At(run), AsyncPause), more) && AllByWorker(more)
    ensures var p, t' := At(run).created, After(Do(At(run), AsyncPause), more);
      p in t'.resolved || Do(At(run), AsyncPause).created == p ==>
        t'.state.Paused? || t'.state.Stopped? || t'.state.WaitForStart?
  {
    var t := At(run);
    PauseAsks(run);
    Extend(Init(), run, AsyncPause);
    InvAt(run + [AsyncPause]);
    if Do(t, AsyncPause).created == t.created { Stays(Do(t, AsyncPause), more); }
    else { Settles(Do(t, AsyncPause), t.created, more); }
  }

  lemma {:induction false} Stays(t: Task, run: seq<Event>)
    requires Inv(t) && Legal(t, run) && AllByWorker(run)
    ensures t.state.Paused? || t.state.Stopped? || t.state.WaitForStart? ==> After(t, run).state == t.state
    ensures t.state.Running? ==> After(t, run).state.Running? || After(t, run).state.Stopped?
    ensures t.state.Stopping? ==> After(t, run).state.Stopping? || After(t, run).state.Stopped?
    decreases |run|
  {
    if run != [] {
      WorkerStep(t, run[0], 0);
      PromisesStep(t, run[0]);
      PlaceStep(t, run[0]);
      ListsStep(t, run[0]);
      if t.state.Stopping? || t.state.Stopped? { StoppingStep(t, run[0]); }
      Stays(Do(t, run[0]), run[1..]);
    }
  }

  /** resume() ends with the task running or on its way to the end. */
  lemma ResumeSettles(run: seq<Event>, more: seq<Event>)
    requires Legal(Init(), run) && Legal(Do(At(run), AsyncResume), more) && AllByWorker(more)
    ensures var p, t' := At(run).created, After(Do(At(run), AsyncResume), more);
      p in t'.resolved || Do(At(run), AsyncResume).created == p ==>
        t'.state.Running? || t'.state.Stopping? || t'.state.Stopped?
  {
    var t := At(run);
    ResumeAsks(run);
    Extend(Init(), run, AsyncResume);
    InvAt(run + [AsyncResume]);
    if Do(t, AsyncResume).created == t.created { Stays(Do(t, AsyncResume), more); }
    else { Settles(Do(t, AsyncResume), t.created, more); }
  }

  /** stop() ends with the task stopped. */
  lemma StopSettles(run: seq<Event>, more: seq<Event>)
    requires Legal(Init(), run) && Legal(Do(Do(At(run), AsyncStop), AsyncWaitForStopped), more) && AllByWorker(more)
    ensures var p := At(run).created;
      var t := Do(Do(At(run), AsyncStop), AsyncWaitForStopped);
      p in After(t, more).resolved || t.created == p ==> After(t, more).state.Stopped?
  {
    var t := Do(Do(At(run), AsyncStop), AsyncWaitForStopped);
    StopAndWaitAsks(run);
    Extend(Init(), run, AsyncStop);
    Extend(Init(), run + [AsyncStop], AsyncWaitForStopped);
    InvAt(run + [AsyncStop] + [AsyncWaitForStopped]);
    if t.state.Stopped? { Stays(t, more); }
    else { Settles(t, At(run).created, more); }
  }

  // ---- The worker gets there ----

  /** p is waited on, or with the worker to be resolved. */
  predicate Due(t: Task, p: Id) { Waits(t, p) || p in InHand(t.worker) }

  /** What a worker does that is not stuck: it goes on, and a task function that is asked for
      a check point comes to one that allows the pause, or ends. */
  predicate Forward(t: Task, e: Event) {
    Enabled(t, e) && (e.Wake? || e.Work? || e.Finish? || (e == CheckPoint(true) && t.state.Pausing?))
  }

  function Rank(t: Task, p: Id): nat {
    if p in InHand(t.worker) then 1
    else
      match t.worker
      case AwaitStart => 8
      case FirstCheck => 7
      case BeginPause(_, _) => 6
      case PauseLoop(_) => 5
      case EndPause(_, _) => 4
      case Body => 3
      case Finishing => 2
      case Resolving(_) | Exited | Threw => 1
  }

  lemma GetsNearer(t: Task, e: Event, p: Id)
    requires Inv(t) && Due(t, p) && Forward(t, e)
    ensures p in Do(t, e).resolved || (Due(Do(t, e), p) && Rank(Do(t, e), p) < Rank(t, p))
  {}

  lemma CanGoOn(t: Task, p: Id)
    requires Inv(t) && Due(t, p)
    ensures Forward(t, Wake) || Forward(t, Work) || Forward(t, Finish)
  {}

  predicate AllForward(t: Task, run: seq<Event>)
    decreases |run|
  {
    run == [] || (Forward(t, run[0]) && AllForward(Do(t, run[0]), run[1..]))
  }

  lemma {:induction false} StaysResolved(t: Task, run: seq<Event>, p: Id)
    requires p in t.resolved && AllForward(t, run)
    ensures Legal(t, run) && p in After(t, run).resolved
    decreases |run|
  {
    if run != [] { StaysResolved(Do(t, run[0]), run[1..], p); }
  }

  /** A promise that a call waits on is resolved within eight steps of the worker: no request
      is ignored. */
  lemma {:induction false} ServedSoon(t: Task, run: seq<Event>, p: Id)
    requires Inv(t) && Due(t, p) && AllForward(t, run) && |run| >= Rank(t, p)
    ensures Legal(t, run) && p in After(t, run).resolved
    decreases |run|
  {
    var e := run[0];
    GetsNearer(t, e, p);
    PromisesStep(t, e);
    PlaceStep(t, e);
    ListsStep(t, e);
    if p in Do(t, e).resolved { StaysResolved(Do(t, e), run[1..], p); }
    else { ServedSoon(Do(t, e), run[1..], p); }
  }

  // ---- A task that is let run runs ----

  /** The function has been called where the worker is in it, or in a check point of it. */
  predicate RanOk(t: Task) {
    match t.worker
    case Body => t.ran
    case BeginPause(_, first) => first || t.ran
    case PauseLoop(first) => first || t.ran
    case EndPause(_, first) => first || t.ran
    case AwaitStart | FirstCheck => !t.ran
    case Finishing | Resolving(_) | Exited | Threw => true
  }

  lemma RanStep(t: Task, e: Event)
    requires PlaceOk(t) && RanOk(t) && Enabled(t, e)
    ensures RanOk(Do(t, e))
  {}

  lemma {:induction false} RanAfter(t: Task, run: seq<Event>)
    requires PlaceOk(t) && RanOk(t) && Legal(t, run)
    ensures RanOk(After(t, run))
    decreases |run|
  {
    if run != [] {
      PlaceStep(t, run[0]);
      RanStep(t, run[0]);
      RanAfter(Do(t, run[0]), run[1..]);
    }
  }

  /** A task told to stop before its function was called is never in its function. */
  lemma StoppedBeforeStart(run: seq<Event>, more: seq<Event>)
    requires Legal(Init(), run) && !At(run).ran && Legal(Do(At(run), AsyncStop), more)
    ensures !After(Do(At(run), AsyncStop), more).ran && !After(Do(At(run), AsyncStop), more).worker.Body?
  {
    var t := Do(At(run), AsyncStop);
    InvAt(run);
    RanAfter(Init(), run);
    StopAsks(run);
    PlaceStep(At(run), AsyncStop);
    RanStep(At(run), AsyncStop);
    StoppingStays(t, more);
    RanAfter(t, more);
  }

  lemma Enters(t: Task, e: Event)
    requires Inv(t) && t.state.Running? && !t.worker.Body? && !t.worker.Finishing? && (e.Wake? || e.Work?)
    requires Enabled(t, e)
    ensures Do(t, e).state.Running?
    ensures var w := Do(t, e).worker; if t.worker.AwaitStart? then w.FirstCheck? else w.Body?
    ensures Do(t, e).worker.Body? && !t.worker.EndPause? ==> Do(t, e).ran
    ensures t.worker.EndPause? && t.worker.first ==> Do(t, e).ran
  {}

  /** A check point takes the pause it is asked for if beforePause allows it, and otherwise the
      function goes on with the pause still asked for. */
  lemma PausesIffAllowed(run: seq<Event>, allowed: bool)
    requires Legal(Init(), run) && At(run).worker.Body?
    ensures var t, t' := At(run), Do(At(run), CheckPoint(allowed));
      && (t'.state.Paused? <==> t.state.Pausing? && allowed)
      && (!t'.state.Paused? ==> t'.state == t.state && t'.worker.Body? && t'.pausing == t.pausing)
      && (t'.state.Paused? ==> InHand(t'.worker) == t.pausing && !t'.worker.Body?)
  {
    InvAt(run);
  }

  /** Two steps of the worker after a task that has not been entered is Running its function
      has been called. */
  lemma EntersSoon(run: seq<Event>, e: Event, e': Event)
    requires Legal(Init(), run) && At(run).state.Running? && At(run).worker.AwaitStart?
    requires (e.Wake? || e.Work?) && (e'.Wake? || e'.Work?)
    requires Enabled(At(run), e) && Enabled(Do(At(run), e), e')
    ensures Do(Do(At(run), e), e').worker.Body? && Do(Do(At(run), e), e').ran
  {
    var t := At(run);
    InvAt(run);
    Enters(t, e);
    PromisesStep(t, e);
    PlaceStep(t, e);
    ListsStep(t, e);
    Enters(Do(t, e), e');
  }

  /** What a controller gets back: a ready future, or the future of a promise. */
  datatype Reply = Ready | Pending(promise: Id)

  /** ManageableTaskImpl itself. Each method is one critical section of m_mutex. The worker's
      place, the condition variable and the log are ghost. */
  class ManageableTaskImpl {
    var state: State
    var pausePromises: seq<Id>
    var resumePromises: seq<Id>
    var stopPromises: seq<Id>
    var created: nat
    ghost var worker: Worker
    ghost var sleeping: bool
    ghost var woken: bool
    ghost var outdated: seq<Id>
    ghost var resolved: seq<Id>
    ghost var ran: bool

    ghost function View(): Task
      reads this
    {
      Task(state, pausePromises, resumePromises, stopPromises, worker, sleeping, woken,
           created, outdated, resolved, ran)
    }

    constructor ()
      ensures View() == Init()
    {
      state := WaitForStart;
      pausePromises, resumePromises, stopPromises, created := [], [], [], 0;
      worker, sleeping, woken := AwaitStart, false, false;
      outdated, resolved, ran := [], [], false;
    }

    method NotifyOne()
      modifies this`woken
      ensures View() == Notify(old(View()))
    {
      if sleeping { woken := true; }
    }

    method MakePromise() returns (p: Id)
      modifies this`created
      ensures p == old(created) && created == p + 1
    {
      p := created;
      created := created + 1;
    }

    method AsyncPause() returns (ret: Reply)
      modifies this
      ensures View() == AsyncPauseS(old(View()))
      ensures ret == if old(state).Running? || old(state).Pausing? || old(state).Stopping?
                     then Pending(old(created)) else Ready
    {
      match state {
        case Running =>
          state := Pausing;
          NotifyOne();
          var p := MakePromise();
          pausePromises := pausePromises + [p];
          ret := Pending(p);
        case Resuming =>
          state := Paused;
          outdated := outdated + resumePromises;
          resumePromises := [];
          ret := Ready;
        case Pausing | Stopping =>
          var p := MakePromise();
          pausePromises := pausePromises + [p];
          ret := Pending(p);
        case Paused | WaitForStart | Stopped =>
          ret := Ready;
      }
    }

    method AsyncResume() returns (ret: Reply)
      modifies this
      ensures View() == AsyncResumeS(old(View()))
      ensures ret == if old(state).Resuming? || old(state).Paused? then Pending(old(created)) else Ready
    {
      match state {
        case Stopping | Running | Stopped =>
          ret := Ready;
        case Pausing =>
          state := Running;
          outdated := outdated + pausePromises;
          pausePromises := [];
          ret := Ready;
        case Resuming =>
          var p := MakePromise();
          resumePromises := resumePromises + [p];
          ret := Pending(p);
        case WaitForStart =>
          ret := Ready;
          state := Running;
          NotifyOne();
        case Paused =>
          state := Resuming;
          NotifyOne();
          var p := MakePromise();
          resumePromises := resumePromises + [p];
          ret := Pending(p);
      }
    }

    method AsyncStop()
      modifies this
      ensures View() == AsyncStopS(old(View()))
    {
      match state {
        case WaitForStart | Running | Pausing | Resuming | Paused =>
          state := Stopping;
          NotifyOne();
        case Stopping | Stopped =>
      }
    }

    method AsyncWaitForStopped() returns (ret: Reply)
      modifies this
      ensures View() == AsyncWaitForStoppedS(old(View()))
      ensures ret == if old(state).Stopped? then Ready else Pending(old(created))
    {
      if state.Stopped? {
        return Ready;
      }
      var p := MakePromise();
      stopPromises := stopPromises + [p];
      ret := Pending(p);
    }

    /** What a controller does after its critical section. */
    method ResolveOutdated()
      modifies this
      ensures View() == Do(old(View()), Event.ResolveOutdated)
      requires Enabled(View(), Event.ResolveOutdated)
    {
      resolved, outdated := resolved + outdated, [];
    }

    /** checkPoint up to where it returns, or goes into a pause and releases the mutex in
        beginPause; then FinishPause gives the answer. */
    method CheckPoint(allowed: bool, first: bool) returns (go: Option<bool>)
      requires worker == if first then FirstCheck else Body
      requires PlaceOk(View())
      modifies this
      ensures View() == CheckPointS(old(View()), allowed, first)
      ensures go == if old(state).Pausing? && allowed then None else Some(!old(state).Stopping?)
    {
      match state {
        case Running =>
          worker, ran := Body, true;
          return Some(true);
        case Pausing =>
          if allowed {
            BeginPause(first);
            return None;
          }
          worker, ran := Body, true;
          return Some(!state.Stopping?);
        case Stopping =>
          worker := if first then Finishing else Body;
          return Some(false);
        case WaitForStart | Paused | Resuming | Stopped =>
          assert false;
      }
    }

    method BeginPause(first: bool)
      requires state.Pausing?
      modifies this
      ensures var t := old(View());
              View() == t.(state := Paused, worker := Worker.BeginPause(t.pausing, first), pausing := [])
    {
      state := Paused;
      worker := Worker.BeginPause(pausePromises, first);
      pausePromises := [];
    }

    /** The first half of endPause; its requires is the assertion of the code. */
    method EndPause(first: bool)
      requires state.Resuming? || state.Stopping?
      modifies this
      ensures View() == EndPauseS(old(View()), first)
    {
      if state.Resuming? {
        state := Running;
      }
      worker := Worker.EndPause(resumePromises, first);
      resumePromises := [];
    }

    /** The second half of endPause, with the mutex taken again, and the end of checkPoint: the
        resume promises are resolved, and the answer is by the state of that moment. */
    method FinishPause() returns (go: bool)
      requires worker.EndPause?
      modifies this
      ensures View() == WorkS(old(View()))
      ensures go == !old(state).Stopping?
      ensures resolved == old(resolved) + old(worker).promises
      ensures worker == if old(worker).first && !go then Finishing else Body
    {
      go := !state.Stopping?;
      ghost var first := worker.first;
      resolved := resolved + worker.promises;
      ran := ran || (first && go);
      worker := if first && !go then Finishing else Body;
    }

    method Stop()
      modifies this
      ensures View() == StoppedS(old(View()))
    {
      state := Stopped;
      worker := Resolving(pausePromises + resumePromises + stopPromises);
      pausePromises, resumePromises, stopPromises := [], [], [];
    }
  }
}

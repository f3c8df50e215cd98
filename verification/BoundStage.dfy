/** A then or fail stage bound to an AOContext (FutureCallbackWithAOContext) against the
    closing of that context, as the stage sees it. The stage owns the promise of the next
    future; it is resolved by the stage's function or, when the context closes, by the
    close handler. StageOnContext shows that the stage of the close protocol itself moves
    by these events. */
module BoundStage {

  /** Offered: exec has blocked the close and the executor has the closure in hand;
      Queued: it is to be blocked again when it is taken up; Started: the closure is running
      and about to call futureReady; Gone: the closure was refused or destroyed unrun. */
  datatype Work = NotReady | Offered | Queued | Started | InFunction | Gone | Finished
  datatype Place = Listed | Popped | Unlinked

  /** What the next future was given: what the stage made of the source's result, or
      AsyncOperationWasCancelled from the close handler. */
  datatype Given = Nothing | ByStage | ByClose

  /** armed: m_nextFutureState is still in the callback; resolved counts the results given
      to the next future, and given is the last; owners: the promise or the attaching thread
      still refers to the source state. */
  datatype Sys = Sys(work: Work, armed: bool, resolved: nat, given: Given, place: Place,
                     preparing: bool, passed: bool, closed: bool, owners: bool)

  datatype Event =
    | Ready                     // both result and callback have arrived: futureReady
    | Inline                    // the executor runs the closure inside exec
    | Post                      // or queues it
    | Start                     // and takes it up later
    | Enter(direct: bool)       // futureReady of the stage; direct: no function to call
    | Leave                     // the function has returned or thrown
    | StartClose
    | Pass                      // the closing thread leaves waitForClosing
    | Pop                       // it takes the callback off the list
    | Cancel                    // and calls aoContextClose of it
    | CloseDone
    | DropClosure               // the executor destroys the closure unrun
    | DropOwners                // the source promise is gone, with or without a result
    | Unlink                    // the callback goes with the source state, still listed

  /** After then() has registered the callback. */
  function Init(preparing: bool): Sys {
    Sys(NotReady, true, 0, Nothing, Listed, preparing, false, false, true)
  }

  /** Nothing refers to the source state any more. */
  predicate Orphaned(s: Sys) {
    !s.owners && (s.work.NotReady? || s.work.Gone? || s.work.Finished?)
  }

  /** The callback was destroyed with the next future still unresolved in it. */
  predicate Lost(s: Sys) { s.armed && s.place.Unlinked? }

  predicate Enabled(s: Sys, e: Event) {
    match e
    case Ready => s.work.NotReady? && s.owners
    case Inline => s.work.Offered?
    case Post => s.work.Offered?
    case Start => s.work.Queued?
    case Enter(_) => s.work.Started?
    case Leave => s.work.InFunction?
    case StartClose => !s.preparing
    case Pass => s.preparing && !s.passed && !s.work.Offered? && !s.work.Started?
    case Pop => s.passed && !s.closed && s.place.Listed?
    case Cancel => s.armed && s.place.Popped?
    case CloseDone => s.passed && !s.closed && !s.place.Listed? && !(s.armed && s.place.Popped?)
    case DropClosure => s.work.Queued?
    case DropOwners => s.owners
    case Unlink => s.place.Listed? && Orphaned(s)
  }

  function Do(s: Sys, e: Event): Sys
    requires Enabled(s, e)
  {
    match e
    case Ready => s.(work := if s.preparing then Gone else Offered)
    case Inline => s.(work := Started)
    case Post => s.(work := Queued)
    case Start => s.(work := if s.preparing then Gone else Started)
    case Enter(direct) =>
      if direct then s.(armed := false, work := Finished, resolved := s.resolved + 1, given := ByStage)
      else s.(armed := false, work := InFunction)
    case Leave => s.(work := Finished, resolved := s.resolved + 1, given := ByStage)
    case StartClose => s.(preparing := true)
    case Pass => s.(passed := true)
    case Pop => s.(place := Popped)
    case Cancel => s.(armed := false, resolved := s.resolved + 1, given := ByClose)
    case CloseDone => s.(closed := true)
    case DropClosure => s.(work := Gone)
    case DropOwners => s.(owners := false)
    case Unlink => s.(place := Unlinked)
  }

  predicate Legal(s: Sys, run: seq<Event>)
    decreases |run|
  {
    run == [] || (Enabled(s, run[0]) && Legal(Do(s, run[0]), run[1..]))
  }

  function After(s: Sys, run: seq<Event>): Sys
    requires Legal(s, run)
    decreases |run|
  {
    if run == [] then s else After(Do(s, run[0]), run[1..])
  }

  function One(b: bool): nat { if b then 1 else 0 }

  predicate Ran(s: Sys) { s.work.InFunction? || s.work.Finished? }

  /** The next future's promise is in exactly one place: resolved, in the callback, or with
      the running function. */
  predicate Inv(s: Sys) {
    && s.resolved + One(s.armed) + One(s.work.InFunction?) == 1
    && (s.closed ==> s.passed) && (s.passed ==> s.preparing)
    && (s.place.Listed? ==> !s.closed) && (s.place.Popped? ==> s.passed)
    && (s.place.Unlinked? ==> Orphaned(s))
    && (s.work.Offered? || s.work.Started? ==> !s.passed)
    && (s.armed ==> !Ran(s)) && (s.armed || Ran(s) || s.place.Popped?)
    && (s.closed && s.armed ==> s.place.Unlinked?)
    && (s.given.Nothing? <==> s.resolved == 0)
    && (s.given.ByStage? <==> s.work.Finished?)
    && (s.given.ByClose? ==> s.place.Popped?)
  }

  lemma InvStep(s: Sys, e: Event)
    requires Inv(s) && Enabled(s, e)
    ensures Inv(Do(s, e))
  {}

  lemma {:induction false} InvAfter(s: Sys, run: seq<Event>)
    requires Inv(s) && Legal(s, run)
    ensures Inv(After(s, run))
    decreases |run|
  {
    if run != [] {
      InvStep(s, run[0]);
      InvAfter(Do(s, run[0]), run[1..]);
    }
  }

  lemma Extend(s: Sys, e: Event, rest: seq<Event>)
    requires Enabled(s, e) && Legal(Do(s, e), rest)
    ensures Legal(s, [e] + rest) && After(s, [e] + rest) == After(Do(s, e), rest)
  {
    assert ([e] + rest)[1..] == rest;
  }

  /** Once the callback is destroyed the closing thread finds nothing to call. */
  lemma FinishLost(s: Sys) returns (run: seq<Event>)
    requires Inv(s) && Lost(s) && s.preparing && !s.closed
    ensures Ends(s, run) && After(s, run).resolved == 0
    decreases if s.passed then 0 else 1
  {
    var e := if s.passed then CloseDone else Pass;
    InvStep(s, e);
    var rest := [];
    if !s.passed { rest := FinishLost(Do(s, e)); }
    Extend(s, e, rest);
    run := [e] + rest;
  }

  /** The next event towards the loss of a stage that has not been taken up. */
  function Towards(s: Sys): Event {
    match s.work
    case Offered => Post
    case Queued => Start
    case NotReady | Started | InFunction | Gone | Finished => if s.owners then DropOwners else Unlink
  }

  /** While a close is under way and the stage has not been taken up: the executor is
      refused, the source state goes, and the callback with it. */
  lemma Lose(s: Sys) returns (run: seq<Event>)
    requires Inv(s) && !Sure(s) && s.preparing && !s.closed
    ensures Ends(s, run) && After(s, run).resolved == 0
    decreases if s.work.Offered? then 3 else if s.work.Queued? then 2 else 1, One(s.owners), One(!s.place.Unlinked?)
  {
    if Lost(s) {
      run := FinishLost(s);
      return;
    }
    var e := Towards(s);
    InvStep(s, e);
    var rest := Lose(Do(s, e));
    Extend(s, e, rest);
    run := [e] + rest;
  }

  /** The next future has been given its result, or is certain to be: the closure is running,
      or the close handler about to be called. */
  predicate Sure(s: Sys) { s.armed ==> s.work.Started? || s.place.Popped? }

  /** The schedule ends with the context closed and the stage not running. */
  predicate Ends(s: Sys, run: seq<Event>) {
    Legal(s, run) && After(s, run).closed && !After(s, run).work.InFunction?
  }

  lemma {:induction false} StaysSure(s: Sys, run: seq<Event>)
    requires Inv(s) && Legal(s, run) && Sure(s) && s.preparing
    ensures Sure(After(s, run))
    decreases |run|
  {
    if run != [] {
      InvStep(s, run[0]);
      StaysSure(Do(s, run[0]), run[1..]);
    }
  }

  lemma Served(s: Sys, run: seq<Event>)
    requires Inv(s) && s.preparing && Sure(s) && Ends(s, run)
    ensures After(s, run).resolved == 1
  {
    StaysSure(s, run);
    InvAfter(s, run);
  }

  /** After a close has begun every schedule gives the next future its one result if and only
      if that is sure already: a closure that is refused, or is destroyed unrun, can take the
      callback with it before its close handler is called. */
  lemma ServedIff(preparing: bool, past: seq<Event>)
    requires Legal(Init(preparing), past)
    requires After(Init(preparing), past).preparing && !After(Init(preparing), past).closed
    ensures var s := After(Init(preparing), past);
            (forall run :: Ends(s, run) ==> After(s, run).resolved == 1) <==> Sure(s)
  {
    InvAfter(Init(preparing), past);
    var s := After(Init(preparing), past);
    if Sure(s) {
      forall run | Ends(s, run)
        ensures After(s, run).resolved == 1
      {
        Served(s, run);
      }
    } else {
      var run := Lose(s);
      assert Ends(s, run);
    }
  }
}

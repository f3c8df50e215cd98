/** waitAll: the promises resumeNextTask resolves when it finds nothing left to run. */
module SchedulerWaits {
  import opened PriorityOrder
  import opened Wrappers
  import opened SchedulerModel
  import opened SchedulerInvariant

  /** pending are the promises in m_waitStopPromises; resolved counts those resolved. */
  datatype Waits = Waits(s: Sched, pending: nat, resolved: nat)

  datatype Call = Op(e: Event) | WaitAll

  /** resumeNextTask comes to the end of both lists. */
  predicate ReachesEnd(s: Sched)
    decreases |s.waiting|
  {
    if s.waiting == [] then s.delayed == []
    else
      var last := s.waiting[|s.waiting| - 1];
      last.value.pauseAsked
      && ReachesEnd(s.(waiting := s.waiting[..|s.waiting| - 1], delayed := s.delayed + [PauseItem(last, false)]))
  }

  /** What an operation leaves to resumeNextTask, if it calls it. */
  function Handed(s: Sched, e: Event): Option<Sched> {
    match e
    case Pause(id, ends) =>
      if IsActive(s, id) then Some(s.(delayed := s.delayed + [PauseItem(s.active.value, ends)], active := None))
      else None
    case Finished(id) =>
      if IsActive(s, id) then Some(s.(outstanding := s.outstanding - {id}, active := None)) else None
    case Push(_, _) | Resume(_, _) | Cancel(_, _) | TaskEnds => None
  }

  predicate Resolves(s: Sched, e: Event) { Handed(s, e).Some? && ReachesEnd(Handed(s, e).value) }

  predicate Enabled(w: Waits, c: Call) { c.Op? ==> SchedulerModel.Enabled(w.s, c.e) }

  /** waitAll with nothing active is ready at once. */
  function Do(w: Waits, c: Call): Waits
    requires Enabled(w, c)
  {
    match c
    case WaitAll => if w.s.active.None? then w else w.(pending := w.pending + 1)
    case Op(e) =>
      if Resolves(w.s, e) then Waits(SchedulerModel.Do(w.s, e), 0, w.resolved + w.pending)
      else w.(s := SchedulerModel.Do(w.s, e))
  }

  predicate Legal(w: Waits, run: seq<Call>)
    decreases |run|
  {
    run == [] || (Enabled(w, run[0]) && Legal(Do(w, run[0]), run[1..]))
  }

  function After(w: Waits, run: seq<Call>): Waits
    requires Legal(w, run)
    decreases |run|
  {
    if run == [] then w else After(Do(w, run[0]), run[1..])
  }

  function Start(): Waits { Waits(Init(), 0, 0) }

  // ---- When the promises are resolved ----

  lemma {:induction false} EndIsEmpty(s: Sched)
    requires s.active.None?
    ensures ReachesEnd(s) <==> s.waiting == [] && s.delayed == []
    ensures ReachesEnd(s) <==> Tasks(ResumeNext(s)) == []
    decreases |s.waiting|
  {
    if s.waiting != [] {
      var last := s.waiting[|s.waiting| - 1];
      EndIsEmpty(s.(waiting := s.waiting[..|s.waiting| - 1], delayed := s.delayed + [PauseItem(last, false)]));
    }
  }

  /** An operation resolves the promises of waitAll exactly when it is the finish callback of
      the active task and leaves no task at all. */
  lemma ResolvesIff(s: Sched, e: Event)
    requires SchedulerModel.Enabled(s, e)
    ensures Resolves(s, e) <==> e.Finished? && IsActive(s, e.id) && Tasks(SchedulerModel.Do(s, e)) == []
  {
    if Handed(s, e).Some? {
      assert SchedulerModel.Do(s, e) == ResumeNext(Handed(s, e).value);
      EndIsEmpty(Handed(s, e).value);
    }
  }

  /** Only a finish callback can take the last task out. */
  lemma LastOut(s: Sched, e: Event)
    requires Inv(s) && SchedulerModel.Enabled(s, e)
    requires Tasks(s) != [] && Tasks(SchedulerModel.Do(s, e)) == []
    ensures e.Finished?
  {
    if e.Pause? && IsActive(s, e.id) {
      EndIsEmpty(Handed(s, e).value);
    }
  }

  lemma StepKeeps(s: Sched, e: Event)
    requires Inv(s) && SchedulerModel.Enabled(s, e)
    ensures Inv(SchedulerModel.Do(s, e))
  {
    OrderStep(s, e);
    IdsStep(s, e);
    StatesStep(s, e);
  }

  lemma {:induction false} InvHolds(w: Waits, run: seq<Call>)
    requires Inv(w.s) && Legal(w, run)
    ensures Inv(After(w, run).s)
    decreases |run|
  {
    if run != [] {
      if run[0].Op? { StepKeeps(w.s, run[0].e); }
      InvHolds(Do(w, run[0]), run[1..]);
    }
  }

  /** The operation that takes the last task out of a scheduler someone waits for resolves the
      promises if and only if that task was the active one. A task that ends while it is
      paused, and so leaves from the delayed list, strands them. */
  lemma WaitAllIff(run: seq<Call>, e: Event)
    requires Legal(Start(), run) && Enabled(After(Start(), run), Op(e))
    requires Tasks(After(Start(), run).s) != [] && After(Start(), run).pending > 0
    requires Tasks(Do(After(Start(), run), Op(e)).s) == []
    ensures e.Finished?
    ensures Do(After(Start(), run), Op(e)).pending == 0 <==> IsActive(After(Start(), run).s, e.id)
  {
    InvHolds(Start(), run);
    var s := After(Start(), run).s;
    LastOut(s, e);
    ResolvesIff(s, e);
  }

  /** Along the run tasks finish only while they are active. */
  predicate FinishActive(w: Waits, run: seq<Call>)
    requires Legal(w, run)
    decreases |run|
  {
    run == [] ||
    ((run[0].Op? && run[0].e.Finished? ==>
        IsActive(w.s, run[0].e.id) || Tasks(SchedulerModel.Do(w.s, run[0].e)) == Tasks(w.s))
     && FinishActive(Do(w, run[0]), run[1..]))
  }

  lemma {:induction false} NoneStranded(w: Waits, run: seq<Call>)
    requires Inv(w.s) && (w.pending > 0 ==> Tasks(w.s) != []) && Legal(w, run) && FinishActive(w, run)
    ensures After(w, run).pending > 0 ==> Tasks(After(w, run).s) != []
    decreases |run|
  {
    if run != [] {
      if run[0].Op? {
        StepKeeps(w.s, run[0].e);
        ResolvesIff(w.s, run[0].e);
        if w.pending > 0 && Tasks(SchedulerModel.Do(w.s, run[0].e)) == [] { LastOut(w.s, run[0].e); }
      }
      NoneStranded(Do(w, run[0]), run[1..]);
    }
  }

  /** While every task that leaves with its finish callback leaves from the active place, an
      empty scheduler keeps no one waiting. */
  lemma WaitAllServed(run: seq<Call>)
    requires Legal(Start(), run) && FinishActive(Start(), run)
    ensures Tasks(After(Start(), run).s) == [] ==> After(Start(), run).pending == 0
  {
    NoneStranded(Start(), run);
  }

  /** A task that ends instead of pausing: the scheduler is empty and waitAll waits on. */
  lemma StrandedExample()
    ensures var run := [Op(Push(0, false)), WaitAll, Op(Pause(0, true)), Op(Finished(0))];
      Legal(Start(), run) && Tasks(After(Start(), run).s) == [] && After(Start(), run).pending == 1
  {
    var w1 := Do(Start(), Op(Push(0, false)));
    var w2 := Do(w1, WaitAll);
    var w3 := Do(w2, Op(Pause(0, true)));
    assert |w3.s.delayed| == 1 && w3.s.waiting == [] && w3.s.active.None?;
    assert Tasks(w3.s) == w3.s.delayed;
    assert w3.s.delayed[0].value.id == 0;
    var w4 := Do(w3, Op(Finished(0)));
    assert Tasks(w4.s) == [];
    assert Legal(w4, []) && After(w4, []) == w4;
    assert Legal(w3, [Op(Finished(0))]) && After(w3, [Op(Finished(0))]) == w4;
    assert Legal(w2, [Op(Pause(0, true)), Op(Finished(0))]);
    assert After(w2, [Op(Pause(0, true)), Op(Finished(0))]) == w4;
    assert Legal(w1, [WaitAll, Op(Pause(0, true)), Op(Finished(0))]);
    assert After(w1, [WaitAll, Op(Pause(0, true)), Op(Finished(0))]) == w4;
  }
}

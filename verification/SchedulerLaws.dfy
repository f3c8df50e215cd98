/** What each operation of the scheduler does to the task it names and to the others, in every
    state a run leads to, and what follows of it for all that comes later. */
module SchedulerLaws {
  import opened PriorityOrder
  import opened Wrappers
  import opened SchedulerModel
  import opened SchedulerInvariant
  import opened SchedulerTheorems
  import M = ManageableTask

  predicate Holds(q: seq<Item>, id: TaskId) { exists x :: x in q && x.value.id == id }

  /** y is x, but for the time of its arrival. */
  predicate Alike(x: Item, y: Item) {
    y.priority == x.priority && y.value.(arrival := x.value.arrival) == x.value
  }

  /** A task that comes to the top has been let into its function, unless it was cancelled or
      has stopped. */
  predicate Started(x: Item, s: Sched) {
    && IsActive(s, x.value.id) && s.active.value.priority == x.priority && s.active.value.value.started
    && s.active.value.value.cancelled == x.value.cancelled
    && (if x.value.cancelled || x.value.st.Stopped? then s.active.value.value.st.Stopped?
        else s.active.value.value.st.Running? && x.value.id in s.ran)
  }

  /** A task put aside is paused, or has ended instead. */
  predicate PutAside(x: Item, y: Item) {
    && y.priority == x.priority && y.value.id == x.value.id && y.value.cancelled == x.value.cancelled
    && (y.value.st.Paused? || y.value.st.Stopped?)
    && (!x.value.st.Running? ==> y.value.st.Stopped?)
  }

  /** x comes to the scheduler in s and leaves it in s': it runs at once if nothing is active
      or what is has a lower priority, which then waits; otherwise it waits. */
  predicate Comes(s: Sched, x: Item, s': Sched) {
    && s'.delayed == s.delayed
    && if s.active.None? || s.active.value.priority < x.priority then
         && Started(x, s')
         && (forall y :: y in s.waiting ==> y in s'.waiting)
         && (s.active.Some? ==> exists y :: y in s'.waiting && PutAside(s.active.value, y))
         && |s'.waiting| == |s.waiting| + if s.active.Some? then 1 else 0
       else
         && s'.active == s.active && s'.ran == s.ran
         && (forall y :: y in s.waiting ==> y in s'.waiting)
         && (exists y :: y in s'.waiting && Alike(x, y))
         && |s'.waiting| == |s.waiting| + 1
  }

  lemma ScheduleComes(s: Sched, x: Item, ends: bool)
    requires StatesOk(s) && IdleOk(x, s.ran)
    ensures Comes(s, x, Schedule(s, x, ends))
  {
    var e := x.(value := x.value.(arrival := s.clock));
    var s' := Schedule(s, x, ends);
    if s.active.Some? {
      var p := PauseItem(s.active.value, ends);
      if s.active.value.priority < x.priority {
        assert s'.waiting[|s.waiting|] == p;
        assert p in s'.waiting && PutAside(s.active.value, p);
      } else {
        var k := Place(s.waiting, x.priority);
        assert s'.waiting[k] == e && Alike(x, e);
        assert s.waiting == s.waiting[..k] + s.waiting[k..];
      }
    }
  }

  lemma NotIn(q: seq<Item>, id: TaskId)
    requires Count(q, id) == 0
    ensures !Holds(q, id)
  {
    Absent(q, id);
  }

  // ---- Operation by operation ----

  /** push: a new task comes, not started and not asked for anything. */
  lemma PushBrings(run: seq<Event>, priority: int, ends: bool)
    requires Legal(Init(), run)
    ensures var s, s' := At(run), Do(At(run), Push(priority, ends));
      && s'.next == s.next + 1
      && exists x: Item :: x.priority == priority && x.value.id == s.next && x.value.st.WaitForStart?
           && !x.value.started && !x.value.cancelled && !x.value.pauseAsked && Comes(s, x, s')
  {
    InvAt(run);
    var s := At(run);
    var t := s.(next := s.next + 1, outstanding := s.outstanding + {s.next});
    var x := New(s.next, s.clock, priority);
    NextIs(s, Push(priority, ends));
    assert x.value.id !in s.ran;
    ScheduleComes(t, x, ends);
    assert Comes(s, x, Do(s, Push(priority, ends)));
  }

  /** resume: a delayed task leaves the delayed ones and comes to the scheduler as it is; for
      any other nothing changes. */
  lemma ResumeBrings(run: seq<Event>, id: TaskId, ends: bool)
    requires Legal(Init(), run)
    ensures var s, s' := At(run), Do(At(run), Resume(id, ends));
      && !Holds(s'.delayed, id)
      && (if Holds(s.delayed, id) then
            exists x :: x in s.delayed && x.value.id == id
              && Comes(s.(delayed := s'.delayed), x, s') && |s'.delayed| == |s.delayed| - 1
              && (forall y :: y in s.delayed && y != x ==> y in s'.delayed)
          else s' == s)
  {
    InvAt(run);
    var s := At(run);
    var d := Find(s.delayed, id);
    FindHolds(s.delayed, id);
    OnlyOne(s, id);
    if d < |s.delayed| {
      WaitingElsewhere(s, id);
      TakeDelayed(s, id);
      var x := s.delayed[d];
      var t := s.(delayed := Erase(s.delayed, d));
      ScheduleComes(t, x, ends);
      CountErase(s.delayed, d, id);
      NotIn(t.delayed, id);
      EraseRest(s.delayed, d);
      assert Comes(s.(delayed := t.delayed), x, Do(s, Resume(id, ends)));
      assert x in s.delayed && x.value.id == id;
    }
  }

  lemma FindHolds(q: seq<Item>, id: TaskId)
    ensures Holds(q, id) <==> Find(q, id) < |q|
    ensures Holds(q, id) <==> Count(q, id) > 0
  {
    CountFind(q, id);
    if x :| x in q && x.value.id == id { MemberCounts(q, x); }
    if Find(q, id) < |q| { assert q[Find(q, id)] in q; }
  }

  lemma OnlyOne(s: Sched, id: TaskId)
    requires Inv(s)
    ensures Homes(s, id) <= 1
  {
    assert Homes(s, id) <= (if id < s.next then 1 else 0);
  }

  /** A task that is delayed is not waiting and not active. */
  lemma WaitingElsewhere(s: Sched, id: TaskId)
    requires Inv(s) && Find(s.delayed, id) < |s.delayed|
    ensures Find(s.waiting, id) == |s.waiting| && !IsActive(s, id)
  {
    OnlyOne(s, id);
    CountFind(s.waiting, id);
    CountFind(s.delayed, id);
  }

  lemma EraseRest(q: seq<Item>, k: nat)
    requires k < |q|
    ensures forall y :: y in q && y != q[k] ==> y in Erase(q, k)
  {
    forall y | y in q && y != q[k]
      ensures y in Erase(q, k)
    {
      var i :| 0 <= i < |q| && q[i] == y;
      assert Erase(q, k)[if i < k then i else i - 1] == y;
    }
  }

  /** The task to run next among those waiting, in the words of NextIsTop: the first of the
      highest priority that was not asked to pause, or none if all were. Those asked to pause
      that come before it are delayed, the others wait on. */
  predicate NextOf(s: Sched, s': Sched) {
    && (if s'.active.None? then forall i :: 0 <= i < |s.waiting| ==> s.waiting[i].value.pauseAsked
        else exists i: nat :: i < |s.waiting| && IsNext(s.waiting, i) && Started(s.waiting[i], s')
                              && s'.waiting == s.waiting[..i])
    && (forall x :: x in s.delayed ==> x in s'.delayed)
    && (forall x :: x in s.waiting ==>
          x in s'.waiting || IsActive(s', x.value.id) || (x.value.pauseAsked && Holds(s'.delayed, x.value.id)))
  }

  lemma ResumeNextOf(s: Sched)
    requires s.active.None? && Ordered(s.waiting) && AllIdle(s.waiting, s.ran)
    ensures NextOf(s, ResumeNext(s))
  {
    var i := NextIsTop(s);
    Passed(s);
    if ResumeNext(s).active.Some? {
      assert s.waiting[i] in s.waiting;
      assert IsNext(s.waiting, i) && Started(s.waiting[i], ResumeNext(s));
    }
  }

  lemma {:induction false} Passed(s: Sched)
    requires s.active.None?
    ensures forall x :: x in s.delayed ==> x in ResumeNext(s).delayed
    ensures forall x :: x in s.waiting ==>
              || x in ResumeNext(s).waiting || IsActive(ResumeNext(s), x.value.id)
              || (x.value.pauseAsked && Holds(ResumeNext(s).delayed, x.value.id))
    decreases |s.waiting|
  {
    if s.waiting != [] {
      var front, last := s.waiting[..|s.waiting| - 1], s.waiting[|s.waiting| - 1];
      assert forall x :: x in s.waiting ==> x in front || x == last;
      if last.value.pauseAsked {
        var p := PauseItem(last, false);
        Passed(s.(waiting := front, delayed := s.delayed + [p]));
        assert p in s.delayed + [p];
      }
    }
  }

  /** pause of the active task puts it among the delayed and has the next one run. */
  lemma PauseActive(run: seq<Event>, id: TaskId, ends: bool)
    requires Legal(Init(), run) && IsActive(At(run), id)
    ensures var s, s' := At(run), Do(At(run), Pause(id, ends));
      && !IsActive(s', id)
      && (exists y :: y in s'.delayed && PutAside(s.active.value, y))
      && NextOf(s, s')
  {
    InvAt(run);
    var s := At(run);
    var p := PauseItem(s.active.value, ends);
    var t := s.(delayed := s.delayed + [p], active := None);
    ResumeNextOf(t);
    NotNext(s, t, id);
    assert p in t.delayed && PutAside(s.active.value, p);
  }

  /** The task that was active is not among those that may run next. */
  lemma NotNext(s: Sched, t: Sched, id: TaskId)
    requires Inv(s) && IsActive(s, id) && t.waiting == s.waiting && t.active.None?
    ensures !IsActive(ResumeNext(t), id)
  {
    OnlyOne(s, id);
    NotIn(s.waiting, id);
    var i := NextIsTop(t);
    if ResumeNext(t).active.Some? { assert s.waiting[i] in s.waiting; }
  }

  /** pause of a waiting task marks it, and only that. */
  lemma PauseWaiting(run: seq<Event>, id: TaskId, ends: bool)
    requires Legal(Init(), run) && !IsActive(At(run), id)
    ensures var s, s' := At(run), Do(At(run), Pause(id, ends));
      && s' == s.(waiting := s'.waiting) && |s'.waiting| == |s.waiting|
      && forall i :: 0 <= i < |s.waiting| ==>
           s'.waiting[i] == if s.waiting[i].value.id == id then Marked(s.waiting[i]) else s.waiting[i]
  {
    InvAt(run);
    var s := At(run);
    var k := Find(s.waiting, id);
    OnlyOne(s, id);
    if k < |s.waiting| {
      CountErase(s.waiting, k, id);
      NotIn(Erase(s.waiting, k), id);
      EraseAll(s.waiting, k);
    }
  }

  function Marked(x: Item): Item { x.(value := x.value.(pauseAsked := true)) }

  lemma EraseAll(q: seq<Item>, k: nat)
    requires k < |q|
    ensures forall i :: 0 <= i < |q| && i != k ==> q[i] in Erase(q, k)
  {
    forall i | 0 <= i < |q| && i != k
      ensures q[i] in Erase(q, k)
    {
      assert Erase(q, k)[if i < k then i else i - 1] == q[i];
    }
  }

  /** cancel of the active task asks it to stop. */
  lemma CancelActive(run: seq<Event>, id: TaskId, ends: bool)
    requires Legal(Init(), run) && IsActive(At(run), id)
    ensures var s, s' := At(run), Do(At(run), Cancel(id, ends));
      && s' == s.(active := s'.active) && IsActive(s', id)
      && (s'.active.value.value.st.Stopping? || s'.active.value.value.st.Stopped?)
  {
    InvAt(run);
  }

  /** cancel of a waiting task takes it out if it has not been started and marks it for the
      stop otherwise. */
  lemma CancelWaiting(run: seq<Event>, id: TaskId, ends: bool, x: Item)
    requires Legal(Init(), run) && x in At(run).waiting && x.value.id == id
    ensures var s, s' := At(run), Do(At(run), Cancel(id, ends));
      && s' == s.(waiting := s'.waiting)
      && (if x.value.started then x.(value := x.value.(cancelled := true)) in s'.waiting && |s'.waiting| == |s.waiting|
          else !Holds(s'.waiting, id) && |s'.waiting| == |s.waiting| - 1)
      && (forall y :: y in s.waiting && y != x ==> y in s'.waiting)
  {
    InvAt(run);
    var s := At(run);
    OnlyOne(s, id);
    MemberCounts(s.waiting, x);
    FindIs(s.waiting, x);
    var k := Find(s.waiting, id);
    EraseRest(s.waiting, k);
    CountErase(s.waiting, k, id);
    NotIn(Erase(s.waiting, k), id);
    if x.value.started {
      assert s.waiting[k := Cancelled(x)][k] == Cancelled(x);
      forall y | y in s.waiting && y != x
        ensures y in s.waiting[k := Cancelled(x)]
      {
        var i :| 0 <= i < |s.waiting| && s.waiting[i] == y;
        assert s.waiting[k := Cancelled(x)][i] == y;
      }
    }
  }

  /** cancel of a delayed task marks it for the stop and has it come to the scheduler. */
  lemma CancelDelayed(run: seq<Event>, id: TaskId, ends: bool)
    requires Legal(Init(), run) && Holds(At(run).delayed, id)
    ensures var s, s' := At(run), Do(At(run), Cancel(id, ends));
      && !Holds(s'.delayed, id)
      && exists x :: x in s.delayed && x.value.id == id
           && Comes(s.(delayed := s'.delayed), x.(value := x.value.(cancelled := true)), s')
           && (forall y :: y in s.delayed && y != x ==> y in s'.delayed)
  {
    InvAt(run);
    var s := At(run);
    var d := Find(s.delayed, id);
    FindHolds(s.delayed, id);
    OnlyOne(s, id);
    WaitingElsewhere(s, id);
    TakeDelayed(s, id);
    var x := s.delayed[d];
    var t := s.(delayed := Erase(s.delayed, d));
    ScheduleComes(t, Cancelled(x), ends);
    CountErase(s.delayed, d, id);
    NotIn(t.delayed, id);
    EraseRest(s.delayed, d);
    assert Comes(s.(delayed := t.delayed), x.(value := x.value.(cancelled := true)), Do(s, Cancel(id, ends)));
    assert x in s.delayed && x.value.id == id;
  }

  /** The finish callback of the active task has the next one run. */
  lemma FinishActive(run: seq<Event>, id: TaskId)
    requires Legal(Init(), run) && IsActive(At(run), id) && Enabled(At(run), Finished(id))
    ensures var s, s' := At(run), Do(At(run), Finished(id));
      && !IsActive(s', id) && NextOf(s, s')
  {
    InvAt(run);
    var s := At(run);
    var t := s.(outstanding := s.outstanding - {id}, active := None);
    ResumeNextOf(t);
    NotNext(s, t, id);
  }

  // ---- A task put aside stays aside ----

  /** The task is not active, and will be passed over if it is waiting. */
  predicate Aside(s: Sched, id: TaskId) {
    id < s.next && !IsActive(s, id) && forall x :: x in s.waiting && x.value.id == id ==> x.value.pauseAsked
  }

  lemma ScheduleAside(s: Sched, x: Item, ends: bool, id: TaskId)
    requires Aside(s, id) && x.value.id != id
    ensures Aside(Schedule(s, x, ends), id)
  {
    var e := x.(value := x.value.(arrival := s.clock));
    assert forall y :: y in Insert(s.waiting, e) ==> y == e || y in s.waiting;
  }

  lemma {:induction false} ResumeNextAside(s: Sched, id: TaskId)
    requires s.active.None? && Aside(s, id)
    ensures Aside(ResumeNext(s), id)
    decreases |s.waiting|
  {
    if s.waiting != [] {
      var front, last := s.waiting[..|s.waiting| - 1], s.waiting[|s.waiting| - 1];
      assert last in s.waiting;
      if last.value.pauseAsked {
        ResumeNextAside(s.(waiting := front, delayed := s.delayed + [PauseItem(last, false)]), id);
      }
    }
  }

  /** The task is resumed or cancelled while it is delayed. */
  predicate Recalls(s: Sched, e: Event, id: TaskId) {
    (e.Resume? || e.Cancel?) && e.id == id && Holds(s.delayed, id)
  }

  predicate NeverRecalled(s: Sched, run: seq<Event>, id: TaskId)
    requires Legal(s, run)
    decreases |run|
  {
    run == [] || (!Recalls(s, run[0], id) && NeverRecalled(Do(s, run[0]), run[1..], id))
  }

  lemma AsideStep(s: Sched, e: Event, id: TaskId)
    requires Aside(s, id) && Enabled(s, e) && !Recalls(s, e, id)
    ensures Aside(Do(s, e), id)
  {
    match e {
      case Push(priority, ends) =>
        var t := s.(next := s.next + 1, outstanding := s.outstanding + {s.next});
        ScheduleAside(t, New(s.next, s.clock, priority), ends, id);
        return;
      case Pause(p, ends) => PauseAside(s, p, ends, id); return;
      case Resume(r, ends) =>
        var k := Find(s.delayed, r);
        FindHolds(s.delayed, r);
        if k < |s.delayed| && Find(s.waiting, r) == |s.waiting| {
          ScheduleAside(s.(delayed := Erase(s.delayed, k)), s.delayed[k], ends, id);
        }
        return;
      case Cancel(c, ends) => CancelAside(s, c, ends, id); return;
      case TaskEnds => return;
      case Finished(f) => FinishedAside(s, f, id); return;
    }
  }

  lemma PauseAside(s: Sched, p: TaskId, ends: bool, id: TaskId)
    requires Aside(s, id)
    ensures Aside(PauseS(s, p, ends), id)
  {
    if IsActive(s, p) {
      ResumeNextAside(s.(delayed := s.delayed + [PauseItem(s.active.value, ends)], active := None), id);
      return;
    }
    var k := Find(s.waiting, p);
    if k < |s.waiting| { UpdateMembers(s.waiting, k, Marked(s.waiting[k])); }
  }

  lemma UpdateMembers(q: seq<Item>, k: nat, x: Item)
    requires k < |q|
    ensures q[k] in q && forall y :: y in q[k := x] ==> y == x || y in q
  {}

  lemma CancelAside(s: Sched, c: TaskId, ends: bool, id: TaskId)
    requires Aside(s, id) && (c == id ==> !Holds(s.delayed, id))
    ensures Aside(CancelS(s, c, ends), id)
  {
    FindHolds(s.delayed, c);
    if IsActive(s, c) { return; }
    var k := Find(s.waiting, c);
    if k < |s.waiting| {
      UpdateMembers(s.waiting, k, Cancelled(s.waiting[k]));
      EraseMembers(s.waiting, k);
      return;
    }
    var d := Find(s.delayed, c);
    if d < |s.delayed| { ScheduleAside(s.(delayed := Erase(s.delayed, d)), Cancelled(s.delayed[d]), ends, id); }
  }

  lemma FinishedAside(s: Sched, f: TaskId, id: TaskId)
    requires Aside(s, id)
    ensures Aside(FinishedS(s, f), id)
  {
    var t := s.(outstanding := s.outstanding - {f});
    if IsActive(s, f) {
      ResumeNextAside(t.(active := None), id);
      return;
    }
    if Find(s.waiting, f) < |s.waiting| { EraseMembers(s.waiting, Find(s.waiting, f)); }
  }

  lemma {:induction false} AsideAfter(s: Sched, run: seq<Event>, id: TaskId)
    requires Aside(s, id) && Legal(s, run) && NeverRecalled(s, run, id)
    ensures Aside(After(s, run), id)
    decreases |run|
  {
    if run != [] {
      AsideStep(s, run[0], id);
      AsideAfter(Do(s, run[0]), run[1..], id);
    }
  }

  /** Once paused, active or waiting or delayed, a task does not come to run again until it is
      resumed or cancelled while it is delayed, whatever happens to the others. To be resumed
      while it waits does not help it. */
  lemma PausedStaysAside(before: seq<Event>, id: TaskId, ends: bool, later: seq<Event>)
    requires Legal(Init(), before) && id < At(before).next
    requires Legal(Do(At(before), Pause(id, ends)), later)
    requires NeverRecalled(Do(At(before), Pause(id, ends)), later, id)
    ensures !IsActive(After(Do(At(before), Pause(id, ends)), later), id)
  {
    var s := At(before);
    InvAt(before);
    OnlyOne(s, id);
    NextIs(s, Pause(id, ends));
    if IsActive(s, id) {
      NotIn(s.waiting, id);
      ResumeNextAside(s.(delayed := s.delayed + [PauseItem(s.active.value, ends)], active := None), id);
    } else {
      PauseWaiting(before, id, ends);
    }
    AsideAfter(Do(s, Pause(id, ends)), later, id);
  }

  /** A task that waits and was not asked to pause comes to run once those before it have
      finished. */
  lemma {:induction false} ComesUp(s: Sched, x: Item) returns (run: seq<Event>)
    requires Inv(s) && CallbacksOk(s) && x in s.waiting && !x.value.pauseAsked
    ensures Legal(s, run) && NeverRecalled(s, run, x.value.id) && IsActive(After(s, run), x.value.id)
    decreases |s.waiting|, if s.active.Some? && s.active.value.value.st.Stopped? then 0 else 1
  {
    var a := s.active.value.value;
    var e := if a.st.Stopped? then Finished(a.id) else TaskEnds;
    if a.st.Stopped? { MayFinish(s); }
    var s' := Do(s, e);
    OrderStep(s, e);
    IdsStep(s, e);
    StatesStep(s, e);
    CallbacksStep(s, e);
    var rest := [];
    if a.st.Stopped? {
      var t := s.(outstanding := s.outstanding - {a.id}, active := None);
      ResumeNextOf(t);
      Shorter(t);
      if !IsActive(s', x.value.id) { rest := ComesUp(s', x); }
    } else {
      rest := ComesUp(s', x);
    }
    run := [e] + rest;
    assert run[1..] == rest;
  }

  lemma {:induction false} Shorter(s: Sched)
    requires s.active.None?
    ensures s.waiting != [] ==> |ResumeNext(s).waiting| < |s.waiting|
    decreases |s.waiting|
  {
    if s.waiting != [] {
      var last := s.waiting[|s.waiting| - 1];
      if last.value.pauseAsked {
        Shorter(s.(waiting := s.waiting[..|s.waiting| - 1], delayed := s.delayed + [PauseItem(last, false)]));
      }
    }
  }

  lemma MayFinish(s: Sched)
    requires Inv(s) && CallbacksOk(s) && s.active.Some? && s.active.value.value.st.Stopped?
    ensures Enabled(s, Finished(s.active.value.value.id))
  {
    var id := s.active.value.value.id;
    OnlyOne(s, id);
    assert Homes(s, id) > 0;
    NotIn(s.waiting, id);
    NotIn(s.delayed, id);
  }

  lemma CallbacksStep(s: Sched, e: Event)
    requires Inv(s) && CallbacksOk(s) && Enabled(s, e)
    ensures CallbacksOk(Do(s, e))
  {
    assert Legal(Do(s, e), []) && After(Do(s, e), []) == Do(s, e);
    assert [e][1..] == [];
    CallbacksAfter(s, [e]);
  }

  /** With nothing more asked of the task, it comes to run. */
  predicate ComesToRun(s: Sched, later: seq<Event>, id: TaskId) {
    Legal(s, later) && NeverRecalled(s, later, id) && IsActive(After(s, later), id)
  }

  /** To resume a waiting task is heeded if and only if it has not been asked to pause: then
      it can come to run with nothing more asked of it, and otherwise it cannot. */
  lemma ResumeHeededIff(run: seq<Event>, id: TaskId, ends: bool)
    requires Legal(Init(), run) && Find(At(run).waiting, id) < |At(run).waiting|
    ensures var s, s' := At(run), Do(At(run), Resume(id, ends));
      (exists later :: ComesToRun(s', later, id)) <==> !s.waiting[Find(s.waiting, id)].value.pauseAsked
  {
    InvAt(run);
    CallbacksAfter(Init(), run);
    var s := At(run);
    var x := s.waiting[Find(s.waiting, id)];
    assert x in s.waiting && Do(s, Resume(id, ends)) == s;
    OnlyOne(s, id);
    MemberCounts(s.waiting, x);
    if x.value.pauseAsked {
      forall y | y in s.waiting && y.value.id == id
        ensures y == x
      {
        FindIs(s.waiting, y);
      }
      forall later
        ensures !ComesToRun(s, later, id)
      {
        if Legal(s, later) && NeverRecalled(s, later, id) { AsideAfter(s, later, id); }
      }
    } else {
      var later := ComesUp(s, x);
      assert ComesToRun(s, later, id);
    }
  }

  /** The second task is paused and resumed while it waits: when the first has finished it is
      delayed all the same, and nothing runs. */
  lemma UnheededExample()
    ensures var run := [Push(0, false), Push(0, false), Pause(1, false), Resume(1, false), TaskEnds, Finished(0)];
      Legal(Init(), run) && At(run).active.None? && Holds(At(run).delayed, 1)
  {
    var x, y := ResumeItem(New(0, 0, 0)), New(1, 1, 0);
    var s1 := Sched([], [], Some(x), 1, 1, {0}, {0});
    var s2 := Sched([y], [], Some(x), 2, 2, {0, 1}, {0});
    var s3 := s2.(waiting := [Marked(y)]);
    var s4 := s3.(active := Some(x.(value := x.value.(st := M.Stopped))));
    var s5 := Sched([], [y], None, 2, 2, {1}, {0});
    Begins(x, y, s1, s2, s3);
    Ends(s4, y, s5);
    assert Legal(s5, []) && After(s5, []) == s5;
    First(s4, Finished(0), s5, [], s5);
    First(s3, TaskEnds, s4, [Finished(0)], s5);
    First(s3, Resume(1, false), s3, [TaskEnds, Finished(0)], s5);
    First(s2, Pause(1, false), s3, [Resume(1, false), TaskEnds, Finished(0)], s5);
    First(s1, Push(0, false), s2, [Pause(1, false), Resume(1, false), TaskEnds, Finished(0)], s5);
    First(Init(), Push(0, false), s1, [Push(0, false), Pause(1, false), Resume(1, false), TaskEnds, Finished(0)],
          s5);
    assert y in s5.delayed;
  }

  lemma First(s: Sched, e: Event, s': Sched, rest: seq<Event>, end: Sched)
    requires Enabled(s, e) && Do(s, e) == s' && Legal(s', rest) && After(s', rest) == end
    ensures Legal(s, [e] + rest) && After(s, [e] + rest) == end
  {
    assert ([e] + rest)[1..] == rest;
  }

  lemma Begins(x: Item, y: Item, s1: Sched, s2: Sched, s3: Sched)
    requires x == ResumeItem(New(0, 0, 0)) && y == New(1, 1, 0)
    requires s1 == Sched([], [], Some(x), 1, 1, {0}, {0}) && s2 == Sched([y], [], Some(x), 2, 2, {0, 1}, {0})
    requires s3 == s2.(waiting := [Marked(y)])
    ensures Do(Init(), Push(0, false)) == s1 && Do(s1, Push(0, false)) == s2
    ensures Do(s2, Pause(1, false)) == s3 && Do(s3, Resume(1, false)) == s3
  {
    assert Insert([], y) == [y];
  }

  lemma Ends(s: Sched, y: Item, s': Sched)
    requires s.waiting == [Marked(y)] && s.delayed == [] && s.outstanding == {0, 1} && s.ran == {0}
    requires s.active.Some? && s.active.value.value.id == 0 && s.active.value.value.st.Stopped?
    requires y == New(1, 1, 0) && s' == Sched([], [y], None, s.next, s.clock, {1}, {0})
    ensures Enabled(s, Finished(0)) && Do(s, Finished(0)) == s'
  {
    assert Tasks(s) == [Marked(y), s.active.value];
    var t := s.(outstanding := {1}, active := None);
    assert s.outstanding - {0} == {1};
    assert PauseItem(Marked(y), false) == y;
    assert [Marked(y)][..0] == [];
    assert ResumeNext(t.(waiting := [], delayed := [y])) == s';
    assert ResumeNext(t) == s';
  }

  // ---- A cancelled task never goes on ----

  predicate StopsIn(q: seq<Item>, id: TaskId) {
    forall x :: x in q && x.value.id == id ==> x.value.cancelled || x.value.st.Stopped?
  }

  /** The task is asked to stop, or will be as soon as it comes up. */
  predicate Bound(s: Sched, id: TaskId) {
    && id < s.next && StopsIn(s.waiting, id) && StopsIn(s.delayed, id)
    && (IsActive(s, id) ==> s.active.value.value.st.Stopping? || s.active.value.value.st.Stopped?)
  }

  lemma ScheduleBound(s: Sched, x: Item, ends: bool, id: TaskId)
    requires Bound(s, id) && (x.value.id == id ==> x.value.cancelled || x.value.st.Stopped?)
    ensures Bound(Schedule(s, x, ends), id)
  {
    var e := x.(value := x.value.(arrival := s.clock));
    assert forall y :: y in Insert(s.waiting, e) ==> y == e || y in s.waiting;
  }

  lemma {:induction false} ResumeNextBound(s: Sched, id: TaskId)
    requires s.active.None? && Bound(s, id)
    ensures Bound(ResumeNext(s), id)
    decreases |s.waiting|
  {
    if s.waiting != [] {
      var front, last := s.waiting[..|s.waiting| - 1], s.waiting[|s.waiting| - 1];
      assert last in s.waiting;
      if last.value.pauseAsked {
        ResumeNextBound(s.(waiting := front, delayed := s.delayed + [PauseItem(last, false)]), id);
      }
    }
  }

  lemma BoundStep(s: Sched, e: Event, id: TaskId)
    requires Bound(s, id) && Enabled(s, e)
    ensures Bound(Do(s, e), id)
  {
    match e {
      case Push(priority, ends) =>
        var t := s.(next := s.next + 1, outstanding := s.outstanding + {s.next});
        ScheduleBound(t, New(s.next, s.clock, priority), ends, id);
        return;
      case Pause(p, ends) => PauseBound(s, p, ends, id); return;
      case Resume(r, ends) =>
        var k := Find(s.delayed, r);
        if k < |s.delayed| {
          EraseMembers(s.delayed, k);
          assert s.delayed[k] in s.delayed;
          ScheduleBound(s.(delayed := Erase(s.delayed, k)), s.delayed[k], ends, id);
        }
        return;
      case Cancel(c, ends) => CancelBound(s, c, ends, id); return;
      case TaskEnds => return;
      case Finished(f) => FinishedBound(s, f, id); return;
    }
  }

  lemma PauseBound(s: Sched, p: TaskId, ends: bool, id: TaskId)
    requires Bound(s, id)
    ensures Bound(PauseS(s, p, ends), id)
  {
    if IsActive(s, p) {
      ResumeNextBound(s.(delayed := s.delayed + [PauseItem(s.active.value, ends)], active := None), id);
      return;
    }
    var k := Find(s.waiting, p);
    if k < |s.waiting| { UpdateMembers(s.waiting, k, Marked(s.waiting[k])); }
  }

  lemma CancelBound(s: Sched, c: TaskId, ends: bool, id: TaskId)
    requires Bound(s, id)
    ensures Bound(CancelS(s, c, ends), id)
  {
    if IsActive(s, c) { return; }
    var k := Find(s.waiting, c);
    if k < |s.waiting| {
      UpdateMembers(s.waiting, k, Cancelled(s.waiting[k]));
      EraseMembers(s.waiting, k);
      return;
    }
    var d := Find(s.delayed, c);
    if d < |s.delayed| {
      EraseMembers(s.delayed, d);
      ScheduleBound(s.(delayed := Erase(s.delayed, d)), Cancelled(s.delayed[d]), ends, id);
    }
  }

  lemma FinishedBound(s: Sched, f: TaskId, id: TaskId)
    requires Bound(s, id)
    ensures Bound(FinishedS(s, f), id)
  {
    var t := s.(outstanding := s.outstanding - {f});
    if IsActive(s, f) {
      ResumeNextBound(t.(active := None), id);
      return;
    }
    var k, d := Find(s.waiting, f), Find(s.delayed, f);
    if k < |s.waiting| { EraseMembers(s.waiting, k); }
    else if d < |s.delayed| { EraseMembers(s.delayed, d); }
  }

  lemma {:induction false} BoundAfter(s: Sched, run: seq<Event>, id: TaskId)
    requires Bound(s, id) && Legal(s, run)
    ensures Bound(After(s, run), id)
    decreases |run|
  {
    if run != [] {
      BoundStep(s, run[0], id);
      BoundAfter(Do(s, run[0]), run[1..], id);
    }
  }

  lemma CancelBinds(run: seq<Event>, id: TaskId, ends: bool)
    requires Legal(Init(), run) && id < At(run).next
    ensures Bound(Do(At(run), Cancel(id, ends)), id)
  {
    var s := At(run);
    InvAt(run);
    OnlyOne(s, id);
    NextIs(s, Cancel(id, ends));
    FindHolds(s.waiting, id);
    FindHolds(s.delayed, id);
    if IsActive(s, id) { return; }
    var k, d := Find(s.waiting, id), Find(s.delayed, id);
    if k < |s.waiting| {
      UpdateMembers(s.waiting, k, Cancelled(s.waiting[k]));
      CountErase(s.waiting, k, id);
      NotIn(Erase(s.waiting, k), id);
      EraseAll(s.waiting, k);
      assert forall y :: y in s.waiting[k := Cancelled(s.waiting[k])] ==>
          y == Cancelled(s.waiting[k]) || y in Erase(s.waiting, k);
      return;
    }
    if d < |s.delayed| {
      CountErase(s.delayed, d, id);
      NotIn(Erase(s.delayed, d), id);
      ScheduleBound(s.(delayed := Erase(s.delayed, d)), Cancelled(s.delayed[d]), ends, id);
    }
  }

  /** Once cancelled, a task is never again let go on: whenever it is active it is stopping or
      stopped, whatever is asked of it afterwards. */
  lemma CancelledStops(before: seq<Event>, id: TaskId, ends: bool, later: seq<Event>)
    requires Legal(Init(), before) && id < At(before).next
    requires Legal(Do(At(before), Cancel(id, ends)), later)
    ensures var s := After(Do(At(before), Cancel(id, ends)), later);
      IsActive(s, id) ==> s.active.value.value.st.Stopping? || s.active.value.value.st.Stopped?
  {
    CancelBinds(before, id, ends);
    BoundAfter(Do(At(before), Cancel(id, ends)), later, id);
  }
}

/** Over every run of push, pause, resume, cancel and finish, in any order. */
module SchedulerTheorems {
  import opened PriorityOrder
  import opened Wrappers
  import opened SchedulerModel
  import opened SchedulerInvariant
  import M = ManageableTask

  /** The active task outranks every waiting one, and among equals it came first; with nothing
      active nothing waits. */
  lemma PriorityKept(run: seq<Event>)
    requires Legal(Init(), run)
    ensures var s := At(run);
      && Ordered(s.waiting) && Ascending(s.waiting)
      && (s.active.None? ==> s.waiting == [])
      && (s.active.Some? ==> forall i :: 0 <= i < |s.waiting| ==> Before(s.active.value, s.waiting[i]))
  {
    InvAt(run);
  }

  /** i is the one to start: not asked to pause, and first among all that are not. */
  predicate IsNext(q: seq<Item>, i: nat)
    requires i < |q|
  {
    && !q[i].value.pauseAsked
    && forall j :: 0 <= j < |q| && j != i && !q[j].value.pauseAsked ==> Before(q[i], q[j])
  }

  lemma LastIsNext(q: seq<Item>)
    requires Ordered(q) && q != [] && !q[|q| - 1].value.pauseAsked
    ensures IsNext(q, |q| - 1)
  {}

  lemma StillNext(q: seq<Item>, i: nat)
    requires q != [] && q[|q| - 1].value.pauseAsked && i < |q| - 1 && IsNext(q[..|q| - 1], i)
    ensures IsNext(q, i)
  {
    var front := q[..|q| - 1];
    forall j | 0 <= j < |q| && j != i && !q[j].value.pauseAsked
      ensures Before(q[i], q[j])
    {
      assert front[j] == q[j];
    }
  }

  /** resumeNextTask starts the waiting task of the highest priority that came first, passing
      over those asked to pause; only when all were asked does nothing start. */
  lemma {:induction false} NextIsTop(s: Sched) returns (i: int)
    requires s.active.None? && Ordered(s.waiting)
    ensures ResumeNext(s).active.None? ==> forall j :: 0 <= j < |s.waiting| ==> s.waiting[j].value.pauseAsked
    ensures ResumeNext(s).active.Some? ==>
              && 0 <= i < |s.waiting| && IsNext(s.waiting, i) && ResumeNext(s).active == Some(ResumeItem(s.waiting[i]))
              && ResumeNext(s).waiting == s.waiting[..i]
              && ResumeNext(s).ran == (if LetsIn(s.waiting[i]) then s.ran + {s.waiting[i].value.id} else s.ran)
    decreases |s.waiting|
  {
    i := -1;
    if s.waiting != [] {
      i := |s.waiting| - 1;
      var last := s.waiting[i];
      if !last.value.pauseAsked {
        LastIsNext(s.waiting);
        return;
      }
      i := NextIsTop(s.(waiting := s.waiting[..i], delayed := s.delayed + [PauseItem(last, false)]));
      if 0 <= i < |s.waiting| - 1 && IsNext(s.waiting[..|s.waiting| - 1], i) {
        StillNext(s.waiting, i);
      }
    }
  }

  /** Each id is in one place or gone, and an id not given out is nowhere. */
  lemma OnePlace(run: seq<Event>, id: TaskId)
    requires Legal(Init(), run)
    ensures Homes(At(run), id) <= (if id < At(run).next then 1 else 0)
  {
    InvAt(run);
  }

  lemma {:induction false} NeverBack(s: Sched, run: seq<Event>, id: TaskId)
    requires Legal(s, run) && id < s.next && Homes(s, id) == 0
    ensures Homes(After(s, run), id) == 0
    decreases |run|
  {
    if run != [] {
      HomesStep(s, run[0], id);
      NextIs(s, run[0]);
      CountFind(s.waiting, id);
      NeverBack(Do(s, run[0]), run[1..], id);
    }
  }

  lemma {:induction false} MemberCounts(q: seq<Item>, x: Item)
    requires x in q
    ensures Count(q, x.value.id) > 0
  {
    if q[0] != x {
      MemberCounts(q[1..], x);
    }
  }

  lemma FindIs(q: seq<Item>, x: Item)
    requires x in q && Count(q, x.value.id) <= 1
    ensures Find(q, x.value.id) < |q| && q[Find(q, x.value.id)] == x
  {
    var id := x.value.id;
    MemberCounts(q, x);
    CountFind(q, id);
    var k := Find(q, id);
    if q[k] != x {
      CountErase(q, k, id);
      assert q == q[..k] + [q[k]] + q[k + 1..];
      assert x in Erase(q, k);
      MemberCounts(Erase(q, k), x);
    }
  }

  /** A task leaves only when it has stopped or before it was ever let into its function: no
      operation loses one on the way. */
  lemma LeavesWhenDone(s: Sched, e: Event, id: TaskId)
    requires Inv(s) && Enabled(s, e) && Homes(s, id) > 0 && Homes(Do(s, e), id) == 0
    ensures (e == Finished(id) && forall x :: x in Tasks(s) && x.value.id == id ==> x.value.st.Stopped?)
            || (e.Cancel? && e.id == id && id !in s.ran)
  {
    HomesStep(s, e, id);
    if e.Cancel? {
      assert s.waiting[Find(s.waiting, id)] in s.waiting;
    }
  }

  /** Only the active task can be in its function: a task in WaitForStart or Paused is not
      (ManageableTask.NoLostWakeUp), nor is a stopped one. */
  lemma OnlyActiveRuns(run: seq<Event>, x: Item)
    requires Legal(Init(), run) && x in Tasks(At(run))
    ensures x.value.st.Running? || x.value.st.Stopping? ==> At(run).active == Some(x)
    ensures IdleState(x.value.st) || x.value.st.Running? || x.value.st.Stopping?
    ensures x.value.st.Running? ==> x.value.id in At(run).ran
  {
    InvAt(run);
  }

  // ---- Callbacks ----

  ghost predicate CallbacksOk(s: Sched) {
    (forall id :: Homes(s, id) > 0 ==> id in s.outstanding) && forall id :: id in s.outstanding ==> id < s.next
  }

  lemma {:induction false} CallbacksAfter(s: Sched, run: seq<Event>)
    requires Inv(s) && CallbacksOk(s) && Legal(s, run)
    ensures CallbacksOk(After(s, run))
    decreases |run|
  {
    if run != [] {
      var e := run[0];
      NextIs(s, e);
      forall id: TaskId
        ensures Homes(Do(s, e), id) > 0 ==> id in Do(s, e).outstanding
      {
        HomesStep(s, e, id);
        assert Homes(s, id) <= (if id < s.next then 1 else 0);
      }
      OrderStep(s, e);
      IdsStep(s, e);
      StatesStep(s, e);
      CallbacksAfter(Do(s, e), run[1..]);
    }
  }

  /** A task in the scheduler always has its finish callback still to come, so one that has
      stopped is going to be taken out. */
  lemma CallbackToCome(run: seq<Event>, x: Item)
    requires Legal(Init(), run) && x in Tasks(At(run))
    ensures x.value.id in At(run).outstanding
    ensures x.value.st.Stopped? ==> Enabled(At(run), Finished(x.value.id))
  {
    InvAfter(Init(), run);
    CallbacksAfter(Init(), run);
    var s, id := At(run), x.value.id;
    assert Homes(s, id) <= 1;
    forall y | y in Tasks(s) && y.value.id == id
      ensures y == x
    {
      SameTask(s, x, y);
    }
    InPlace(s, x);
  }

  lemma InPlace(s: Sched, x: Item)
    requires x in Tasks(s)
    ensures Homes(s, x.value.id) > 0
  {
    if x in s.waiting {
      MemberCounts(s.waiting, x);
    } else if x in s.delayed {
      MemberCounts(s.delayed, x);
    }
  }

  lemma SameTask(s: Sched, x: Item, y: Item)
    requires x in Tasks(s) && y in Tasks(s) && x.value.id == y.value.id && Homes(s, x.value.id) <= 1
    ensures x == y
  {
    if x in s.waiting { MemberCounts(s.waiting, x); FindIs(s.waiting, x); }
    if y in s.waiting { MemberCounts(s.waiting, y); FindIs(s.waiting, y); }
    if x in s.delayed { MemberCounts(s.delayed, x); FindIs(s.delayed, x); }
    if y in s.delayed { MemberCounts(s.delayed, y); FindIs(s.delayed, y); }
  }

  // ---- A task cancelled before it first ran ----

  predicate DoomedIn(q: seq<Item>, id: TaskId) {
    forall x :: x in q && x.value.id == id ==> x.value.cancelled
  }

  predicate Doomed(s: Sched, id: TaskId) {
    && id < s.next && id !in s.ran
    && DoomedIn(s.waiting, id) && DoomedIn(s.delayed, id)
    && (IsActive(s, id) ==> s.active.value.value.cancelled)
  }

  lemma ScheduleDoomed(s: Sched, x: Item, ends: bool, id: TaskId)
    requires Doomed(s, id) && (x.value.id == id ==> x.value.cancelled)
    ensures Doomed(Schedule(s, x, ends), id)
  {
    var e := x.(value := x.value.(arrival := s.clock));
    assert forall y :: y in Insert(s.waiting, e) ==> y == e || y in s.waiting;
  }

  lemma {:induction false} ResumeNextDoomed(s: Sched, id: TaskId)
    requires s.active.None? && Doomed(s, id)
    ensures Doomed(ResumeNext(s), id)
    decreases |s.waiting|
  {
    if s.waiting != [] {
      var front, last := s.waiting[..|s.waiting| - 1], s.waiting[|s.waiting| - 1];
      assert last in s.waiting;
      if last.value.pauseAsked {
        ResumeNextDoomed(s.(waiting := front, delayed := s.delayed + [PauseItem(last, false)]), id);
      }
    }
  }

  lemma FlagDoomed(s: Sched, k: nat, x: Item, id: TaskId)
    requires Doomed(s, id) && k < |s.waiting| && x.value.id == s.waiting[k].value.id
    requires s.waiting[k].value.cancelled ==> x.value.cancelled
    ensures Doomed(s.(waiting := s.waiting[k := x]), id)
  {
    assert s.waiting[k] in s.waiting;
    assert forall y :: y in s.waiting[k := x] ==> y == x || y in s.waiting;
  }

  lemma EraseMembers(q: seq<Item>, k: nat)
    requires k < |q|
    ensures forall y :: y in Erase(q, k) ==> y in q
  {}

  lemma DoomedStep(s: Sched, e: Event, id: TaskId)
    requires Doomed(s, id) && Enabled(s, e)
    ensures Doomed(Do(s, e), id)
  {
    match e {
      case Push(priority, ends) =>
        var t := s.(next := s.next + 1, outstanding := s.outstanding + {s.next});
        ScheduleDoomed(t, New(s.next, s.clock, priority), ends, id);
        return;
      case Pause(p, ends) =>
        if IsActive(s, p) {
          ResumeNextDoomed(s.(delayed := s.delayed + [PauseItem(s.active.value, ends)], active := None), id);
          return;
        }
        var k := Find(s.waiting, p);
        if k < |s.waiting| {
          FlagDoomed(s, k, s.waiting[k].(value := s.waiting[k].value.(pauseAsked := true)), id);
        }
        return;
      case Resume(r, ends) =>
        var k := Find(s.delayed, r);
        if k < |s.delayed| {
          EraseMembers(s.delayed, k);
          assert s.delayed[k] in s.delayed;
          ScheduleDoomed(s.(delayed := Erase(s.delayed, k)), s.delayed[k], ends, id);
        }
        return;
      case Cancel(c, ends) => CancelDoomed(s, c, ends, id); return;
      case TaskEnds => return;
      case Finished(f) => FinishedDoomed(s, f, id); return;
    }
  }

  lemma CancelDoomed(s: Sched, c: TaskId, ends: bool, id: TaskId)
    requires Doomed(s, id)
    ensures Doomed(CancelS(s, c, ends), id)
  {
    if IsActive(s, c) {
      return;
    }
    var k := Find(s.waiting, c);
    if k < |s.waiting| {
      FlagDoomed(s, k, Cancelled(s.waiting[k]), id);
      EraseMembers(s.waiting, k);
      return;
    }
    var d := Find(s.delayed, c);
    if d < |s.delayed| {
      EraseMembers(s.delayed, d);
      ScheduleDoomed(s.(delayed := Erase(s.delayed, d)), Cancelled(s.delayed[d]), ends, id);
    }
  }

  lemma FinishedDoomed(s: Sched, f: TaskId, id: TaskId)
    requires Doomed(s, id)
    ensures Doomed(FinishedS(s, f), id)
  {
    var t := s.(outstanding := s.outstanding - {f});
    if IsActive(s, f) {
      ResumeNextDoomed(t.(active := None), id);
      return;
    }
    var k, d := Find(s.waiting, f), Find(s.delayed, f);
    if k < |s.waiting| {
      EraseMembers(s.waiting, k);
    } else if d < |s.delayed| {
      EraseMembers(s.delayed, d);
    }
  }

  lemma {:induction false} DoomedAfter(s: Sched, run: seq<Event>, id: TaskId)
    requires Doomed(s, id) && Legal(s, run)
    ensures Doomed(After(s, run), id)
    decreases |run|
  {
    if run != [] {
      DoomedStep(s, run[0], id);
      DoomedAfter(Do(s, run[0]), run[1..], id);
    }
  }

  lemma CancelDooms(s: Sched, id: TaskId, ends: bool)
    requires Inv(s) && id < s.next && id !in s.ran
    ensures Doomed(CancelS(s, id, ends), id)
  {
    assert Homes(s, id) <= 1;
    CountFind(s.waiting, id);
    CountFind(s.delayed, id);
    var k, d := Find(s.waiting, id), Find(s.delayed, id);
    if IsActive(s, id) {
      Absent(s.waiting, id);
      Absent(s.delayed, id);
    } else if k < |s.waiting| {
      CountErase(s.waiting, k, id);
      Absent(Erase(s.waiting, k), id);
      Absent(s.delayed, id);
      assert forall y :: y in s.waiting[k := Cancelled(s.waiting[k])] ==>
          y == Cancelled(s.waiting[k]) || y in Erase(s.waiting, k);
    } else if d < |s.delayed| {
      CountErase(s.delayed, d, id);
      Absent(Erase(s.delayed, d), id);
      Absent(s.waiting, id);
      ScheduleDoomed(s.(delayed := Erase(s.delayed, d)), Cancelled(s.delayed[d]), ends, id);
    } else {
      Absent(s.waiting, id);
      Absent(s.delayed, id);
    }
  }

  /** Cancelled before its function was ever entered, a task never enters it, whatever is
      asked of it afterwards. */
  lemma CancelledNeverRuns(before: seq<Event>, id: TaskId, ends: bool, later: seq<Event>)
    requires Legal(Init(), before) && id < At(before).next && id !in At(before).ran
    requires Legal(CancelS(At(before), id, ends), later)
    ensures id !in After(CancelS(At(before), id, ends), later).ran
  {
    InvAt(before);
    CancelDooms(At(before), id, ends);
    DoomedAfter(CancelS(At(before), id, ends), later, id);
  }
}

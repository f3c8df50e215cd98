/** Scheduler::Impl: a preemptive priority scheduler over ManageableTask. Every operation runs
    to its end on the scheduler's one thread, so an operation is one step; between operations
    the active task may end, and the callback of a stopped task arrives some time later.
    Step functions on a snapshot are the specification; the class carries them out. */
module SchedulerModel {
  import opened PriorityOrder
  import opened Wrappers
  import M = ManageableTask

  type TaskId = nat

  /** arrival is history, not a field of the code: the moment the task was last given to
      schedule. cancelled is !stopPromises.empty() and pauseAsked !pausePromises.empty(). */
  datatype Task = Task(id: TaskId, arrival: nat, started: bool, cancelled: bool, pauseAsked: bool, st: M.State)

  type Item = Storage<Task>

  /** clock numbers the arrivals; outstanding holds the ids whose finish callback has not run;
      ran is history: the ids whose function the controller was let into. */
  datatype Sched = Sched(
    waiting: seq<Item>, delayed: seq<Item>, active: Option<Item>, next: TaskId,
    clock: nat, outstanding: set<TaskId>, ran: set<TaskId>)

  /** ends: whether a running task that is paused ends instead of reaching a check point. */
  datatype Event =
    | Push(priority: int, ends: bool)
    | Pause(id: TaskId, ends: bool)
    | Resume(id: TaskId, ends: bool)
    | Cancel(id: TaskId, ends: bool)
    | TaskEnds
    | Finished(id: TaskId)

  function Init(): Sched { Sched([], [], None, 0, 0, {}, {}) }

  // ---- The controller's blocking calls, as ManageableTask.Settles justifies them ----

  function Paused(st: M.State, ends: bool): M.State {
    match st
    case Running => if ends then M.Stopped else M.Paused
    case Stopping => M.Stopped
    case WaitForStart | Pausing | Paused | Resuming | Stopped => st
  }

  function Resumed(st: M.State): M.State {
    match st
    case WaitForStart | Paused => M.Running
    case Running | Pausing | Resuming | Stopping | Stopped => st
  }

  function AskedToStop(st: M.State): M.State {
    if st.Stopped? then st else M.Stopping
  }

  // ---- Task ----

  function PauseItem(x: Item, ends: bool): Item {
    x.(value := x.value.(pauseAsked := false, st := Paused(x.value.st, ends)))
  }

  function ResumeItem(x: Item): Item {
    x.(value := x.value.(started := true, st := if x.value.cancelled then M.Stopped else Resumed(x.value.st)))
  }

  /** Whether resuming this task lets its function run. */
  predicate LetsIn(x: Item) { !x.value.cancelled && !x.value.st.Stopped? }

  // ---- The scheduler ----

  /** findTaskById: the index, or the length when there is none. */
  function Find(q: seq<Item>, id: TaskId): (k: nat)
    ensures k <= |q|
    ensures k < |q| ==> q[k].value.id == id
    ensures forall i :: 0 <= i < k ==> q[i].value.id != id
  {
    if q == [] || q[0].value.id == id then 0 else 1 + Find(q[1..], id)
  }

  function Erase(q: seq<Item>, k: nat): seq<Item>
    requires k < |q|
  {
    q[..k] + q[k + 1..]
  }

  function Activate(s: Sched, x: Item): Sched {
    s.(active := Some(ResumeItem(x)), ran := if LetsIn(x) then s.ran + {x.value.id} else s.ran)
  }

  function Schedule(s: Sched, x: Item, ends: bool): Sched {
    var e := x.(value := x.value.(arrival := s.clock));
    var t := s.(clock := s.clock + 1);
    if s.active.None? then Activate(t, e)
    else if s.active.value.priority < x.priority then
      Activate(t.(waiting := s.waiting + [PauseItem(s.active.value, ends)]), e)
    else t.(waiting := Insert(s.waiting, e))
  }

  function ResumeNext(s: Sched): Sched
    decreases |s.waiting|
  {
    if s.waiting == [] then s
    else
      var last := s.waiting[|s.waiting| - 1];
      var t := s.(waiting := s.waiting[..|s.waiting| - 1]);
      if last.value.pauseAsked then ResumeNext(t.(delayed := s.delayed + [PauseItem(last, false)]))
      else Activate(t, last)
  }

  function New(id: TaskId, clock: nat, priority: int): Item {
    Storage(priority, Task(id, clock, false, false, false, M.WaitForStart))
  }

  function PushS(s: Sched, priority: int, ends: bool): Sched {
    Schedule(s.(next := s.next + 1, outstanding := s.outstanding + {s.next}), New(s.next, s.clock, priority), ends)
  }

  predicate IsActive(s: Sched, id: TaskId) { s.active.Some? && s.active.value.value.id == id }

  function PauseS(s: Sched, id: TaskId, ends: bool): Sched {
    if IsActive(s, id) then
      ResumeNext(s.(delayed := s.delayed + [PauseItem(s.active.value, ends)], active := None))
    else
      var k := Find(s.waiting, id);
      if k < |s.waiting| then
        var x := s.waiting[k];
        s.(waiting := s.waiting[k := x.(value := x.value.(pauseAsked := true))])
      else s
  }

  function ResumeS(s: Sched, id: TaskId, ends: bool): Sched {
    if Find(s.waiting, id) < |s.waiting| then s
    else
      var k := Find(s.delayed, id);
      if k < |s.delayed| then Schedule(s.(delayed := Erase(s.delayed, k)), s.delayed[k], ends) else s
  }

  function Cancelled(x: Item): Item { x.(value := x.value.(cancelled := true)) }

  function CancelS(s: Sched, id: TaskId, ends: bool): Sched {
    if IsActive(s, id) then
      var a := s.active.value;
      s.(active := Some(a.(value := a.value.(st := AskedToStop(a.value.st)))))
    else
      var k := Find(s.waiting, id);
      if k < |s.waiting| then
        if s.waiting[k].value.started then s.(waiting := s.waiting[k := Cancelled(s.waiting[k])])
        else s.(waiting := Erase(s.waiting, k))
      else
        var d := Find(s.delayed, id);
        if d < |s.delayed| then Schedule(s.(delayed := Erase(s.delayed, d)), Cancelled(s.delayed[d]), ends) else s
  }

  function EraseTask(s: Sched, id: TaskId): Sched {
    var k := Find(s.waiting, id);
    if k < |s.waiting| then s.(waiting := Erase(s.waiting, k))
    else
      var d := Find(s.delayed, id);
      if d < |s.delayed| then s.(delayed := Erase(s.delayed, d)) else s
  }

  /** The callback of createTask. */
  function FinishedS(s: Sched, id: TaskId): Sched {
    var t := s.(outstanding := s.outstanding - {id});
    if IsActive(s, id) then ResumeNext(t.(active := None)) else EraseTask(t, id)
  }

  function TaskEndsS(s: Sched): Sched
    requires s.active.Some?
  {
    var a := s.active.value;
    s.(active := Some(a.(value := a.value.(st := M.Stopped))))
  }

  function Tasks(s: Sched): seq<Item> {
    s.waiting + s.delayed + if s.active.Some? then [s.active.value] else []
  }

  predicate Enabled(s: Sched, e: Event) {
    match e
    case Push(_, _) | Pause(_, _) | Resume(_, _) | Cancel(_, _) => true
    case TaskEnds => s.active.Some? && (s.active.value.value.st.Running? || s.active.value.value.st.Stopping?)
    case Finished(id) =>
      id in s.outstanding &&
      forall x :: x in Tasks(s) && x.value.id == id ==> x.value.st.Stopped?
  }

  function Do(s: Sched, e: Event): Sched
    requires Enabled(s, e)
  {
    match e
    case Push(priority, ends) => PushS(s, priority, ends)
    case Pause(id, ends) => PauseS(s, id, ends)
    case Resume(id, ends) => ResumeS(s, id, ends)
    case Cancel(id, ends) => CancelS(s, id, ends)
    case TaskEnds => TaskEndsS(s)
    case Finished(id) => FinishedS(s, id)
  }

  predicate Legal(s: Sched, run: seq<Event>)
    decreases |run|
  {
    run == [] || (Enabled(s, run[0]) && Legal(Do(s, run[0]), run[1..]))
  }

  function After(s: Sched, run: seq<Event>): Sched
    requires Legal(s, run)
    decreases |run|
  {
    if run == [] then s else After(Do(s, run[0]), run[1..])
  }

  function At(run: seq<Event>): Sched
    requires Legal(Init(), run)
  {
    After(Init(), run)
  }
}

/** What every run of the scheduler keeps. */
module SchedulerInvariant {
  import opened PriorityOrder
  import opened Wrappers
  import opened SchedulerModel
  import M = ManageableTask

  // ---- Order ----

  /** a is to run before b. */
  predicate Before(a: Item, b: Item) {
    a.priority > b.priority || (a.priority == b.priority && a.value.arrival < b.value.arrival)
  }

  /** From the back: by priority, and by arrival among equals. */
  predicate Ordered(q: seq<Item>) {
    forall i, j :: 0 <= i < j < |q| ==> Before(q[j], q[i])
  }

  predicate OrderOk(s: Sched) {
    && Ordered(s.waiting)
    && (forall i :: 0 <= i < |s.waiting| ==> s.waiting[i].value.arrival < s.clock)
    && (s.active.None? ==> s.waiting == [])
    && (s.active.Some? ==>
          && s.active.value.value.arrival < s.clock
          && forall i :: 0 <= i < |s.waiting| ==> Before(s.active.value, s.waiting[i]))
  }

  lemma InsertOrdered(q: seq<Item>, x: Item)
    requires Ordered(q)
    requires forall i :: 0 <= i < |q| ==> q[i].value.arrival < x.value.arrival
    ensures Ordered(Insert(q, x))
    ensures forall y :: y in Insert(q, x) ==> y == x || y in q
  {
    var k := Place(q, x.priority);
    assert forall i :: k <= i < |q| ==> q[i].priority >= x.priority;
  }

  lemma ScheduleOrder(s: Sched, x: Item, ends: bool)
    requires OrderOk(s)
    ensures OrderOk(Schedule(s, x, ends))
  {
    var e := x.(value := x.value.(arrival := s.clock));
    if s.active.Some? && s.active.value.priority >= x.priority {
      InsertOrdered(s.waiting, e);
      var q := Insert(s.waiting, e);
      forall i | 0 <= i < |q|
        ensures q[i].value.arrival < s.clock + 1 && Before(s.active.value, q[i])
      {
        assert q[i] in q;
      }
    }
  }

  /** With nothing active the list may be non-empty on the way; resumeNextTask restores the
      invariant. */
  lemma {:induction false} ResumeNextOrder(s: Sched)
    requires s.active.None? && OrderOk(s.(waiting := [])) && Ordered(s.waiting)
    requires forall i :: 0 <= i < |s.waiting| ==> s.waiting[i].value.arrival < s.clock
    ensures OrderOk(ResumeNext(s))
    decreases |s.waiting|
  {
    if s.waiting != [] {
      var last := s.waiting[|s.waiting| - 1];
      var t := s.(waiting := s.waiting[..|s.waiting| - 1]);
      if last.value.pauseAsked {
        ResumeNextOrder(t.(delayed := s.delayed + [PauseItem(last, false)]));
      }
    }
  }

  /** Neither taking a task off the list nor changing its flags touches the order. */
  lemma EraseOrder(s: Sched, k: nat)
    requires k < |s.waiting| && OrderOk(s)
    ensures OrderOk(s.(waiting := Erase(s.waiting, k)))
  {
    var q := Erase(s.waiting, k);
    assert forall i :: 0 <= i < |q| ==> q[i] == s.waiting[if i < k then i else i + 1];
  }

  lemma FlagOrder(s: Sched, k: nat, x: Item)
    requires k < |s.waiting| && OrderOk(s)
    requires x.priority == s.waiting[k].priority && x.value.arrival == s.waiting[k].value.arrival
    ensures OrderOk(s.(waiting := s.waiting[k := x]))
  {}

  lemma OrderStep(s: Sched, e: Event)
    requires OrderOk(s) && Enabled(s, e)
    ensures OrderOk(Do(s, e))
  {
    match e {
      case Push(priority, ends) =>
        var t := s.(next := s.next + 1, outstanding := s.outstanding + {s.next});
        ScheduleOrder(t, New(s.next, s.clock, priority), ends);
        return;
      case Pause(id, ends) => PauseOrder(s, id, ends); return;
      case Resume(id, ends) =>
        var k := Find(s.delayed, id);
        if k < |s.delayed| {
          ScheduleOrder(s.(delayed := Erase(s.delayed, k)), s.delayed[k], ends);
        }
        return;
      case Cancel(id, ends) => CancelOrder(s, id, ends); return;
      case TaskEnds => return;
      case Finished(id) => FinishedOrder(s, id); return;
    }
  }

  lemma PauseOrder(s: Sched, id: TaskId, ends: bool)
    requires OrderOk(s)
    ensures OrderOk(PauseS(s, id, ends))
  {
    if IsActive(s, id) {
      ResumeNextOrder(s.(delayed := s.delayed + [PauseItem(s.active.value, ends)], active := None));
      return;
    }
    var k := Find(s.waiting, id);
    if k < |s.waiting| {
      FlagOrder(s, k, s.waiting[k].(value := s.waiting[k].value.(pauseAsked := true)));
    }
  }

  lemma CancelOrder(s: Sched, id: TaskId, ends: bool)
    requires OrderOk(s)
    ensures OrderOk(CancelS(s, id, ends))
  {
    if IsActive(s, id) {
      return;
    }
    var k := Find(s.waiting, id);
    if k < |s.waiting| {
      EraseOrder(s, k);
      FlagOrder(s, k, Cancelled(s.waiting[k]));
      return;
    }
    var d := Find(s.delayed, id);
    if d < |s.delayed| {
      ScheduleOrder(s.(delayed := Erase(s.delayed, d)), Cancelled(s.delayed[d]), ends);
    }
  }

  lemma FinishedOrder(s: Sched, id: TaskId)
    requires OrderOk(s)
    ensures OrderOk(FinishedS(s, id))
  {
    var t := s.(outstanding := s.outstanding - {id});
    if IsActive(s, id) {
      ResumeNextOrder(t.(active := None));
      return;
    }
    if Find(s.waiting, id) < |s.waiting| {
      EraseOrder(t, Find(s.waiting, id));
    }
  }

  // ---- Homes: how many places hold an id ----

  function Count(q: seq<Item>, id: TaskId): nat {
    if q == [] then 0 else One(q[0], id) + Count(q[1..], id)
  }

  function One(x: Item, id: TaskId): nat { if x.value.id == id then 1 else 0 }

  function Homes(s: Sched, id: TaskId): nat {
    Count(s.waiting, id) + Count(s.delayed, id) + if IsActive(s, id) then 1 else 0
  }

  lemma {:induction false} CountConcat(a: seq<Item>, b: seq<Item>, id: TaskId)
    ensures Count(a + b, id) == Count(a, id) + Count(b, id)
  {
    if a == [] {
      assert a + b == b;
    } else {
      CountConcat(a[1..], b, id);
      assert (a + b)[1..] == a[1..] + b;
    }
  }

  lemma CountAdd(a: seq<Item>, x: Item, b: seq<Item>, id: TaskId)
    ensures Count(a + [x] + b, id) == Count(a + b, id) + One(x, id)
  {
    CountConcat(a, b, id);
    CountConcat(a + [x], b, id);
    CountConcat(a, [x], id);
  }

  lemma CountLast(a: seq<Item>, x: Item, id: TaskId)
    ensures Count(a + [x], id) == Count(a, id) + One(x, id)
  {
    CountConcat(a, [x], id);
  }

  lemma CountInsert(q: seq<Item>, x: Item, id: TaskId)
    ensures Count(Insert(q, x), id) == Count(q, id) + One(x, id)
  {
    var k := Place(q, x.priority);
    CountAdd(q[..k], x, q[k..], id);
    assert q == q[..k] + q[k..];
  }

  lemma CountErase(q: seq<Item>, k: nat, id: TaskId)
    requires k < |q|
    ensures Count(Erase(q, k), id) == Count(q, id) - One(q[k], id)
  {
    CountAdd(q[..k], q[k], q[k + 1..], id);
    assert q == q[..k] + [q[k]] + q[k + 1..];
  }

  lemma CountUpdate(q: seq<Item>, k: nat, x: Item, id: TaskId)
    requires k < |q| && x.value.id == q[k].value.id
    ensures Count(q[k := x], id) == Count(q, id)
  {
    CountAdd(q[..k], q[k], q[k + 1..], id);
    CountAdd(q[..k], x, q[k + 1..], id);
    assert q == q[..k] + [q[k]] + q[k + 1..];
    assert q[k := x] == q[..k] + [x] + q[k + 1..];
  }

  lemma {:induction false} CountFind(q: seq<Item>, id: TaskId)
    ensures Count(q, id) > 0 <==> Find(q, id) < |q|
  {
    if q != [] && q[0].value.id != id {
      CountFind(q[1..], id);
    }
  }

  lemma ScheduleHomes(s: Sched, x: Item, ends: bool, id: TaskId)
    ensures Homes(Schedule(s, x, ends), id) == Homes(s, id) + One(x, id)
  {
    var e := x.(value := x.value.(arrival := s.clock));
    if s.active.Some? {
      CountInsert(s.waiting, e, id);
      CountLast(s.waiting, PauseItem(s.active.value, ends), id);
    }
  }

  lemma {:induction false} ResumeNextHomes(s: Sched, id: TaskId)
    requires s.active.None?
    ensures Homes(ResumeNext(s), id) == Homes(s, id)
    decreases |s.waiting|
  {
    if s.waiting != [] {
      var front, last := s.waiting[..|s.waiting| - 1], s.waiting[|s.waiting| - 1];
      CountLast(front, last, id);
      assert s.waiting == front + [last];
      if last.value.pauseAsked {
        CountLast(s.delayed, PauseItem(last, false), id);
        ResumeNextHomes(s.(waiting := front, delayed := s.delayed + [PauseItem(last, false)]), id);
      }
    }
  }

  /** The two ways out of the scheduler: the callback of a stopped task, and cancelling one
      that waits for its first start. */
  predicate Leaves(s: Sched, e: Event, id: TaskId) {
    match e
    case Finished(f) => f == id && Homes(s, id) > 0
    case Cancel(c, _) =>
      c == id && !IsActive(s, id) && Find(s.waiting, id) < |s.waiting| &&
      !s.waiting[Find(s.waiting, id)].value.started
    case Push(_, _) | Pause(_, _) | Resume(_, _) | TaskEnds => false
  }

  predicate Arrives(s: Sched, e: Event, id: TaskId) { e.Push? && id == s.next }

  lemma HomesStep(s: Sched, e: Event, id: TaskId)
    requires Enabled(s, e)
    ensures Homes(Do(s, e), id) ==
            Homes(s, id) + (if Arrives(s, e, id) then 1 else 0) - (if Leaves(s, e, id) then 1 else 0)
  {
    match e {
      case Push(priority, ends) =>
        var t := s.(next := s.next + 1, outstanding := s.outstanding + {s.next});
        ScheduleHomes(t, New(s.next, s.clock, priority), ends, id);
        return;
      case Pause(p, ends) => PauseHomes(s, p, ends, id); return;
      case Resume(r, ends) => ResumeHomes(s, r, ends, id); return;
      case Cancel(c, ends) => CancelHomes(s, c, ends, id); return;
      case TaskEnds => return;
      case Finished(f) => FinishedHomes(s, f, id); return;
    }
  }

  lemma PauseHomes(s: Sched, p: TaskId, ends: bool, id: TaskId)
    ensures Homes(PauseS(s, p, ends), id) == Homes(s, id)
  {
    if IsActive(s, p) {
      CountLast(s.delayed, PauseItem(s.active.value, ends), id);
      ResumeNextHomes(s.(delayed := s.delayed + [PauseItem(s.active.value, ends)], active := None), id);
      return;
    }
    var k := Find(s.waiting, p);
    if k < |s.waiting| {
      var x := s.waiting[k];
      CountUpdate(s.waiting, k, x.(value := x.value.(pauseAsked := true)), id);
    }
  }

  lemma ResumeHomes(s: Sched, r: TaskId, ends: bool, id: TaskId)
    ensures Homes(ResumeS(s, r, ends), id) == Homes(s, id)
  {
    var k := Find(s.delayed, r);
    if k < |s.delayed| {
      CountErase(s.delayed, k, id);
      ScheduleHomes(s.(delayed := Erase(s.delayed, k)), s.delayed[k], ends, id);
    }
  }

  lemma CancelHomes(s: Sched, c: TaskId, ends: bool, id: TaskId)
    ensures Homes(CancelS(s, c, ends), id) == Homes(s, id) - (if Leaves(s, Cancel(c, ends), id) then 1 else 0)
  {
    if IsActive(s, c) {
      return;
    }
    var k := Find(s.waiting, c);
    if k < |s.waiting| {
      CountUpdate(s.waiting, k, Cancelled(s.waiting[k]), id);
      CountErase(s.waiting, k, id);
      return;
    }
    var d := Find(s.delayed, c);
    if d < |s.delayed| {
      CountErase(s.delayed, d, id);
      ScheduleHomes(s.(delayed := Erase(s.delayed, d)), Cancelled(s.delayed[d]), ends, id);
    }
  }

  lemma FinishedHomes(s: Sched, f: TaskId, id: TaskId)
    ensures Homes(FinishedS(s, f), id) == Homes(s, id) - (if f == id && Homes(s, id) > 0 then 1 else 0)
  {
    var t := s.(outstanding := s.outstanding - {f});
    CountFind(s.waiting, f);
    CountFind(s.delayed, f);
    if IsActive(s, f) {
      ResumeNextHomes(t.(active := None), id);
      return;
    }
    if Find(s.waiting, f) < |s.waiting| {
      CountErase(s.waiting, Find(s.waiting, f), id);
      return;
    }
    if Find(s.delayed, f) < |s.delayed| {
      CountErase(s.delayed, Find(s.delayed, f), id);
    }
  }

  ghost predicate IdsOk(s: Sched) {
    forall id: TaskId :: Homes(s, id) <= (if id < s.next then 1 else 0)
  }

  lemma NextIs(s: Sched, e: Event)
    requires Enabled(s, e)
    ensures Do(s, e).next == s.next + if e.Push? then 1 else 0
    ensures Do(s, e).outstanding == match e
      case Push(_, _) => s.outstanding + {s.next}
      case Finished(id) => s.outstanding - {id}
      case Pause(_, _) | Resume(_, _) | Cancel(_, _) | TaskEnds => s.outstanding
  {
    if e.Pause? && IsActive(s, e.id) {
      ResumeNextFrame(s.(delayed := s.delayed + [PauseItem(s.active.value, e.ends)], active := None));
    }
    if e.Finished? && IsActive(s, e.id) {
      ResumeNextFrame(s.(outstanding := s.outstanding - {e.id}, active := None));
    }
  }

  lemma {:induction false} ResumeNextFrame(s: Sched)
    ensures ResumeNext(s).next == s.next && ResumeNext(s).outstanding == s.outstanding
    decreases |s.waiting|
  {
    if s.waiting != [] {
      var last := s.waiting[|s.waiting| - 1];
      var t := s.(waiting := s.waiting[..|s.waiting| - 1]);
      if last.value.pauseAsked {
        ResumeNextFrame(t.(delayed := s.delayed + [PauseItem(last, false)]));
      }
    }
  }

  lemma IdsStep(s: Sched, e: Event)
    requires IdsOk(s) && Enabled(s, e)
    ensures IdsOk(Do(s, e))
  {
    NextIs(s, e);
    forall id: TaskId
      ensures Homes(Do(s, e), id) <= (if id < Do(s, e).next then 1 else 0)
    {
      HomesStep(s, e, id);
    }
  }

  // ---- States and flags ----

  predicate IdleState(st: M.State) { st.WaitForStart? || st.Paused? || st.Stopped? }

  /** A task that is not active is not in its function. */
  predicate IdleOk(x: Item, ran: set<TaskId>) {
    && IdleState(x.value.st)
    && (x.value.started <==> !x.value.st.WaitForStart?)
    && (x.value.id in ran ==> x.value.started)
    && (x.value.started && x.value.id !in ran ==> x.value.cancelled)
  }

  predicate ActiveOk(x: Item, ran: set<TaskId>) {
    && x.value.started && !x.value.pauseAsked
    && (x.value.st.Running? || x.value.st.Stopping? || x.value.st.Stopped?)
    && (x.value.id !in ran ==> x.value.cancelled && x.value.st.Stopped?)
  }

  ghost predicate AllIdle(q: seq<Item>, ran: set<TaskId>) { forall x :: x in q ==> IdleOk(x, ran) }

  predicate NoneAsked(q: seq<Item>) { forall x :: x in q ==> !x.value.pauseAsked }

  ghost predicate ListsOk(s: Sched) {
    && AllIdle(s.waiting, s.ran) && AllIdle(s.delayed, s.ran) && NoneAsked(s.delayed)
    && (forall id :: id in s.ran ==> id < s.next)
  }

  ghost predicate StatesOk(s: Sched) {
    ListsOk(s) && (s.active.Some? ==> ActiveOk(s.active.value, s.ran))
  }

  lemma {:induction false} Absent(q: seq<Item>, id: TaskId)
    requires Count(q, id) == 0
    ensures forall x :: x in q ==> x.value.id != id
  {
    if q != [] {
      Absent(q[1..], id);
    }
  }

  lemma IdleGrows(q: seq<Item>, ran: set<TaskId>, id: TaskId)
    requires AllIdle(q, ran) && Count(q, id) == 0
    ensures AllIdle(q, ran + {id})
  {
    Absent(q, id);
  }

  lemma ActivateStates(s: Sched, x: Item)
    requires ListsOk(s) && IdleOk(x, s.ran) && !x.value.pauseAsked && x.value.id < s.next
    requires Count(s.waiting, x.value.id) == 0 && Count(s.delayed, x.value.id) == 0
    ensures StatesOk(Activate(s, x))
  {
    IdleGrows(s.waiting, s.ran, x.value.id);
    IdleGrows(s.delayed, s.ran, x.value.id);
  }

  lemma ScheduleStates(s: Sched, x: Item, ends: bool)
    requires StatesOk(s) && IdleOk(x, s.ran) && !x.value.pauseAsked && x.value.id < s.next
    requires Homes(s, x.value.id) == 0
    ensures StatesOk(Schedule(s, x, ends))
  {
    var e := x.(value := x.value.(arrival := s.clock));
    var t := s.(clock := s.clock + 1);
    if s.active.None? {
      ActivateStates(t, e);
    } else if s.active.value.priority < x.priority {
      var p := PauseItem(s.active.value, ends);
      CountLast(s.waiting, p, x.value.id);
      ActivateStates(t.(waiting := s.waiting + [p]), e);
    } else {
      assert forall y :: y in Insert(s.waiting, e) ==> y == e || y in s.waiting;
    }
  }

  lemma {:induction false} ResumeNextStates(s: Sched)
    requires s.active.None? && ListsOk(s) && IdsOk(s)
    ensures StatesOk(ResumeNext(s))
    decreases |s.waiting|
  {
    if s.waiting != [] {
      var front, last := s.waiting[..|s.waiting| - 1], s.waiting[|s.waiting| - 1];
      var id := last.value.id;
      assert s.waiting == front + [last];
      CountLast(front, last, id);
      assert last in s.waiting && Homes(s, id) <= (if id < s.next then 1 else 0);
      if last.value.pauseAsked {
        var t := s.(waiting := front, delayed := s.delayed + [PauseItem(last, false)]);
        forall y: TaskId
          ensures Homes(t, y) <= (if y < t.next then 1 else 0)
        {
          CountLast(front, last, y);
          CountLast(s.delayed, PauseItem(last, false), y);
          assert Homes(s, y) <= (if y < s.next then 1 else 0);
        }
        ResumeNextStates(t);
      } else {
        ActivateStates(s.(waiting := front), last);
      }
    }
  }

  lemma StatesStep(s: Sched, e: Event)
    requires StatesOk(s) && IdsOk(s) && Enabled(s, e)
    ensures StatesOk(Do(s, e))
  {
    match e {
      case Push(priority, ends) =>
        var t := s.(next := s.next + 1, outstanding := s.outstanding + {s.next});
        assert Homes(s, s.next) <= (if s.next < s.next then 1 else 0);
        ScheduleStates(t, New(s.next, s.clock, priority), ends);
        return;
      case Pause(id, ends) => PauseStates(s, id, ends); return;
      case Resume(id, ends) => ResumeStates(s, id, ends); return;
      case Cancel(id, ends) => CancelStates(s, id, ends); return;
      case TaskEnds => return;
      case Finished(id) => FinishedStates(s, id); return;
    }
  }

  lemma PauseStates(s: Sched, id: TaskId, ends: bool)
    requires StatesOk(s) && IdsOk(s)
    ensures StatesOk(PauseS(s, id, ends))
  {
    if IsActive(s, id) {
      var t := s.(delayed := s.delayed + [PauseItem(s.active.value, ends)], active := None);
      forall y: TaskId
        ensures Homes(t, y) <= (if y < t.next then 1 else 0)
      {
        CountLast(s.delayed, PauseItem(s.active.value, ends), y);
        assert Homes(s, y) <= (if y < s.next then 1 else 0);
      }
      ResumeNextStates(t);
      return;
    }
    var k := Find(s.waiting, id);
    if k < |s.waiting| {
      var x := s.waiting[k];
      FlagStates(s, k, x.(value := x.value.(pauseAsked := true)));
    }
  }

  lemma FlagStates(s: Sched, k: nat, x: Item)
    requires StatesOk(s) && k < |s.waiting|
    requires IdleOk(s.waiting[k], s.ran) ==> IdleOk(x, s.ran)
    ensures StatesOk(s.(waiting := s.waiting[k := x]))
  {
    assert s.waiting[k] in s.waiting;
    assert forall y :: y in s.waiting[k := x] ==> y == x || y in s.waiting;
  }

  /** What taking a task off the list of delayed ones leaves to schedule. */
  lemma TakeDelayed(s: Sched, id: TaskId)
    requires StatesOk(s) && IdsOk(s) && Find(s.delayed, id) < |s.delayed|
    ensures var k := Find(s.delayed, id);
      var t := s.(delayed := Erase(s.delayed, k));
      StatesOk(t) && Homes(t, id) == 0 && id < s.next && s.delayed[k].value.id == id
      && IdleOk(s.delayed[k], s.ran) && !s.delayed[k].value.pauseAsked
  {
    var k := Find(s.delayed, id);
    CountErase(s.delayed, k, id);
    assert Homes(s, id) <= (if id < s.next then 1 else 0);
    assert forall y :: y in Erase(s.delayed, k) ==> y in s.delayed;
  }

  lemma ResumeStates(s: Sched, id: TaskId, ends: bool)
    requires StatesOk(s) && IdsOk(s)
    ensures StatesOk(ResumeS(s, id, ends))
  {
    var k := Find(s.delayed, id);
    if k < |s.delayed| {
      TakeDelayed(s, id);
      ScheduleStates(s.(delayed := Erase(s.delayed, k)), s.delayed[k], ends);
    }
  }

  lemma CancelStates(s: Sched, id: TaskId, ends: bool)
    requires StatesOk(s) && IdsOk(s)
    ensures StatesOk(CancelS(s, id, ends))
  {
    if IsActive(s, id) {
      return;
    }
    var k := Find(s.waiting, id);
    if k < |s.waiting| {
      assert forall y :: y in Erase(s.waiting, k) ==> y in s.waiting;
      FlagStates(s, k, Cancelled(s.waiting[k]));
      return;
    }
    var d := Find(s.delayed, id);
    if d < |s.delayed| {
      TakeDelayed(s, id);
      ScheduleStates(s.(delayed := Erase(s.delayed, d)), Cancelled(s.delayed[d]), ends);
    }
  }

  lemma FinishedStates(s: Sched, id: TaskId)
    requires StatesOk(s) && IdsOk(s)
    ensures StatesOk(FinishedS(s, id))
  {
    var t := s.(outstanding := s.outstanding - {id});
    if IsActive(s, id) {
      var u := t.(active := None);
      forall y: TaskId
        ensures Homes(u, y) <= (if y < u.next then 1 else 0)
      {
        assert Homes(s, y) <= (if y < s.next then 1 else 0);
      }
      ResumeNextStates(u);
      return;
    }
    var k, d := Find(s.waiting, id), Find(s.delayed, id);
    assert k < |s.waiting| ==> forall y :: y in Erase(s.waiting, k) ==> y in s.waiting;
    assert d < |s.delayed| ==> forall y :: y in Erase(s.delayed, d) ==> y in s.delayed;
  }

  ghost predicate Inv(s: Sched) { OrderOk(s) && IdsOk(s) && StatesOk(s) }

  lemma {:induction false} InvAfter(s: Sched, run: seq<Event>)
    requires Inv(s) && Legal(s, run)
    ensures Inv(After(s, run))
    decreases |run|
  {
    if run != [] {
      OrderStep(s, run[0]);
      IdsStep(s, run[0]);
      StatesStep(s, run[0]);
      InvAfter(Do(s, run[0]), run[1..]);
    }
  }

  lemma InvAt(run: seq<Event>)
    requires Legal(Init(), run)
    ensures Inv(At(run))
  {
    InvAfter(Init(), run);
  }
}

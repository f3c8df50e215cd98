/** StrandExecutor::Impl over an origin executor that may run posted jobs on any threads, in
    any order and at the same time. A critical section of m_mutex is one step; a job holds the
    mutex except while it runs a work. */
module StrandModel {

  /** A work, by the order of its submission. */
  type Work = nat

  /** A job on the origin executor that has not returned. */
  datatype Job = Posted | Running(work: Work)

  /** submitted counts the calls of exec. started and dropped are history: the works begun, in
      order, and those clear threw away. */
  datatype Strand = Strand(
    queue: seq<Work>, idle: bool, jobs: seq<Job>,
    submitted: nat, started: seq<Work>, dropped: set<Work>)

  /** A work that runs may itself exec or clear: those are events like any others. */
  datatype Event = Exec | Clear | Begin(j: nat) | End(j: nat)

  function Init(): Strand { Strand([], true, [], 0, [], {}) }

  function ScheduleNextWork(s: Strand): Strand {
    if s.queue == [] then s.(idle := true) else s.(jobs := s.jobs + [Posted])
  }

  function ExecS(s: Strand): Strand {
    var t := s.(queue := s.queue + [s.submitted], submitted := s.submitted + 1);
    if s.idle then ScheduleNextWork(t.(idle := false)) else t
  }

  function ClearS(s: Strand): Strand {
    s.(queue := [], dropped := s.dropped + set w | w in s.queue)
  }

  function Without(jobs: seq<Job>, j: nat): seq<Job>
    requires j < |jobs|
  {
    jobs[..j] + jobs[j + 1..]
  }

  /** A posted job gets the mutex: it takes the front of the queue, or finds it cleared. */
  function BeginS(s: Strand, j: nat): Strand
    requires j < |s.jobs|
  {
    if s.queue == [] then s.(idle := true, jobs := Without(s.jobs, j))
    else
      s.(queue := s.queue[1..], jobs := s.jobs[j := Running(s.queue[0])], started := s.started + [s.queue[0]])
  }

  /** The work has returned or thrown and the job has the mutex again. */
  function EndS(s: Strand, j: nat): Strand
    requires j < |s.jobs|
  {
    ScheduleNextWork(s.(jobs := Without(s.jobs, j)))
  }

  predicate Enabled(s: Strand, e: Event) {
    match e
    case Exec | Clear => true
    case Begin(j) => j < |s.jobs| && s.jobs[j].Posted?
    case End(j) => j < |s.jobs| && s.jobs[j].Running?
  }

  function Do(s: Strand, e: Event): Strand
    requires Enabled(s, e)
  {
    match e
    case Exec => ExecS(s)
    case Clear => ClearS(s)
    case Begin(j) => BeginS(s, j)
    case End(j) => EndS(s, j)
  }

  predicate Legal(s: Strand, run: seq<Event>)
    decreases |run|
  {
    run == [] || (Enabled(s, run[0]) && Legal(Do(s, run[0]), run[1..]))
  }

  function After(s: Strand, run: seq<Event>): Strand
    requires Legal(s, run)
    decreases |run|
  {
    if run == [] then s else After(Do(s, run[0]), run[1..])
  }

  function At(run: seq<Event>): Strand
    requires Legal(Init(), run)
  {
    After(Init(), run)
  }

  // ---- What every step keeps ----

  predicate Increasing(q: seq<Work>) { forall i, k :: 0 <= i < k < |q| ==> q[i] < q[k] }

  ghost predicate Inv(s: Strand) {
    && |s.jobs| == (if s.idle then 0 else 1)
    && (s.idle ==> s.queue == [])
    && Increasing(s.started + s.queue)
    && (forall w :: w in s.started + s.queue ==> w < s.submitted && w !in s.dropped)
    && (forall w :: w in s.dropped ==> w < s.submitted)
    && (forall w: Work :: w < s.submitted ==> w in s.started + s.queue || w in s.dropped)
  }

  lemma ExecInv(s: Strand)
    requires Inv(s)
    ensures Inv(ExecS(s))
  {
    var all := s.started + s.queue;
    assert s.started + (s.queue + [s.submitted]) == all + [s.submitted];
    assert forall i :: 0 <= i < |all| ==> all[i] in all;
    assert forall w :: w in all + [s.submitted] <==> w in all || w == s.submitted;
  }

  lemma Apart(a: seq<Work>, b: seq<Work>)
    requires Increasing(a + b)
    ensures Increasing(a)
    ensures forall w :: w in b ==> w !in a
  {
    var all := a + b;
    assert forall i :: 0 <= i < |a| ==> all[i] == a[i];
    assert forall k :: 0 <= k < |b| ==> all[|a| + k] == b[k];
  }

  lemma ClearInv(s: Strand)
    requires Inv(s)
    ensures Inv(ClearS(s))
  {
    Apart(s.started, s.queue);
    assert s.started + [] == s.started;
    assert forall w :: w in s.started + s.queue <==> w in s.started || w in s.queue;
    assert forall w :: w in ClearS(s).dropped <==> w in s.dropped || w in s.queue;
  }

  lemma BeginInv(s: Strand, j: nat)
    requires Inv(s) && j < |s.jobs|
    ensures Inv(BeginS(s, j))
  {
    if s.queue != [] {
      assert s.started + s.queue == (s.started + [s.queue[0]]) + s.queue[1..];
    }
  }

  lemma StepInv(s: Strand, e: Event)
    requires Inv(s) && Enabled(s, e)
    ensures Inv(Do(s, e))
  {
    match e {
      case Exec => ExecInv(s);
      case Clear => ClearInv(s);
      case Begin(j) => BeginInv(s, j);
      case End(j) =>
    }
  }

  lemma {:induction false} InvAfter(s: Strand, run: seq<Event>)
    requires Inv(s) && Legal(s, run)
    ensures Inv(After(s, run))
    decreases |run|
  {
    if run != [] {
      StepInv(s, run[0]);
      InvAfter(Do(s, run[0]), run[1..]);
    }
  }

  // ---- Over every run ----

  /** At most one work runs at a time; the strand is busy exactly while one job is out, a
      queue with works in it is never left idle, and a job never finds the strand idle (the assertion). */
  lemma OneAtATime(run: seq<Event>)
    requires Legal(Init(), run)
    ensures var s := At(run);
      && (!s.idle <==> |s.jobs| == 1) && |s.jobs| <= 1
      && (s.queue != [] ==> !s.idle)
  {
    InvAfter(Init(), run);
  }

  function Execs(run: seq<Event>): nat {
    if run == [] then 0 else (if run[0].Exec? then 1 else 0) + Execs(run[1..])
  }

  lemma {:induction false} Submits(s: Strand, run: seq<Event>)
    requires Legal(s, run)
    ensures After(s, run).submitted == s.submitted + Execs(run)
    decreases |run|
  {
    if run != [] { Submits(Do(s, run[0]), run[1..]); }
  }

  /** Works start in the order of submission and once at most, and each call of exec submits
      one, which has been started, is still queued, or was dropped. */
  lemma InOrder(run: seq<Event>)
    requires Legal(Init(), run)
    ensures var s := At(run);
      && s.submitted == Execs(run)
      && Increasing(s.started + s.queue)
      && (forall w: Work :: w < s.submitted <==> w in s.started + s.queue || w in s.dropped)
      && (forall w :: w in s.dropped ==> w !in s.started + s.queue)
  {
    InvAfter(Init(), run);
    Submits(Init(), run);
  }

  // ---- What clear does ----

  lemma {:induction false} Cut(s: Strand, run: seq<Event>, i: nat)
    requires Legal(s, run) && i <= |run|
    ensures Legal(s, run[..i]) && Legal(After(s, run[..i]), run[i..])
    ensures After(After(s, run[..i]), run[i..]) == After(s, run)
    decreases |run|
  {
    if i > 0 {
      Cut(Do(s, run[0]), run[1..], i - 1);
      assert run[..i][1..] == run[1..][..i - 1] && run[1..][i - 1..] == run[i..];
    }
  }

  /** w has been submitted and has not been started. */
  predicate Waiting(s: Strand, w: Work) { w < s.submitted && w !in s.started }

  /** Event i of the run is a clear that finds w waiting. */
  predicate ClearedAt(run: seq<Event>, i: nat, w: Work)
    requires Legal(Init(), run)
  {
    i < |run| && run[i].Clear? && Legal(Init(), run[..i]) && Waiting(At(run[..i]), w)
  }

  /** A work that is neither queued nor started is never started. */
  lemma {:induction false} StaysAway(s: Strand, run: seq<Event>, w: Work)
    requires Inv(s) && Legal(s, run) && w < s.submitted && w !in s.started + s.queue
    ensures w !in After(s, run).started + After(s, run).queue
    decreases |run|
  {
    if run != [] {
      StepInv(s, run[0]);
      StaysAway(Do(s, run[0]), run[1..], w);
    }
  }

  lemma KeptIn(s: Strand, e: Event, w: Work)
    requires Inv(s) && Enabled(s, e) && w in s.started + s.queue && (e.Clear? ==> w in s.started)
    ensures w in Do(s, e).started + Do(s, e).queue
  {
    if e.Begin? && s.queue != [] {
      assert s.started + s.queue == (s.started + [s.queue[0]]) + s.queue[1..];
    }
  }

  /** A work that is not in the strand yet comes with its exec. */
  lemma Arrives(s: Strand, e: Event, w: Work)
    requires Inv(s) && Enabled(s, e) && w >= s.submitted && w < Do(s, e).submitted
    ensures w in Do(s, e).started + Do(s, e).queue
  {
    StepInv(s, e);
  }

  /** When a clear found it waiting, a work is never started. */
  lemma ClearDrops(run: seq<Event>, i: nat, w: Work)
    requires Legal(Init(), run) && ClearedAt(run, i, w)
    ensures w !in At(run).started + At(run).queue
  {
    Cut(Init(), run, i);
    InvAfter(Init(), run[..i]);
    var s := At(run[..i]);
    assert run[i..][0] == Clear;
    StepInv(s, Clear);
    assert s.started + [] == s.started;
    StaysAway(Do(s, Clear), run[i..][1..], w);
  }

  /** And one that no clear found waiting is started or still queued. */
  lemma {:induction false} NotCleared(run: seq<Event>, w: Work)
    requires Legal(Init(), run) && w < At(run).submitted
    requires forall i: nat :: i < |run| ==> !ClearedAt(run, i, w)
    ensures w in At(run).started + At(run).queue
    decreases |run|
  {
    if run != [] {
      var n := |run| - 1;
      Cut(Init(), run, n);
      InvAfter(Init(), run[..n]);
      var s, e := At(run[..n]), run[n];
      assert run[n..] == [e] && [e][1..] == [];
      assert At(run) == Do(s, e);
      if w >= s.submitted {
        Arrives(s, e, w);
      } else {
        forall i: nat | i < n
          ensures !ClearedAt(run[..n], i, w)
        {
          assert run[..n][..i] == run[..i];
          assert !ClearedAt(run, i, w);
        }
        NotCleared(run[..n], w);
        assert !ClearedAt(run, n, w);
        KeptIn(s, e, w);
      }
    }
  }

  /** A work submitted never comes to be started if and only if a clear found it waiting;
      every other one has been started or is queued. */
  lemma ClearedIff(run: seq<Event>, w: Work)
    requires Legal(Init(), run) && w < At(run).submitted
    ensures w !in At(run).started + At(run).queue <==> exists i: nat :: i < |run| && ClearedAt(run, i, w)
  {
    if i: nat :| i < |run| && ClearedAt(run, i, w) {
      ClearDrops(run, i, w);
    } else {
      NotCleared(run, w);
    }
  }

  lemma {:induction false} NothingDropped(s: Strand, run: seq<Event>)
    requires Legal(s, run) && s.dropped == {} && Clear !in run
    ensures After(s, run).dropped == {}
    decreases |run|
  {
    if run != [] {
      NothingDropped(Do(s, run[0]), run[1..]);
    }
  }

  /** q holds exactly the works below n. */
  ghost predicate Lists(q: seq<Work>, n: nat) { forall w: Work :: w in q <==> w < n }

  lemma {:induction false} IncreasingIs(q: seq<Work>, n: nat)
    requires Increasing(q) && Lists(q, n)
    ensures q == seq(n, i => i)
  {
    if n == 0 {
      assert |q| > 0 ==> Head(q) in q;
    } else {
      LastIs(q, n);
      IncreasingIs(q[..|q| - 1], n - 1);
      assert q == q[..|q| - 1] + [n - 1];
      assert seq(n, i => i) == seq(n - 1, i => i) + [n - 1];
    }
  }

  function Head(q: seq<Work>): Work { if q == [] then 0 else q[0] }

  lemma LastIs(q: seq<Work>, n: nat)
    requires n > 0 && Increasing(q) && Lists(q, n)
    ensures |q| > 0 && q[|q| - 1] == n - 1 && Increasing(q[..|q| - 1]) && Lists(q[..|q| - 1], n - 1)
  {
    assert n - 1 in q;
    var k :| 0 <= k < |q| && q[k] == n - 1;
    assert q[|q| - 1] in q;
    assert k == |q| - 1;
    var front := q[..|q| - 1];
    assert q == front + [n - 1];
    assert forall i :: 0 <= i < |front| ==> front[i] == q[i] && q[i] < q[|q| - 1];
    assert forall w :: w in q <==> w in front || w == n - 1;
  }

  /** Without clear, what has started is a prefix of what was submitted and the queue is the
      rest. */
  lemma StartedIsPrefix(run: seq<Event>)
    requires Legal(Init(), run) && Clear !in run
    ensures At(run).started + At(run).queue == seq(At(run).submitted, i => i)
    ensures At(run).started <= seq(At(run).submitted, i => i)
  {
    InvAfter(Init(), run);
    NothingDropped(Init(), run);
    assert Lists(At(run).started + At(run).queue, At(run).submitted);
    IncreasingIs(At(run).started + At(run).queue, At(run).submitted);
  }

  // ---- Left alone, it drains ----

  function Measure(s: Strand): nat {
    2 * |s.queue| + if s.jobs == [] then 0 else if s.jobs[0].Posted? then 1 else 2
  }

  predicate JobsOnly(run: seq<Event>) { forall i :: 0 <= i < |run| ==> run[i].Begin? || run[i].End? }

  lemma {:induction false} Drains(s: Strand, run: seq<Event>)
    requires Inv(s) && Legal(s, run) && JobsOnly(run)
    ensures |run| + Measure(After(s, run)) <= Measure(s)
    ensures (forall j :: !Enabled(After(s, run), Begin(j)) && !Enabled(After(s, run), End(j))) ==>
              After(s, run).queue == [] && After(s, run).idle
    decreases |run|
  {
    if run == [] {
      if s.jobs != [] {
        assert Enabled(s, Begin(0)) || Enabled(s, End(0));
      }
    } else {
      if run[0].Begin? {
        BeginInv(s, run[0].j);
      }
      Drains(Do(s, run[0]), run[1..]);
    }
  }
}

/** The class, on its fields; what is posted to the origin executor is ghost. */
module StrandExecutor {
  import opened StrandModel

  class Impl {
    var taskQueue: seq<Work>
    var idle: bool
    var submitted: nat   // names the works; not in the code
    ghost var jobs: seq<Job>
    ghost var started: seq<Work>
    ghost var dropped: set<Work>

    ghost function View(): Strand
      reads this
    {
      Strand(taskQueue, idle, jobs, submitted, started, dropped)
    }

    constructor ()
      ensures View() == Init()
    {
      taskQueue, idle, submitted := [], true, 0;
      jobs, started, dropped := [], [], {};
    }

    method Exec() returns (work: Work)
      modifies this
      ensures View() == ExecS(old(View())) && work == old(submitted)
    {
      work := submitted;
      submitted := submitted + 1;
      taskQueue := taskQueue + [work];
      if idle {
        idle := false;
        ScheduleNextWork();
      }
    }

    method Clear()
      modifies this
      ensures View() == ClearS(old(View()))
    {
      dropped := dropped + set w | w in taskQueue;
      taskQueue := [];
    }

    method ScheduleNextWork()
      modifies this
      ensures View() == StrandModel.ScheduleNextWork(old(View()))
    {
      if taskQueue == [] {
        idle := true;
        return;
      }
      jobs := jobs + [Posted];
    }

    /** The job up to the work it releases the mutex for, if any. */
    method BeginJob(ghost j: nat) returns (nextWork: seq<Work>)
      requires Inv(View()) && Enabled(View(), Begin(j))
      modifies this
      ensures View() == BeginS(old(View()), j) && Inv(View())
      ensures nextWork == old(taskQueue)[..|old(taskQueue)| - |taskQueue|]
    {
      assert !idle;   // the assertion of the code
      BeginInv(View(), j);
      if taskQueue == [] {
        idle := true;
        jobs := Without(jobs, j);
        return [];
      }
      nextWork := [taskQueue[0]];
      jobs, started := jobs[j := Running(taskQueue[0])], started + [taskQueue[0]];
      taskQueue := taskQueue[1..];
    }

    method EndJob(ghost j: nat)
      requires Enabled(View(), End(j))
      modifies this
      ensures View() == EndS(old(View()), j)
    {
      jobs := Without(jobs, j);
      ScheduleNextWork();
    }
  }
}

/** The order shared by PriorityQueue and Scheduler: a list ascending by priority, entered
    with std::lower_bound and left from the back. */
module PriorityOrder {

  datatype Storage<T> = Storage(priority: int, value: T)

  predicate Ascending<T>(q: seq<Storage<T>>) {
    forall i, j :: 0 <= i < j < |q| ==> q[i].priority <= q[j].priority
  }

  /** How many entries at the front have a lower priority. */
  function Place<T>(q: seq<Storage<T>>, priority: int): (k: nat)
    ensures k <= |q|
    ensures forall i :: 0 <= i < k ==> q[i].priority < priority
    ensures k < |q| ==> q[k].priority >= priority
  {
    if q == [] || q[0].priority >= priority then 0 else 1 + Place(q[1..], priority)
  }

  function Insert<T>(q: seq<Storage<T>>, x: Storage<T>): seq<Storage<T>> {
    q[..Place(q, x.priority)] + [x] + q[Place(q, x.priority)..]
  }

  /** std::lower_bound: halving. */
  method LowerBound<T>(q: seq<Storage<T>>, priority: int) returns (first: nat)
    requires Ascending(q)
    ensures first == Place(q, priority)
  {
    first := 0;
    var count: nat := |q|;
    while count > 0
      invariant first + count <= |q|
      invariant forall i :: 0 <= i < first ==> q[i].priority < priority
      invariant forall i :: first + count <= i < |q| ==> q[i].priority >= priority
    {
      var step := count / 2;
      if q[first + step].priority < priority {
        first := first + step + 1;
        count := count - step - 1;
      } else {
        count := step;
      }
    }
    PlaceUnique(q, priority, first);
  }

  lemma InsertAscending<T>(q: seq<Storage<T>>, x: Storage<T>)
    requires Ascending(q)
    ensures Ascending(Insert(q, x))
  {}

  lemma PlaceUnique<T>(q: seq<Storage<T>>, priority: int, k: nat)
    requires k <= |q|
    requires forall i :: 0 <= i < k ==> q[i].priority < priority
    requires k < |q| ==> q[k].priority >= priority
    ensures Place(q, priority) == k
  {}
}

/** include/nhope/seq/priority-queue.h, against the simplest description of a fair priority
    queue: the values in order of arrival, from which pop takes the earliest among those of
    the highest priority. */
module PriorityQueue {
  import opened PriorityOrder
  import opened Wrappers

  /** The list the queue holds after these arrivals. */
  function Arrange<T>(arrived: seq<Storage<T>>): seq<Storage<T>> {
    if arrived == [] then []
    else Insert(Arrange(arrived[..|arrived| - 1]), arrived[|arrived| - 1])
  }

  /** The earliest arrival among those of the highest priority. */
  function FirstMax<T>(s: seq<Storage<T>>): (m: nat)
    requires s != []
    ensures m < |s|
    ensures forall i :: 0 <= i < |s| ==> s[i].priority <= s[m].priority
    ensures forall i :: 0 <= i < m ==> s[i].priority < s[m].priority
  {
    if |s| == 1 then 0
    else
      var m := FirstMax(s[..|s| - 1]);
      if s[|s| - 1].priority > s[m].priority then |s| - 1 else m
  }

  function Without<T>(s: seq<T>, k: nat): seq<T>
    requires k < |s|
  {
    s[..k] + s[k + 1..]
  }

  function Keep<T>(s: seq<Storage<T>>, fn: (T, int) -> bool): seq<Storage<T>> {
    if s == [] then []
    else if fn(s[0].value, s[0].priority) then Keep(s[1..], fn)
    else [s[0]] + Keep(s[1..], fn)
  }

  lemma InsertAdds<T>(q: seq<Storage<T>>, x: Storage<T>)
    ensures multiset(Insert(q, x)) == multiset(q) + multiset{x}
  {
    assert q == q[..Place(q, x.priority)] + q[Place(q, x.priority)..];
  }

  lemma {:induction false} ArrangeIs<T>(s: seq<Storage<T>>)
    ensures Ascending(Arrange(s)) && multiset(Arrange(s)) == multiset(s)
  {
    if s != [] {
      var front, x := s[..|s| - 1], s[|s| - 1];
      ArrangeIs(front);
      InsertAscending(Arrange(front), x);
      InsertAdds(Arrange(front), x);
      assert s == front + [x];
    }
  }

  lemma ArrangeAppend<T>(s: seq<Storage<T>>, x: Storage<T>)
    ensures Arrange(s + [x]) == Insert(Arrange(s), x)
  {
    assert (s + [x])[..|s|] == s;
  }

  /** The back of the list is the earliest of the highest priority, and what is left is the
      list of the other arrivals. */
  lemma {:induction false} PopIsFirstMax<T>(s: seq<Storage<T>>)
    requires s != []
    ensures Arrange(s) == Arrange(Without(s, FirstMax(s))) + [s[FirstMax(s)]]
  {
    var front, x := s[..|s| - 1], s[|s| - 1];
    if front == [] {
      assert Without(s, 0) == [];
      return;
    }
    assert s == front + [x];
    if x.priority > front[FirstMax(front)].priority {
      NewMaxGoesLast(front, x);
      assert Without(s, |s| - 1) == front;
    } else {
      PopIsFirstMax(front);
      OldMaxStaysLast(front, FirstMax(front), x);
    }
  }

  lemma OldMaxStaysLast<T>(front: seq<Storage<T>>, m: nat, x: Storage<T>)
    requires m < |front| && x.priority <= front[m].priority
    requires Arrange(front) == Arrange(Without(front, m)) + [front[m]]
    ensures Arrange(front + [x]) == Arrange(Without(front + [x], m)) + [front[m]]
  {
    PlaceBeforeLast(Arrange(Without(front, m)), front[m], x);
    WithoutAppend(front, m, x);
    ArrangeAppend(Without(front, m), x);
    ArrangeAppend(front, x);
  }

  lemma WithoutAppend<T>(s: seq<T>, k: nat, x: T)
    requires k < |s|
    ensures Without(s + [x], k) == Without(s, k) + [x]
  {}

  lemma NewMaxGoesLast<T>(s: seq<Storage<T>>, x: Storage<T>)
    requires forall i :: 0 <= i < |s| ==> s[i].priority < x.priority
    ensures Insert(Arrange(s), x) == Arrange(s) + [x]
  {
    ArrangeIs(s);
    InsertLast(Arrange(s), s, x);
  }

  lemma InsertLast<T>(q: seq<Storage<T>>, s: seq<Storage<T>>, x: Storage<T>)
    requires multiset(q) == multiset(s)
    requires forall i :: 0 <= i < |s| ==> s[i].priority < x.priority
    ensures Insert(q, x) == q + [x]
  {
    SameMembers(q, s);
    PlaceUnique(q, x.priority, |q|);
  }

  lemma SameMembers<T>(a: seq<T>, b: seq<T>)
    requires multiset(a) == multiset(b)
    ensures forall i :: 0 <= i < |a| ==> a[i] in b
  {
    forall i | 0 <= i < |a|
      ensures a[i] in b
    {
      assert a[i] in multiset(a);
    }
  }

  /** An entry that does not outrank the last one goes in before it. */
  lemma PlaceBeforeLast<T>(q: seq<Storage<T>>, last: Storage<T>, x: Storage<T>)
    requires x.priority <= last.priority
    ensures Insert(q + [last], x) == Insert(q, x) + [last]
  {
    PlaceUnique(q + [last], x.priority, Place(q, x.priority));
  }

  /** remove_if on the list and on the arrivals come to the same. */
  lemma {:induction false} KeepArrange<T>(s: seq<Storage<T>>, fn: (T, int) -> bool)
    ensures Keep(Arrange(s), fn) == Arrange(Keep(s, fn))
  {
    if s != [] {
      var front, x := s[..|s| - 1], s[|s| - 1];
      KeepArrange(front, fn);
      KeepArrival(front, x, fn);
      assert s == front + [x];
    }
  }

  lemma KeepArrival<T>(front: seq<Storage<T>>, x: Storage<T>, fn: (T, int) -> bool)
    requires Keep(Arrange(front), fn) == Arrange(Keep(front, fn))
    ensures Keep(Arrange(front + [x]), fn) == Arrange(Keep(front + [x], fn))
  {
    ArrangeIs(front);
    ArrangeAppend(front, x);
    KeepInsert(Arrange(front), x, fn);
    KeepLast(front, x, fn);
    if !fn(x.value, x.priority) {
      ArrangeAppend(Keep(front, fn), x);
    }
  }

  lemma KeepLast<T>(s: seq<Storage<T>>, x: Storage<T>, fn: (T, int) -> bool)
    ensures Keep(s + [x], fn) == if fn(x.value, x.priority) then Keep(s, fn) else Keep(s, fn) + [x]
  {
    KeepConcat(s, [x], fn);
    assert [x][1..] == [];
  }

  lemma {:induction false} KeepConcat<T>(a: seq<Storage<T>>, b: seq<Storage<T>>, fn: (T, int) -> bool)
    ensures Keep(a + b, fn) == Keep(a, fn) + Keep(b, fn)
  {
    if a == [] {
      assert a + b == b;
    } else {
      KeepConcat(a[1..], b, fn);
      assert (a + b)[0] == a[0] && (a + b)[1..] == a[1..] + b;
      assert [a[0]] + (Keep(a[1..], fn) + Keep(b, fn)) == [a[0]] + Keep(a[1..], fn) + Keep(b, fn);
    }
  }

  /** Between entries of lower priority and the others is the place. */
  lemma InsertAt<T>(a: seq<Storage<T>>, b: seq<Storage<T>>, x: Storage<T>)
    requires forall y :: y in a ==> y.priority < x.priority
    requires forall y :: y in b ==> y.priority >= x.priority
    ensures Insert(a + b, x) == a + [x] + b
  {
    PlaceUnique(a + b, x.priority, |a|);
  }

  lemma KeepInsert<T>(q: seq<Storage<T>>, x: Storage<T>, fn: (T, int) -> bool)
    requires Ascending(q)
    ensures Keep(Insert(q, x), fn) == if fn(x.value, x.priority) then Keep(q, fn) else Insert(Keep(q, fn), x)
  {
    var k := Place(q, x.priority);
    KeepInsertAt(q[..k], q[k..], x, fn);
    assert q == q[..k] + q[k..];
  }

  lemma KeepInsertAt<T>(a: seq<Storage<T>>, b: seq<Storage<T>>, x: Storage<T>, fn: (T, int) -> bool)
    requires forall y :: y in a ==> y.priority < x.priority
    requires forall y :: y in b ==> y.priority >= x.priority
    ensures Keep(a + [x] + b, fn) ==
            if fn(x.value, x.priority) then Keep(a + b, fn) else Insert(Keep(a + b, fn), x)
  {
    KeepConcat(a + [x], b, fn);
    KeepLast(a, x, fn);
    KeepConcat(a, b, fn);
    KeepWithin(a, fn);
    KeepWithin(b, fn);
    InsertAt(Keep(a, fn), Keep(b, fn), x);
  }

  lemma {:induction false} KeepWithin<T>(q: seq<Storage<T>>, fn: (T, int) -> bool)
    ensures forall y :: y in Keep(q, fn) ==> y in q && !fn(y.value, y.priority)
  {
    if q != [] {
      KeepWithin(q[1..], fn);
    }
  }

  class PriorityQueue<T> {
    var queue: seq<Storage<T>>
    /** What is in the queue, in order of arrival. */
    ghost var arrived: seq<Storage<T>>

    ghost predicate Valid()
      reads this
    {
      queue == Arrange(arrived)
    }

    constructor ()
      ensures Valid() && arrived == []
    {
      queue, arrived := [], [];
    }

    method Push(value: T, priority: int)
      requires Valid()
      modifies this
      ensures Valid() && arrived == old(arrived) + [Storage(priority, value)]
    {
      ArrangeIs(arrived);
      var it := LowerBound(queue, priority);
      queue := queue[..it] + [Storage(priority, value)] + queue[it..];
      arrived := arrived + [Storage(priority, value)];
    }

    method RemoveIf(fn: (T, int) -> bool)
      requires Valid()
      modifies this
      ensures Valid() && arrived == Keep(old(arrived), fn)
    {
      var it := 0;
      while it != |queue|
        invariant it <= |queue|
        invariant Keep(old(queue), fn) == queue[..it] + Keep(queue[it..], fn)
        invariant arrived == old(arrived)
        decreases |queue| - it
      {
        if fn(queue[it].value, queue[it].priority) {
          assert queue[it..][1..] == queue[it + 1..];
          assert (queue[..it] + queue[it + 1..])[it..] == queue[it + 1..];
          queue := queue[..it] + queue[it + 1..];
        } else {
          assert queue[it..][1..] == queue[it + 1..];
          it := it + 1;
        }
      }
      KeepArrange(arrived, fn);
      arrived := Keep(arrived, fn);
    }

    method Clear()
      modifies this
      ensures Valid() && arrived == []
    {
      queue, arrived := [], [];
    }

    method Pop() returns (result: Option<T>)
      requires Valid()
      modifies this
      ensures Valid()
      ensures old(arrived) == [] ==> result == None && arrived == []
      ensures old(arrived) != [] ==>
                var m := FirstMax(old(arrived));
                result == Some(old(arrived)[m].value) && arrived == Without(old(arrived), m)
    {
      ArrangeIs(arrived);
      if queue == [] {
        assert |multiset(arrived)| == 0;
        return None;
      }
      result := Some(queue[|queue| - 1].value);
      PopIsFirstMax(arrived);
      queue := queue[..|queue| - 1];
      arrived := Without(arrived, FirstMax(arrived));
    }

    method Size() returns (n: nat)
      requires Valid()
      ensures n == |arrived|
    {
      ArrangeIs(arrived);
      assert |multiset(queue)| == |multiset(arrived)|;
      n := |queue|;
    }
  }
}

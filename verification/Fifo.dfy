/** include/nhope/seq/fifo.h: a ring buffer of a power-of-two capacity that holds at most Size
    elements. */
module Fifo {
  import opened Bits
  import opened Wrappers

  type Elem = int

  /** nextPowerOf2: the least power of two from 2 on that is not below the value. The code
      computes it in an int, which holds it exactly for values up to 2^30. */
  method NextPowerOf2(value: nat) returns (power: nat, ghost k: nat)
    requires value > 0
    ensures power == Pow2(k) && value <= power && 2 <= power
    ensures power == 2 || power / 2 < value
    ensures power < 0x8000_0000 <==> value <= 0x4000_0000
  {
    var v := (value - 1) / 2;
    power, k := 2, 1;
    assert v == Shr(value - 1, 1);
    while v != 0
      invariant power == Pow2(k) && power >= 2 && v == Shr(value - 1, k)
      invariant power == 2 || power / 2 < value
      decreases v
    {
      ShrPositive(value - 1, k);
      ShrNext(value - 1, k);
      power, k := 2 * power, k + 1;
      v := v / 2;
    }
    ShrPositive(value - 1, k);
    NoPowerBetween(k, 30);
    Pow2Of30();
  }

  lemma {:induction false} NoPowerBetween(k: nat, n: nat)
    ensures Pow2(n) < Pow2(k) ==> 2 * Pow2(n) <= Pow2(k)
  {
    if k > 0 && n > 0 { NoPowerBetween(k - 1, n - 1); }
  }

  lemma Pow2Of30()
    ensures Pow2(30) == 0x4000_0000
  {
    Pow2Add(5, 5);
    Pow2Add(10, 5);
    Pow2Add(15, 15);
  }

  lemma {:induction false} ShrPositive(x: nat, k: nat)
    ensures Shr(x, k) > 0 <==> Pow2(k) <= x
  {
    if k > 0 {
      ShrPositive(x / 2, k - 1);
    }
  }

  lemma {:induction false} ShrNext(x: nat, k: nat)
    ensures Shr(x, k + 1) == Shr(x, k) / 2
  {
    if k > 0 {
      ShrNext(x / 2, k - 1);
    }
  }

  /** Slot i of the ring that starts at tail. */
  function Slot(tail: nat, i: nat, capacity: nat): nat {
    if tail + i < capacity then tail + i else tail + i - capacity
  }

  /** The mask of the code, (tail + i) & (capacity - 1), is the slot. */
  lemma MaskIsSlot(tail: nat, i: nat, capacity: nat, k: nat)
    requires capacity == Pow2(k) && tail < capacity && i <= capacity
    ensures And(tail + i, capacity - 1) == Slot(tail, i, capacity) == (tail + i) % capacity
  {
    AndLowMask(tail + i, k);
    DivUnique(tail + i, capacity, if tail + i < capacity then 0 else 1, Slot(tail, i, capacity));
  }

  // ---- What push comes to ----

  /** A push runs over the end of the array. */
  predicate Wraps(tail: nat, held: nat, count: nat, capacity: nat) {
    Slot(tail, held, capacity) + count > capacity
  }

  /** The second copy of a push that wraps is not cut to count: when the data does not fit by
      more than the gap of slots that never hold anything, it runs on over the oldest
      elements. */
  predicate Overruns(tail: nat, held: nat, size: nat, capacity: nat, offered: nat) {
    held <= size <= capacity &&
    var count := Min(offered, size - held);
    Wraps(tail, held, count, capacity) && offered > count + (capacity - size)
  }

  /** The oldest elements up to the end of the array give way to what is left of the data. */
  function Pushed(q: seq<Elem>, data: seq<Elem>, tail: nat, size: nat, capacity: nat): (r: seq<Elem>)
    requires |q| <= size <= capacity
    ensures |r| == |q| + Min(|data|, size - |q|)
  {
    var count := Min(|data|, size - |q|);
    var all := q + data[..count];
    var from := count + (capacity - size);
    if Overruns(tail, |q|, size, capacity, |data|) then
      seq(|all|, i requires 0 <= i < |all| =>
          if tail + i < capacity && from + i < |data| then data[from + i] else all[i])
    else all
  }

  /** The second copy does not even stay in the array: what it writes past the end is the
      data from here on. The language leaves the behaviour undefined. */
  predicate LeavesArray(tail: nat, held: nat, size: nat, capacity: nat, offered: nat) {
    held <= size && tail < capacity && held <= capacity &&
    Wraps(tail, held, Min(offered, size - held), capacity) &&
    offered - (capacity - Slot(tail, held, capacity)) > capacity
  }

  /** The elements in a ring, oldest first. */
  function Ring(b: seq<Elem>, tail: nat, held: nat): (q: seq<Elem>)
    requires tail < |b| && held <= |b|
    ensures |q| == held
  {
    seq(held, i requires 0 <= i < held => b[Slot(tail, i, |b|)])
  }

  predicate CopiedStraight(b: seq<Elem>, c: seq<Elem>, head: nat, data: seq<Elem>, count: nat)
    requires head + count <= |b| == |c| && count <= |data|
  {
    forall i :: 0 <= i < |b| ==> c[i] == if head <= i < head + count then data[i - head] else b[i]
  }

  lemma PushStraight(b: seq<Elem>, c: seq<Elem>, tail: nat, held: nat, data: seq<Elem>, size: nat)
    requires tail < |b| == |c| && held <= size <= |b|
    requires var count, head := Min(|data|, size - held), Slot(tail, held, |b|);
      head + count <= |b| && CopiedStraight(b, c, head, data, count)
    ensures Ring(c, tail, held + Min(|data|, size - held)) == Pushed(Ring(b, tail, held), data, tail, size, |b|)
  {
    var count, head := Min(|data|, size - held), Slot(tail, held, |b|);
    forall i | 0 <= i < held + count
      ensures Ring(c, tail, held + count)[i] == (Ring(b, tail, held) + data[..count])[i]
    {
    }
  }

  /** The array after the two copies of a push that wraps. */
  predicate CopiedAround(b: seq<Elem>, c: seq<Elem>, head: nat, data: seq<Elem>)
    requires head < |b| == |c| && |b| - head <= |data|
  {
    var first := |b| - head;
    forall i :: 0 <= i < |b| ==>
      c[i] == if i < |data| - first then data[first + i] else if head <= i then data[i - head] else b[i]
  }

  lemma PushAround(b: seq<Elem>, c: seq<Elem>, tail: nat, held: nat, data: seq<Elem>, size: nat)
    requires tail < |b| == |c| && held <= size <= |b| && Wraps(tail, held, Min(|data|, size - held), |b|)
    requires CopiedAround(b, c, Slot(tail, held, |b|), data)
    ensures Ring(c, tail, held + Min(|data|, size - held)) == Pushed(Ring(b, tail, held), data, tail, size, |b|)
  {
    var count, head := Min(|data|, size - held), Slot(tail, held, |b|);
    assert head == tail + held;
    var first := |b| - head;
    var all := Ring(b, tail, held) + data[..count];
    forall i | 0 <= i < held + count
      ensures Ring(c, tail, held + count)[i] ==
              if tail + i < |b| && first + tail + i < |data| then data[first + tail + i] else all[i]
    {
      AroundAt(b, c, tail, held, data, count, i);
    }
    if |data| > count + (|b| - size) {
      assert count + (|b| - size) == first + tail;
    }
  }

  /** Element i after a push that wraps: overwritten by the second copy, or in its place. */
  lemma AroundAt(b: seq<Elem>, c: seq<Elem>, tail: nat, held: nat, data: seq<Elem>, count: nat, i: nat)
    requires tail + held < |b| == |c| && tail + held + count > |b| && held + count <= |b| && count <= |data|
    requires CopiedAround(b, c, tail + held, data) && i < held + count
    ensures var first := |b| - (tail + held);
      Ring(c, tail, held + count)[i] ==
      if tail + i < |b| && first + tail + i < |data| then data[first + tail + i]
      else (Ring(b, tail, held) + data[..count])[i]
  {
    var first := |b| - (tail + held);
    if tail + i >= |b| {
      assert c[tail + i - |b|] == data[first + (tail + i - |b|)];
      return;
    }
    assert Ring(c, tail, held + count)[i] == c[tail + i];
  }

  lemma PopRing(b: seq<Elem>, tail: nat, held: nat, n: nat)
    requires tail < |b| && n <= held <= |b|
    ensures Ring(b, tail, held)[..n] == if tail + n <= |b| then b[tail..tail + n] else b[tail..] + b[..n - (|b| - tail)]
    ensures Ring(b, tail, held)[n..] == Ring(b, Slot(tail, n, |b|), held - n)
  {}

  class Fifo {
    const size: nat
    const buffer: array<Elem>
    ghost const k: nat
    var head: nat
    var tail: nat
    var count: nat

    ghost predicate Valid()
      reads this
    {
      && 0 < size <= buffer.Length && buffer.Length == Pow2(k) && buffer.Length >= 2
      && count <= size && tail < buffer.Length
      && head == Slot(tail, count, buffer.Length)
    }

    /** The elements, oldest first. */
    ghost function Contents(): (q: seq<Elem>)
      requires Valid()
      reads this, buffer
      ensures |q| == count
    {
      Ring(buffer[..], tail, count)
    }

    constructor (size: nat)
      requires size > 0
      ensures Valid() && this.size == size && Contents() == [] && fresh(buffer)
      ensures buffer.Length == 2 || buffer.Length / 2 < size
    {
      var capacity: nat;
      ghost var exponent: nat;
      capacity, exponent := NextPowerOf2(size);
      this.size, k := size, exponent;
      buffer := new Elem[capacity](_ => 0);
      head, tail, count := 0, 0, 0;
    }

    method Clear()
      requires Valid()
      modifies this
      ensures Valid() && Contents() == []
    {
      count, head, tail := 0, 0, 0;
    }

    /** memcpy into the array. */
    method Copy(at: nat, src: seq<Elem>)
      requires at + |src| <= buffer.Length
      modifies buffer
      ensures forall i :: 0 <= i < buffer.Length ==>
                buffer[i] == if at <= i < at + |src| then src[i - at] else old(buffer[i])
    {
      forall i | 0 <= i < |src| { buffer[at + i] := src[i]; }
    }

    /** stray is what the second copy writes past the end of the array; the fields of the
        object are described whether or not there is any. */
    method Push(data: seq<Elem>) returns (pushed: nat, stray: seq<Elem>)
      requires Valid()
      modifies this, buffer
      ensures Valid() && pushed == Min(|data|, size - |old(Contents())|)
      ensures Contents() == Pushed(old(Contents()), data, old(tail), size, buffer.Length)
      ensures stray != [] <==> LeavesArray(old(tail), |old(Contents())|, size, buffer.Length, |data|)
    {
      pushed, stray := Min(|data|, size - count), [];
      if pushed == 0 {
        return;
      }
      if head + pushed <= buffer.Length {
        PushOnwards(data, pushed);
      } else {
        stray := PushRound(data, pushed);
      }
    }

    method PushOnwards(data: seq<Elem>, pushed: nat)
      requires Valid() && pushed == Min(|data|, size - count) && head + pushed <= buffer.Length
      modifies this, buffer
      ensures Valid() && Contents() == Pushed(old(Contents()), data, old(tail), size, buffer.Length)
    {
      ghost var b := buffer[..];
      MaskIsSlot(head, pushed, buffer.Length, k);
      CopyStraight(data, pushed);
      PushStraight(b, buffer[..], tail, count, data, size);
      count := count + pushed;
    }

    method PushRound(data: seq<Elem>, pushed: nat) returns (stray: seq<Elem>)
      requires Valid() && pushed == Min(|data|, size - count) && head + pushed > buffer.Length
      modifies this, buffer
      ensures Valid() && Contents() == Pushed(old(Contents()), data, old(tail), size, buffer.Length)
      ensures stray != [] <==> |data| - (buffer.Length - old(head)) > buffer.Length
    {
      ghost var b := buffer[..];
      MaskIsSlot(head, pushed, buffer.Length, k);
      stray := CopyAround(data, pushed);
      PushAround(b, buffer[..], tail, count, data, size);
      count := count + pushed;
    }

    /** The copy of a push that does not wrap. */
    method CopyStraight(data: seq<Elem>, pushed: nat)
      requires buffer.Length > 0 && head + pushed <= buffer.Length && pushed <= |data|
      modifies this`head, buffer
      ensures CopiedStraight(old(buffer[..]), buffer[..], old(head), data, pushed)
      ensures head == And(old(head) + pushed, buffer.Length - 1)
    {
      Copy(head, data[..pushed]);
      head := And(head + pushed, buffer.Length - 1);
    }

    /** The two copies of a push that wraps; the second is not cut to what fits. */
    method CopyAround(data: seq<Elem>, pushed: nat) returns (stray: seq<Elem>)
      requires head < buffer.Length < head + pushed && pushed <= |data|
      modifies this`head, buffer
      ensures CopiedAround(old(buffer[..]), buffer[..], old(head), data)
      ensures head == And(old(head) + pushed, buffer.Length - 1)
      ensures |stray| == if |data| - (buffer.Length - old(head)) > buffer.Length
                         then |data| - (buffer.Length - old(head)) - buffer.Length else 0
    {
      var firstPartCount := buffer.Length - head;
      Copy(head, data[..firstPartCount]);
      head := And(head + pushed, buffer.Length - 1);
      var inside := Min(|data| - firstPartCount, buffer.Length);
      Copy(0, data[firstPartCount..firstPartCount + inside]);
      stray := data[firstPartCount + inside..];
    }

    method PushOne(value: Elem) returns (pushed: nat)
      requires Valid()
      modifies this, buffer
      ensures Valid() && pushed == if |old(Contents())| < size then 1 else 0
      ensures Contents() == if |old(Contents())| < size then old(Contents()) + [value] else old(Contents())
    {
      var stray;
      pushed, stray := Push([value]);
    }

    /** The copies of a pop, one part or two. */
    method CopyOut(n: nat) returns (data: seq<Elem>)
      requires Valid() && n <= count
      ensures data == Contents()[..n]
    {
      PopRing(buffer[..], tail, count, n);
      if tail + n <= buffer.Length {
        data := buffer[tail..tail + n];
      } else {
        var firstPart := buffer[tail..];
        data := firstPart + buffer[..n - |firstPart|];
      }
    }

    method Pop(room: nat) returns (data: seq<Elem>)
      requires Valid()
      modifies this
      ensures Valid() && |data| == Min(room, |old(Contents())|)
      ensures old(Contents()) == data + Contents()
    {
      var n := Min(room, count);
      if n == 0 {
        return [];
      }
      data := CopyOut(n);
      DropFront(n);
    }

    method DropFront(n: nat)
      requires Valid() && n <= count
      modifies this
      ensures Valid() && Contents() == old(Contents())[n..]
    {
      MaskIsSlot(tail, n, buffer.Length, k);
      PopRing(buffer[..], tail, count, n);
      count := count - n;
      tail := And(tail + n, buffer.Length - 1);
    }

    method PopOne() returns (val: Option<Elem>)
      requires Valid()
      modifies this
      ensures Valid()
      ensures if old(Contents()) == [] then val == None && Contents() == []
              else val == Some(old(Contents())[0]) && Contents() == old(Contents())[1..]
    {
      var data := Pop(1);
      val := if data == [] then None else Some(data[0]);
    }

    method Size() returns (n: nat)
      requires Valid()
      ensures n == |Contents()|
    {
      n := count;
    }
  }

  // ---- When push appends ----

  /** Whatever the elements are, a push of so many appends what fits. */
  ghost predicate Appends(q: seq<Elem>, tail: nat, size: nat, capacity: nat, offered: nat)
    requires |q| <= size <= capacity
  {
    forall data: seq<Elem> :: |data| == offered ==>
      Pushed(q, data, tail, size, capacity) == q + data[..Min(offered, size - |q|)]
  }

  /** It does exactly when the data does not overrun. */
  lemma PushAppendsIff(q: seq<Elem>, tail: nat, size: nat, capacity: nat, offered: nat)
    requires |q| <= size <= capacity && tail < capacity
    ensures Appends(q, tail, size, capacity, offered) <==> !Overruns(tail, |q|, size, capacity, offered)
  {
    if Overruns(tail, |q|, size, capacity, offered) {
      var count := Min(offered, size - |q|);
      var from := count + (capacity - size);
      var first := if q == [] then 0 else q[0];
      var data := seq(offered, i => if i < from then first else first + 1);
      assert Pushed(q, data, tail, size, capacity)[0] == data[from] == first + 1;
      assert (q + data[..count])[0] == first;
    }
  }

  /** A push that leaves the array is one that overruns. */
  lemma LeavingOverruns(tail: nat, held: nat, size: nat, capacity: nat, offered: nat)
    requires held <= size <= capacity && LeavesArray(tail, held, size, capacity, offered)
    ensures Overruns(tail, held, size, capacity, offered)
  {}

  /** Data cut to what is free, as a caller can do, never overruns. */
  lemma FittingDataAppends(tail: nat, held: nat, size: nat, capacity: nat, offered: nat)
    requires held <= size <= capacity && offered <= capacity - held
    ensures !Overruns(tail, held, size, capacity, offered)
  {}

  /** A ring of size 3 in 4 slots, from slot 3, empty: of five elements offered three fit, and
      the second copy puts the fifth where the first belongs. */
  lemma OverrunExample()
    ensures Pushed([], [1, 2, 3, 4, 5], 3, 3, 4) == [5, 2, 3]
  {}

  /** With a sixth element the second copy has five to put into four slots. */
  lemma LeavingExample()
    ensures LeavesArray(3, 0, 3, 4, 6) && !LeavesArray(3, 0, 3, 4, 5) && Overruns(3, 0, 3, 4, 5)
  {}
}

/** Readers as the rest of the library sees them: a device that may give less than it is
    asked for or fail, ConcatReader and PushbackReader. A reader is described by its state
    and by what a call of read makes of it. */
module Readers {
  import opened Bits
  import opened Wrappers

  /** What a device does at a read: give at most so many bytes, or fail. */
  datatype Behaviour = Give(atMost: nat) | Fail(code: nat)

  /** A device reads from rest and follows the script, then gives all it is asked for. */
  datatype Source =
    | Device(rest: seq<Byte>, script: seq<Behaviour>)
    | Concat(readers: seq<Source>)
    | Pushback(unreadBuf: seq<Byte>, origin: Source)

  datatype Io = Got(bytes: seq<Byte>) | Failed(code: nat)

  function Reverse(s: seq<Byte>): (r: seq<Byte>)
    ensures |r| == |s|
    ensures forall i :: 0 <= i < |s| ==> r[i] == s[|s| - 1 - i]
  {
    seq(|s|, i requires 0 <= i < |s| => s[|s| - 1 - i])
  }

  /** A device that is not at its end gives something when asked for something. */
  function DeviceCount(rest: seq<Byte>, script: seq<Behaviour>, size: nat): nat {
    var room := Min(size, |rest|);
    if script == [] || script[0].Fail? then room
    else if script[0].atMost == 0 then Min(room, 1) else Min(room, script[0].atMost)
  }

  function ReadS(s: Source, size: nat): (Io, Source)
    decreases s
  {
    match s
    case Device(rest, script) =>
      var left := if script == [] then [] else script[1..];
      if script != [] && script[0].Fail? then (Failed(script[0].code), Device(rest, left))
      else
        var count := DeviceCount(rest, script, size);
        (Got(rest[..count]), Device(rest[count..], left))
    case Concat(readers) =>
      var (io, left) := ReadFirst(readers, size);
      (io, Concat(left))
    case Pushback(unreadBuf, origin) =>
      if unreadBuf != [] then
        var k := Min(size, |unreadBuf|);
        (Got(Reverse(unreadBuf[|unreadBuf| - k..])), Pushback(unreadBuf[..|unreadBuf| - k], origin))
      else
        var (io, left) := ReadS(origin, size);
        (io, Pushback(unreadBuf, left))
  }

  /** startRead of ConcatReader: a reader that gives nothing is dropped and the next one is
      read. */
  function ReadFirst(readers: seq<Source>, size: nat): (Io, seq<Source>)
    decreases readers
  {
    if readers == [] then (Got([]), [])
    else
      var (io, left) := ReadS(readers[0], size);
      if io == Got([]) then ReadFirst(readers[1..], size) else (io, [left] + readers[1..])
  }

  /** What is still to be read. */
  function Content(s: Source): seq<Byte>
    decreases s
  {
    match s
    case Device(rest, _) => rest
    case Concat(readers) => Contents(readers)
    case Pushback(unreadBuf, origin) => Reverse(unreadBuf) + Content(origin)
  }

  function Contents(readers: seq<Source>): seq<Byte>
    decreases readers
  {
    if readers == [] then [] else Content(readers[0]) + Contents(readers[1..])
  }

  function UnreadS(s: Source, bytes: seq<Byte>): Source
    requires s.Pushback?
  {
    s.(unreadBuf := s.unreadBuf + Reverse(bytes))
  }

  // ---- What a read does to the content ----

  /** Nothing is lost, repeated or reordered, no more is given than was asked for, and a
      reader gives nothing only at its end. */
  predicate ReadOk(before: seq<Byte>, size: nat, io: Io, after: seq<Byte>) {
    match io
    case Got(bytes) => before == bytes + after && |bytes| <= size && (bytes == [] ==> before == [])
    case Failed(_) => before == after
  }

  lemma {:induction false} ReadKeeps(s: Source, size: nat)
    requires size > 0
    ensures ReadOk(Content(s), size, ReadS(s, size).0, Content(ReadS(s, size).1))
    decreases s
  {
    match s
    case Device(rest, script) =>
    case Concat(readers) => ReadFirstKeeps(readers, size);
    case Pushback(unreadBuf, origin) =>
      if unreadBuf != [] {
        var k := Min(size, |unreadBuf|);
        var bytes, left := Reverse(unreadBuf[|unreadBuf| - k..]), unreadBuf[..|unreadBuf| - k];
        assert Reverse(unreadBuf) == bytes + Reverse(left);
        assert bytes + Reverse(left) + Content(origin) == bytes + (Reverse(left) + Content(origin));
      } else {
        ReadKeeps(origin, size);
        assert Reverse([]) == [];
        assert [] + Content(origin) == Content(origin);
        assert [] + Content(ReadS(origin, size).1) == Content(ReadS(origin, size).1);
      }
  }

  lemma {:induction false} ReadFirstKeeps(readers: seq<Source>, size: nat)
    requires size > 0
    ensures ReadOk(Contents(readers), size, ReadFirst(readers, size).0, Contents(ReadFirst(readers, size).1))
    decreases readers
  {
    if readers != [] {
      ReadKeeps(readers[0], size);
      var (io, left) := ReadS(readers[0], size);
      if io == Got([]) {
        ReadFirstKeeps(readers[1..], size);
        assert [] + Contents(readers[1..]) == Contents(readers[1..]);
      } else {
        assert ([left] + readers[1..])[1..] == readers[1..];
        if io.Got? {
          assert io.bytes + Content(left) + Contents(readers[1..])
              == io.bytes + (Content(left) + Contents(readers[1..]));
        }
      }
    }
  }

  /** Any sequence of reads with room in the buffers. */
  function Reads(s: Source, sizes: seq<nat>): (seq<Byte>, Source)
    decreases |sizes|
  {
    if sizes == [] then ([], s)
    else
      var (io, left) := ReadS(s, sizes[0]);
      var (more, end) := Reads(left, sizes[1..]);
      (if io.Got? then io.bytes + more else more, end)
  }

  lemma {:induction false} ReadsConcat(s: Source, sizes: seq<nat>)
    requires forall i :: 0 <= i < |sizes| ==> sizes[i] > 0
    ensures Content(s) == Reads(s, sizes).0 + Content(Reads(s, sizes).1)
    decreases |sizes|
  {
    if sizes == [] {
      assert [] + Content(s) == Content(s);
    } else {
      ReadKeeps(s, sizes[0]);
      var (io, left) := ReadS(s, sizes[0]);
      ReadsConcat(left, sizes[1..]);
      if io.Got? {
        var (more, end) := Reads(left, sizes[1..]);
        assert io.bytes + (more + Content(end)) == io.bytes + more + Content(end);
      }
    }
  }

  lemma UnreadPrepends(s: Source, bytes: seq<Byte>)
    requires s.Pushback?
    ensures Content(UnreadS(s, bytes)) == bytes + Content(s)
  {
    assert Reverse(s.unreadBuf + Reverse(bytes)) == bytes + Reverse(s.unreadBuf);
    assert bytes + Reverse(s.unreadBuf) + Content(s.origin) == bytes + (Reverse(s.unreadBuf) + Content(s.origin));
  }

  /** Unreading what has just been read restores the stream. */
  lemma UnreadRestores(s: Source, size: nat)
    requires s.Pushback? && size > 0 && ReadS(s, size).0.Got?
    ensures Content(UnreadS(ReadS(s, size).1, ReadS(s, size).0.bytes)) == Content(s)
  {
    ReadKeeps(s, size);
    UnreadPrepends(ReadS(s, size).1, ReadS(s, size).0.bytes);
  }

  // ---- Reads with an empty buffer ----

  /** A read of ConcatReader loses nothing: what it gives and what is left are what there was. */
  predicate Kept(readers: seq<Source>, size: nat) {
    var (io, left) := ReadFirst(readers, size);
    Contents(readers) == (if io.Got? then io.bytes else []) + Contents(left)
  }

  /** ConcatReader takes a read of no bytes for the end of its first reader. This is what it
      drops for that reason in a read with an empty buffer: every reader up to the end or up
      to the one that fails. */
  function Dropped(readers: seq<Source>): seq<Byte>
    decreases readers
  {
    if readers == [] then []
    else if ReadS(readers[0], 0).0.Got? then Content(readers[0]) + Dropped(readers[1..])
    else DroppedWithin(readers[0])
  }

  function DroppedWithin(s: Source): seq<Byte>
    decreases s
  {
    match s
    case Device(_, _) => []
    case Concat(readers) => Dropped(readers)
    case Pushback(unreadBuf, origin) => if unreadBuf == [] then DroppedWithin(origin) else []
  }

  lemma {:induction false} EmptyReadGives(s: Source)
    ensures ReadS(s, 0).0.Got? ==> ReadS(s, 0).0.bytes == []
    ensures ReadS(s, 0).0.Failed? ==> Content(s) == DroppedWithin(s) + Content(ReadS(s, 0).1)
    decreases s
  {
    match s
    case Device(_, _) =>
    case Concat(readers) => EmptyReadDrops(readers);
    case Pushback(unreadBuf, origin) =>
      if unreadBuf == [] {
        EmptyReadGives(origin);
        assert Reverse([]) == [];
        assert [] + Content(origin) == Content(origin);
        assert [] + Content(ReadS(origin, 0).1) == Content(ReadS(origin, 0).1);
      }
  }

  /** The exact loss: what was dropped is the front of the content, and what is left the rest.
      Unless a reader fails, that is everything. */
  lemma {:induction false} EmptyReadDrops(readers: seq<Source>)
    ensures ReadFirst(readers, 0).0.Got? ==> ReadFirst(readers, 0) == (Got([]), [])
    ensures Contents(readers) == Dropped(readers) + Contents(ReadFirst(readers, 0).1)
    decreases readers
  {
    if readers != [] {
      EmptyReadGives(readers[0]);
      if ReadS(readers[0], 0).0.Got? {
        EmptyReadDrops(readers[1..]);
        DropsFirst(readers);
      } else {
        StopsAtFirst(readers);
      }
    }
  }

  lemma DropsFirst(readers: seq<Source>)
    requires readers != [] && ReadS(readers[0], 0).0 == Got([])
    requires Contents(readers[1..]) == Dropped(readers[1..]) + Contents(ReadFirst(readers[1..], 0).1)
    ensures ReadFirst(readers, 0) == ReadFirst(readers[1..], 0)
    ensures Contents(readers) == Dropped(readers) + Contents(ReadFirst(readers, 0).1)
  {
    Regroup(Content(readers[0]), Dropped(readers[1..]), Contents(ReadFirst(readers[1..], 0).1));
  }

  lemma StopsAtFirst(readers: seq<Source>)
    requires readers != [] && ReadS(readers[0], 0).0.Failed?
    requires Content(readers[0]) == DroppedWithin(readers[0]) + Content(ReadS(readers[0], 0).1)
    ensures ReadFirst(readers, 0).0.Failed?
    ensures Contents(readers) == Dropped(readers) + Contents(ReadFirst(readers, 0).1)
  {
    var left := ReadS(readers[0], 0).1;
    assert ([left] + readers[1..])[0] == left && ([left] + readers[1..])[1..] == readers[1..];
    Regroup(DroppedWithin(readers[0]), Content(left), Contents(readers[1..]));
  }

  lemma Regroup(a: seq<Byte>, b: seq<Byte>, c: seq<Byte>)
    ensures a + (b + c) == a + b + c
  {}

  /** For every reader and every result: a read keeps the content if and only if its buffer
      has room or what it drops is empty anyway. */
  lemma KeptExactly(readers: seq<Source>, size: nat)
    ensures Kept(readers, size) <==> size > 0 || Dropped(readers) == []
    ensures ReadFirst(readers, size).0.Got? ==> (Kept(readers, size) <==> size > 0 || Contents(readers) == [])
  {
    if size > 0 {
      ReadFirstKeeps(readers, size);
      assert [] + Contents(ReadFirst(readers, size).1) == Contents(ReadFirst(readers, size).1);
    } else {
      EmptyReadDrops(readers);
    }
  }

  /** Reads of a size keep the content of every ConcatReader if and only if there is room for
      at least one byte. */
  lemma KeptIff(size: nat)
    ensures (forall readers :: Kept(readers, size)) <==> size > 0
  {
    forall readers | size > 0
      ensures Kept(readers, size)
    {
      KeptExactly(readers, size);
    }
    LossWithFailure();
  }

  /** A failing reader does not save the ones before it: the 7 is gone. */
  lemma LossWithFailure()
    ensures var readers := [Device([7], []), Device([8], [Fail(1)])];
            ReadFirst(readers, 0) == (Failed(1), [Device([8], [])]) && !Kept(readers, 0)
  {
    var first, second, left := Device([7], []), Device([8], [Fail(1)]), Device([8], []);
    assert ReadS(first, 0).0 == Got([]);
    assert [first, second][1..] == [second];
    assert [second][1..] == [];
    assert second.script[1..] == [];
    assert ReadS(second, 0) == (Failed(1), left);
    assert [left] + [] == [left];
    assert ReadFirst([second], 0) == (Failed(1), [left]);
    ContentsOfOne(second);
    ContentsOfOne(left);
    assert Contents([first, second]) == [7] + [8];
  }

  lemma ContentsOfOne(s: Source)
    ensures Contents([s]) == Content(s)
  {
    assert [s][1..] == [];
    assert Content(s) + [] == Content(s);
  }

  // ---- The classes ----

  /** Any reader, behind its interface. failed remembers whether a read has failed. */
  class Reader {
    var src: Source
    var failed: bool

    constructor (src: Source)
      ensures this.src == src && !failed
    {
      this.src, failed := src, false;
    }

    method Read(size: nat) returns (io: Io)
      requires size > 0
      modifies this
      ensures (io, src) == ReadS(old(src), size) && failed == (old(failed) || io.Failed?)
      ensures ReadOk(Content(old(src)), size, io, Content(src))
    {
      ReadKeeps(src, size);
      var (result, left) := ReadS(src, size);
      io, src, failed := result, left, failed || result.Failed?;
    }

    /** The same as far as the content goes. */
    method ReadPortion(size: nat) returns (io: Io)
      requires size > 0
      modifies this
      ensures failed == (old(failed) || io.Failed?)
      ensures ReadOk(Content(old(src)), size, io, Content(src))
    {
      io := Read(size);
    }
  }

  class ConcatReader {
    var readers: seq<Source>

    constructor (readers: seq<Source>)
      ensures this.readers == readers
    {
      this.readers := readers;
    }

    method Read(size: nat) returns (io: Io)
      modifies this
      ensures (io, readers) == ReadFirst(old(readers), size)
    {
      while readers != []
        invariant ReadFirst(readers, size) == ReadFirst(old(readers), size)
        decreases |readers|
      {
        var (result, left) := ReadS(readers[0], size);
        if result != Got([]) {
          readers := [left] + readers[1..];
          return result;
        }
        readers := readers[1..];
      }
      io := Got([]);
    }
  }

  class PushbackReader {
    var unreadBuf: seq<Byte>
    var origin: Source

    ghost function View(): Source
      reads this
    {
      Pushback(unreadBuf, origin)
    }

    constructor (origin: Source)
      ensures View() == Pushback([], origin)
    {
      unreadBuf, this.origin := [], origin;
    }

    method Read(size: nat) returns (io: Io)
      modifies this
      ensures (io, View()) == ReadS(old(View()), size)
    {
      if unreadBuf != [] {
        var k := Min(size, |unreadBuf|);
        io := Got(Reverse(unreadBuf[|unreadBuf| - k..]));
        unreadBuf := unreadBuf[..|unreadBuf| - k];
        return;
      }
      var (result, left) := ReadS(origin, size);
      io, origin := result, left;
    }

    method Unread(bytes: seq<Byte>)
      modifies this
      ensures View() == UnreadS(old(View()), bytes)
      ensures Content(View()) == bytes + Content(old(View()))
    {
      UnreadPrepends(View(), bytes);
      unreadBuf := unreadBuf + Reverse(bytes);
    }
  }
}

/** The operations of lib/io/io-device.cpp over any reader and any writer. */
module StreamOps {
  import opened Bits
  import opened Wrappers
  import opened Readers

  // ---- ReadOp ----

  /** How much to ask for next, from the number of portions read and what they were; nothing
      ends the operation. */
  type Handler = (nat, seq<Byte>) -> nat

  /** stops are the lengths of the buffer at which the handler was asked, on this content:
      every portion is non-empty and no larger than asked for, and the operation goes on
      exactly until the handler says 0 or the content ends. */
  ghost predicate Trace(handler: Handler, content: seq<Byte>, stops: seq<nat>) {
    && |stops| > 0 && stops[0] == 0
    && (forall i :: 0 <= i < |stops| ==> stops[i] <= |content|)
    && forall i :: 0 <= i < |stops| - 1 ==> Portion(handler, content, i, stops[i], stops[i + 1])
  }

  predicate Portion(handler: Handler, content: seq<Byte>, i: nat, from: nat, upTo: nat)
    requires from <= |content|
  {
    from < upTo && upTo - from <= handler(i, content[..from])
  }

  ghost predicate Ends(handler: Handler, content: seq<Byte>, stops: seq<nat>)
    requires Trace(handler, content, stops)
  {
    var last := |stops| - 1;
    handler(last, content[..stops[last]]) == 0 || stops[last] == |content|
  }

  lemma Advance(content: seq<Byte>, n: nat, bytes: seq<Byte>, after: seq<Byte>)
    requires n <= |content| && content[n..] == bytes + after
    ensures n + |bytes| <= |content|
    ensures content[..n] + bytes == content[..n + |bytes|] && after == content[n + |bytes|..]
  {
    assert content == content[..n] + (bytes + after);
  }

  lemma TraceOn(handler: Handler, content: seq<Byte>, stops: seq<nat>, upTo: nat)
    requires Trace(handler, content, stops) && stops[|stops| - 1] < upTo <= |content|
    requires upTo - stops[|stops| - 1] <= handler(|stops| - 1, content[..stops[|stops| - 1]])
    ensures Trace(handler, content, stops + [upTo])
  {
    var more := stops + [upTo];
    forall i | 0 <= i < |more| - 1
      ensures more[i] <= |content| && Portion(handler, content, i, more[i], more[i + 1])
    {
      if i < |stops| - 1 { assert Portion(handler, content, i, stops[i], stops[i + 1]); }
    }
  }

  lemma NextPortion(handler: Handler, content: seq<Byte>, stops: seq<nat>, bytes: seq<Byte>, after: seq<Byte>)
    requires Trace(handler, content, stops)
    requires var last := stops[|stops| - 1];
      content[last..] == bytes + after && 0 < |bytes| <= handler(|stops| - 1, content[..last])
    ensures var last, upTo := stops[|stops| - 1], stops[|stops| - 1] + |bytes|;
      && Trace(handler, content, stops + [upTo])
      && content[..last] + bytes == content[..upTo] && after == content[upTo..]
  {
    Advance(content, stops[|stops| - 1], bytes, after);
    TraceOn(handler, content, stops, stops[|stops| - 1] + |bytes|);
  }

  class ReadOp {
    const dev: Reader
    var buf: seq<Byte>

    constructor (dev: Reader)
      ensures this.dev == dev && buf == []
    {
      this.dev, buf := dev, [];
    }

    /** readNextPortion and readPortionHandler, one after the other. */
    method Start(handler: Handler) returns (r: Result<seq<Byte>, nat>, ghost stops: seq<nat>)
      requires buf == []
      modifies this, dev
      ensures Trace(handler, old(Content(dev.src)), stops)
      ensures Content(dev.src) == old(Content(dev.src))[stops[|stops| - 1]..]
      ensures r.Ok? ==>
                && Ends(handler, old(Content(dev.src)), stops)
                && r.value == old(Content(dev.src))[..stops[|stops| - 1]]
      ensures dev.failed == (old(dev.failed) || r.Failure?)
    {
      ghost var content := Content(dev.src);
      stops := [0];
      var portionSize := handler(0, buf);
      var calls := 1;
      while portionSize != 0
        invariant calls == |stops| && Trace(handler, content, stops)
        invariant buf == content[..stops[|stops| - 1]] && Content(dev.src) == content[stops[|stops| - 1]..]
        invariant portionSize == handler(|stops| - 1, buf)
        invariant dev.failed == old(dev.failed)
        decreases |Content(dev.src)|, portionSize
      {
        var io := dev.ReadPortion(portionSize);
        if io.Failed? {
          return Failure(io.code), stops;
        }
        if io.bytes == [] {
          return Ok(buf), stops;
        }
        NextPortion(handler, content, stops, io.bytes, Content(dev.src));
        buf := buf + io.bytes;
        stops := stops + [|buf|];
        portionSize := handler(calls, buf);
        calls := calls + 1;
      }
      r := Ok(buf);
    }
  }

  /** What every read operation does with its device: what it gives is what it takes off the
      front of the stream, and it fails exactly when a read of the device does. */
  predicate Takes(before: seq<Byte>, wasFailed: bool, r: Result<seq<Byte>, nat>, after: seq<Byte>, failed: bool) {
    && failed == (wasFailed || r.Failure?)
    && (r.Ok? ==> before == r.value + after)
    && |after| <= |before| && after == before[|before| - |after|..]
  }

  /** read: one portion, empty only when none is wanted or the stream is at its end. */
  method Read(dev: Reader, bytesCount: nat) returns (r: Result<seq<Byte>, nat>)
    modifies dev
    ensures Takes(old(Content(dev.src)), old(dev.failed), r, Content(dev.src), dev.failed)
    ensures r.Ok? ==>
              && |r.value| <= bytesCount
              && (r.value == [] <==> bytesCount == 0 || old(Content(dev.src)) == [])
  {
    var op := new ReadOp(dev);
    ghost var stops;
    r, stops := op.Start(Once(bytesCount));
    OnePortion(bytesCount, old(Content(dev.src)), stops);
  }

  function Once(bytesCount: nat): Handler {
    (calls: nat, buf: seq<Byte>) => if calls == 0 then bytesCount else 0
  }

  lemma AtMostTwo(bytesCount: nat, content: seq<Byte>, stops: seq<nat>)
    requires Trace(Once(bytesCount), content, stops)
    ensures |stops| <= 2
  {
    assert |stops| > 2 ==> Portion(Once(bytesCount), content, 1, stops[1], stops[2]);
  }

  lemma OnePortion(bytesCount: nat, content: seq<Byte>, stops: seq<nat>)
    requires Trace(Once(bytesCount), content, stops)
    ensures var last := stops[|stops| - 1];
      && last <= bytesCount && last <= |content|
      && (Ends(Once(bytesCount), content, stops) ==> (last == 0 <==> bytesCount == 0 || content == []))
  {
    AtMostTwo(bytesCount, content, stops);
    if |stops| > 1 {
      assert Portion(Once(bytesCount), content, 0, stops[0], stops[1]);
    }
  }

  function Exactly(bytesCount: nat): Handler {
    (calls: nat, buf: seq<Byte>) => if |buf| <= bytesCount then bytesCount - |buf| else 0
  }

  /** The assertion of readExactly: the buffer never outgrows what was asked for. */
  lemma {:induction false} NeverTooMuch(bytesCount: nat, content: seq<Byte>, stops: seq<nat>, i: nat)
    requires Trace(Exactly(bytesCount), content, stops) && i < |stops|
    ensures stops[i] <= bytesCount
  {
    if i > 0 {
      NeverTooMuch(bytesCount, content, stops, i - 1);
      assert Portion(Exactly(bytesCount), content, i - 1, stops[i - 1], stops[i]);
    }
  }

  method ReadExactly(dev: Reader, bytesCount: nat) returns (r: Result<seq<Byte>, nat>)
    modifies dev
    ensures Takes(old(Content(dev.src)), old(dev.failed), r, Content(dev.src), dev.failed)
    ensures r.Ok? ==> r.value == old(Content(dev.src))[..Min(bytesCount, |old(Content(dev.src))|)]
  {
    var op := new ReadOp(dev);
    ghost var stops;
    r, stops := op.Start(Exactly(bytesCount));
    NeverTooMuch(bytesCount, old(Content(dev.src)), stops, |stops| - 1);
  }

  predicate EndsWith(data: seq<Byte>, marker: seq<Byte>) {
    |data| >= |marker| && data[|data| - |marker|..] == marker
  }

  function Until(marker: seq<Byte>): Handler {
    (calls: nat, buf: seq<Byte>) => if EndsWith(buf, marker) then 0 else 1
  }

  /** Byte by byte: no prefix is passed over. */
  lemma {:induction false} EveryPrefix(marker: seq<Byte>, content: seq<Byte>, stops: seq<nat>, i: nat)
    requires Trace(Until(marker), content, stops) && i < |stops|
    ensures stops[i] == i
    ensures forall k :: 0 <= k < i ==> !EndsWith(content[..k], marker)
  {
    if i > 0 {
      EveryPrefix(marker, content, stops, i - 1);
      assert Portion(Until(marker), content, i - 1, stops[i - 1], stops[i]);
    }
  }

  /** The shortest prefix that ends with the marker, or everything when there is none. */
  predicate UpTo(content: seq<Byte>, marker: seq<Byte>, v: seq<Byte>) {
    && v <= content
    && (EndsWith(v, marker) || v == content)
    && forall k :: 0 <= k < |v| ==> !EndsWith(content[..k], marker)
  }

  method ReadUntil(dev: Reader, marker: seq<Byte>) returns (r: Result<seq<Byte>, nat>)
    modifies dev
    ensures Takes(old(Content(dev.src)), old(dev.failed), r, Content(dev.src), dev.failed)
    ensures r.Ok? ==> UpTo(old(Content(dev.src)), marker, r.value)
  {
    var op := new ReadOp(dev);
    ghost var stops;
    r, stops := op.Start(Until(marker));
    EveryPrefix(marker, old(Content(dev.src)), stops, |stops| - 1);
    if r.Ok? {
      assert r.value == old(Content(dev.src))[..|stops| - 1];
    }
  }

  const NEWLINE: seq<Byte> := [10]
  const RETURN_NEWLINE: seq<Byte> := [13, 10]

  /** v is the first line of the content and rest what follows its end marker, which the last
      line may lack. */
  predicate FirstLine(content: seq<Byte>, marker: seq<Byte>, v: seq<Byte>, rest: seq<Byte>) {
    || (content == v + marker + rest && UpTo(content, marker, v + marker))
    || (content == v && rest == [] && UpTo(content, marker, v) && !EndsWith(v, marker))
  }

  /** readLine: up to the end of the line, without it. The marker is the platform's. */
  method ReadLine(dev: Reader, endLineMarker: seq<Byte>) returns (r: Result<seq<Byte>, nat>)
    requires endLineMarker == NEWLINE || endLineMarker == RETURN_NEWLINE
    modifies dev
    ensures dev.failed == (old(dev.failed) || r.Failure?)
    ensures r.Ok? ==> FirstLine(old(Content(dev.src)), endLineMarker, r.value, Content(dev.src))
    ensures r.Ok? && endLineMarker == NEWLINE ==> 10 !in r.value
  {
    var line := ReadUntil(dev, endLineMarker);
    if line.Failure? {
      return line;
    }
    var lineSize := |line.value|;
    if EndsWith(line.value, endLineMarker) {
      lineSize := lineSize - |endLineMarker|;
      assert line.value == line.value[..lineSize] + endLineMarker;
    } else {
      assert line.value[..lineSize] == line.value;
    }
    if endLineMarker == NEWLINE {
      NoNewline(old(Content(dev.src)), line.value, lineSize);
    }
    r := Ok(line.value[..lineSize]);
  }

  lemma NoNewline(content: seq<Byte>, line: seq<Byte>, lineSize: nat)
    requires UpTo(content, NEWLINE, line)
    requires lineSize == if EndsWith(line, NEWLINE) then |line| - 1 else |line|
    ensures 10 !in line[..lineSize]
  {
    forall k | 0 <= k < lineSize
      ensures line[k] != 10
    {
      var p := content[..k + 1];
      assert p[k..] == [line[k]];
      assert k + 1 == |line| ==> p == line;
      assert !EndsWith(p, NEWLINE);
    }
  }

  method ReadAll(dev: Reader) returns (r: Result<seq<Byte>, nat>)
    modifies dev
    ensures Takes(old(Content(dev.src)), old(dev.failed), r, Content(dev.src), dev.failed)
    ensures r.Ok? ==> r.value == old(Content(dev.src)) && Content(dev.src) == []
  {
    var op := new ReadOp(dev);
    ghost var stops;
    r, stops := op.Start((calls: nat, buf: seq<Byte>) => 4096);
  }

  // ---- Writing ----

  datatype WriteIo = Wrote(count: nat) | WriteFailed(code: nat)

  /** A device that takes part of what it is given, at least one byte of anything, or fails.
      delivered is what it has taken. */
  class Writer {
    var script: seq<Behaviour>
    var delivered: seq<Byte>
    var failed: bool

    constructor (script: seq<Behaviour>)
      ensures this.script == script && delivered == [] && !failed
    {
      this.script, delivered, failed := script, [], false;
    }

    method Write(portion: seq<Byte>) returns (io: WriteIo)
      modifies this
      ensures match io
        case Wrote(count) =>
          && count <= |portion| && (portion != [] ==> count > 0)
          && delivered == old(delivered) + portion[..count] && failed == old(failed)
        case WriteFailed(_) => delivered == old(delivered) && failed
    {
      var step := if script == [] then Give(|portion|) else script[0];
      script := if script == [] then [] else script[1..];
      match step {
        case Fail(code) =>
          failed := true;
          return WriteFailed(code);
        case Give(atMost) =>
          var count := Min(|portion|, if atMost == 0 then 1 else atMost);
          delivered := delivered + portion[..count];
          return Wrote(count);
      }
    }
  }

  /** WriteOp: writePortionHandler goes on while there is data left and all is to be written. */
  method WriteOp(dev: Writer, data: seq<Byte>, writeAll: bool) returns (r: Result<nat, nat>)
    modifies dev
    ensures dev.failed == (old(dev.failed) || r.Failure?)
    ensures old(dev.delivered) <= dev.delivered <= old(dev.delivered) + data
    ensures r.Ok? ==>
              && r.value <= |data| && dev.delivered == old(dev.delivered) + data[..r.value]
              && (data != [] ==> r.value > 0) && (writeAll ==> r.value == |data|)
  {
    var written := 0;
    while true
      invariant written <= |data| && (written > 0 ==> written < |data| && writeAll)
      invariant dev.delivered == old(dev.delivered) + data[..written] && dev.failed == old(dev.failed)
      decreases |data| - written
    {
      var io := dev.Write(data[written..]);
      if io.WriteFailed? {
        return Failure(io.code);
      }
      assert data[..written] + data[written..][..io.count] == data[..written + io.count];
      written := written + io.count;
      if !(written < |data| && writeAll) {
        return Ok(written);
      }
    }
  }

  method Write(dev: Writer, data: seq<Byte>) returns (r: Result<nat, nat>)
    modifies dev
    ensures r.Ok? ==>
              && r.value <= |data| && (data != [] ==> r.value > 0)
              && dev.delivered == old(dev.delivered) + data[..r.value]
    ensures r.Failure? ==> old(dev.delivered) <= dev.delivered <= old(dev.delivered) + data
    ensures dev.failed == (old(dev.failed) || r.Failure?)
  {
    r := WriteOp(dev, data, false);
  }

  method WriteExactly(device: Writer, data: seq<Byte>) returns (r: Result<nat, nat>)
    modifies device
    ensures r.Ok? ==> r.value == |data| && device.delivered == old(device.delivered) + data
    ensures r.Failure? ==> old(device.delivered) <= device.delivered <= old(device.delivered) + data
    ensures device.failed == (old(device.failed) || r.Failure?)
  {
    r := WriteOp(device, data, true);
    assert data[..|data|] == data;
  }

  // ---- CopyOp ----

  class CopyOp {
    const src: Reader
    const dest: Writer
    var byteCounter: nat

    constructor (src: Reader, dest: Writer)
      ensures this.src == src && this.dest == dest && byteCounter == 0
    {
      this.src, this.dest, byteCounter := src, dest, 0;
    }

    /** readNextPortion and its handler. */
    method Start() returns (r: Result<nat, nat>)
      requires byteCounter == 0
      modifies this, src, dest
      ensures r.Ok? ==>
                && r.value == |old(Content(src.src))| && Content(src.src) == []
                && dest.delivered == old(dest.delivered) + old(Content(src.src))
      ensures r.Failure? ==> old(dest.delivered) <= dest.delivered <= old(dest.delivered) + old(Content(src.src))
      ensures (src.failed || dest.failed) == (old(src.failed) || old(dest.failed) || r.Failure?)
    {
      ghost var all := Content(src.src);
      while true
        invariant byteCounter + |Content(src.src)| == |all|
        invariant dest.delivered + Content(src.src) == old(dest.delivered) + all
        invariant |dest.delivered| == |old(dest.delivered)| + byteCounter
        invariant src.failed == old(src.failed) && dest.failed == old(dest.failed)
        decreases |Content(src.src)|
      {
        Prefixes(old(dest.delivered), all, dest.delivered, Content(src.src));
        var io := src.Read(4096);
        if io.Failed? {
          return Failure(io.code);
        }
        if io.bytes == [] {
          return Ok(byteCounter);
        }
        ghost var left := Content(src.src);
        assert dest.delivered + io.bytes + left == dest.delivered + (io.bytes + left);
        Prefixes(old(dest.delivered), all, dest.delivered + io.bytes, left);
        var failure := WritePortion(io.bytes);
        if failure.Failure? {
          return Failure(failure.error);
        }
      }
    }

    /** writePortion: what was read goes out before more is read. */
    method WritePortion(portion: seq<Byte>) returns (r: Result<(), nat>)
      requires portion != []
      modifies this, dest
      ensures r.Ok? ==> dest.delivered == old(dest.delivered) + portion && byteCounter == old(byteCounter) + |portion|
      ensures old(dest.delivered) <= dest.delivered <= old(dest.delivered) + portion
      ensures dest.failed == (old(dest.failed) || r.Failure?)
      decreases |portion|
    {
      var io := dest.Write(portion);
      if io.WriteFailed? {
        return Failure(io.code);
      }
      byteCounter := byteCounter + io.count;
      if io.count == |portion| {
        assert portion[..io.count] == portion;
        return Ok(());
      }
      assert portion == portion[..io.count] + portion[io.count..];
      r := WritePortion(portion[io.count..]);
    }
  }

  lemma Prefixes(start: seq<Byte>, all: seq<Byte>, now: seq<Byte>, left: seq<Byte>)
    requires now + left == start + all && |start| <= |now|
    ensures start <= now <= start + all
  {
    assert now == (start + all)[..|now|];
    assert start == (start + all)[..|start|];
  }

  method Copy(src: Reader, dest: Writer) returns (r: Result<nat, nat>)
    modifies src, dest
    ensures r.Ok? ==>
              && r.value == |old(Content(src.src))| && Content(src.src) == []
              && dest.delivered == old(dest.delivered) + old(Content(src.src))
    ensures r.Failure? ==> old(dest.delivered) <= dest.delivered <= old(dest.delivered) + old(Content(src.src))
  {
    var op := new CopyOp(src, dest);
    r := op.Start();
  }
}

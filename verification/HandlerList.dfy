/** The intrusive doubly-linked list of close handlers. The ghost sequence `items` is the
    list from its head; every method is proved against it. All calls happen with the
    list's spin bit held, so the methods are sequential. */
module HandlerList {

  class CloseHandler {
    var prev: CloseHandler?
    var next: CloseHandler?

    constructor ()
      ensures prev == null && next == null
    {
      prev, next := null, null;
    }
  }

  function Last(s: seq<CloseHandler>, i: nat): CloseHandler?
    requires i <= |s|
  {
    if i == 0 then null else s[i - 1]
  }

  function First(s: seq<CloseHandler>, i: nat): CloseHandler?
    requires i <= |s|
  {
    if i == |s| then null else s[i]
  }

  class CloseHandlerList {
    var head: CloseHandler?
    ghost var items: seq<CloseHandler>

    /** Acyclic, ends with null, prev and next inverse, head.prev null. */
    ghost predicate Valid()
      reads this, items
    {
      && head == First(items, 0)
      && (forall i, j :: 0 <= i < j < |items| ==> items[i] != items[j])
      && (forall i :: 0 <= i < |items| ==> items[i].prev == Last(items, i))
      && (forall i :: 0 <= i < |items| ==> items[i].next == First(items, i + 1))
    }

    constructor ()
      ensures Valid() && items == []
    {
      head, items := null, [];
    }

    /** addCloseHandlerNonBlockClose */
    method Add(handler: CloseHandler)
      requires Valid() && handler !in items
      requires handler.prev == null && handler.next == null
      modifies this, items, handler
      ensures Valid() && items == [handler] + old(items)
    {
      if head != null {
        assert head.prev == null;
        head.prev := handler;
      }
      handler.next := head;
      head := handler;
      items := [handler] + items;
    }

    /** The unlinking half of removeCloseHandler. The source recognises a handler that is
        not in the list by its null prev; false means it was not in the list. */
    method Remove(handler: CloseHandler) returns (unlinked: bool)
      requires Valid() && (handler in items || handler.prev == null)
      modifies this, items, handler
      ensures Valid() && unlinked == (handler in old(items))
      ensures !unlinked ==> items == old(items) && unchanged(handler)
      ensures unlinked ==> exists i :: Dropped(old(items), i, items) && old(items)[i] == handler
      ensures unlinked ==> handler !in items && handler.prev == null && handler.next == null
    {
      if handler == head {
        assert Dropped(items, 0, items[1..]);
        var _ := PopFront();
        return true;
      }
      if handler.prev != null {
        ghost var i :| 0 <= i < |items| && items[i] == handler;
        RemoveAt(handler, i);
        return true;
      }
      return false;
    }

    method RemoveAt(handler: CloseHandler, ghost i: nat)
      requires Valid() && 0 < i < |items| && items[i] == handler
      modifies this, items
      ensures Valid() && Dropped(old(items), i, items)
      ensures handler !in items && handler.prev == null && handler.next == null
    {
      RemoveInner(handler, i);
      Relinked(items, i, items[..i] + items[i + 1..]);
      items := items[..i] + items[i + 1..];
    }

    /** now is was without its element i. */
    static ghost predicate Dropped(was: seq<CloseHandler>, i: int, now: seq<CloseHandler>) {
      && 0 <= i < |was| && |now| == |was| - 1
      && (forall k :: 0 <= k < i ==> now[k] == was[k])
      && (forall k :: i <= k < |now| ==> now[k] == was[k + 1])
    }

    /** Removal from the middle or the tail. */
    method RemoveInner(handler: CloseHandler, ghost i: nat)
      requires Valid() && 0 < i < |items| && items[i] == handler
      modifies items
      ensures handler.prev == null && handler.next == null
      ensures Skips(items, i)
    {
      handler.prev.next := handler.next;
      if handler.next != null {
        handler.next.prev := handler.prev;
      }
      handler.next := null;
      handler.prev := null;
    }

    /** Every node but the one at i is linked past it. */
    static ghost predicate Skips(was: seq<CloseHandler>, i: nat)
      requires 0 < i < |was|
      reads was
    {
      && (forall m :: 0 <= m < |was| && m != i ==>
            was[m].prev == if m == i + 1 then was[i - 1] else Last(was, m))
      && (forall m :: 0 <= m < |was| && m != i ==>
            was[m].next == if m == i - 1 then First(was, i + 1) else First(was, m + 1))
    }

    /** Links that skip element i are the links of the sequence without it. */
    static lemma Relinked(was: seq<CloseHandler>, i: nat, now: seq<CloseHandler>)
      requires 0 < i < |was| && now == was[..i] + was[i + 1..]
      requires Skips(was, i)
      ensures Dropped(was, i, now)
      ensures forall k :: 0 <= k < |now| ==> now[k].prev == Last(now, k) && now[k].next == First(now, k + 1)
    {
      forall k | 0 <= k < |now|
        ensures now[k].prev == Last(now, k) && now[k].next == First(now, k + 1)
      {
        var m := if k < i then k else k + 1;
        assert now[k] == was[m] && m != i;
      }
    }

    /** One turn of callCloseHandlers: unlink the head. */
    method PopFront() returns (handler: CloseHandler?)
      requires Valid()
      modifies this, items
      ensures Valid()
      ensures old(items) == [] ==> handler == null && items == []
      ensures old(items) != [] ==> handler == old(items)[0] && items == old(items)[1..]
                                   && handler !in items && handler.prev == null && handler.next == null
    {
      handler := head;
      if handler != null {
        head := head.next;
        if head != null {
          head.prev := null;
        }
        handler.next := null;
        items := items[1..];
      }
    }
  }
}

/** The heap list of HandlerList against the list of identifiers of CloseProtocol: what Add,
    Remove and PopFront promise of the nodes is what the steps under the spin bit do to the
    identifiers. */
module HandlerListModel {
  import opened HandlerList
  import opened CloseProtocol
  import opened CloseInvariant

  /** nodes[h] is the handler object with identifier h, and items are the objects in the list. */
  ghost predicate Represents(s: State, nodes: seq<CloseHandler>, items: seq<CloseHandler>) {
    && |nodes| == |s.handlers|
    && (forall h, k :: 0 <= h < k < |nodes| ==> nodes[h] != nodes[k])
    && |items| == |s.list|
    && forall i :: 0 <= i < |items| ==> s.list[i] < |nodes| && items[i] == nodes[s.list[i]]
  }

  /** AddInsert is Add. */
  lemma AddIs(s: State, t: nat, nodes: seq<CloseHandler>, items: seq<CloseHandler>, node: CloseHandler)
    requires t < |s.threads| && Enabled(s, t, Step) && s.threads[t].top.AddInsert?
    requires Represents(s, nodes, items) && node !in nodes
    ensures node !in items
    ensures Represents(Do(s, t, Step), nodes + [node], [node] + items)
  {
    var list := Do(s, t, Step).list;
    assert list == [|nodes|] + s.list;
    forall i | 0 <= i < |items| + 1
      ensures list[i] < |nodes| + 1 && ([node] + items)[i] == (nodes + [node])[list[i]]
    {
      if i > 0 { assert list[i] == s.list[i - 1]; }
    }
  }

  lemma {:induction false} IndexIs(list: seq<HandlerId>, i: nat)
    requires NoDup(list) && i < |list|
    ensures IndexOf(list, list[i]) == i
  {
    if i > 0 {
      assert NoDup(list[1..]);
      IndexIs(list[1..], i - 1);
    }
  }

  lemma InListIff(s: State, nodes: seq<CloseHandler>, items: seq<CloseHandler>, h: HandlerId)
    requires Represents(s, nodes, items) && h < |nodes|
    ensures nodes[h] in items <==> h in s.list
  {
    if nodes[h] in items {
      var i :| 0 <= i < |items| && items[i] == nodes[h];
      assert s.list[i] == h;
    }
    if h in s.list {
      var i :| 0 <= i < |s.list| && s.list[i] == h;
      assert items[i] == nodes[h];
    }
  }

  /** RemSearch is Remove, whichever element of the heap list it unlinked. */
  lemma RemoveIs(s: State, t: nat, nodes: seq<CloseHandler>, items: seq<CloseHandler>,
                 i: nat, now: seq<CloseHandler>)
    requires t < |s.threads| && CloseInvariant.Inv(s) && Enabled(s, t, Step) && s.threads[t].top.RemSearch?
    requires Represents(s, nodes, items) && s.threads[t].top.h < |nodes|
    ensures nodes[s.threads[t].top.h] in items <==> s.threads[t].top.h in s.list
    ensures s.threads[t].top.h !in s.list ==> Represents(Do(s, t, Step), nodes, items)
    ensures CloseHandlerList.Dropped(items, i, now) && items[i] == nodes[s.threads[t].top.h] ==>
              Represents(Do(s, t, Step), nodes, now)
  {
    var h := s.threads[t].top.h;
    InListIff(s, nodes, items, h);
    if h !in s.list {
      NotFound(s, t);
      return;
    }
    if CloseHandlerList.Dropped(items, i, now) && items[i] == nodes[h] {
      assert s.list[i] == h;
      Found(s, t, i);
      assert s.list[..i] + s.list[i + 1..] == Do(s, t, Step).list;
    }
  }

  lemma Found(s: State, t: nat, i: nat)
    requires t < |s.threads| && Enabled(s, t, Step) && s.threads[t].top.RemSearch?
    requires NoDup(s.list) && i < |s.list| && s.list[i] == s.threads[t].top.h < |s.handlers|
    ensures Do(s, t, Step).list == s.list[..i] + s.list[i + 1..] && |Do(s, t, Step).handlers| == |s.handlers|
  {
    IndexIs(s.list, i);
  }

  lemma NotFound(s: State, t: nat)
    requires t < |s.threads| && Enabled(s, t, Step) && s.threads[t].top.RemSearch?
    requires s.threads[t].top.h !in s.list
    ensures Do(s, t, Step).list == s.list && |Do(s, t, Step).handlers| == |s.handlers|
  {
    if ClosingHere(s.threads[t].rest) { return; }
  }

  /** CloseLoop is PopFront. */
  lemma PopIs(s: State, t: nat, nodes: seq<CloseHandler>, items: seq<CloseHandler>)
    requires t < |s.threads| && Enabled(s, t, Step) && s.threads[t].top.CloseLoop?
    requires Represents(s, nodes, items)
    ensures items == [] ==> Represents(Do(s, t, Step), nodes, [])
    ensures items != [] ==>
              && s.list != [] && s.list[0] < |nodes| && items[0] == nodes[s.list[0]]
              && Do(s, t, Step).threads[t] == Cons(CloseCall(s.list[0]), s.threads[t].rest)
              && Represents(Do(s, t, Step), nodes, items[1..])
  {}

  /** No other step touches the list. */
  lemma OthersKeep(s: State, t: nat, a: Action, nodes: seq<CloseHandler>, items: seq<CloseHandler>)
    requires t < |s.threads| && CloseInvariant.Inv(s) && Enabled(s, t, a) && Represents(s, nodes, items)
    requires a.Step? ==> !s.threads[t].top.AddInsert? && !s.threads[t].top.RemSearch? && !s.threads[t].top.CloseLoop?
    ensures Represents(Do(s, t, a), nodes, items)
  {
    if a.Return? { return; }
    if a.Step? {
      assert AllOk(s, s.threads[t]);
      if Touches(s.threads[t].top) { return; }
      Untouched(s, t);
    }
  }
}

/**
 allocate, deallocate and expand as the program writes them: retry loops around a double-word
 swap on `_top`, links stored in place.  Here one thread runs alone; TaggedStack.dfy treats
 the interleavings.
 */
module AllocStack {
  import opened TaggedStack

  class JFixedAllocStack {
    var top: Head
    var next: map<Ptr, Ptr>
    ghost var free: seq<Ptr>

    ghost predicate Valid()
      reads this
    {
      Linked(next, top.node, free) && Distinct(free) && 0 !in next && forall p :: p in free ==> p in next
    }

    constructor ()
      ensures Valid() && free == [] && next == map[]
    {
      top, next, free := Head(0, 0), map[], [];
    }

    // bool_atomic_dwcas
    method Dwcas(old_: Head, new_: Head) returns (ok: bool)
      modifies this`top
      ensures ok == (old(top) == old_)
      ensures top == if ok then new_ else old(top)
    {
      ok := top == old_;
      if ok { top := new_; }
    }

    method Deallocate(p: Ptr)
      requires Valid() && (p == 0 || (p in next && p !in free))
      modifies this
      ensures Valid() && free == (if p == 0 then old(free) else [p] + old(free))
      // what the thread's own steps do; see PushIsSteps
      ensures p != 0 ==> top == Head(old(top).counter + 1, p) && next == old(next)[p := old(top).node]
      ensures p == 0 ==> top == old(top) && next == old(next)
    {
      if p == 0 { return; }
      var done := false;
      while !done
        invariant free == old(free)
        invariant !done ==> top == old(top) && next == old(next)
        invariant done ==> top == Head(old(top).counter + 1, p) && next == old(next)[p := old(top).node]
        decreases !done
      {
        var origHead := top;
        next := next[p := origHead.node];
        done := Dwcas(origHead, Head(origHead.counter + 1, p));
      }
      LinkedFrame(old(next), next, old(top).node, free);
      free := [p] + free;
      assert free[1..] == old(free);
    }

    // The new block arrives with any contents and is chained in place.
    method Chain(block: seq<Ptr>, junk: map<Ptr, Ptr>)
      requires block != [] && Distinct(block) && Elements(block) !! next.Keys && junk.Keys == Elements(block)
      modifies this`next
      ensures next.Keys == old(next).Keys + Elements(block) && Chained(next, block, |block| - 1)
      ensures forall p :: p in old(next) ==> next[p] == old(next)[p]
    {
      next := next + junk;
      var count := |block|;
      var i := 0;
      while i < count - 1
        invariant 0 <= i <= count - 1 && next.Keys == old(next).Keys + Elements(block)
        invariant Chained(next, block, i) && forall p :: p in old(next) ==> next[p] == old(next)[p]
      {
        ChainedStore(next, block, i);
        assert block[i] in Elements(block);
        next := next[block[i] := block[i + 1]];
        i := i + 1;
      }
    }

    // Chain the block, then put it in front of whatever the head is.
    method Expand(block: seq<Ptr>, junk: map<Ptr, Ptr>)
      requires Valid()
      requires block != [] && Distinct(block) && 0 !in block && Elements(block) !! next.Keys
          && junk.Keys == Elements(block)
      modifies this
      ensures Valid() && free == block + old(free) && next.Keys == old(next).Keys + Elements(block)
      ensures top.counter == old(top).counter + 1
    {
      Chain(block, junk);
      var count := |block|;
      var done := false;
      while !done
        invariant free == old(free) && Chained(next, block, count - 1)
        invariant next.Keys == old(next).Keys + Elements(block)
        invariant forall p :: p in old(next) ==> next[p] == old(next)[p]
        invariant !done ==> top == old(top)
        invariant done ==> top == Head(old(top).counter + 1, block[0]) && next[block[count - 1]] == old(top).node
        decreases !done
      {
        var origHead := top;
        assert block[count - 1] in Elements(block);
        next := next[block[count - 1] := origHead.node];
        done := Dwcas(origHead, Head(origHead.counter + 1, block[0]));
      }
      assert forall p :: p in block ==> p in Elements(block);
      LinkedFrame(old(next), next, old(top).node, free);
      PushBlock(next, block, old(top).node, free);
      free := block + free;
    }

    // Pops the first free chunk, growing the stack first when it is empty.
    method Allocate(block: seq<Ptr>, junk: map<Ptr, Ptr>) returns (p: Ptr)
      requires Valid()
      requires block != [] && Distinct(block) && 0 !in block && Elements(block) !! next.Keys
          && junk.Keys == Elements(block)
      modifies this
      ensures Valid() && p != 0 && p in next && p !in free
      ensures [p] + free == if old(free) == [] then block else old(free)
      // what the thread's own steps do when a chunk is there; see PopIsSteps
      ensures old(free) != [] ==>
                && p == old(top).node && p in old(next)
                && top == Head(old(top).counter + 1, old(next)[p]) && next == old(next)[p := 0]
    {
      p := 0;
      var done := false;
      while !done
        invariant done ==> Linked(next, top.node, free) && Distinct(free) && 0 !in next && p in next
        invariant done ==> p !in free && (forall q :: q in free ==> q in next)
        invariant done ==> [p] + free == if old(free) == [] then block else old(free)
        invariant !done ==> Valid() && top == old(top) && next == old(next) && free == old(free)
        invariant done && old(free) != [] ==>
                    p == old(top).node && top == Head(old(top).counter + 1, old(next)[p]) && next == old(next)
        decreases !done
      {
        var origHead := top;
        if origHead.node == 0 {
          Expand(block, junk);
          assert block + [] == block;
          origHead := top;
        }
        ghost var list := free;
        p := origHead.node;
        done := Dwcas(origHead, Head(origHead.counter + 1, next[p]));
        free := free[1..];
        assert list == [p] + free;
      }
      LinkedFrame(next, next[p := 0], top.node, free);
      next := next[p := 0];
    }
  }

  // ----- the same calls as steps of a thread that runs undisturbed -----

  // The next step of thread t: the two halves of the head, counter first, then its own step.
  ghost function Own(s: Stack, t: Tid): Stack {
    if t !in s.pc then s
    else if Enabled(s, LoadCounter(t)) then Step(s, LoadCounter(t))
    else if Enabled(s, LoadNode(t)) then Step(s, LoadNode(t))
    else if Enabled(s, Go(t)) then Step(s, Go(t))
    else s
  }

  ghost function Solo(s: Stack, t: Tid, n: nat): Stack
    decreases n
  {
    if n == 0 then s else Solo(Own(s, t), t, n - 1)
  }

  lemma SoloStep(s: Stack, t: Tid, n: nat, s': Stack)
    requires n > 0 && Own(s, t) == s'
    ensures Solo(s, t, n) == Solo(s', t, n - 1)
  {
  }

  lemma Snapshot(s: Stack, t: Tid, pc: Pc, n: nat)
    requires t in s.pc && s.pc[t] == pc && (pc.PopRead? || pc.PushRead?) && pc.snap == FRESH && n >= 2
    ensures Solo(s, t, n) == Solo(Set(s, t, WithSnap(pc, Snap(Got(s.top.counter), Got(s.top.node)))), t, n - 2)
  {
    var s1 := Set(s, t, WithSnap(pc, Snap(Got(s.top.counter), Unread)));
    assert Own(s, t) == s1;
    SoloStep(s, t, n, s1);
    var s2 := Set(s, t, WithSnap(pc, Snap(Got(s.top.counter), Got(s.top.node))));
    assert s1.pc[t := s2.pc[t]] == s2.pc;
    assert Own(s1, t) == s2;
    SoloStep(s1, t, n - 1, s2);
  }

  lemma Goes(s: Stack, t: Tid, n: nat, s': Stack)
    requires n > 0 && t in s.pc && !Reading(s.pc[t]) && Enabled(s, Go(t)) && GoStep(s, t) == s'
    ensures Solo(s, t, n) == Solo(s', t, n - 1)
  {
    assert Own(s, t) == s';
    SoloStep(s, t, n, s');
  }

  // From the snapshot on, the link is stored and the swap made.
  lemma PushEnds(s: Stack, t: Tid, p: Ptr, n: nat)
    requires t in s.pc && n >= 2
    ensures Solo(Set(s, t, PushLink(p, s.top)), t, n)
            == Solo(Set(s, t, Idle).(top := Head(s.top.counter + 1, p), next := s.next[p := s.top.node]), t, n - 2)
  {
    var b, c := Set(s, t, PushLink(p, s.top)), Set(s, t, PushSwap(p, s.top)).(next := s.next[p := s.top.node]);
    assert GoStep(b, t) == c;
    Goes(b, t, n, c);
    var d := Set(s, t, Idle).(top := Head(s.top.counter + 1, p), next := s.next[p := s.top.node]);
    assert GoStep(c, t) == d;
    Goes(c, t, n - 1, d);
  }

  lemma PushSolo(s: Stack, t: Tid, p: Ptr, n: nat)
    requires t in s.pc && n >= 5
    ensures Solo(Set(s, t, PushRead(p, FRESH)), t, n)
            == Solo(Set(s, t, Idle).(top := Head(s.top.counter + 1, p), next := s.next[p := s.top.node]), t, n - 5)
  {
    var head := s.top;
    var start, a := Set(s, t, PushRead(p, FRESH)), Set(s, t, PushRead(p, Snap(Got(head.counter), Got(head.node))));
    Snapshot(start, t, PushRead(p, FRESH), n);
    assert Set(start, t, a.pc[t]) == a;
    assert GoStep(a, t) == Set(s, t, PushLink(p, head));
    Goes(a, t, n - 2, Set(s, t, PushLink(p, head)));
    PushEnds(s, t, p, n - 3);
  }

  // deallocate: five steps after the call.
  lemma PushIsSteps(s: Stack, t: Tid, p: Ptr) returns (n: nat)
    requires t in s.pc && s.pc[t].Idle? && p in s.held && p != 0
    ensures n == 5
    ensures Solo(Step(s, TaggedStack.Deallocate(t, p)), t, n)
            == s.(top := Head(s.top.counter + 1, p), next := s.next[p := s.top.node], held := s.held - {p})
  {
    n := 5;
    PushSolo(s.(held := s.held - {p}), t, p, n);
    assert s.pc[t := Idle] == s.pc;
  }

  // From the snapshot on: the successor is read, the swap made and the chunk's link cleared.
  lemma PopEnds(s: Stack, t: Tid, n: nat)
    requires t in s.pc && s.top.node != 0 && s.top.node in s.next && n >= 3
    ensures var p := s.top.node;
            Solo(Set(s, t, PopNext(s.top)), t, n)
            == Solo(Set(s, t, Idle).(top := Head(s.top.counter + 1, s.next[p]), next := s.next[p := 0],
                held := s.held + {p}), t, n - 3)
  {
    var p := s.top.node;
    var b, c := Set(s, t, PopNext(s.top)), Set(s, t, PopSwap(s.top, s.next[p]));
    assert GoStep(b, t) == c;
    Goes(b, t, n, c);
    var d := Set(s, t, PopClear(p)).(top := Head(s.top.counter + 1, s.next[p]));
    assert GoStep(c, t) == d;
    Goes(c, t, n - 1, d);
    var e := Set(s, t, Idle).(top := Head(s.top.counter + 1, s.next[p]), next := s.next[p := 0], held := s.held + {p});
    assert GoStep(d, t) == e;
    Goes(d, t, n - 2, e);
  }

  // allocate from a stack that is not empty: six steps after the call.
  lemma PopIsSteps(s: Stack, t: Tid) returns (n: nat)
    requires t in s.pc && s.pc[t].Idle? && s.top.node != 0 && s.top.node in s.next
    ensures n == 6
    ensures var p := s.top.node;
            Solo(Step(s, TaggedStack.Allocate(t)), t, n)
            == s.(top := Head(s.top.counter + 1, s.next[p]), next := s.next[p := 0], held := s.held + {p})
  {
    n := 6;
    var head := s.top;
    var start, a := Set(s, t, PopRead(FRESH, false)),
        Set(s, t, PopRead(Snap(Got(head.counter), Got(head.node)), false));
    Snapshot(start, t, PopRead(FRESH, false), n);
    assert Set(start, t, a.pc[t]) == a;
    assert GoStep(a, t) == Set(s, t, PopNext(head));
    Goes(a, t, n - 2, Set(s, t, PopNext(head)));
    PopEnds(s, t, n - 3);
    assert s.pc[t := Idle] == s.pc;
  }
}

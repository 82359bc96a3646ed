/**
 The lock-free stack of fixed-size chunks (JFixedAllocStack), at the granularity of single
 loads, stores and double-word swaps, for any number of threads.

 The head is read in two separate loads in either order, so a reader may see a counter and a
 node that never stood together.  A chunk in a caller's hands may be overwritten at any time,
 its link word included.
 */
module TaggedStack {

  type Ptr = nat          // 0 is NULL
  type Tid = nat

  datatype Head = Head(counter: nat, node: Ptr)

  datatype Load<T> = Unread | Got(value: T)

  // The two halves of a copy of `_top`.
  datatype Snap = Snap(counter: Load<nat>, node: Load<Ptr>) {
    predicate Full() { counter.Got? && node.Got? }
  }

  const FRESH := Snap(Unread, Unread)

  datatype Pc =
    | Idle
    | PopRead(snap: Snap, again: bool)            // allocate: copy _top (again: after expand)
    | PopNext(head: Head)                         // read head.node->next
    | PopSwap(head: Head, next: Ptr)              // swap _top
    | PopClear(node: Ptr)                         // clear the popped chunk's link
    | PushRead(item: Ptr, snap: Snap)             // deallocate: copy _top
    | PushLink(item: Ptr, head: Head)             // item->next = head.node
    | PushSwap(item: Ptr, head: Head)
    | Link(block: seq<Ptr>, i: nat)               // expand: chain the new block
    | GrowRead(block: seq<Ptr>, snap: Snap)
    | GrowLast(block: seq<Ptr>, head: Head)       // bufs[count-1].next = head.node
    | GrowSwap(block: seq<Ptr>, head: Head)

  datatype Stack = Stack(top: Head, next: map<Ptr, Ptr>, held: set<Ptr>, pc: map<Tid, Pc>)

  datatype Event =
    | Allocate(t: Tid)
    | Deallocate(t: Tid, p: Ptr)
    | LoadCounter(t: Tid)
    | LoadNode(t: Tid)
    | Grow(t: Tid, block: seq<Ptr>, junk: map<Ptr, Ptr>)   // memory for expand arrives, with any contents
    | Go(t: Tid)
    | Scribble(p: Ptr, value: Ptr)                         // a caller writes into a chunk it holds

  predicate Distinct(s: seq<Ptr>) {
    forall i, j :: 0 <= i < j < |s| ==> s[i] != s[j]
  }

  function Elements(s: seq<Ptr>): set<Ptr> {
    set p | p in s
  }

  predicate Reading(pc: Pc) {
    (pc.PopRead? || pc.PushRead? || pc.GrowRead?) && !pc.snap.Full()
  }

  // The whole copy is there and names no chunk: allocate calls expand.
  predicate Empty(pc: Pc) {
    pc.PopRead? && pc.snap.Full() && pc.snap.node.value == 0
  }

  ghost predicate Enabled(s: Stack, e: Event) {
    match e
    case Allocate(t) => t in s.pc && s.pc[t].Idle?
    case Deallocate(t, p) => t in s.pc && s.pc[t].Idle? && (p == 0 || p in s.held)
    case LoadCounter(t) => t in s.pc && Reading(s.pc[t]) && s.pc[t].snap.counter.Unread?
    case LoadNode(t) => t in s.pc && Reading(s.pc[t]) && s.pc[t].snap.node.Unread?
    case Grow(t, block, junk) =>
      && t in s.pc && Empty(s.pc[t]) && !s.pc[t].again
      && block != [] && Distinct(block) && 0 !in block && Elements(block) !! s.next.Keys && junk.Keys == Elements(block)
    case Go(t) =>
      && t in s.pc && !s.pc[t].Idle? && !Reading(s.pc[t]) && (Empty(s.pc[t]) ==> s.pc[t].again)
      && (s.pc[t].PopNext? ==> s.pc[t].head.node in s.next)
    case Scribble(p, _) => p in s.held
  }

  function WithSnap(pc: Pc, snap: Snap): Pc
    requires pc.PopRead? || pc.PushRead? || pc.GrowRead?
  {
    pc.(snap := snap)
  }

  function Set(s: Stack, t: Tid, pc: Pc): Stack {
    s.(pc := s.pc[t := pc])
  }

  // One step of thread t's own.
  function GoStep(s: Stack, t: Tid): Stack
    requires t in s.pc && !Reading(s.pc[t]) && (s.pc[t].PopNext? ==> s.pc[t].head.node in s.next)
  {
    match s.pc[t]
    case Idle => s
    case PopRead(snap, again) =>
      if snap.node.value == 0 then Set(s, t, PopRead(FRESH, false))
      else Set(s, t, PopNext(Head(snap.counter.value, snap.node.value)))
    case PopNext(head) => Set(s, t, PopSwap(head, s.next[head.node]))
    case PopSwap(head, next) =>
      if s.top != head then Set(s, t, PopRead(FRESH, false))
      else Set(s, t, PopClear(head.node)).(top := Head(head.counter + 1, next))
    case PopClear(node) =>
      Set(s, t, Idle).(next := s.next[node := 0], held := s.held + {node})
    case PushRead(item, snap) => Set(s, t, PushLink(item, Head(snap.counter.value, snap.node.value)))
    case PushLink(item, head) => Set(s, t, PushSwap(item, head)).(next := s.next[item := head.node])
    case PushSwap(item, head) =>
      if s.top != head then Set(s, t, PushRead(item, FRESH))
      else Set(s, t, Idle).(top := Head(head.counter + 1, item))
    case Link(block, i) =>
      if i + 1 < |block| then Set(s, t, Link(block, i + 1)).(next := s.next[block[i] := block[i + 1]])
      else Set(s, t, GrowRead(block, FRESH))
    case GrowRead(block, snap) => Set(s, t, GrowLast(block, Head(snap.counter.value, snap.node.value)))
    case GrowLast(block, head) =>
      if block == [] then s
      else Set(s, t, GrowSwap(block, head)).(next := s.next[block[|block| - 1] := head.node])
    case GrowSwap(block, head) =>
      if s.top != head then Set(s, t, GrowRead(block, FRESH))
      else if block == [] then s
      else Set(s, t, PopRead(FRESH, true)).(top := Head(head.counter + 1, block[0]))
  }

  ghost function Step(s: Stack, e: Event): Stack
    requires Enabled(s, e)
  {
    match e
    case Allocate(t) => Set(s, t, PopRead(FRESH, false))
    case Deallocate(t, p) => if p == 0 then s else Set(s, t, PushRead(p, FRESH)).(held := s.held - {p})
    case LoadCounter(t) => Set(s, t, WithSnap(s.pc[t], s.pc[t].snap.(counter := Got(s.top.counter))))
    case LoadNode(t) => Set(s, t, WithSnap(s.pc[t], s.pc[t].snap.(node := Got(s.top.node))))
    case Grow(t, block, junk) => Set(s, t, Link(block, 0)).(next := s.next + junk)
    case Go(t) => GoStep(s, t)
    case Scribble(p, value) => s.(next := s.next[p := value])
  }

  // ----- the abstract stack -----

  // The free list in order, as a pure sequence: what each successful swap does to it.
  ghost function Abstract(free: seq<Ptr>, s: Stack, e: Event): seq<Ptr> {
    if e.Go? && e.t in s.pc then
      match s.pc[e.t]
      case PopSwap(head, _) => if s.top == head && free != [] then free[1..] else free
      case PushSwap(item, head) => if s.top == head then [item] + free else free
      case GrowSwap(block, head) => if s.top == head then block + free else free
      case _ => free
    else free
  }

  // Following the links from `node` visits exactly `free` and ends in NULL.
  ghost predicate Linked(next: map<Ptr, Ptr>, node: Ptr, free: seq<Ptr>)
    decreases free
  {
    if free == [] then node == 0
    else node == free[0] && node != 0 && node in next && Linked(next, next[node], free[1..])
  }

  // ----- ownership -----

  // The chunks only thread t's own operation may touch.
  function Private(pc: Pc): set<Ptr> {
    match pc
    case PopClear(node) => {node}
    case PushRead(item, _) => {item}
    case PushLink(item, _) => {item}
    case PushSwap(item, _) => {item}
    case Link(block, _) => Elements(block)
    case GrowRead(block, _) => Elements(block)
    case GrowLast(block, _) => Elements(block)
    case GrowSwap(block, _) => Elements(block)
    case _ => {}
  }

  function Privates(pc: map<Tid, Pc>): map<Tid, set<Ptr>> {
    map t | t in pc :: Private(pc[t])
  }

  // Every chunk is in the free list, in a caller's hands, or private to one thread, and nowhere else.
  ghost predicate Partition(chunks: set<Ptr>, free: seq<Ptr>, held: set<Ptr>, own: map<Tid, set<Ptr>>) {
    && Distinct(free) && 0 !in chunks
    && (forall p :: p in free ==> p in chunks && p !in held)
    && held <= chunks
    && (forall t, p :: t in own && p in own[t] ==> p in chunks && p !in free && p !in held)
    && (forall t, u, p :: t in own && u in own && t != u && p in own[t] ==> p !in own[u])
    && (forall p :: p in chunks ==> p in free || p in held || exists t :: t in own && p in own[t])
  }

  // ----- what a thread knows -----

  // block[0..i] is chained.
  ghost predicate Chained(next: map<Ptr, Ptr>, block: seq<Ptr>, i: nat) {
    && block != [] && Distinct(block)
    && (forall k :: 0 <= k < i && k + 1 < |block| ==> block[k] in next && next[block[k]] == block[k + 1])
  }

  ghost predicate Seen(s: Stack, snap: Snap) {
    && (snap.counter.Got? ==> snap.counter.value <= s.top.counter)
    && (snap.node.Got? && snap.node.value != 0 ==> snap.node.value in s.next)
  }

  ghost predicate Old(s: Stack, head: Head) {
    head.counter <= s.top.counter && (head.node != 0 ==> head.node in s.next)
  }

  ghost predicate Knows(s: Stack, pc: Pc) {
    match pc
    case Idle => true
    case PopRead(snap, _) => Seen(s, snap)
    case PopNext(head) => Old(s, head) && head.node != 0
    // a swap that would succeed installs the successor of the current top
    case PopSwap(head, next) => Old(s, head) && head.node != 0 && (head == s.top ==> next == s.next[head.node])
    case PopClear(node) => true
    case PushRead(_, snap) => Seen(s, snap)
    case PushLink(_, head) => Old(s, head)
    case PushSwap(item, head) => Old(s, head) && item in s.next && s.next[item] == head.node
    case Link(block, i) => Chained(s.next, block, i)
    case GrowRead(block, snap) => Seen(s, snap) && Chained(s.next, block, |block|)
    case GrowLast(block, head) => Old(s, head) && Chained(s.next, block, |block|)
    case GrowSwap(block, head) =>
      && Old(s, head) && Chained(s.next, block, |block|)
      && block[|block| - 1] in s.next && s.next[block[|block| - 1]] == head.node
  }

  ghost predicate Inv(s: Stack, free: seq<Ptr>) {
    && Linked(s.next, s.top.node, free) && Partition(s.next.Keys, free, s.held, Privates(s.pc))
    && (forall t :: t in s.pc ==> Knows(s, s.pc[t]))
  }

  // ----- lists -----

  lemma {:induction false} LinkedFrame(next: map<Ptr, Ptr>, next': map<Ptr, Ptr>, node: Ptr, free: seq<Ptr>)
    requires Linked(next, node, free)
    requires forall p :: p in free ==> p in next && p in next' && next'[p] == next[p]
    ensures Linked(next', node, free)
    decreases free
  {
    if free != [] {
      LinkedFrame(next, next', next[node], free[1..]);
    }
  }

  // The links determine the list: there is one walk from the head, so no cycle.
  lemma {:induction false} LinkedUnique(next: map<Ptr, Ptr>, node: Ptr, a: seq<Ptr>, b: seq<Ptr>)
    requires Linked(next, node, a) && Linked(next, node, b)
    ensures a == b
    decreases a
  {
    if a != [] && b != [] {
      LinkedUnique(next, next[node], a[1..], b[1..]);
      assert a == [a[0]] + a[1..] && b == [b[0]] + b[1..];
    }
  }

  lemma {:induction false} PushBlock(next: map<Ptr, Ptr>, block: seq<Ptr>, node: Ptr, free: seq<Ptr>)
    requires Chained(next, block, |block|) && 0 !in block
    requires forall p :: p in block ==> p in next
    requires next[block[|block| - 1]] == node && Linked(next, node, free)
    ensures Linked(next, block[0], block + free)
    decreases |block|
  {
    var rest := block[1..];
    assert (block + free)[1..] == rest + free;
    if rest == [] {
      assert rest + free == free;
    } else {
      assert forall k :: 0 <= k < |rest| ==> rest[k] == block[k + 1];
      PushBlock(next, rest, node, free);
    }
  }

  // ----- steps -----

  // What a thread knows survives any step of the others.
  ghost predicate Gentle(s: Stack, s': Stack, mine: set<Ptr>) {
    && s'.next.Keys >= s.next.Keys
    && (s'.top == s.top || s'.top.counter > s.top.counter)
    && (s'.top == s.top && s.top.node in s.next ==> s'.next[s.top.node] == s.next[s.top.node])
    && (forall p :: p in mine && p in s.next ==> s'.next[p] == s.next[p])
  }

  lemma KnowsFrame(s: Stack, s': Stack, pc: Pc)
    requires Knows(s, pc) && Gentle(s, s', Private(pc))
    ensures Knows(s', pc)
  {
    match pc
    case Link(block, i) => assert forall k :: 0 <= k < |block| ==> block[k] in Private(pc);
    case GrowRead(block, _) => assert forall k :: 0 <= k < |block| ==> block[k] in Private(pc);
    case GrowLast(block, _) => assert forall k :: 0 <= k < |block| ==> block[k] in Private(pc);
    case GrowSwap(block, _) => assert forall k :: 0 <= k < |block| ==> block[k] in Private(pc);
    case _ =>
  }

  lemma OthersKnow(s: Stack, s': Stack, t: Tid)
    requires forall u :: u in s.pc ==> Knows(s, s.pc[u])
    requires s'.pc.Keys == s.pc.Keys
    requires forall u :: u in s.pc && u != t ==> s'.pc[u] == s.pc[u] && Gentle(s, s', Private(s.pc[u]))
    requires t in s'.pc ==> Knows(s', s'.pc[t])
    ensures forall u :: u in s'.pc ==> Knows(s', s'.pc[u])
  {
    forall u | u in s'.pc ensures Knows(s', s'.pc[u]) {
      if u != t { KnowsFrame(s, s', s.pc[u]); }
    }
  }

  // Only thread t's program counter changes.
  lemma LocalStep(s: Stack, free: seq<Ptr>, t: Tid, pc: Pc)
    requires Inv(s, free) && t in s.pc && Private(pc) == Private(s.pc[t]) && Knows(s, pc)
    ensures Inv(Set(s, t, pc), free)
  {
    var s' := Set(s, t, pc);
    OthersKnow(s, s', t);
    assert Privates(s'.pc) == Privates(s.pc);
  }

  lemma OthersGentle(s: Stack, s': Stack, t: Tid, p: Ptr)
    requires t in s.pc && p in Private(s.pc[t]) && p != s.top.node && s'.top == s.top
    requires s'.next.Keys == s.next.Keys && forall q :: q in s.next && q != p ==> s'.next[q] == s.next[q]
    requires forall t, u, q :: t in Privates(s.pc) && u in Privates(s.pc) && t != u && q in Privates(s.pc)[t] ==>
        q !in Privates(s.pc)[u]
    ensures forall u :: u in s.pc && u != t ==> Gentle(s, s', Private(s.pc[u]))
  {
    forall u | u in s.pc && u != t ensures Gentle(s, s', Private(s.pc[u])) {
      assert p in Privates(s.pc)[t] && p !in Privates(s.pc)[u];
    }
  }

  // A store into a chunk that is private to t.
  lemma StoreStep(s: Stack, free: seq<Ptr>, t: Tid, p: Ptr, value: Ptr, pc: Pc)
    requires Inv(s, free) && t in s.pc && p in Private(s.pc[t]) && Private(pc) == Private(s.pc[t])
    requires Knows(Set(s, t, pc).(next := s.next[p := value]), pc)
    ensures Inv(Set(s, t, pc).(next := s.next[p := value]), free)
  {
    var s' := Set(s, t, pc).(next := s.next[p := value]);
    assert p in Privates(s.pc)[t] && s'.next.Keys == s.next.Keys;
    LinkedFrame(s.next, s'.next, s.top.node, free);
    TopIsFree(s, free);
    OthersGentle(s, s', t, p);
    OthersKnow(s, s', t);
    assert Privates(s'.pc) == Privates(s.pc);
  }

  lemma TopIsFree(s: Stack, free: seq<Ptr>)
    requires Linked(s.next, s.top.node, free)
    ensures s.top.node == 0 <==> free == []
    ensures free != [] ==> s.top.node == free[0] && s.top.node in s.next
    ensures free != [] ==> s.next[s.top.node] == if |free| == 1 then 0 else free[1]
  {
    if |free| > 1 { assert free[1..][0] == free[1]; }
  }

  // ----- chunks changing hands -----

  lemma Moved(chunks: set<Ptr>, free: seq<Ptr>, held: set<Ptr>, own: map<Tid, set<Ptr>>,
              t: Tid, mine: set<Ptr>, free': seq<Ptr>, held': set<Ptr>)
    requires Partition(chunks, free, held, own) && t in own
    requires Distinct(free') && (forall p :: p in free' ==> p !in held' && p !in mine) && mine !! held'
    // what leaves one of the three places arrives in exactly one of them
    requires Elements(free') + held' + mine == Elements(free) + held + own[t]
    ensures Partition(chunks, free', held', own[t := mine])
  {
    var own' := own[t := mine];
    var pool := Elements(free) + held + own[t];
    assert forall p :: p in free' ==> p in pool;
    forall p | p in chunks ensures p in free' || p in held' || exists u :: u in own' && p in own'[u] {
      if p in pool {
        assert p in Elements(free') + held' + mine;
        assert p in mine ==> p in own'[t];
      } else {
        var u :| u in own && p in own[u];
        assert u != t && p in own'[u];
      }
    }
    forall u, p | u in own' && p in own'[u] ensures p in chunks && p !in free' && p !in held' {
      if u != t { assert p in own[u] && p !in pool; }
    }
    forall u, v, p | u in own' && v in own' && u != v && p in own'[u] ensures p !in own'[v] {
      if u == t { assert p in pool; } else { assert p in own[u] && p !in pool; }
    }
  }

  lemma Added(chunks: set<Ptr>, free: seq<Ptr>, held: set<Ptr>, own: map<Tid, set<Ptr>>, t: Tid, more: set<Ptr>)
    requires Partition(chunks, free, held, own) && t in own && own[t] == {} && more !! chunks && 0 !in more
    ensures Partition(chunks + more, free, held, own[t := more])
  {
    var own' := own[t := more];
    forall p | p in chunks + more ensures p in free || p in held || exists u :: u in own' && p in own'[u] {
      if p in more {
        assert p in own'[t];
      } else if p !in free && p !in held {
        var u :| u in own && p in own[u];
        assert p in own'[u];
      }
    }
  }

  lemma OwnUpdate(pc: map<Tid, Pc>, t: Tid, now: Pc)
    ensures Privates(pc[t := now]) == Privates(pc)[t := Private(now)]
  {
  }

  lemma DeallocateStep(s: Stack, free: seq<Ptr>, t: Tid, p: Ptr)
    requires Inv(s, free) && t in s.pc && s.pc[t].Idle? && p in s.held
    ensures Inv(Set(s, t, PushRead(p, FRESH)).(held := s.held - {p}), free)
  {
    var s' := Set(s, t, PushRead(p, FRESH)).(held := s.held - {p});
    Moved(s.next.Keys, free, s.held, Privates(s.pc), t, {p}, free, s'.held);
    OwnUpdate(s.pc, t, PushRead(p, FRESH));
    OthersKnow(s, s', t);
  }

  lemma KeepHeld(chunks: set<Ptr>, free: seq<Ptr>, held: set<Ptr>, own: map<Tid, set<Ptr>>, t: Tid, p: Ptr)
    requires Partition(chunks, free, held, own) && t in own && own[t] == {p}
    ensures Partition(chunks, free, held + {p}, own[t := {}])
  {
    assert p in own[t];
    Moved(chunks, free, held, own, t, {}, free, held + {p});
  }

  lemma ClearStep(s: Stack, free: seq<Ptr>, t: Tid)
    requires Inv(s, free) && t in s.pc && s.pc[t].PopClear?
    ensures Inv(GoStep(s, t), free)
  {
    var s', p := GoStep(s, t), s.pc[t].node;
    assert p in Privates(s.pc)[t] && s'.next.Keys == s.next.Keys;
    KeepHeld(s.next.Keys, free, s.held, Privates(s.pc), t, p);
    OwnUpdate(s.pc, t, Idle);
    LinkedFrame(s.next, s'.next, s.top.node, free);
    TopIsFree(s, free);
    OthersGentle(s, s', t, p);
    OthersKnow(s, s', t);
  }

  // A chunk in a caller's hands is nobody else's.
  lemma HeldApart(chunks: set<Ptr>, free: seq<Ptr>, held: set<Ptr>, own: map<Tid, set<Ptr>>, p: Ptr)
    requires Partition(chunks, free, held, own) && p in held
    ensures p !in free && forall u :: u in own ==> p !in own[u]
  {
  }

  lemma ScribbleStep(s: Stack, free: seq<Ptr>, p: Ptr, value: Ptr)
    requires Inv(s, free) && p in s.held
    ensures Inv(s.(next := s.next[p := value]), free)
  {
    var s' := s.(next := s.next[p := value]);
    HeldApart(s.next.Keys, free, s.held, Privates(s.pc), p);
    assert p in s.next;
    assert s'.next.Keys == s.next.Keys;
    LinkedFrame(s.next, s'.next, s.top.node, free);
    TopIsFree(s, free);
    forall u | u in s.pc ensures Knows(s', s'.pc[u]) {
      assert Privates(s.pc)[u] == Private(s.pc[u]);
      assert Gentle(s, s', Private(s.pc[u]));
      KnowsFrame(s, s', s.pc[u]);
    }
  }

  lemma TakeFirst(chunks: set<Ptr>, free: seq<Ptr>, held: set<Ptr>, own: map<Tid, set<Ptr>>, t: Tid)
    requires Partition(chunks, free, held, own) && t in own && own[t] == {} && free != []
    ensures Partition(chunks, free[1..], held, own[t := {free[0]}])
  {
    assert Elements(free) == Elements(free[1..]) + {free[0]};
    Moved(chunks, free, held, own, t, {free[0]}, free[1..], held);
  }

  lemma GiveBack(chunks: set<Ptr>, free: seq<Ptr>, held: set<Ptr>, own: map<Tid, set<Ptr>>, t: Tid, block: seq<Ptr>)
    requires Partition(chunks, free, held, own) && t in own && own[t] == Elements(block) && Distinct(block)
    ensures Partition(chunks, block + free, held, own[t := {}])
  {
    var free' := block + free;
    assert forall p :: p in block ==> p in own[t];
    assert Elements(free') == Elements(free) + Elements(block);
    forall i, j | 0 <= i < j < |free'| ensures free'[i] != free'[j] {
      if i < |block| <= j { assert free'[i] in block && free'[j] in free; }
    }
    Moved(chunks, free, held, own, t, {}, free', held);
  }

  // A successful pop takes the first chunk of the list and leaves the rest of it.
  lemma PopStep(s: Stack, free: seq<Ptr>, t: Tid)
    requires Inv(s, free) && t in s.pc && s.pc[t].PopSwap? && s.top == s.pc[t].head
    ensures free != [] && s.pc[t].head.node == free[0] && Inv(GoStep(s, t), free[1..])
  {
    TopIsFree(s, free);
    TakeFirst(s.next.Keys, free, s.held, Privates(s.pc), t);
    OwnUpdate(s.pc, t, PopClear(free[0]));
    OthersKnow(s, GoStep(s, t), t);
  }

  lemma PushStep(s: Stack, free: seq<Ptr>, t: Tid)
    requires Inv(s, free) && t in s.pc && s.pc[t].PushSwap? && s.top == s.pc[t].head
    ensures Inv(GoStep(s, t), [s.pc[t].item] + free)
  {
    var p := s.pc[t].item;
    assert Elements([p]) == {p} && p in Privates(s.pc)[t];
    assert ([p] + free)[1..] == free;
    GiveBack(s.next.Keys, free, s.held, Privates(s.pc), t, [p]);
    OwnUpdate(s.pc, t, Idle);
    OthersKnow(s, GoStep(s, t), t);
  }

  lemma GrowSwapStep(s: Stack, free: seq<Ptr>, t: Tid)
    requires Inv(s, free) && t in s.pc && s.pc[t].GrowSwap? && s.top == s.pc[t].head
    ensures Inv(GoStep(s, t), s.pc[t].block + free)
  {
    var block := s.pc[t].block;
    assert forall p :: p in block ==> p in Private(s.pc[t]) && p in Privates(s.pc)[t];
    GiveBack(s.next.Keys, free, s.held, Privates(s.pc), t, block);
    OwnUpdate(s.pc, t, PopRead(FRESH, true));
    PushBlock(s.next, block, s.top.node, free);
    OthersKnow(s, GoStep(s, t), t);
  }

  lemma GrowStep(s: Stack, free: seq<Ptr>, e: Event)
    requires Inv(s, free) && e.Grow? && Enabled(s, e)
    ensures Inv(Step(s, e), free)
  {
    var s' := Step(s, e);
    assert s'.next.Keys == s.next.Keys + Elements(e.block);
    Added(s.next.Keys, free, s.held, Privates(s.pc), e.t, Elements(e.block));
    assert Privates(s'.pc) == Privates(s.pc)[e.t := Elements(e.block)];
    LinkedFrame(s.next, s'.next, s.top.node, free);
    OthersKnow(s, s', e.t);
  }

  lemma ChainedStore(next: map<Ptr, Ptr>, block: seq<Ptr>, i: nat)
    requires Chained(next, block, i) && i + 1 < |block|
    ensures Chained(next[block[i] := block[i + 1]], block, i + 1)
  {
    assert forall k :: 0 <= k < i ==> block[k] != block[i];
  }

  // One more link of the new block.
  lemma LinkOne(s: Stack, free: seq<Ptr>, t: Tid, block: seq<Ptr>, i: nat)
    requires Inv(s, free) && t in s.pc && s.pc[t] == Link(block, i) && i + 1 < |block|
    ensures Inv(Set(s, t, Link(block, i + 1)).(next := s.next[block[i] := block[i + 1]]), free)
  {
    assert Knows(s, Link(block, i));
    assert block[i] in Elements(block);
    ChainedStore(s.next, block, i);
    StoreStep(s, free, t, block[i], block[i + 1], Link(block, i + 1));
  }

  lemma LinkStep(s: Stack, free: seq<Ptr>, t: Tid, block: seq<Ptr>, i: nat)
    requires Inv(s, free) && t in s.pc && s.pc[t] == Link(block, i)
    ensures Inv(GoStep(s, t), free)
  {
    if i + 1 < |block| {
      LinkOne(s, free, t, block, i);
    } else {
      assert Knows(s, Link(block, i));
      LocalStep(s, free, t, GrowRead(block, FRESH));
    }
  }

  lemma LastLinkStep(s: Stack, free: seq<Ptr>, t: Tid)
    requires Inv(s, free) && t in s.pc && (s.pc[t].GrowLast? || s.pc[t].PushLink?)
    ensures Inv(GoStep(s, t), free)
  {
    match s.pc[t]
    case GrowLast(block, head) =>
      var last := block[|block| - 1];
      assert last in Private(s.pc[t]) && last in Privates(s.pc)[t];
      StoreStep(s, free, t, last, head.node, GrowSwap(block, head));
    case PushLink(item, head) =>
      assert item in Privates(s.pc)[t];
      StoreStep(s, free, t, item, head.node, PushSwap(item, head));
  }

  lemma GoInv(s: Stack, free: seq<Ptr>, t: Tid)
    requires Inv(s, free) && Enabled(s, Go(t))
    ensures Inv(GoStep(s, t), Abstract(free, s, Go(t)))
  {
    match s.pc[t]
    case PopRead(snap, again) =>
      LocalStep(s, free, t, if snap.node.value == 0 then PopRead(FRESH, false)
          else PopNext(Head(snap.counter.value, snap.node.value)));
    case PopNext(head) => LocalStep(s, free, t, PopSwap(head, s.next[head.node]));
    case PopSwap(head, next) =>
      if s.top == head { PopStep(s, free, t); } else { LocalStep(s, free, t, PopRead(FRESH, false)); }
    case PopClear(node) => ClearStep(s, free, t);
    case PushRead(item, snap) => LocalStep(s, free, t, PushLink(item, Head(snap.counter.value, snap.node.value)));
    case PushLink(item, head) => LastLinkStep(s, free, t);
    case PushSwap(item, head) =>
      if s.top == head { PushStep(s, free, t); } else { LocalStep(s, free, t, PushRead(item, FRESH)); }
    case Link(block, i) => LinkStep(s, free, t, block, i);
    case GrowRead(block, snap) => LocalStep(s, free, t, GrowLast(block, Head(snap.counter.value, snap.node.value)));
    case GrowLast(block, head) => LastLinkStep(s, free, t);
    case GrowSwap(block, head) =>
      if s.top == head { GrowSwapStep(s, free, t); } else { LocalStep(s, free, t, GrowRead(block, FRESH)); }
  }

  lemma StepInv(s: Stack, free: seq<Ptr>, e: Event)
    requires Inv(s, free) && Enabled(s, e)
    ensures Inv(Step(s, e), Abstract(free, s, e))
  {
    match e
    case Allocate(t) => LocalStep(s, free, t, PopRead(FRESH, false));
    case Deallocate(t, p) => if p != 0 { DeallocateStep(s, free, t, p); }
    case LoadCounter(t) => LocalStep(s, free, t, WithSnap(s.pc[t], s.pc[t].snap.(counter := Got(s.top.counter))));
    case LoadNode(t) =>
      TopIsFree(s, free);
      LocalStep(s, free, t, WithSnap(s.pc[t], s.pc[t].snap.(node := Got(s.top.node))));
    case Grow(t, block, junk) => GrowStep(s, free, e);
    case Go(t) => GoInv(s, free, t);
    case Scribble(p, value) => ScribbleStep(s, free, p, value);
  }

  // ----- runs -----

  ghost predicate IsRun(s: Stack, es: seq<Event>)
    decreases es
  {
    es != [] ==> Enabled(s, es[0]) && IsRun(Step(s, es[0]), es[1..])
  }

  ghost function Final(s: Stack, es: seq<Event>): Stack
    requires IsRun(s, es)
    decreases es
  {
    if es == [] then s else Final(Step(s, es[0]), es[1..])
  }

  // The abstract stack at the end of a run: pops, pushes and push-manys in the order of their swaps.
  ghost function FinalFree(s: Stack, free: seq<Ptr>, es: seq<Event>): seq<Ptr>
    requires IsRun(s, es)
    decreases es
  {
    if es == [] then free else FinalFree(Step(s, es[0]), Abstract(free, s, es[0]), es[1..])
  }

  lemma {:induction false} RunInv(s: Stack, free: seq<Ptr>, es: seq<Event>)
    requires Inv(s, free) && IsRun(s, es)
    ensures Inv(Final(s, es), FinalFree(s, free, es))
    decreases es
  {
    if es != [] {
      StepInv(s, free, es[0]);
      RunInv(Step(s, es[0]), Abstract(free, s, es[0]), es[1..]);
    }
  }

  ghost predicate Initial(s: Stack) {
    s.top == Head(0, 0) && s.next == map[] && s.held == {} && forall t :: t in s.pc ==> s.pc[t].Idle?
  }

  ghost predicate HeldPrivately(s: Stack, p: Ptr) {
    exists t :: t in s.pc && p in Private(s.pc[t])
  }

  // In every run of any number of threads, memory holds the abstract stack: the walk from the head is
  // finite, unique and equal to it, and each chunk has exactly one owner.
  lemma OwnershipTheorem(s: Stack, es: seq<Event>)
    requires Initial(s) && IsRun(s, es)
    ensures var r, free := Final(s, es), FinalFree(s, [], es);
            && Linked(r.next, r.top.node, free) && Distinct(free)
            && (forall other :: Linked(r.next, r.top.node, other) ==> other == free)
            && (forall p :: p in r.next ==>
                  || (p in free && p !in r.held && !HeldPrivately(r, p))
                  || (p !in free && p in r.held && !HeldPrivately(r, p))
                  || (p !in free && p !in r.held && HeldPrivately(r, p)))
            && (forall t, u, p :: t in r.pc && u in r.pc && p in Private(r.pc[t]) && p in Private(r.pc[u]) ==> t == u)
  {
    RunInv(s, [], es);
    var r, free := Final(s, es), FinalFree(s, [], es);
    forall other | Linked(r.next, r.top.node, other) ensures other == free {
      LinkedUnique(r.next, r.top.node, other, free);
    }
    OwnersOf(r, free);
  }

  lemma OwnersOf(s: Stack, free: seq<Ptr>)
    requires Partition(s.next.Keys, free, s.held, Privates(s.pc))
    ensures forall p :: p in s.next ==>
              || (p in free && p !in s.held && !HeldPrivately(s, p))
              || (p !in free && p in s.held && !HeldPrivately(s, p))
              || (p !in free && p !in s.held && HeldPrivately(s, p))
    ensures forall t, u, p :: t in s.pc && u in s.pc && p in Private(s.pc[t]) && p in Private(s.pc[u]) ==> t == u
  {
    var own := Privates(s.pc);
    assert forall t :: t in s.pc ==> t in own && own[t] == Private(s.pc[t]);
    forall p | p in s.next
      ensures || (p in free && p !in s.held && !HeldPrivately(s, p))
              || (p !in free && p in s.held && !HeldPrivately(s, p))
              || (p !in free && p !in s.held && HeldPrivately(s, p))
    {
      if p !in free && p !in s.held {
        var t :| t in own && p in own[t];
        assert p in Private(s.pc[t]);
      }
    }
  }

  // No ABA: whenever a pop's swap succeeds, the chunk taken is the first of the list and the new head is
  // the true second, whatever was read when.
  lemma SwapInstallsSuccessor(s: Stack, es: seq<Event>, t: Tid)
    requires Initial(s) && IsRun(s, es)
    requires var r := Final(s, es); t in r.pc && r.pc[t].PopSwap? && r.top == r.pc[t].head
    ensures var r, free := Final(s, es), FinalFree(s, [], es);
            free != [] && r.pc[t].head.node == free[0] && r.pc[t].next == if |free| == 1 then 0 else free[1]
  {
    RunInv(s, [], es);
    var r := Final(s, es);
    assert Knows(r, r.pc[t]);
    TopIsFree(r, FinalFree(s, [], es));
  }
}

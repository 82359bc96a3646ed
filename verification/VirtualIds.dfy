/**
 Virtual ids: the coordinator issues process slots of a thousand ids each, and every
 process mints its own ids inside the slot it was given.
 */
module VirtualIds {

  const FIRST_PID := 40000
  const LAST_PID := 1000000
  const STEP := 1000
  const SLOTS := 961
  const MAX_ID := 999          // ids a table may mint lie strictly between base and base + MAX_ID

  predicate IsSlot(p: nat) {
    FIRST_PID <= p <= LAST_PID && p % STEP == 0
  }

  function SlotPid(i: nat): nat {
    FIRST_PID + STEP * i
  }

  function FirstSlots(n: nat): set<nat> {
    if n == 0 then {} else FirstSlots(n - 1) + {SlotPid(n - 1)}
  }

  lemma {:induction false} FirstSlotsCount(n: nat)
    ensures |FirstSlots(n)| == n && forall p :: p in FirstSlots(n) ==> exists i :: 0 <= i < n && p == SlotPid(i)
    ensures forall i :: 0 <= i < n ==> SlotPid(i) in FirstSlots(n)
  {
    if n > 0 {
      FirstSlotsCount(n - 1);
    }
  }

  function Slots(): set<nat> {
    set p: nat | p <= LAST_PID && IsSlot(p)
  }

  lemma SlotIndex(p: nat)
    ensures IsSlot(p) ==> p >= FIRST_PID && (p - FIRST_PID) / STEP < SLOTS && p == SlotPid((p - FIRST_PID) / STEP)
  {
  }

  lemma SlotOfIndex(i: nat)
    requires i < SLOTS
    ensures IsSlot(SlotPid(i))
  {
  }

  lemma SlotCount(n: nat)
    requires n == SLOTS
    ensures |Slots()| == n
  {
    FirstSlotsCount(n);
    forall p | p in Slots() ensures p in FirstSlots(n) {
      SlotIndex(p);
    }
    forall p | p in FirstSlots(n) ensures p in Slots() {
      var i :| 0 <= i < n && p == SlotPid(i);
      SlotOfIndex(i);
    }
    assert Slots() == FirstSlots(n);
  }

  // Some slot is free exactly when fewer than 961 are in use.
  lemma FreeSlotExists(used: set<nat>)
    ensures (exists p :: IsSlot(p) && p !in used) <==> |used * Slots()| < SLOTS
  {
    SlotCount(SLOTS);
    var all := Slots();
    assert all == used * all + (all - used) && |all| == |used * all| + |all - used|;
    if all - used != {} {
      var p :| p in all - used;
      assert IsSlot(p) && p !in used;
    }
    if p :| IsSlot(p) && p !in used {
      assert p in all - used;
    }
  }

  function NextSlot(p: nat): nat {
    if p + STEP > LAST_PID then FIRST_PID else p + STEP
  }

  // The n-th slot tried by the search from p.
  function Probe(p: nat, n: nat): (q: nat)
    ensures IsSlot(p) ==> IsSlot(q)
    decreases n
  {
    if n == 0 then p else Probe(NextSlot(p), n - 1)
  }

  lemma {:induction false} ProbeNext(p: nat, n: nat)
    ensures Probe(p, n + 1) == NextSlot(Probe(p, n))
    decreases n
  {
    if n > 0 { ProbeNext(NextSlot(p), n - 1); }
  }

  // While it does not wrap, the search goes straight up.
  lemma {:induction false} ProbeUp(p: nat, n: nat)
    requires IsSlot(p) && p + STEP * n <= LAST_PID
    ensures Probe(p, n) == p + STEP * n
    decreases n
  {
    if n > 0 { ProbeUp(p + STEP, n - 1); }
  }

  lemma {:induction false} ProbeSum(p: nat, a: nat, b: nat)
    ensures Probe(p, a + b) == Probe(Probe(p, a), b)
    decreases a
  {
    if a > 0 { ProbeSum(NextSlot(p), a - 1, b); }
  }

  // Every slot comes up within 961 tries.
  lemma ProbeReaches(p: nat, q: nat) returns (n: nat)
    requires IsSlot(p) && IsSlot(q)
    ensures n < SLOTS && Probe(p, n) == q
  {
    if p <= q {
      n := (q - p) / STEP;
      ProbeUp(p, n);
    } else {
      var up := (LAST_PID - p) / STEP;
      ProbeUp(p, up);
      ProbeNext(p, up);
      assert Probe(p, up + 1) == FIRST_PID;
      var more := (q - FIRST_PID) / STEP;
      ProbeUp(FIRST_PID, more);
      ProbeSum(p, up + 1, more);
      n := up + 1 + more;
    }
  }

  // The search ends, and then within 961 tries, exactly when fewer than 961 slots are in use.
  lemma SearchEnds(p: nat, used: set<nat>)
    requires IsSlot(p)
    ensures (exists n: nat :: Probe(p, n) !in used) <==> |used * Slots()| < SLOTS
    ensures |used * Slots()| < SLOTS ==> exists n: nat :: n < SLOTS && Probe(p, n) !in used
  {
    FreeSlotExists(used);
    if |used * Slots()| < SLOTS {
      var q :| IsSlot(q) && q !in used;
      var n := ProbeReaches(p, q);
    }
  }

  class PidIssuer {
    var nextVirtualPid: nat
    var inUse: set<nat>

    predicate Valid()
      reads this
    {
      IsSlot(nextVirtualPid)
    }

    constructor ()
      ensures Valid() && inUse == {}
    {
      nextVirtualPid, inUse := FIRST_PID, {};
    }

    // Returns a free slot within 961 tries: the first free one from the cursor on.
    method GetNewVirtualPid() returns (pid: nat, ghost tries: nat)
      requires Valid() && |inUse * Slots()| < SLOTS
      modifies this`nextVirtualPid
      ensures Valid() && IsSlot(pid) && pid !in inUse
      ensures tries < SLOTS && pid == Probe(old(nextVirtualPid), tries) && nextVirtualPid == NextSlot(pid)
      ensures forall i :: 0 <= i < tries ==> Probe(old(nextVirtualPid), i) in inUse
    {
      SearchEnds(nextVirtualPid, inUse);
      ghost var bound: nat :| bound < SLOTS && Probe(nextVirtualPid, bound) !in inUse;
      tries := 0;
      while true
        invariant Valid() && tries <= bound && nextVirtualPid == Probe(old(nextVirtualPid), tries)
        invariant forall i :: 0 <= i < tries ==> Probe(old(nextVirtualPid), i) in inUse
        decreases bound - tries
      {
        pid := nextVirtualPid;
        nextVirtualPid := nextVirtualPid + STEP;
        if nextVirtualPid > LAST_PID {
          nextVirtualPid := FIRST_PID;
        }
        if pid !in inUse {
          break;
        }
        ProbeNext(old(nextVirtualPid), tries);
        tries := tries + 1;
      }
    }

    // A worker connects: it gets a slot nobody has.
    method Issue() returns (pid: nat)
      requires Valid() && |inUse * Slots()| < SLOTS
      modifies this
      ensures Valid() && IsSlot(pid) && pid !in old(inUse) && inUse == old(inUse) + {pid}
    {
      ghost var tries;
      pid, tries := GetNewVirtualPid();
      inUse := inUse + {pid};
    }

    // As many workers as there are free slots all get different ones.
    method IssueAll(n: nat) returns (pids: seq<nat>)
      requires Valid() && |inUse * Slots()| + n <= SLOTS
      modifies this
      ensures Valid() && |pids| == n
      ensures forall i :: 0 <= i < n ==> IsSlot(pids[i]) && pids[i] !in old(inUse)
      ensures forall i, j :: 0 <= i < j < n ==> pids[i] != pids[j]
    {
      pids := [];
      while |pids| < n
        invariant Valid() && |pids| <= n && |inUse * Slots()| + (n - |pids|) <= SLOTS && old(inUse) <= inUse
        invariant forall i :: 0 <= i < |pids| ==> IsSlot(pids[i]) && pids[i] !in old(inUse) && pids[i] in inUse
        invariant forall i, j :: 0 <= i < j < |pids| ==> pids[i] != pids[j]
      {
        ghost var was := inUse;
        var pid := Issue();
        assert inUse * Slots() == was * Slots() + {pid};
        pids := pids + [pid];
      }
    }
  }

  // ----- ids inside a slot -----

  // Strictly between base and base + max.
  predicate Mintable(base: nat, max: nat, id: nat) {
    base < id < base + max
  }

  // The range test behind isIdCreatedByCurrentProcess, whose upper end is included.
  predicate CreatedBy(base: nat, max: nat, id: nat) {
    base < id <= base + max
  }

  // Tables based on different slots mint different ids, none of them a slot pid, and each process
  // recognises its own ids and no other's.
  lemma SlotsAreDisjoint(a: nat, b: nat, id: nat)
    requires IsSlot(a) && IsSlot(b) && a != b && Mintable(a, MAX_ID, id)
    ensures CreatedBy(a, MAX_ID, id) && !CreatedBy(b, MAX_ID, id) && !Mintable(b, MAX_ID, id)
    ensures !IsSlot(id)
  {
    var i, j := a / STEP, b / STEP;
    assert a == i * STEP && b == j * STEP;
    assert id / STEP == i && id % STEP != 0;
  }

  class VirtualIdTable {
    var idMap: map<nat, nat>
    var base: nat
    const max: nat
    var next: nat

    predicate Valid()
      reads this
    {
      max >= 2 ==> Mintable(base, max, next)
    }

    constructor (base: nat, max: nat)
      ensures Valid() && idMap == map[] && this.base == base && this.max == max && next == base + 1
    {
      idMap, this.base, this.max := map[], base, max;
      next := base + 1;
    }

    // The cursor moves to the next id of the slot, cyclically.
    method AddOneToNextVirtualId() returns (id: nat)
      requires Valid()
      modifies this`next
      ensures Valid() && id == old(next)
      ensures next == if old(next) + 1 >= base + max then base + 1 else old(next) + 1
    {
      id := next;
      next := next + 1;
      if next >= base + max {
        next := base + 1;
      }
    }

    // With room in the table, succeeds exactly when some mintable id is free, and finds the first free one
    // from the cursor on; a full table refuses at once.
    method GetNewVirtualId() returns (ok: bool, id: nat)
      requires Valid() && max >= 2
      modifies this`next
      ensures Valid()
      ensures ok <==> |idMap| < max && exists i: nat :: Mintable(base, max, i) && i !in idMap
      ensures ok ==> Mintable(base, max, id) && id !in idMap
      ensures ok ==> forall i: nat :: Between(base, max, old(next), i, id) ==> i in idMap
    {
      ok, id := false, 0;
      if |idMap| < max {
        var count := 0;
        ghost var start := next;
        while true
          invariant Valid() && !ok && count < max
          invariant Progress(base, max, start, count, next)
          invariant forall i: nat :: Tried(base, max, start, count, i) ==> i in idMap
          decreases max - count
        {
          var newId := AddOneToNextVirtualId();
          if newId !in idMap {
            ok, id := true, newId;
            break;
          }
          count := count + 1;
          if count == max {
            break;
          }
        }
      }
    }

    // The child mints from its own slot: nothing it can mint is the parent's, or recognised by it.
    method ResetOnFork(newBase: nat)
      modifies this`base, this`next
      ensures Valid() && base == newBase
      ensures max == MAX_ID && IsSlot(old(base)) && IsSlot(newBase) && newBase != old(base) ==>
                forall id: nat :: Mintable(base, max, id) ==> !CreatedBy(old(base), max, id) && !IsSlot(id)
    {
      ghost var parent := base;
      base := newBase;
      next := base + 1;
      if max == MAX_ID && IsSlot(parent) && IsSlot(base) && base != parent {
        forall id: nat | Mintable(base, max, id) ensures !CreatedBy(parent, max, id) && !IsSlot(id) {
          SlotsAreDisjoint(base, parent, id);
        }
      }
    }

    // Mints an id for each real one, as far as they go.
    method MapAll(reals: seq<nat>) returns (ids: seq<nat>)
      requires Valid() && max >= 2
      modifies this`next, this`idMap
      ensures Valid() && |ids| <= |reals|
      ensures forall i :: 0 <= i < |ids| ==> Mintable(base, max, ids[i]) && ids[i] !in old(idMap)
      ensures forall i, j :: 0 <= i < j < |ids| ==> ids[i] != ids[j]
      ensures forall i :: 0 <= i < |ids| ==> ids[i] in idMap && idMap[ids[i]] == reals[i]
      ensures forall k :: k in old(idMap) ==> k in idMap && idMap[k] == old(idMap)[k]
      ensures |ids| < |reals| ==> |idMap| >= max || forall i: nat :: Mintable(base, max, i) ==> i in idMap
    {
      ids := [];
      while |ids| < |reals|
        invariant Valid() && |ids| <= |reals|
        invariant forall i :: 0 <= i < |ids| ==> Mintable(base, max, ids[i]) && ids[i] !in old(idMap)
        invariant forall i, j :: 0 <= i < j < |ids| ==> ids[i] != ids[j]
        invariant forall i :: 0 <= i < |ids| ==> ids[i] in idMap && idMap[ids[i]] == reals[i]
        invariant forall k :: k in old(idMap) ==> k in idMap && idMap[k] == old(idMap)[k]
        decreases |reals| - |ids|
      {
        var ok, id := GetNewVirtualId();
        if !ok { return; }
        idMap := idMap[id := reals[|ids|]];
        ids := ids + [id];
      }
    }

    method Clear()
      modifies this
      ensures idMap == map[] && base == old(base) && next == base + 1
    {
      idMap, next := map[], base + 1;
    }
  }

  // Where the cursor stands after count moves from start, up to one full turn.
  predicate Progress(base: nat, max: nat, start: nat, count: nat, next: nat) {
    var left := base + max - start;      // ids from start to the end of the slot
    && (count < left ==> next == start + count)
    && (left <= count < max - 1 ==> next == base + 1 + count - left)
    && (count == max - 1 ==> next == start)
  }

  // The ids passed by then.
  predicate Tried(base: nat, max: nat, start: nat, count: nat, i: nat) {
    var left := base + max - start;
    if count < left then start <= i < start + count
    else start <= i < base + max || base < i < base + 1 + count - left
  }

  // i comes before id on the way from start.
  predicate Between(base: nat, max: nat, start: nat, i: nat, id: nat) {
    if start <= id then start <= i < id
    else start <= i < base + max || base < i < id
  }
}

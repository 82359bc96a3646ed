/**
 JAllocDispatcher: five size classes, four of which carve their blocks out of chunks of the
 fifth, raw mappings beyond that, and malloc/free with a size header and a canary footer.

 The lists here are the abstract stacks that TaggedStack.dfy shows the lock-free code to
 implement.  Memory is a map of bytes; the operating system is a parameter that names a
 region nobody uses.
 */
module Malloc {
  import opened Words

  const LEVELS := 5
  const PAGE_BLOCK := 16384              // block size of levels 0 to 3, chunk size of level 4
  const BIG_BLOCK := 16 * 1024 * 1024    // block size of level 4
  const WORD := 8
  const SIZE_LIMIT := 0x1_0000_0000_0000_0000   // 2^64

  function ChunkSize(k: nat): (n: nat)
    ensures n > 0
  {
    if k == 0 then 64 else if k == 1 then 256 else if k == 2 then 1024 else if k == 3 then 4096 else PAGE_BLOCK
  }

  function BlockSize(k: nat): nat {
    if k < 4 then PAGE_BLOCK else BIG_BLOCK
  }

  // The level that serves a request, LEVELS standing for a raw mapping.
  function LevelFor(n: nat): (k: nat)
    ensures k <= LEVELS
    ensures k < LEVELS ==> n <= ChunkSize(k) && forall j :: 0 <= j < k ==> ChunkSize(j) < n
    ensures k == LEVELS ==> n > PAGE_BLOCK
  {
    if n <= 64 then 0 else if n <= 256 then 1 else if n <= 1024 then 2 else if n <= 4096 then 3
    else if n <= PAGE_BLOCK then 4 else LEVELS
  }

  // How many bytes a request for n really gets.
  function Granted(n: nat): nat {
    if LevelFor(n) < LEVELS then ChunkSize(LevelFor(n)) else n
  }

  // size_t arithmetic in malloc.
  function Request(nbytes: nat): nat {
    (nbytes + 2 * WORD) % SIZE_LIMIT
  }

  lemma RequestExact(nbytes: nat)
    requires nbytes + 2 * WORD < SIZE_LIMIT
    ensures Request(nbytes) == nbytes + 2 * WORD
  {
  }

  predicate Wraps(nbytes: nat) {
    nbytes + 2 * WORD >= SIZE_LIMIT
  }

  // Header, payload and footer fit in what the request is granted exactly when the sum does not wrap.
  lemma FitsExactly(nbytes: nat)
    requires nbytes < SIZE_LIMIT
    ensures nbytes + 2 * WORD <= Granted(Request(nbytes)) <==> !Wraps(nbytes)
  {
    if Wraps(nbytes) {
      WrapIsSmall(nbytes);
    }
  }

  // A request near 2^64 is granted 64 bytes.
  lemma WrapIsSmall(nbytes: nat)
    requires nbytes < SIZE_LIMIT && Wraps(nbytes)
    ensures Request(nbytes) == nbytes + 2 * WORD - SIZE_LIMIT < 16
    ensures LevelFor(Request(nbytes)) == 0 && Granted(Request(nbytes)) == 64
  {
  }

  // The footer of such a request is written below its payload, and starts outside its chunk for all but the
  // eight largest sizes.
  lemma WrappedFooter(p: nat, nbytes: nat)
    requires 2 * WORD <= p < SIZE_LIMIT && nbytes < SIZE_LIMIT && Wraps(nbytes)
    ensures var footer := (p + nbytes) % SIZE_LIMIT;
            && footer == p - (SIZE_LIMIT - nbytes) && footer < p
            && (p - WORD <= footer <==> SIZE_LIMIT - nbytes <= WORD)
  {
  }

  // ----- pieces of the address space -----

  datatype Piece = Piece(len: nat, level: nat, live: bool)

  type Pieces = map<nat, Piece>

  ghost predicate Apart(a: int, m: int, b: int, n: int) {
    a + m <= b || b + n <= a
  }

  ghost predicate Disjoint(ps: Pieces) {
    forall a, b :: a in ps && b in ps && a != b ==> Apart(a, ps[a].len, b, ps[b].len)
  }

  // No piece reaches into [lo, hi).
  ghost predicate Clear(ps: Pieces, lo: nat, hi: nat) {
    forall a :: a in ps ==> Apart(a, ps[a].len, lo, hi - lo) && a != lo
  }

  ghost predicate Shaped(a: nat, p: Piece) {
    && 0 < a && 0 < p.len && a + p.len <= SIZE_LIMIT
    && (if p.level < LEVELS then p.len == ChunkSize(p.level) else p.live)
  }

  ghost predicate Laid(ps: Pieces) {
    Disjoint(ps) && forall a :: a in ps ==> Shaped(a, ps[a])
  }

  predicate NoRepeats(list: seq<nat>) {
    forall i, j :: 0 <= i < j < |list| ==> list[i] != list[j]
  }

  // A free list holds exactly the free pieces of its level.
  ghost predicate ListOk(ps: Pieces, k: nat, list: seq<nat>) {
    NoRepeats(list) && forall a :: a in list <==> a in ps && !ps[a].live && ps[a].level == k
  }

  ghost predicate ListsOk(ps: Pieces, free: seq<seq<nat>>) {
    |free| == LEVELS && forall k :: 0 <= k < LEVELS ==> ListOk(ps, k, free[k])
  }

  ghost function Live(ps: Pieces): Pieces {
    map a | a in ps && ps[a].live :: ps[a]
  }

  lemma AddAndRemove(live: Pieces, a: nat, p: Piece)
    requires a !in live
    ensures live[a := p] - {a} == live
  {
  }

  lemma AddPiece(ps: Pieces, lo: nat, hi: nat, p: Piece)
    requires Laid(ps) && Shaped(lo, p) && lo + p.len <= hi && Clear(ps, lo, hi)
    ensures Laid(ps[lo := p]) && (lo + p.len < hi ==> Clear(ps[lo := p], lo + p.len, hi))
  {
  }

  lemma AddFree(ps: Pieces, free: seq<seq<nat>>, lo: nat, k: nat)
    requires ListsOk(ps, free) && lo !in ps && k < LEVELS
    ensures ListsOk(ps[lo := Piece(ChunkSize(k), k, false)], free[k := [lo] + free[k]])
    ensures Live(ps[lo := Piece(ChunkSize(k), k, false)]) == Live(ps)
  {
    var ps' := ps[lo := Piece(ChunkSize(k), k, false)];
    var free' := free[k := [lo] + free[k]];
    assert lo !in free[k];
    forall j | 0 <= j < LEVELS ensures ListOk(ps', j, free'[j]) {
      assert ListOk(ps, j, free[j]);
    }
    assert Live(ps') == Live(ps);
  }

  // Taking the first free chunk of level k.
  lemma TakeFirst(ps: Pieces, free: seq<seq<nat>>, k: nat)
    requires Laid(ps) && ListsOk(ps, free) && k < LEVELS && free[k] != []
    ensures var a := free[k][0];
            && a in ps && ps[a] == Piece(ChunkSize(k), k, false)
            && Laid(ps[a := Piece(ChunkSize(k), k, true)])
            && ListsOk(ps[a := Piece(ChunkSize(k), k, true)], free[k := free[k][1..]])
            && a !in Live(ps)
            && Live(ps[a := Piece(ChunkSize(k), k, true)]) == Live(ps)[a := Piece(ChunkSize(k), k, true)]
  {
    var a := free[k][0];
    assert ListOk(ps, k, free[k]) && a in free[k];
    var ps' := ps[a := Piece(ChunkSize(k), k, true)];
    var free' := free[k := free[k][1..]];
    forall j | 0 <= j < LEVELS ensures ListOk(ps', j, free'[j]) {
      assert ListOk(ps, j, free[j]);
      if j == k { assert forall x :: x in free[k] <==> x == a || x in free[k][1..]; }
    }
    assert Live(ps') == Live(ps)[a := ps'[a]];
  }

  // A live piece disappears: it is unmapped or about to be carved.
  lemma DropPiece(ps: Pieces, free: seq<seq<nat>>, a: nat)
    requires Laid(ps) && ListsOk(ps, free) && a in ps && ps[a].live
    ensures Laid(ps - {a}) && ListsOk(ps - {a}, free) && Live(ps - {a}) == Live(ps) - {a}
    ensures Clear(ps - {a}, a, a + ps[a].len)
  {
    assert forall k :: 0 <= k < LEVELS ==> ListOk(ps, k, free[k]);
    assert Live(ps - {a}) == Live(ps) - {a};
  }

  // A live chunk goes back to its own level.
  lemma FreePiece(ps: Pieces, free: seq<seq<nat>>, a: nat)
    requires Laid(ps) && ListsOk(ps, free) && a in ps && ps[a].live && ps[a].level < LEVELS
    ensures var k := ps[a].level;
            && Laid(ps[a := ps[a].(live := false)]) && ListsOk(ps[a := ps[a].(live := false)], free[k := [a] + free[k]])
            && Live(ps[a := ps[a].(live := false)]) == Live(ps) - {a}
  {
    DropPiece(ps, free, a);
    AddFree(ps - {a}, free, a, ps[a].level);
    assert ps[a := ps[a].(live := false)] == (ps - {a})[a := ps[a].(live := false)];
  }

  lemma AddRaw(ps: Pieces, free: seq<seq<nat>>, a: nat, n: nat)
    requires Laid(ps) && ListsOk(ps, free) && n > 0 && 0 < a && a + n <= SIZE_LIMIT && Clear(ps, a, a + n)
    ensures Laid(ps[a := Piece(n, LEVELS, true)]) && ListsOk(ps[a := Piece(n, LEVELS, true)], free)
    ensures a !in Live(ps) && Live(ps[a := Piece(n, LEVELS, true)]) == Live(ps)[a := Piece(n, LEVELS, true)]
  {
    AddPiece(ps, a, a + n, Piece(n, LEVELS, true));
    assert forall k :: 0 <= k < LEVELS ==> ListOk(ps, k, free[k]);
    assert Live(ps[a := Piece(n, LEVELS, true)]) == Live(ps)[a := Piece(n, LEVELS, true)];
  }

  // ----- bytes -----

  type Memory = nat -> byte

  function Fetch(mem: Memory, a: nat): nat {
    FromBytes(seq(WORD, i requires 0 <= i < WORD => mem(a + i)))
  }

  function Store(mem: Memory, a: nat, v: nat): Memory {
    (i: nat) => if a <= i < a + WORD then Digit(v, i - a) else mem(i)
  }

  // The word v stands at address a.
  ghost predicate Holds(mem: Memory, a: nat, v: nat) {
    forall i :: 0 <= i < WORD ==> mem(a + i) == Digit(v, i)
  }

  function Zero(mem: Memory, a: nat, n: nat): Memory {
    (i: nat) => if a <= i < a + n then 0 else mem(i)
  }

  // The two memories agree outside [a, a + n).
  ghost predicate SameOutside(mem: Memory, mem': Memory, a: nat, n: nat) {
    forall i: nat :: i < a || a + n <= i ==> mem'(i) == mem(i)
  }

  lemma HoldsFetch(mem: Memory, a: nat, v: nat)
    requires Holds(mem, a, v) && v < SIZE_LIMIT
    ensures Fetch(mem, a) == v
  {
    var word := seq(WORD, i requires 0 <= i < WORD => mem(a + i));
    DigitsAreBytes(v, word);
    Widths();
    WordRoundTrip(v, WORD);
  }

  // ----- allocations -----

  // An allocation occupies one live piece, of the level and length its size asks for.
  ghost predicate Housed(p: nat, nbytes: nat, live: Pieces) {
    && WORD <= p && p - WORD in live
    && live[p - WORD] == Piece(Granted(nbytes + 2 * WORD), LevelFor(nbytes + 2 * WORD), true)
  }

  // Header and canary are in place.
  ghost predicate Marked(mem: Memory, p: nat, nbytes: nat) {
    WORD <= p && Holds(mem, p - WORD, nbytes) && Holds(mem, p + nbytes, p - WORD)
  }

  ghost predicate AllHoused(blocks: map<nat, nat>, live: Pieces) {
    forall p :: p in blocks ==> Housed(p, blocks[p], live)
  }

  ghost predicate AllMarked(mem: Memory, blocks: map<nat, nat>) {
    forall p :: p in blocks ==> Marked(mem, p, blocks[p])
  }

  // The payload of every allocation is as it was.
  ghost predicate Kept(mem: Memory, mem': Memory, p: nat, nbytes: nat) {
    forall i: nat :: p <= i < p + nbytes ==> mem'(i) == mem(i)
  }

  ghost predicate AllKept(mem: Memory, mem': Memory, blocks: map<nat, nat>) {
    forall p :: p in blocks ==> Kept(mem, mem', p, blocks[p])
  }

  // Two pieces of the live map do not meet.
  lemma PiecesApart(ps: Pieces, a: nat, b: nat)
    requires Laid(ps) && a in Live(ps) && b in Live(ps) && a != b
    ensures Apart(a, Live(ps)[a].len, b, Live(ps)[b].len)
  {
  }

  lemma GrantedEnough(n: nat)
    ensures n <= Granted(n)
  {
  }

  lemma MarkFrame(mem: Memory, mem': Memory, p: nat, nbytes: nat, a: nat, n: nat)
    requires Marked(mem, p, nbytes) && SameOutside(mem, mem', a, n) && Apart(p - WORD, nbytes + 2 * WORD, a, n)
    ensures Marked(mem', p, nbytes)
  {
    forall i | 0 <= i < WORD
      ensures mem'(p - WORD + i) == mem(p - WORD + i) == Digit(nbytes, i)
      ensures mem'(p + nbytes + i) == mem(p + nbytes + i) == Digit(p - WORD, i)
    {
    }
  }

  lemma HousedApart(ps: Pieces, p: nat, nbytes: nat, a: nat)
    requires Laid(ps) && a in Live(ps) && Housed(p, nbytes, Live(ps)) && p != a + WORD
    ensures Apart(p - WORD, nbytes + 2 * WORD, a, Live(ps)[a].len)
  {
    PiecesApart(ps, p - WORD, a);
    GrantedEnough(nbytes + 2 * WORD);
  }

  lemma PayloadFrame(mem: Memory, mem': Memory, p: nat, nbytes: nat, a: nat, n: nat)
    requires WORD <= p && SameOutside(mem, mem', a, n) && Apart(p - WORD, nbytes + 2 * WORD, a, n)
    ensures Kept(mem, mem', p, nbytes)
  {
  }

  // Bytes changed inside the piece of one allocation leave the payloads of all others alone, and their marks.
  lemma PayloadsFrame(mem: Memory, mem': Memory, ps: Pieces, blocks: map<nat, nat>, a: nat)
    requires Laid(ps) && a in Live(ps) && AllHoused(blocks, Live(ps)) && a + WORD !in blocks
    requires SameOutside(mem, mem', a, Live(ps)[a].len)
    ensures AllKept(mem, mem', blocks)
  {
    forall p | p in blocks ensures Kept(mem, mem', p, blocks[p]) {
      assert Housed(p, blocks[p], Live(ps));
      PayloadKept(mem, mem', ps, p, blocks[p], a);
    }
  }

  lemma PayloadKept(mem: Memory, mem': Memory, ps: Pieces, p: nat, nbytes: nat, a: nat)
    requires Laid(ps) && a in Live(ps) && Housed(p, nbytes, Live(ps)) && p != a + WORD
    requires SameOutside(mem, mem', a, Live(ps)[a].len)
    ensures Kept(mem, mem', p, nbytes)
  {
    HousedApart(ps, p, nbytes, a);
    PayloadFrame(mem, mem', p, nbytes, a, Live(ps)[a].len);
  }

  lemma MarksFrame(mem: Memory, mem': Memory, ps: Pieces, blocks: map<nat, nat>, a: nat)
    requires Laid(ps) && a in Live(ps) && AllHoused(blocks, Live(ps)) && AllMarked(mem, blocks) && a + WORD !in blocks
    requires SameOutside(mem, mem', a, Live(ps)[a].len)
    ensures AllMarked(mem', blocks)
  {
    forall p | p in blocks ensures Marked(mem', p, blocks[p]) {
      assert Housed(p, blocks[p], Live(ps)) && Marked(mem, p, blocks[p]);
      HousedApart(ps, p, blocks[p], a);
      MarkFrame(mem, mem', p, blocks[p], a, Live(ps)[a].len);
    }
  }

  // What malloc writes.
  lemma MarkNew(mem: Memory, a: nat, nbytes: nat)
    ensures var mem' := Framed(mem, a, nbytes);
            Marked(mem', a + WORD, nbytes) && SameOutside(mem, mem', a, nbytes + 2 * WORD)
  {
    var p := a + WORD;
    var mem' := Framed(mem, a, nbytes);
    forall i | 0 <= i < WORD ensures mem'(a + i) == Digit(nbytes, i) && mem'(p + nbytes + i) == Digit(a, i) {
    }
  }

  // ----- the dispatcher -----

  // Ranks the recursion of allocate through expand: raw mappings, then level 4, then the levels below it.
  function Rank(n: nat): nat {
    if n > PAGE_BLOCK then 0 else if n > 4096 then 1 else 2
  }

  class JAllocDispatcher {
    var free: seq<seq<nat>>
    var mem: Memory
    ghost var pieces: Pieces
    ghost var blocks: map<nat, nat>      // payload address to requested size

    ghost predicate Sound()
      reads this
    {
      Laid(pieces) && ListsOk(pieces, free)
    }

    ghost predicate Valid()
      reads this
    {
      Sound() && AllHoused(blocks, Live(pieces)) && AllMarked(mem, blocks)
    }

    // A region the operating system may hand out next: as long as the request if that is mapped
    // directly, else one block for level 4.
    ghost predicate Unused(region: nat, n: nat)
      reads this
    {
      var len := if n > PAGE_BLOCK then n else BIG_BLOCK;
      0 < region && region + len <= SIZE_LIMIT && Clear(pieces, region, region + len)
    }

    constructor ()
      ensures Valid() && pieces == map[] && blocks == map[]
    {
      free, mem, pieces, blocks := [[], [], [], [], []], (i: nat) => 0, map[], map[];
    }

    method Allocate(n: nat, region: nat) returns (a: nat)
      requires Sound() && Unused(region, n)
      modifies this`free, this`pieces
      ensures Sound() && a !in Live(old(pieces))
      ensures Live(pieces) == Live(old(pieces))[a := Piece(Granted(n), LevelFor(n), true)]
      decreases Rank(n), 3
    {
      var k := LevelFor(n);
      if k < LEVELS {
        a := AllocateFrom(k, region);
      } else {
        AddRaw(pieces, free, region, n);
        pieces := pieces[region := Piece(n, LEVELS, true)];
        a := region;
      }
    }

    method AllocateFrom(k: nat, region: nat) returns (a: nat)
      requires Sound() && k < LEVELS && Unused(region, BIG_BLOCK)
      modifies this`free, this`pieces
      ensures Sound() && a !in Live(old(pieces))
      ensures Live(pieces) == Live(old(pieces))[a := Piece(ChunkSize(k), k, true)]
      decreases Rank(ChunkSize(k)), 2
    {
      if free[k] == [] {
        Expand(k, region);
      }
      a := free[k][0];
      TakeFirst(pieces, free, k);
      pieces := pieces[a := Piece(ChunkSize(k), k, true)];
      free := free[k := free[k][1..]];
    }

    // A block from the next larger source, cut into chunks.
    method Expand(k: nat, region: nat)
      requires Sound() && k < LEVELS && Unused(region, BIG_BLOCK)
      modifies this`free, this`pieces
      ensures Sound() && free[k] != [] && Live(pieces) == Live(old(pieces))
      decreases Rank(ChunkSize(k)), 1
    {
      ghost var live := Live(pieces);
      var block := Allocate(BlockSize(k), region);
      assert Granted(BlockSize(k)) == BlockSize(k);
      AddAndRemove(live, block, Live(pieces)[block]);
      Carve(k, block);
    }

    method Carve(k: nat, block: nat)
      requires Sound() && k < LEVELS && block in Live(pieces) && Live(pieces)[block].len == BlockSize(k)
      modifies this`free, this`pieces
      ensures Sound() && free[k] != [] && Live(pieces) == Live(old(pieces)) - {block}
    {
      DropPiece(pieces, free, block);
      pieces := pieces - {block};
      var cur, end := block, block + BlockSize(k);
      while cur + ChunkSize(k) <= end
        invariant 0 < block <= cur <= end == block + BlockSize(k) <= SIZE_LIMIT
        invariant Sound() && Live(pieces) == Live(old(pieces)) - {block}
        invariant cur < end ==> Clear(pieces, cur, end)
        invariant cur > block ==> free[k] != []
      {
        AddPiece(pieces, cur, end, Piece(ChunkSize(k), k, false));
        AddFree(pieces, free, cur, k);
        pieces := pieces[cur := Piece(ChunkSize(k), k, false)];
        free := free[k := [cur] + free[k]];
        cur := cur + ChunkSize(k);
      }
    }

    method Deallocate(a: nat, n: nat)
      requires Sound() && a in Live(pieces) && Live(pieces)[a] == Piece(Granted(n), LevelFor(n), true)
      modifies this`free, this`pieces
      ensures Sound() && Live(pieces) == Live(old(pieces)) - {a}
      // the chunk is back on the list of the level it came from
      ensures LevelFor(n) < LEVELS ==> free == ReturnedTo(old(free), LevelFor(n), a)
    {
      var k := LevelFor(n);
      if k < LEVELS {
        FreePiece(pieces, free, a);
        pieces := pieces[a := pieces[a].(live := false)];
        free := free[k := [a] + free[k]];
      } else {
        DropPiece(pieces, free, a);
        pieces := pieces - {a};
      }
    }
  
    // Header and footer around a payload.
    method Fill(a: nat, p: nat, nbytes: nat, ghost live: Pieces)
      requires Sound() && AllHoused(blocks, live) && AllMarked(mem, blocks) && a !in live
          && nbytes + 2 * WORD < SIZE_LIMIT
      requires Live(pieces) == live[a := Piece(Granted(nbytes + 2 * WORD), LevelFor(nbytes + 2 * WORD), true)]
      requires p == a + WORD
      modifies this`mem, this`blocks
      ensures Valid() && p !in old(blocks) && blocks == old(blocks)[p := nbytes]
      ensures AllKept(old(mem), mem, old(blocks))
    {
      MallocKeeps(mem, pieces, live, blocks, a, nbytes);
      mem, blocks := Framed(mem, a, nbytes), blocks[p := nbytes];
    }

    // A request whose size fits gets a block.  One that wraps around 2^64 gets the smallest chunk, and its
    // footer lands wherever the wrapped address points; see WrappedFooter.
    method Malloc(nbytes: nat, region: nat) returns (p: nat)
      requires Valid() && nbytes < SIZE_LIMIT && Unused(region, Request(nbytes))
      modifies this
      ensures !Wraps(nbytes) ==>
                && Valid() && p !in old(blocks) && blocks == old(blocks)[p := nbytes]
                && AllKept(old(mem), mem, old(blocks))
      ensures Wraps(nbytes) ==>
                && Sound() && blocks == old(blocks) && WORD <= p && p - WORD !in Live(old(pieces))
                && Live(pieces) == Live(old(pieces))[p - WORD := Piece(64, 0, true)]
                && mem == Store(Store(old(mem), p - WORD, nbytes), (p + nbytes) % SIZE_LIMIT, p - WORD)
    {
      var a := Allocate(Request(nbytes), region);
      p := a + WORD;
      if Wraps(nbytes) {
        WrapIsSmall(nbytes);
        mem := Store(Store(mem, a, nbytes), (p + nbytes) % SIZE_LIMIT, a);
      } else {
        RequestExact(nbytes);
        Fill(a, p, nbytes, Live(old(pieces)));
      }
    }

    // The caller may write any byte of a payload it was given.
    method Write(p: nat, i: nat, value: byte)
      requires Valid() && p in blocks && i < blocks[p]
      modifies this`mem
      ensures Valid() && mem == Put(old(mem), p + i, value)
    {
      WriteKeeps(mem, pieces, blocks, p, i, value);
      mem := Put(mem, p + i, value);
    }

    // The size from the header, and whether the canary is intact.
    method Inspect(p: nat, ghost n: nat) returns (nbytes: nat, intact: bool)
      requires Marked(mem, p, n) && p < SIZE_LIMIT && n < SIZE_LIMIT
      ensures nbytes == n && intact
    {
      var a := p - WORD;
      HoldsFetch(mem, a, n);
      nbytes := Fetch(mem, a);
      HoldsFetch(mem, p + n, a);
      intact := Fetch(mem, p + nbytes) == a;
    }

    // free(): false stands for the abort on a broken canary.  It never happens, and the chunk goes back.
    method Free(p: nat) returns (ok: bool)
      requires Valid() && (p == 0 || p in blocks)
      modifies this
      ensures ok && Valid()
      ensures p != 0 ==> blocks == old(blocks) - {p} && Live(pieces) == Live(old(pieces)) - {p - WORD}
      ensures p == 0 ==> blocks == old(blocks) && pieces == old(pieces) && mem == old(mem)
      // the whole block is zeroed, and no other payload is touched
      ensures p != 0 ==> forall i: nat :: p - WORD <= i < p + old(blocks)[p] + WORD ==> mem(i) == 0
      ensures AllKept(old(mem), mem, blocks)
      ensures p != 0 && LevelFor(old(blocks)[p] + 2 * WORD) < LEVELS ==>
                free == ReturnedTo(old(free), LevelFor(old(blocks)[p] + 2 * WORD), p - WORD)
    {
      if p == 0 {
        return true;
      }
      FreeKeeps(mem, pieces, blocks, p);
      var nbytes;
      nbytes, ok := Inspect(p, blocks[p]);
      if ok {
        Release(p, nbytes);
      }
    }

    // Zeroes the chunk and gives it back.
    method Release(p: nat, nbytes: nat)
      requires Sound() && Housed(p, nbytes, Live(pieces))
      requires AllMarked(Zero(mem, p - WORD, nbytes + 2 * WORD), blocks - {p})
      requires AllHoused(blocks - {p}, Live(pieces) - {p - WORD})
      modifies this
      ensures Valid() && blocks == old(blocks) - {p} && Live(pieces) == Live(old(pieces)) - {p - WORD}
      ensures LevelFor(nbytes + 2 * WORD) < LEVELS
          ==> free == ReturnedTo(old(free), LevelFor(nbytes + 2 * WORD), p - WORD)
      ensures mem == Zero(old(mem), p - WORD, nbytes + 2 * WORD)
    {
      mem := Zero(mem, p - WORD, nbytes + 2 * WORD);
      blocks := blocks - {p};
      Deallocate(p - WORD, nbytes + 2 * WORD);
    }
  }

  function ReturnedTo(free: seq<seq<nat>>, k: nat, a: nat): seq<seq<nat>> {
    if k < |free| then free[k := [a] + free[k]] else free
  }

  // The header word with the size and the footer word with the chunk's address.
  function Framed(mem: Memory, a: nat, nbytes: nat): Memory {
    Store(Store(mem, a, nbytes), a + WORD + nbytes, a)
  }

  function Put(mem: Memory, a: nat, value: byte): Memory {
    (j: nat) => if j == a then value else mem(j)
  }

  lemma HouseNew(live: Pieces, blocks: map<nat, nat>, a: nat, nbytes: nat)
    requires AllHoused(blocks, live) && a !in live
    ensures var live' := live[a := Piece(Granted(nbytes + 2 * WORD), LevelFor(nbytes + 2 * WORD), true)];
            AllHoused(blocks, live') && Housed(a + WORD, nbytes, live') && a + WORD !in blocks
  {
    var live' := live[a := Piece(Granted(nbytes + 2 * WORD), LevelFor(nbytes + 2 * WORD), true)];
    forall p | p in blocks ensures Housed(p, blocks[p], live') && p != a + WORD {
      assert Housed(p, blocks[p], live);
    }
  }

  lemma MallocKeeps(mem: Memory, ps: Pieces, live: Pieces, blocks: map<nat, nat>, a: nat, nbytes: nat)
    requires Laid(ps) && AllHoused(blocks, live) && AllMarked(mem, blocks) && a !in live
        && nbytes + 2 * WORD < SIZE_LIMIT
    requires Live(ps) == live[a := Piece(Granted(nbytes + 2 * WORD), LevelFor(nbytes + 2 * WORD), true)]
    ensures a + WORD !in blocks && AllHoused(blocks[a + WORD := nbytes], Live(ps))
    ensures AllMarked(Framed(mem, a, nbytes), blocks[a + WORD := nbytes])
    ensures AllKept(mem, Framed(mem, a, nbytes), blocks)
  {
    HouseNew(live, blocks, a, nbytes);
    GrantedEnough(nbytes + 2 * WORD);
    assert a in Live(ps) && Shaped(a, ps[a]);
    MarkNew(mem, a, nbytes);
    MarksFrame(mem, Framed(mem, a, nbytes), ps, blocks, a);
    PayloadsFrame(mem, Framed(mem, a, nbytes), ps, blocks, a);
  }

  lemma BlockFacts(ps: Pieces, p: nat, nbytes: nat)
    requires Laid(ps) && Housed(p, nbytes, Live(ps))
    ensures p < SIZE_LIMIT && nbytes < SIZE_LIMIT && nbytes + 2 * WORD <= Live(ps)[p - WORD].len
  {
    GrantedEnough(nbytes + 2 * WORD);
    assert Shaped(p - WORD, ps[p - WORD]);
  }

  lemma FreeMarks(mem: Memory, ps: Pieces, blocks: map<nat, nat>, p: nat)
    requires Laid(ps) && AllHoused(blocks, Live(ps)) && AllMarked(mem, blocks)
    requires p in blocks && WORD <= p && p - WORD in Live(ps) && blocks[p] + 2 * WORD <= Live(ps)[p - WORD].len
    ensures AllMarked(Zero(mem, p - WORD, blocks[p] + 2 * WORD), blocks - {p})
    ensures AllKept(mem, Zero(mem, p - WORD, blocks[p] + 2 * WORD), blocks - {p})
  {
    var mem' := Zero(mem, p - WORD, blocks[p] + 2 * WORD);
    assert SameOutside(mem, mem', p - WORD, Live(ps)[p - WORD].len);
    MarksFrame(mem, mem', ps, blocks - {p}, p - WORD);
    PayloadsFrame(mem, mem', ps, blocks - {p}, p - WORD);
  }

  lemma FreeKeeps(mem: Memory, ps: Pieces, blocks: map<nat, nat>, p: nat)
    requires Laid(ps) && AllHoused(blocks, Live(ps)) && AllMarked(mem, blocks) && p in blocks
    ensures Housed(p, blocks[p], Live(ps)) && Marked(mem, p, blocks[p])
    ensures p < SIZE_LIMIT && blocks[p] < SIZE_LIMIT
    ensures AllMarked(Zero(mem, p - WORD, blocks[p] + 2 * WORD), blocks - {p})
    ensures AllKept(mem, Zero(mem, p - WORD, blocks[p] + 2 * WORD), blocks - {p})
    ensures AllHoused(blocks - {p}, Live(ps) - {p - WORD})
  {
    BlockOf(mem, Live(ps), blocks, p);
    BlockFacts(ps, p, blocks[p]);
    FreeMarks(mem, ps, blocks, p);
    HouseRest(Live(ps), blocks, p);
  }

  lemma BlockOf(mem: Memory, live: Pieces, blocks: map<nat, nat>, p: nat)
    requires AllHoused(blocks, live) && AllMarked(mem, blocks) && p in blocks
    ensures Housed(p, blocks[p], live) && Marked(mem, p, blocks[p])
  {
  }

  lemma HouseRest(live: Pieces, blocks: map<nat, nat>, p: nat)
    requires AllHoused(blocks, live) && WORD <= p
    ensures AllHoused(blocks - {p}, live - {p - WORD})
  {
    forall q | q in blocks - {p} ensures Housed(q, blocks[q], live - {p - WORD}) {
      assert Housed(q, blocks[q], live);
    }
  }

  lemma OwnMarks(mem: Memory, mem': Memory, p: nat, nbytes: nat, i: nat)
    requires Marked(mem, p, nbytes) && i < nbytes && SameOutside(mem, mem', p + i, 1)
    ensures Marked(mem', p, nbytes)
  {
    forall j | 0 <= j < WORD
      ensures mem'(p - WORD + j) == mem(p - WORD + j) == Digit(nbytes, j)
      ensures mem'(p + nbytes + j) == mem(p + nbytes + j) == Digit(p - WORD, j)
    {
    }
  }

  // A byte of one payload is neither in a header nor in a canary, its own included.
  lemma WriteKeeps(mem: Memory, ps: Pieces, blocks: map<nat, nat>, p: nat, i: nat, value: byte)
    requires Laid(ps) && AllHoused(blocks, Live(ps)) && AllMarked(mem, blocks) && p in blocks && i < blocks[p]
    ensures AllMarked(Put(mem, p + i, value), blocks)
  {
    var mem' := Put(mem, p + i, value);
    assert SameOutside(mem, mem', p + i, 1);
    forall q | q in blocks ensures Marked(mem', q, blocks[q]) {
      assert Marked(mem, q, blocks[q]);
      if p == q {
        OwnMarks(mem, mem', p, blocks[p], i);
      } else {
        AllocationsNeverOverlap(ps, blocks, p, q);
        MarkFrame(mem, mem', q, blocks[q], p + i, 1);
      }
    }
  }

  // Live allocations, header and canary included, never overlap, whatever their levels.
  lemma AllocationsNeverOverlap(ps: Pieces, blocks: map<nat, nat>, p: nat, q: nat)
    requires Laid(ps) && AllHoused(blocks, Live(ps)) && p in blocks && q in blocks && p != q
    ensures Apart(p - WORD, blocks[p] + 2 * WORD, q - WORD, blocks[q] + 2 * WORD)
  {
    assert Housed(p, blocks[p], Live(ps)) && Housed(q, blocks[q], Live(ps));
    HousedApart(ps, p, blocks[p], q - WORD);
    GrantedEnough(blocks[q] + 2 * WORD);
  }
}

/**
 In what order a restart forks: every process first makes its children outside its session, the
 first process then the other independent roots, and each then, once it leads its session again,
 the members of that session; within a group they come in the order of the images.
 */
module RestartOrder {
  import opened Restart

  // No process for t comes before one for s.
  ghost predicate Before(log: seq<Spawn>, s: Image, t: Image) {
    forall i, j :: 0 <= i < |log| && 0 <= j < |log| && log[i].image == s && log[j].image == t ==> i < j
  }

  ghost predicate Listed(imgs: Images, s: Image, t: Image) {
    exists i, j :: 0 <= i < j < |imgs| && imgs[i] == s && imgs[j] == t
  }

  // z comes before whatever it makes, and makes s before t: outside its session before inside, else as listed.
  ghost predicate Precedes(imgs: Images, z: Image, s: Image, t: Image) {
    && Makes(z, t)
    && (s == z ||
        (Makes(z, s) && if (s.sid == z.pid) == (t.sid == z.pid) then Listed(imgs, s, t) else t.sid == z.pid))
  }

  ghost predicate Ordered(imgs: Images, log: seq<Spawn>) {
    forall z, s, t :: z in imgs && s in imgs && t in imgs && Precedes(imgs, z, s, t) ==> Before(log, s, t)
  }

  // ----- two parts of a log -----

  ghost predicate Has(log: seq<Spawn>, y: Image) {
    exists i :: 0 <= i < |log| && log[i].image == y
  }

  lemma {:induction false} CountHas(log: seq<Spawn>, y: Image)
    ensures Has(log, y) <==> Count(log, y) > 0
    decreases log
  {
    if log != [] {
      CountHas(log[1..], y);
      if i :| 0 <= i < |log| - 1 && log[1..][i].image == y { assert log[i + 1].image == y; }
      if i :| 0 < i < |log| && log[i].image == y { assert log[1..][i - 1].image == y; }
    }
  }

  lemma BeforeAppend(a: seq<Spawn>, b: seq<Spawn>, s: Image, t: Image)
    requires Before(a, s, t) && Before(b, s, t) && !(Has(a, t) && Has(b, s))
    ensures Before(a + b, s, t)
  {
    var log := a + b;
    forall i, j | 0 <= i < |log| && 0 <= j < |log| && log[i].image == s && log[j].image == t ensures i < j {
      if i >= |a| { assert b[i - |a|].image == s; }
      if j >= |a| { assert b[j - |a|].image == t; }
      if i < |a| && j < |a| { assert a[i].image == s && a[j].image == t; }
    }
  }

  lemma Absent(log: seq<Spawn>, s: Image, t: Image)
    requires !Has(log, s) || !Has(log, t)
    ensures Before(log, s, t)
  {
  }

  // One process, then three parts of a log.
  lemma Assemble(x: Spawn, one: seq<Spawn>, other: seq<Spawn>, two: seq<Spawn>, s: Image, t: Image)
    requires Before(one, s, t) && Before(other, s, t) && Before(two, s, t) && s != t
    requires !(Has(one, t) && (Has(other, s) || Has(two, s))) && !(Has(other, t) && Has(two, s))
    requires x.image == t ==> !Has(one, s) && !Has(other, s) && !Has(two, s)
    ensures Before([x] + one + other + two, s, t)
  {
    BeforeAppend(other, two, s, t);
    HasAppend(other, two, s);
    BeforeAppend(one, other + two, s, t);
    HasAppend(one, other + two, s);
    BeforeAppend([x], one + (other + two), s, t);
    assert [x] + one + other + two == [x] + (one + (other + two));
  }

  lemma HasAppend(a: seq<Spawn>, b: seq<Spawn>, y: Image)
    ensures Has(a + b, y) <==> Has(a, y) || Has(b, y)
  {
    if i :| 0 <= i < |a| && a[i].image == y { assert (a + b)[i].image == y; }
    if i :| 0 <= i < |b| && b[i].image == y { assert (a + b)[|a| + i].image == y; }
    if i :| 0 <= i < |a + b| && (a + b)[i].image == y { assert i < |a| || b[i - |a|].image == y; }
  }

  // ----- two branches of the forest -----

  lemma NotAbove(imgs: Images, x: Image, c: Image)
    requires Family(imgs) && x in imgs && c in imgs && Makes(x, c)
    ensures !Under(imgs, c, x)
  {
    Younger(imgs, x, c);
    if Under(imgs, c, x) { UnderOlder(imgs, c, x); }
  }

  // Whatever is strictly above t is above its maker, and so above s.
  lemma SameBranch(imgs: Images, z: Image, s: Image, t: Image, c: Image)
    requires Family(imgs) && z in imgs && s in imgs && t in imgs && Precedes(imgs, z, s, t)
    requires Under(imgs, c, t) && t != c
    ensures Under(imgs, c, s)
  {
    UnderMaker(imgs, c, t, z);
    if s != z { Younger(imgs, z, s); }
  }

  // If t and s hang under different branches of x, they are those branches.
  lemma Branches(imgs: Images, x: Image, c: Image, d: Image, z: Image, s: Image, t: Image)
    requires Family(imgs) && x in imgs && c in imgs && d in imgs && Makes(x, c) && Makes(x, d) && c != d
    requires z in imgs && s in imgs && t in imgs && Precedes(imgs, z, s, t)
    requires Under(imgs, c, t) && Under(imgs, d, s)
    ensures z == x && t == c && s == d
  {
    if t != c {
      SameBranch(imgs, z, s, t, c);
      OneBranch(imgs, x, c, d, s);
    }
    OneMaker(imgs, x, z, t);
    NotAbove(imgs, x, d);
    if s != d && s != x { UnderMaker(imgs, d, s, x); }
  }

  // ----- one process and all it leads to -----

  lemma {:induction false} LoopOrder(imgs: Images, x: Image, second: bool, i: nat, z: Image, s: Image, t: Image)
    requires Family(imgs) && x in imgs && i <= |imgs|
    requires z in imgs && s in imgs && t in imgs && Precedes(imgs, z, s, t)
    ensures Before(Loop(imgs, x, second, i), s, t)
    decreases MaxBorn(imgs) - x.born, 0, |imgs| - i
  {
    if i < |imgs| {
      var fork, more := Forked(imgs, x, second, i), Loop(imgs, x, second, i + 1);
      LoopUnfold(imgs, x, second, i);
      LoopOrder(imgs, x, second, i + 1, z, s, t);
      if Chosen(second, x, imgs[i]) {
        Younger(imgs, x, imgs[i]);
        CreateOrder(imgs, imgs[i], ParentFrom(x, imgs[i]), z, s, t);
        LoopCross(imgs, x, second, i, z, s, t);
      }
      BeforeAppend(fork, more, s, t);
    }
  }

  lemma ListedOnce(imgs: Images, i: nat, k: nat)
    requires Family(imgs) && i < |imgs| && k < |imgs| && Listed(imgs, imgs[i], imgs[k])
    ensures i < k
  {
    var p, q :| 0 <= p < q < |imgs| && imgs[p] == imgs[i] && imgs[q] == imgs[k];
    assert p == i && q == k;
  }

  lemma LaterTurn(imgs: Images, x: Image, i: nat, k: nat, z: Image, s: Image, t: Image)
    requires Family(imgs) && x in imgs && i < |imgs| && k < |imgs| && i != k && Makes(x, imgs[i]) && Makes(x, imgs[k])
    requires z in imgs && s in imgs && t in imgs && Precedes(imgs, z, s, t)
    requires Under(imgs, imgs[i], t) && Under(imgs, imgs[k], s) && (imgs[i].sid == x.pid) == (imgs[k].sid == x.pid)
    ensures k < i
  {
    Branches(imgs, x, imgs[i], imgs[k], z, s, t);
    ListedOnce(imgs, k, i);
  }

  // One turn of a loop and the turns after it.
  lemma LoopCross(imgs: Images, x: Image, second: bool, i: nat, z: Image, s: Image, t: Image)
    requires Family(imgs) && x in imgs && i < |imgs| && Chosen(second, x, imgs[i])
    requires z in imgs && s in imgs && t in imgs && Precedes(imgs, z, s, t)
    ensures !(Has(Forked(imgs, x, second, i), t) && Has(Loop(imgs, x, second, i + 1), s))
  {
    CountHas(Forked(imgs, x, second, i), t);
    CreateCount(imgs, imgs[i], ParentFrom(x, imgs[i]), t);
    CountHas(Loop(imgs, x, second, i + 1), s);
    LoopCount(imgs, x, second, i + 1, s);
    if Under(imgs, imgs[i], t) && Leads(imgs, x, second, i + 1, s) {
      var k: nat :| i < k < |imgs| && Chosen(second, x, imgs[k]) && Under(imgs, imgs[k], s);
      LaterTurn(imgs, x, i, k, z, s, t);
    }
  }

  // Whatever a loop of x makes comes from one of its turns.
  lemma LoopMade(imgs: Images, x: Image, second: bool, y: Image) returns (i: nat)
    requires Family(imgs) && x in imgs && y in imgs && Has(Loop(imgs, x, second, 0), y)
    ensures i < |imgs| && Chosen(second, x, imgs[i]) && Under(imgs, imgs[i], y)
  {
    CountHas(Loop(imgs, x, second, 0), y);
    LoopCount(imgs, x, second, 0, y);
    i :| 0 <= i < |imgs| && Chosen(second, x, imgs[i]) && Under(imgs, imgs[i], y);
  }

  // The loop before setsid() and the one after it.
  lemma LoopsCross(imgs: Images, x: Image, z: Image, s: Image, t: Image)
    requires Family(imgs) && x in imgs && z in imgs && s in imgs && t in imgs && Precedes(imgs, z, s, t)
    ensures !(Has(Loop(imgs, x, false, 0), t) && Has(Loop(imgs, x, true, 0), s))
  {
    if Has(Loop(imgs, x, false, 0), t) && Has(Loop(imgs, x, true, 0), s) {
      var i := LoopMade(imgs, x, false, t);
      var k := LoopMade(imgs, x, true, s);
      Branches(imgs, x, imgs[i], imgs[k], z, s, t);
    }
  }

  // Whatever the loops of x make is strictly under it.
  lemma MadeUnder(imgs: Images, x: Image, second: bool, y: Image)
    requires Family(imgs) && x in imgs && y in imgs && Has(Loop(imgs, x, second, 0), y)
    ensures y != x && Under(imgs, x, y)
  {
    CountHas(Loop(imgs, x, second, 0), y);
    LoopCount(imgs, x, second, 0, y);
    LeadsOnce(imgs, x, y);
  }

  lemma NotFirst(imgs: Images, x: Image, second: bool, z: Image, s: Image)
    requires Family(imgs) && x in imgs && z in imgs && s in imgs && Precedes(imgs, z, s, x)
    ensures !Has(Loop(imgs, x, second, 0), s)
  {
    if Has(Loop(imgs, x, second, 0), s) {
      MadeUnder(imgs, x, second, s);
      NotAbove(imgs, z, x);
      if s != z { UnderMaker(imgs, x, s, z); }
    }
  }

  lemma {:induction false} CreateOrder(imgs: Images, x: Image, parent: Parent, z: Image, s: Image, t: Image)
    requires Family(imgs) && x in imgs && z in imgs && s in imgs && t in imgs && Precedes(imgs, z, s, t)
    ensures Before(Create(imgs, [], x, parent), s, t)
    decreases MaxBorn(imgs) - x.born, 1, 0
  {
    var one, two := Loop(imgs, x, false, 0), Loop(imgs, x, true, 0);
    LoopOrder(imgs, x, false, 0, z, s, t);
    LoopOrder(imgs, x, true, 0, z, s, t);
    LoopsCross(imgs, x, z, s, t);
    if t == x {
      NotFirst(imgs, x, false, z, s);
      NotFirst(imgs, x, true, z, s);
    }
    Assemble(Spawn(x, parent), one, [], two, s, t);
  }

  // ----- the whole forest -----

  // A process the other independent roots make hangs under one of them, and not under x.
  lemma RootMade(imgs: Images, roots: Images, x: Image, i: nat, y: Image) returns (k: nat)
    requires Family(imgs) && Covers(imgs, roots) && x in roots && x in imgs && y in imgs && i <= |roots|
    requires Has(RootLoop(imgs, roots, x, i), y)
    ensures i <= k < |roots| && roots[k] != x && Under(imgs, roots[k], y) && !Under(imgs, x, y)
  {
    CountHas(RootLoop(imgs, roots, x, i), y);
    RootLoopCount(imgs, roots, x, i, y);
    k :| i <= k < |roots| && roots[k] != x && Under(imgs, roots[k], y);
    if Under(imgs, x, y) {
      var j :| 0 <= j < |roots| && roots[j] == x;
      OneRoot(imgs, roots[k], x, y);
    }
  }

  // s is under the same root as t.
  lemma SameRoot(imgs: Images, r: Image, z: Image, s: Image, t: Image)
    requires Family(imgs) && Topmost(imgs, r) && z in imgs && s in imgs && t in imgs && Precedes(imgs, z, s, t)
    requires Under(imgs, r, t)
    ensures Under(imgs, r, s)
  {
    assert t != r;
    SameBranch(imgs, z, s, t, r);
  }

  lemma {:induction false} RootLoopOrder(imgs: Images, roots: Images, x: Image, i: nat, z: Image, s: Image, t: Image)
    requires Family(imgs) && Covers(imgs, roots) && x in roots && x in imgs && i <= |roots|
    requires z in imgs && s in imgs && t in imgs && Precedes(imgs, z, s, t)
    ensures Before(RootLoop(imgs, roots, x, i), s, t)
    decreases |roots| - i
  {
    if i < |roots| {
      var fork, more := ForkedRoot(imgs, roots, x, i), RootLoop(imgs, roots, x, i + 1);
      RootLoopUnfold(imgs, roots, x, i);
      RootLoopOrder(imgs, roots, x, i + 1, z, s, t);
      CreateOrder(imgs, roots[i], Adopted, z, s, t);
      RootLoopCross(imgs, roots, x, i, z, s, t);
      BeforeAppend(fork, more, s, t);
    }
  }

  lemma RootLoopCross(imgs: Images, roots: Images, x: Image, i: nat, z: Image, s: Image, t: Image)
    requires Family(imgs) && Covers(imgs, roots) && x in roots && x in imgs && i < |roots|
    requires z in imgs && s in imgs && t in imgs && Precedes(imgs, z, s, t)
    ensures !(Has(ForkedRoot(imgs, roots, x, i), t) && Has(RootLoop(imgs, roots, x, i + 1), s))
  {
    if Has(ForkedRoot(imgs, roots, x, i), t) && Has(RootLoop(imgs, roots, x, i + 1), s) {
      CountHas(ForkedRoot(imgs, roots, x, i), t);
      ForkedCount(imgs, roots, x, i, t);
      SameRoot(imgs, roots[i], z, s, t);
      var k := RootMade(imgs, roots, x, i + 1, s);
      OneRoot(imgs, roots[i], roots[k], s);
    }
  }

  lemma ForestOrder(imgs: Images, roots: Images, x: Image, parent: Parent, z: Image, s: Image, t: Image)
    requires Family(imgs) && Covers(imgs, roots) && x in roots && x in imgs
    requires z in imgs && s in imgs && t in imgs && Precedes(imgs, z, s, t)
    ensures Before(Create(imgs, roots, x, parent), s, t)
  {
    var one, other, two := Loop(imgs, x, false, 0), RootLoop(imgs, roots, x, 0), Loop(imgs, x, true, 0);
    LoopOrder(imgs, x, false, 0, z, s, t);
    RootLoopOrder(imgs, roots, x, 0, z, s, t);
    LoopOrder(imgs, x, true, 0, z, s, t);
    LoopsCross(imgs, x, z, s, t);
    RootsCross(imgs, roots, x, false, z, s, t);
    RootsCross(imgs, roots, x, true, z, s, t);
    TopmostIn(imgs, roots, x);
    Assemble(Spawn(x, parent), one, other, two, s, t);
  }

  lemma TopmostIn(imgs: Images, roots: Images, x: Image)
    requires Covers(imgs, roots) && x in roots
    ensures Topmost(imgs, x)
  {
    var j :| 0 <= j < |roots| && roots[j] == x;
  }

  // What x makes and what the other roots make do not precede each other.
  lemma RootsCross(imgs: Images, roots: Images, x: Image, second: bool, z: Image, s: Image, t: Image)
    requires Family(imgs) && Covers(imgs, roots) && x in roots && x in imgs
    requires z in imgs && s in imgs && t in imgs && Precedes(imgs, z, s, t)
    ensures !(Has(Loop(imgs, x, second, 0), t) && Has(RootLoop(imgs, roots, x, 0), s))
    ensures !(Has(RootLoop(imgs, roots, x, 0), t) && Has(Loop(imgs, x, second, 0), s))
  {
    TopmostIn(imgs, roots, x);
    if Has(Loop(imgs, x, second, 0), t) && Has(RootLoop(imgs, roots, x, 0), s) {
      MadeUnder(imgs, x, second, t);
      SameRoot(imgs, x, z, s, t);
      var k := RootMade(imgs, roots, x, 0, s);
    }
    if Has(RootLoop(imgs, roots, x, 0), t) && Has(Loop(imgs, x, second, 0), s) {
      var k := RootMade(imgs, roots, x, 0, t);
      SameRoot(imgs, roots[k], z, s, t);
      MadeUnder(imgs, x, second, s);
      OneRoot(imgs, roots[k], x, s);
    }
  }

  // ----- the first process -----

  // Beside what it makes for itself, x makes the other roots in the order they stand in, between its children
  // outside its session and those inside.
  ghost predicate StartPrecedes(roots: Images, x: Image, s: Image, t: Image) {
    || (Makes(x, s) && s.sid != x.pid && t in roots && t != x)
    || (s in roots && s != x && Makes(x, t) && t.sid == x.pid)
    || (s != x && t != x && Listed(roots, s, t))
  }

  ghost predicate StartOrdered(imgs: Images, roots: Images, x: Image, log: seq<Spawn>) {
    forall s, t :: s in imgs && t in imgs && StartPrecedes(roots, x, s, t) ==> Before(log, s, t)
  }

  // What x makes itself is in the loop it belongs to, and in none of the roots'.
  lemma OwnMade(imgs: Images, roots: Images, x: Image, second: bool, y: Image)
    requires Family(imgs) && Covers(imgs, roots) && x in roots && x in imgs && y in imgs && Makes(x, y)
    ensures Has(Loop(imgs, x, second, 0), y) ==> Chosen(second, x, y)
    ensures !Has(RootLoop(imgs, roots, x, 0), y)
  {
    if Has(Loop(imgs, x, second, 0), y) {
      var j := LoopMade(imgs, x, second, y);
      NotAbove(imgs, x, imgs[j]);
      if y != imgs[j] { UnderMaker(imgs, imgs[j], y, x); }
    }
    Younger(imgs, x, y);
    assert Under(imgs, x, x) && Under(imgs, x, y);
    if Has(RootLoop(imgs, roots, x, 0), y) { var k := RootMade(imgs, roots, x, 0, y); }
  }

  lemma RootsApart(imgs: Images, roots: Images, x: Image, second: bool, r: Image)
    requires Family(imgs) && Covers(imgs, roots) && x in roots && x in imgs && r in roots && r in imgs && r != x
    ensures !Has(Loop(imgs, x, second, 0), r)
  {
    TopmostIn(imgs, roots, r);
    if Has(Loop(imgs, x, second, 0), r) { MadeUnder(imgs, x, second, r); }
  }

  lemma {:induction false} RootLoopListed(imgs: Images, roots: Images, x: Image, i: nat, p: nat, q: nat)
    requires Family(imgs) && Covers(imgs, roots) && x in roots && x in imgs && i <= |roots| && p < q < |roots|
    ensures Before(RootLoop(imgs, roots, x, i), roots[p], roots[q])
    decreases |roots| - i
  {
    if i < |roots| {
      var fork, more := ForkedRoot(imgs, roots, x, i), RootLoop(imgs, roots, x, i + 1);
      RootLoopUnfold(imgs, roots, x, i);
      RootLoopListed(imgs, roots, x, i + 1, p, q);
      RootCross(imgs, roots, x, i, p, q);
      BeforeAppend(fork, more, roots[p], roots[q]);
    }
  }

  lemma RootCross(imgs: Images, roots: Images, x: Image, i: nat, p: nat, q: nat)
    requires Family(imgs) && Covers(imgs, roots) && x in roots && x in imgs && i < |roots| && p < q < |roots|
    ensures Before(ForkedRoot(imgs, roots, x, i), roots[p], roots[q])
    ensures !(Has(ForkedRoot(imgs, roots, x, i), roots[q]) && Has(RootLoop(imgs, roots, x, i + 1), roots[p]))
  {
    OwnRoot(imgs, roots, x, i, p);
    OwnRoot(imgs, roots, x, i, q);
    Absent(ForkedRoot(imgs, roots, x, i), roots[p], roots[q]);
    if Has(RootLoop(imgs, roots, x, i + 1), roots[p]) {
      var k := RootMade(imgs, roots, x, i + 1, roots[p]);
      OneRoot(imgs, roots[k], roots[p], roots[p]);
    }
  }

  lemma OwnRoot(imgs: Images, roots: Images, x: Image, i: nat, q: nat)
    requires Family(imgs) && Covers(imgs, roots) && x in imgs && i < |roots| && q < |roots|
    ensures Has(ForkedRoot(imgs, roots, x, i), roots[q]) ==> q == i
  {
    CountHas(ForkedRoot(imgs, roots, x, i), roots[q]);
    ForkedCount(imgs, roots, x, i, roots[q]);
    if Under(imgs, roots[i], roots[q]) { OneRoot(imgs, roots[i], roots[q], roots[q]); }
  }

  // A child outside the session of x, and another root.
  lemma ChildThenRoot(imgs: Images, roots: Images, x: Image, parent: Parent, s: Image, t: Image)
    requires Family(imgs) && Covers(imgs, roots) && x in roots && x in imgs && s in imgs && t in imgs
    requires Makes(x, s) && s.sid != x.pid && t in roots && t != x
    ensures Before(Create(imgs, roots, x, parent), s, t)
  {
    var one, other, two := Loop(imgs, x, false, 0), RootLoop(imgs, roots, x, 0), Loop(imgs, x, true, 0);
    OwnMade(imgs, roots, x, true, s);
    RootsApart(imgs, roots, x, false, t);
    RootsApart(imgs, roots, x, true, t);
    Absent(one, s, t);
    Absent(other, s, t);
    Absent(two, s, t);
    TopmostIn(imgs, roots, t);
    Assemble(Spawn(x, parent), one, other, two, s, t);
  }

  // Another root, and a member of the session of x.
  lemma RootThenSession(imgs: Images, roots: Images, x: Image, parent: Parent, s: Image, t: Image)
    requires Family(imgs) && Covers(imgs, roots) && x in roots && x in imgs && s in imgs && t in imgs
    requires s in roots && s != x && Makes(x, t) && t.sid == x.pid
    ensures Before(Create(imgs, roots, x, parent), s, t)
  {
    var one, other, two := Loop(imgs, x, false, 0), RootLoop(imgs, roots, x, 0), Loop(imgs, x, true, 0);
    OwnMade(imgs, roots, x, false, t);
    RootsApart(imgs, roots, x, false, s);
    RootsApart(imgs, roots, x, true, s);
    Absent(one, s, t);
    Absent(other, s, t);
    Absent(two, s, t);
    TopmostIn(imgs, roots, s);
    Assemble(Spawn(x, parent), one, other, two, s, t);
  }

  lemma RootThenRoot(imgs: Images, roots: Images, x: Image, parent: Parent, p: nat, q: nat)
    requires Family(imgs) && Covers(imgs, roots) && x in roots && x in imgs
    requires p < q < |roots| && roots[p] != x && roots[q] != x
    ensures Before(Create(imgs, roots, x, parent), roots[p], roots[q])
  {
    var one, other, two := Loop(imgs, x, false, 0), RootLoop(imgs, roots, x, 0), Loop(imgs, x, true, 0);
    RootsApart(imgs, roots, x, false, roots[p]);
    RootsApart(imgs, roots, x, true, roots[p]);
    RootsApart(imgs, roots, x, false, roots[q]);
    RootLoopListed(imgs, roots, x, 0, p, q);
    Absent(one, roots[p], roots[q]);
    Absent(two, roots[p], roots[q]);
    Assemble(Spawn(x, parent), one, other, two, roots[p], roots[q]);
  }

  lemma StartOrder(imgs: Images, roots: Images, x: Image, parent: Parent, s: Image, t: Image)
    requires Family(imgs) && Covers(imgs, roots) && x in roots && x in imgs && s in imgs && t in imgs
    requires StartPrecedes(roots, x, s, t)
    ensures Before(Create(imgs, roots, x, parent), s, t)
  {
    if Makes(x, s) && s.sid != x.pid && t in roots && t != x {
      ChildThenRoot(imgs, roots, x, parent, s, t);
    } else if s in roots && s != x && Makes(x, t) && t.sid == x.pid {
      RootThenSession(imgs, roots, x, parent, s, t);
    } else {
      var p, q :| 0 <= p < q < |roots| && roots[p] == s && roots[q] == t;
      RootThenRoot(imgs, roots, x, parent, p, q);
    }
  }

  // ----- in the order of the images -----

  lemma {:induction false} FilteredListed(imgs: Images, all: Images, s: Image, t: Image)
    requires Listed(imgs, s, t) && Independent(all, s) && Independent(all, t)
    ensures Listed(Filtered(imgs, all), s, t)
    decreases imgs
  {
    var i, j :| 0 <= i < j < |imgs| && imgs[i] == s && imgs[j] == t;
    var front := imgs[..|imgs| - 1];
    var rest := Filtered(front, all);
    if j == |imgs| - 1 {
      assert front[i] == s;
      assert s in rest;
      var k :| 0 <= k < |rest| && rest[k] == s;
      assert Filtered(imgs, all) == rest + [t];
      assert (rest + [t])[k] == s && (rest + [t])[|rest|] == t;
    } else {
      assert front[i] == s && front[j] == t;
      FilteredListed(front, all, s, t);
      var p, q :| 0 <= p < q < |rest| && rest[p] == s && rest[q] == t;
      assert Filtered(imgs, all)[p] == s && Filtered(imgs, all)[q] == t;
    }
  }

  // The same as StartPrecedes, said of the images alone.
  ghost predicate StarterPrecedes(imgs: Images, x: Image, s: Image, t: Image) {
    || (Makes(x, s) && s.sid != x.pid && Independent(imgs, t) && t != x)
    || (Independent(imgs, s) && s != x && Makes(x, t) && t.sid == x.pid)
    || (Independent(imgs, s) && Independent(imgs, t) && s != x && t != x && Listed(imgs, s, t))
  }

  // The order in which a restart makes its processes.
  ghost predicate InOrder(imgs: Images, x: Image, log: seq<Spawn>) {
    && Ordered(imgs, log)
    && forall s, t :: s in imgs && t in imgs && StarterPrecedes(imgs, x, s, t) ==> Before(log, s, t)
  }

  // A process that makes no other roots, and the first one that makes them all.
  lemma CreateOrdered(imgs: Images, roots: Images, x: Image, parent: Parent)
    requires Family(imgs) && x in imgs && Among(roots, imgs)
    ensures roots == [] ==> Ordered(imgs, Create(imgs, roots, x, parent))
    ensures Covers(imgs, roots) && x in roots ==>
              Ordered(imgs, Create(imgs, roots, x, parent))
              && StartOrdered(imgs, roots, x, Create(imgs, roots, x, parent))
  {
    var log := Create(imgs, roots, x, parent);
    if roots == [] || (Covers(imgs, roots) && x in roots) {
      forall z, s, t | z in imgs && s in imgs && t in imgs && Precedes(imgs, z, s, t) ensures Before(log, s, t) {
        if roots == [] { CreateOrder(imgs, x, parent, z, s, t); } else { ForestOrder(imgs, roots, x, parent, z, s, t); }
      }
      forall s, t | s in imgs && t in imgs && x in roots && StartPrecedes(roots, x, s, t) ensures Before(log, s, t) {
        StartOrder(imgs, roots, x, parent, s, t);
      }
    }
  }

  lemma ForkOrder(imgs: Images, x: Image, parent: Parent)
    requires Family(imgs) && x in Roots(imgs)
    ensures Covers(imgs, Roots(imgs)) && x in imgs && InOrder(imgs, x, Create(imgs, Roots(imgs), x, parent))
  {
    var roots := Roots(imgs);
    RootsCover(imgs);
    CreateOrdered(imgs, roots, x, parent);
    forall s, t | s in imgs && t in imgs && StarterPrecedes(imgs, x, s, t) ensures StartPrecedes(roots, x, s, t) {
      if Independent(imgs, s) && Independent(imgs, t) && Listed(imgs, s, t) { FilteredListed(imgs, imgs, s, t); }
    }
  }
}

/**
 createProcess and processCkptImages with their loops.
 */
module RestartLoops {
  import opened Restart
  import opened RestartOrder

  // y is made once if it hangs under x, and not at all otherwise.
  ghost predicate Made(imgs: Images, x: Image, log: seq<Spawn>, y: Image) {
    Count(log, y) == if Under(imgs, x, y) then 1 else 0
  }

  // The processes forked from x on, in the order they are forked.
  method CreateProcess(imgs: Images, roots: Images, x: Image, parent: Parent) returns (log: seq<Spawn>)
    requires Family(imgs) && x in imgs && Among(roots, imgs)
    ensures log == Create(imgs, roots, x, parent)
    ensures roots == [] ==> Ordered(imgs, log) && forall y :: y in imgs ==> Made(imgs, x, log, y)
    ensures Covers(imgs, roots) && x in roots ==> Ordered(imgs, log) && StartOrdered(imgs, roots, x, log)
    decreases |roots|, MaxBorn(imgs) - x.born, 1, 0
  {
    var children := ForkLoop(imgs, x, false);
    var others := ForkRoots(imgs, roots, x);
    var session := ForkLoop(imgs, x, true);
    log := [Spawn(x, parent)] + children + others + session;
    CreateOrdered(imgs, roots, x, parent);
    if roots == [] {
      forall y | y in imgs ensures Made(imgs, x, log, y) {
        CreateCount(imgs, x, parent, y);
      }
    }
  }

  lemma Regroup(a: seq<Spawn>, b: seq<Spawn>, c: seq<Spawn>)
    ensures a + b + c == a + (b + c)
  {
  }

  lemma RootStep(imgs: Images, roots: Images, x: Image, i: nat, log: seq<Spawn>)
    requires Family(imgs) && x in imgs && Among(roots, imgs) && i < |roots|
    ensures log + RootLoop(imgs, roots, x, i) == log + ForkedRoot(imgs, roots, x, i) + RootLoop(imgs, roots, x, i + 1)
  {
    RootLoopUnfold(imgs, roots, x, i);
    Regroup(log, ForkedRoot(imgs, roots, x, i), RootLoop(imgs, roots, x, i + 1));
  }

  lemma RootLoopEnds(imgs: Images, roots: Images, x: Image, log: seq<Spawn>)
    requires Family(imgs) && x in imgs && Among(roots, imgs)
    ensures log + RootLoop(imgs, roots, x, |roots|) == log
  {
  }

  lemma ForkStep(imgs: Images, x: Image, second: bool, i: nat, log: seq<Spawn>)
    requires Family(imgs) && x in imgs && i < |imgs|
    ensures log + Loop(imgs, x, second, i) == log + Forked(imgs, x, second, i) + Loop(imgs, x, second, i + 1)
  {
    LoopUnfold(imgs, x, second, i);
    Regroup(log, Forked(imgs, x, second, i), Loop(imgs, x, second, i + 1));
  }

  method ForkRoots(imgs: Images, roots: Images, x: Image) returns (log: seq<Spawn>)
    requires Family(imgs) && x in imgs && Among(roots, imgs)
    ensures log == RootLoop(imgs, roots, x, 0)
    decreases |roots|, MaxBorn(imgs) - x.born, 0, 1
  {
    log := [];
    var i := 0;
    ghost var whole := RootLoop(imgs, roots, x, i);
    Regroup([], [], whole);
    while i < |roots|
      invariant i <= |roots|
      invariant whole == log + RootLoop(imgs, roots, x, i)
    {
      log := ForkRoot(imgs, roots, x, i, log);
      i := i + 1;
    }
    RootLoopEnds(imgs, roots, x, log);
  }

  // One turn of that loop.
  method ForkRoot(imgs: Images, roots: Images, x: Image, i: nat, before: seq<Spawn>) returns (log: seq<Spawn>)
    requires Family(imgs) && x in imgs && Among(roots, imgs) && i < |roots|
    ensures log + RootLoop(imgs, roots, x, i + 1) == before + RootLoop(imgs, roots, x, i)
    decreases |roots|, MaxBorn(imgs) - x.born, 0, 0
  {
    var forks := [];
    if roots[i] != x {
      forks := CreateProcess(imgs, [], roots[i], Adopted);
    }
    log := before + forks;
    RootStep(imgs, roots, x, i, before);
  }

  method ForkLoop(imgs: Images, x: Image, second: bool) returns (log: seq<Spawn>)
    requires Family(imgs) && x in imgs
    ensures log == Loop(imgs, x, second, 0)
    decreases 0, MaxBorn(imgs) - x.born, 0, 1
  {
    log := [];
    var i := 0;
    ghost var whole := Loop(imgs, x, second, 0);
    while i < |imgs|
      invariant i <= |imgs|
      invariant whole == log + Loop(imgs, x, second, i)
    {
      log := ForkOne(imgs, x, second, i, log);
      i := i + 1;
    }
    assert log + [] == log;
  }

  method ForkOne(imgs: Images, x: Image, second: bool, i: nat, before: seq<Spawn>) returns (log: seq<Spawn>)
    requires Family(imgs) && x in imgs && i < |imgs|
    ensures log + Loop(imgs, x, second, i + 1) == before + Loop(imgs, x, second, i)
    decreases 0, MaxBorn(imgs) - x.born, 0, 0
  {
    var forks := [];
    if Chosen(second, x, imgs[i]) {
      Younger(imgs, x, imgs[i]);
      forks := CreateProcess(imgs, [], imgs[i], ParentFrom(x, imgs[i]));
    }
    log := before + forks;
    ForkStep(imgs, x, second, i, before);
  }

  method FindRoots(imgs: Images) returns (roots: Images)
    requires Distinct(imgs)
    ensures roots == Roots(imgs)
  {
    roots := [];
    var i := 0;
    while i < |imgs|
      invariant i <= |imgs| && roots == Filtered(imgs[..i], imgs)
    {
      var t := imgs[i];
      if t.root {
        var j := 0;
        while j < |imgs|
          invariant j <= |imgs| && forall k :: 0 <= k < j ==> imgs[k] == t || t.sid != imgs[k].pid
        {
          if imgs[j] != t && t.sid == imgs[j].pid {
            break;
          }
          j := j + 1;
        }
        if j == |imgs| {
          roots := roots + [t];
        }
        assert j == |imgs| <==> Independent(imgs, t);
      }
      assert imgs[..i + 1][..|imgs[..i + 1]| - 1] == imgs[..i];
      i := i + 1;
    }
    assert imgs[..|imgs|] == imgs;
  }

  // False stands for the assertion that some root is independent; it never fails.
  method ProcessCkptImages(imgs: Images) returns (ok: bool, log: seq<Spawn>)
    requires Family(imgs) && imgs != []
    ensures ok && forall y :: y in imgs ==> Count(log, y) == 1
    ensures log != [] && Starter(Roots(imgs), log[0].image) && log[0].parent == StarterParent(Roots(imgs))
    ensures AllRight(imgs, log[1..]) && InOrder(imgs, log[0].image, log)
  {
    var roots := FindRoots(imgs);
    RootsCover(imgs);
    RootExists(imgs);
    if roots == [] {
      return false, [];
    }
    var i, found := 0, false;
    while i < |roots|
      invariant i <= |roots| && !found && forall k :: 0 <= k < i ==> roots[k].orphan
    {
      if !roots[i].orphan {
        found := true;
        break;
      }
      i := i + 1;
    }
    var x := if found then roots[i] else roots[0];
    assert AllOrphans(roots) <==> !found by { if found { assert roots[i] in roots; } }
    ExactlyOnce(imgs, x);
    ForkOrder(imgs, x, StarterParent(roots));
    log := CreateProcess(imgs, roots, x, if found then Launcher else Adopted);
    ok := true;
  }
}

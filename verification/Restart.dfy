/**
 Rebuilding the process forest at restart: which process forks which, in what order, and
 under what parent each checkpoint image comes back.

 `targets` is the sequence of images in map order.  fork() is modelled by its effect on the
 forest: a forked process runs createProcess for its image, and a grandchild whose
 intermediate parent exits is adopted by init.
 */
module Restart {

  // born is the time the process was created before the checkpoint; the code never reads it.
  datatype Image = Image(upid: nat, uppid: nat, pid: nat, sid: nat, root: bool, orphan: bool, born: nat)

  type Images = seq<Image>

  // What a restored process has for a parent: whoever ran dmtcp_restart, init, or a restored process.
  datatype Parent = Launcher | Adopted | Restored(upid: nat)

  datatype Spawn = Spawn(image: Image, parent: Parent)

  // Distinct processes; a non-root's parent is among the images and a root's is not; parents
  // and session leaders are older than their dependants.
  ghost predicate Family(imgs: Images) {
    && (forall i, j :: 0 <= i < j < |imgs| ==> imgs[i].upid != imgs[j].upid && imgs[i].pid != imgs[j].pid)
    && (forall t {:trigger Parented(imgs, t)} :: t in imgs && !t.root ==> Parented(imgs, t))
    && (forall t, p :: t in imgs && p in imgs && p.upid == t.uppid ==> !t.root && p.born < t.born)
    && (forall t, l :: t in imgs && l in imgs && l != t && l.pid == t.sid ==> l.born < t.born)
  }

  ghost predicate Parented(imgs: Images, t: Image) {
    exists p :: p in imgs && p.upid == t.uppid
  }

  function MaxBorn(imgs: Images): (m: nat)
    ensures forall t :: t in imgs ==> t.born <= m
  {
    if imgs == [] then 0
    else var m := MaxBorn(imgs[1..]); if imgs[0].born > m then imgs[0].born else m
  }

  lemma SameImage(imgs: Images, a: Image, b: Image)
    requires Family(imgs) && a in imgs && b in imgs
    ensures a.upid == b.upid ==> a == b
    ensures a.pid == b.pid ==> a == b
  {
  }

  // ----- createProcess -----

  // The first loop over the targets.
  predicate First(x: Image, t: Image) {
    t.upid != x.upid && t.uppid == x.upid && t.sid != x.pid
  }

  // The last loop: targets in the session of x.
  predicate Second(x: Image, t: Image) {
    t.upid != x.upid && t.sid == x.pid && (t.uppid == x.upid || t.root)
  }

  function ParentFrom(x: Image, t: Image): Parent {
    if t.uppid == x.upid then Restored(x.upid) else Adopted
  }

  lemma Younger(imgs: Images, x: Image, t: Image)
    requires Family(imgs) && x in imgs && t in imgs && (First(x, t) || Second(x, t))
    ensures x.born < t.born
  {
  }

  // Everything forked, directly or not, by the process that becomes x; roots is empty unless x is the
  // process that also creates the independent roots.
  ghost function Create(imgs: Images, roots: Images, x: Image, parent: Parent): seq<Spawn>
    requires Family(imgs) && x in imgs && Among(roots, imgs)
    decreases |roots|, MaxBorn(imgs) - x.born, 1, 0
  {
    [Spawn(x, parent)] + Loop(imgs, x, false, 0) + RootLoop(imgs, roots, x, 0) + Loop(imgs, x, true, 0)
  }

  predicate Chosen(second: bool, x: Image, t: Image) {
    if second then Second(x, t) else First(x, t)
  }

  ghost function Loop(imgs: Images, x: Image, second: bool, i: nat): seq<Spawn>
    requires Family(imgs) && x in imgs && i <= |imgs|
    decreases 0, MaxBorn(imgs) - x.born, 0, |imgs| - i
  {
    if i == |imgs| then []
    else
      var t := imgs[i];
      (if Chosen(second, x, t) then Younger(imgs, x, t); Create(imgs, [], t, ParentFrom(x, t)) else [])
      + Loop(imgs, x, second, i + 1)
  }

  // The other independent roots.
  ghost function RootLoop(imgs: Images, roots: Images, x: Image, i: nat): seq<Spawn>
    requires Family(imgs) && x in imgs && Among(roots, imgs) && i <= |roots|
    decreases |roots|, MaxBorn(imgs) - x.born, 0, |roots| - i
  {
    if i == |roots| then []
    else (if roots[i] != x then Create(imgs, [], roots[i], Adopted) else []) + RootLoop(imgs, roots, x, i + 1)
  }

  predicate Among(roots: Images, imgs: Images) {
    forall i :: 0 <= i < |roots| ==> roots[i] in imgs
  }

  // ----- independent roots -----

  predicate Independent(imgs: Images, t: Image) {
    t.root && forall l :: l in imgs && l != t ==> t.sid != l.pid
  }

  function Filtered(imgs: Images, all: Images): (r: Images)
    ensures forall t :: t in r <==> t in imgs && Independent(all, t)
  {
    if imgs == [] then []
    else
      var rest := Filtered(imgs[..|imgs| - 1], all);
      var t := imgs[|imgs| - 1];
      if Independent(all, t) then rest + [t] else rest
  }

  function Roots(imgs: Images): Images {
    Filtered(imgs, imgs)
  }

  // ----- who makes whom -----

  // x is to make t again: its child, or a root of its session.
  predicate Makes(x: Image, t: Image) {
    t.upid != x.upid && (t.uppid == x.upid || (t.root && t.sid == x.pid))
  }

  lemma OneMaker(imgs: Images, a: Image, b: Image, t: Image)
    requires Family(imgs) && a in imgs && b in imgs && t in imgs && Makes(a, t) && Makes(b, t)
    ensures a == b
  {
    SameImage(imgs, a, b);
  }

  // y comes from x through a chain of makers.
  ghost predicate Under(imgs: Images, x: Image, y: Image)
    decreases y.born
  {
    y == x || exists c :: c in imgs && c.born < y.born && Makes(c, y) && Under(imgs, x, c)
  }

  lemma {:induction false} UnderOlder(imgs: Images, x: Image, y: Image)
    requires Under(imgs, x, y)
    ensures x.born <= y.born
    decreases y.born
  {
    if y != x {
      var c :| c in imgs && c.born < y.born && Makes(c, y) && Under(imgs, x, c);
      UnderOlder(imgs, x, c);
    }
  }

  lemma UnderMaker(imgs: Images, x: Image, y: Image, c: Image)
    requires Family(imgs) && y in imgs && c in imgs && Makes(c, y) && Under(imgs, x, y) && x != y
    ensures Under(imgs, x, c)
  {
    var d :| d in imgs && d.born < y.born && Makes(d, y) && Under(imgs, x, d);
    OneMaker(imgs, c, d, y);
  }

  // The makers of y form one line.
  lemma {:induction false} Comparable(imgs: Images, a: Image, b: Image, y: Image)
    requires Family(imgs) && a in imgs && b in imgs && y in imgs && Under(imgs, a, y) && Under(imgs, b, y)
    ensures Under(imgs, a, b) || Under(imgs, b, a)
    decreases y.born
  {
    if a != y && b != y {
      var c :| c in imgs && c.born < y.born && Makes(c, y) && Under(imgs, a, c);
      UnderMaker(imgs, b, y, c);
      Comparable(imgs, a, b, c);
    }
  }

  // At most one of the processes made by x leads to y.
  lemma OneBranch(imgs: Images, x: Image, a: Image, b: Image, y: Image)
    requires Family(imgs) && x in imgs && a in imgs && b in imgs && y in imgs
    requires Makes(x, a) && Makes(x, b) && Under(imgs, a, y) && Under(imgs, b, y)
    ensures a == b
  {
    if a != b {
      Comparable(imgs, a, b, y);
      Younger(imgs, x, a);
      Younger(imgs, x, b);
      if Under(imgs, a, b) {
        UnderMaker(imgs, a, b, x);
        UnderOlder(imgs, a, x);
      } else {
        UnderMaker(imgs, b, a, x);
        UnderOlder(imgs, b, x);
      }
    }
  }

  // Nothing in the forest makes t.
  ghost predicate Topmost(imgs: Images, t: Image) {
    t in imgs && t.root && forall c :: c in imgs ==> !Makes(c, t)
  }

  // At most one topmost image leads to y.
  lemma OneRoot(imgs: Images, a: Image, b: Image, y: Image)
    requires Family(imgs) && y in imgs && Topmost(imgs, a) && Topmost(imgs, b) && Under(imgs, a, y) && Under(imgs, b, y)
    ensures a == b
  {
    Comparable(imgs, a, b, y);
  }

  lemma {:induction false} Branch(imgs: Images, x: Image, y: Image) returns (a: Image)
    requires Family(imgs) && x in imgs && y in imgs && Under(imgs, x, y) && x != y
    ensures a in imgs && Makes(x, a) && Under(imgs, a, y)
    decreases y.born
  {
    var c :| c in imgs && c.born < y.born && Makes(c, y) && Under(imgs, x, c);
    if c == x {
      a := y;
    } else {
      a := Branch(imgs, x, c);
    }
  }

  lemma BranchUnder(imgs: Images, x: Image, a: Image, y: Image)
    requires Family(imgs) && x in imgs && a in imgs && y in imgs && Makes(x, a) && Under(imgs, a, y)
    ensures Under(imgs, x, y) && y != x
    decreases y.born
  {
    Younger(imgs, x, a);
    UnderOlder(imgs, a, y);
    if y == a {
      assert Under(imgs, x, x);
    } else {
      var c :| c in imgs && c.born < y.born && Makes(c, y) && Under(imgs, a, c);
      BranchUnder(imgs, x, a, c);
    }
  }

  // Every image hangs under an independent root.
  lemma {:induction false} TopRoot(imgs: Images, y: Image) returns (r: Image)
    requires Family(imgs) && y in imgs
    ensures r in imgs && Independent(imgs, r) && Under(imgs, r, y)
    decreases y.born
  {
    if Independent(imgs, y) {
      r := y;
    } else {
      var c: Image;
      if y.root {
        c :| c in imgs && c != y && y.sid == c.pid;
        SameImage(imgs, c, y);
      } else {
        assert Parented(imgs, y);
        c :| c in imgs && c.upid == y.uppid;
      }
      assert Makes(c, y);
      r := TopRoot(imgs, c);
    }
  }

  // ----- exactly once -----

  function Count(log: seq<Spawn>, y: Image): nat {
    if log == [] then 0 else (if log[0].image == y then 1 else 0) + Count(log[1..], y)
  }

  lemma {:induction false} CountAppend(a: seq<Spawn>, b: seq<Spawn>, y: Image)
    ensures Count(a + b, y) == Count(a, y) + Count(b, y)
    decreases a
  {
    if a == [] {
      assert a + b == b;
    } else {
      CountAppend(a[1..], b, y);
      assert (a + b)[1..] == a[1..] + b;
    }
  }

  // The rest of a loop, from index i, leads to y.
  ghost predicate Leads(imgs: Images, x: Image, second: bool, i: nat, y: Image) {
    exists j :: i <= j < |imgs| && Chosen(second, x, imgs[j]) && Under(imgs, imgs[j], y)
  }

  lemma LeadsStep(imgs: Images, x: Image, second: bool, i: nat, y: Image)
    requires Family(imgs) && x in imgs && y in imgs && i < |imgs|
    ensures Leads(imgs, x, second, i, y) <==>
              (Chosen(second, x, imgs[i]) && Under(imgs, imgs[i], y)) || Leads(imgs, x, second, i + 1, y)
    ensures Chosen(second, x, imgs[i]) && Under(imgs, imgs[i], y) ==> !Leads(imgs, x, second, i + 1, y)
  {
    forall j | i < j < |imgs| && Chosen(second, x, imgs[j]) && Under(imgs, imgs[j], y)
               && Chosen(second, x, imgs[i]) && Under(imgs, imgs[i], y)
      ensures false
    {
      OneBranch(imgs, x, imgs[i], imgs[j], y);
    }
  }

  ghost function Forked(imgs: Images, x: Image, second: bool, i: nat): seq<Spawn>
    requires Family(imgs) && x in imgs && i < |imgs|
  {
    if Chosen(second, x, imgs[i]) then Create(imgs, [], imgs[i], ParentFrom(x, imgs[i])) else []
  }

  lemma LoopUnfold(imgs: Images, x: Image, second: bool, i: nat)
    requires Family(imgs) && x in imgs && i < |imgs|
    ensures Loop(imgs, x, second, i) == Forked(imgs, x, second, i) + Loop(imgs, x, second, i + 1)
  {
  }

  lemma {:induction false} LoopCount(imgs: Images, x: Image, second: bool, i: nat, y: Image)
    requires Family(imgs) && x in imgs && y in imgs && i <= |imgs|
    ensures Count(Loop(imgs, x, second, i), y) == if Leads(imgs, x, second, i, y) then 1 else 0
    decreases MaxBorn(imgs) - x.born, 0, |imgs| - i
  {
    if i < |imgs| {
      LeadsStep(imgs, x, second, i, y);
      LoopUnfold(imgs, x, second, i);
      CountAppend(Forked(imgs, x, second, i), Loop(imgs, x, second, i + 1), y);
      LoopCount(imgs, x, second, i + 1, y);
      if Chosen(second, x, imgs[i]) {
        Younger(imgs, x, imgs[i]);
        CreateCount(imgs, imgs[i], ParentFrom(x, imgs[i]), y);
      }
    }
  }

  lemma {:induction false} CreateCount(imgs: Images, x: Image, parent: Parent, y: Image)
    requires Family(imgs) && x in imgs && y in imgs
    ensures Count(Create(imgs, [], x, parent), y) == if Under(imgs, x, y) then 1 else 0
    decreases MaxBorn(imgs) - x.born, 1, 0
  {
    var one, two := Loop(imgs, x, false, 0), Loop(imgs, x, true, 0);
    LoopCount(imgs, x, false, 0, y);
    LoopCount(imgs, x, true, 0, y);
    CountAppend([Spawn(x, parent)], one, y);
    CountAppend([Spawn(x, parent)] + one, [], y);
    CountAppend([Spawn(x, parent)] + one + [], two, y);
    LeadsOnce(imgs, x, y);
  }

  // The two loops of x together lead to y exactly when y is strictly under x, and never both.
  lemma LeadsOnce(imgs: Images, x: Image, y: Image)
    requires Family(imgs) && x in imgs && y in imgs
    ensures !(Leads(imgs, x, false, 0, y) && Leads(imgs, x, true, 0, y))
    ensures Leads(imgs, x, false, 0, y) || Leads(imgs, x, true, 0, y) <==> y != x && Under(imgs, x, y)
  {
    if y != x && Under(imgs, x, y) {
      var a := Branch(imgs, x, y);
      var j :| 0 <= j < |imgs| && imgs[j] == a;
    }
    forall i | 0 <= i < |imgs| && Makes(x, imgs[i]) && Under(imgs, imgs[i], y) ensures y != x && Under(imgs, x, y) {
      BranchUnder(imgs, x, imgs[i], y);
    }
    forall i, j | 0 <= i < |imgs| && First(x, imgs[i]) && Under(imgs, imgs[i], y)
               && 0 <= j < |imgs| && Second(x, imgs[j]) && Under(imgs, imgs[j], y)
      ensures false
    {
      OneBranch(imgs, x, imgs[i], imgs[j], y);
    }
  }

  // ----- the whole forest -----

  predicate Distinct(imgs: Images) {
    forall i, j :: 0 <= i < j < |imgs| ==> imgs[i] != imgs[j]
  }

  lemma {:induction false} FilteredDistinct(imgs: Images, all: Images)
    requires Distinct(imgs)
    ensures Distinct(Filtered(imgs, all))
    decreases imgs
  {
    if imgs != [] {
      FilteredDistinct(imgs[..|imgs| - 1], all);
    }
  }

  // The independent roots, each once, all topmost, and every image under one of them.
  ghost predicate Covers(imgs: Images, roots: Images) {
    && Distinct(roots) && Among(roots, imgs)
    && (forall i :: 0 <= i < |roots| ==> Topmost(imgs, roots[i]))
    && (forall y {:trigger Covered(imgs, roots, y)} :: y in imgs ==> Covered(imgs, roots, y))
  }

  ghost predicate Covered(imgs: Images, roots: Images, y: Image) {
    exists i :: 0 <= i < |roots| && Under(imgs, roots[i], y)
  }

  lemma RootsCover(imgs: Images)
    requires Family(imgs)
    ensures Covers(imgs, Roots(imgs))
  {
    var roots := Roots(imgs);
    FilteredDistinct(imgs, imgs);
    forall i | 0 <= i < |roots| ensures Topmost(imgs, roots[i]) {
      assert roots[i] in roots;
    }
    forall y | y in imgs ensures Covered(imgs, roots, y) {
      var r := TopRoot(imgs, y);
      assert r in roots;
    }
  }

  ghost predicate RootLeads(imgs: Images, roots: Images, x: Image, i: nat, y: Image) {
    exists j :: i <= j < |roots| && roots[j] != x && Under(imgs, roots[j], y)
  }

  lemma RootLeadsStep(imgs: Images, roots: Images, x: Image, i: nat, y: Image)
    requires Family(imgs) && Covers(imgs, roots) && y in imgs && i < |roots|
    ensures RootLeads(imgs, roots, x, i, y)
        <==> (roots[i] != x && Under(imgs, roots[i], y)) || RootLeads(imgs, roots, x, i + 1, y)
    ensures Under(imgs, roots[i], y) ==> !RootLeads(imgs, roots, x, i + 1, y)
  {
    forall j | i < j < |roots| && Under(imgs, roots[i], y) && Under(imgs, roots[j], y) ensures false {
      OneRoot(imgs, roots[i], roots[j], y);
    }
  }

  ghost function ForkedRoot(imgs: Images, roots: Images, x: Image, i: nat): seq<Spawn>
    requires Family(imgs) && x in imgs && Among(roots, imgs) && i < |roots|
  {
    if roots[i] != x then Create(imgs, [], roots[i], Adopted) else []
  }

  lemma RootLoopUnfold(imgs: Images, roots: Images, x: Image, i: nat)
    requires Family(imgs) && x in imgs && Among(roots, imgs) && i < |roots|
    ensures RootLoop(imgs, roots, x, i) == ForkedRoot(imgs, roots, x, i) + RootLoop(imgs, roots, x, i + 1)
  {
  }

  lemma {:induction false} RootLoopCount(imgs: Images, roots: Images, x: Image, i: nat, y: Image)
    requires Family(imgs) && Covers(imgs, roots) && x in imgs && y in imgs && i <= |roots|
    ensures Count(RootLoop(imgs, roots, x, i), y) == if RootLeads(imgs, roots, x, i, y) then 1 else 0
    decreases |roots| - i
  {
    if i < |roots| {
      RootLeadsStep(imgs, roots, x, i, y);
      RootLoopCount(imgs, roots, x, i + 1, y);
      RootLoopUnfold(imgs, roots, x, i);
      CountAppend(ForkedRoot(imgs, roots, x, i), RootLoop(imgs, roots, x, i + 1), y);
      ForkedCount(imgs, roots, x, i, y);
    }
  }

  lemma ForkedCount(imgs: Images, roots: Images, x: Image, i: nat, y: Image)
    requires Family(imgs) && x in imgs && y in imgs && Among(roots, imgs) && i < |roots|
    ensures Count(ForkedRoot(imgs, roots, x, i), y) == if roots[i] != x && Under(imgs, roots[i], y) then 1 else 0
  {
    CreateCount(imgs, roots[i], Adopted, y);
  }

  lemma ForestCount(imgs: Images, roots: Images, x: Image, parent: Parent, y: Image)
    requires Family(imgs) && Covers(imgs, roots) && x in roots && x in imgs && y in imgs
    ensures Count(Create(imgs, roots, x, parent), y) == 1
  {
    var one, other, two := Loop(imgs, x, false, 0), RootLoop(imgs, roots, x, 0), Loop(imgs, x, true, 0);
    LoopCount(imgs, x, false, 0, y);
    LoopCount(imgs, x, true, 0, y);
    RootLoopCount(imgs, roots, x, 0, y);
    CountAppend([Spawn(x, parent)], one, y);
    CountAppend([Spawn(x, parent)] + one, other, y);
    CountAppend([Spawn(x, parent)] + one + other, two, y);
    LeadsOnce(imgs, x, y);
    OneTop(imgs, roots, x, y);
  }

  lemma OneTop(imgs: Images, roots: Images, x: Image, y: Image)
    requires Family(imgs) && Covers(imgs, roots) && x in roots && y in imgs
    ensures RootLeads(imgs, roots, x, 0, y) <==> !Under(imgs, x, y)
  {
    var k :| 0 <= k < |roots| && roots[k] == x;
    assert Covered(imgs, roots, y);
    var j :| 0 <= j < |roots| && Under(imgs, roots[j], y);
    if Under(imgs, x, y) {
      forall i | 0 <= i < |roots| && Under(imgs, roots[i], y) ensures roots[i] == x {
        OneRoot(imgs, roots[i], x, y);
      }
    }
  }

  // ----- under the right parent -----

  // A non-root comes back as a child of its old parent; a root, other than the first process, is adopted.
  predicate Right(s: Spawn) {
    s.parent == if s.image.root then Adopted else Restored(s.image.uppid)
  }

  ghost predicate AllRight(imgs: Images, log: seq<Spawn>) {
    forall s :: s in log ==> s.image in imgs && Right(s)
  }

  lemma RightAppend(imgs: Images, a: seq<Spawn>, b: seq<Spawn>)
    requires AllRight(imgs, a) && AllRight(imgs, b)
    ensures AllRight(imgs, a + b)
  {
  }

  lemma {:induction false} LoopRight(imgs: Images, x: Image, second: bool, i: nat)
    requires Family(imgs) && x in imgs && i <= |imgs|
    ensures AllRight(imgs, Loop(imgs, x, second, i))
    decreases MaxBorn(imgs) - x.born, 0, |imgs| - i
  {
    if i < |imgs| {
      var t := imgs[i];
      LoopUnfold(imgs, x, second, i);
      LoopRight(imgs, x, second, i + 1);
      if Chosen(second, x, t) {
        Younger(imgs, x, t);
        CreateRight(imgs, t, ParentFrom(x, t));
      }
      RightAppend(imgs, Forked(imgs, x, second, i), Loop(imgs, x, second, i + 1));
    }
  }

  lemma {:induction false} CreateRight(imgs: Images, x: Image, parent: Parent)
    requires Family(imgs) && x in imgs && Right(Spawn(x, parent))
    ensures AllRight(imgs, Create(imgs, [], x, parent))
    decreases MaxBorn(imgs) - x.born, 1, 0
  {
    var one, two := Loop(imgs, x, false, 0), Loop(imgs, x, true, 0);
    LoopRight(imgs, x, false, 0);
    LoopRight(imgs, x, true, 0);
    RightAppend(imgs, [Spawn(x, parent)], one);
    RightAppend(imgs, [Spawn(x, parent)] + one, []);
    RightAppend(imgs, [Spawn(x, parent)] + one + [], two);
  }

  lemma {:induction false} RootLoopRight(imgs: Images, roots: Images, x: Image, i: nat)
    requires Family(imgs) && Covers(imgs, roots) && x in imgs && i <= |roots|
    ensures AllRight(imgs, RootLoop(imgs, roots, x, i))
    decreases |roots| - i
  {
    if i < |roots| {
      RootLoopRight(imgs, roots, x, i + 1);
      CreateRight(imgs, roots[i], Adopted);
      RightAppend(imgs, ForkedRoot(imgs, roots, x, i), RootLoop(imgs, roots, x, i + 1));
    }
  }

  lemma ForestRight(imgs: Images, roots: Images, x: Image, parent: Parent)
    requires Family(imgs) && Covers(imgs, roots) && x in imgs
    ensures var log := Create(imgs, roots, x, parent); log[0] == Spawn(x, parent) && AllRight(imgs, log[1..])
  {
    var one, other, two := Loop(imgs, x, false, 0), RootLoop(imgs, roots, x, 0), Loop(imgs, x, true, 0);
    LoopRight(imgs, x, false, 0);
    RootLoopRight(imgs, roots, x, 0);
    LoopRight(imgs, x, true, 0);
    RightAppend(imgs, one, other);
    RightAppend(imgs, one + other, two);
    assert Create(imgs, roots, x, parent)[1..] == one + other + two;
  }

  // ----- processCkptImages -----

  predicate AllOrphans(roots: Images) {
    forall t :: t in roots ==> t.orphan
  }

  // x is the first independent root with a parent, or the first of all if there is none such.
  predicate Starter(roots: Images, x: Image) {
    if AllOrphans(roots) then roots != [] && x == roots[0]
    else exists k :: 0 <= k < |roots| && x == roots[k] && !x.orphan && forall i :: 0 <= i < k ==> roots[i].orphan
  }

  // dmtcp_restart itself becomes the starter, unless it has to orphan it.
  function StarterParent(roots: Images): Parent {
    if AllOrphans(roots) then Adopted else Launcher
  }

  // An independent root always exists.
  lemma RootExists(imgs: Images)
    requires Family(imgs) && imgs != []
    ensures Roots(imgs) != []
  {
    RootsCover(imgs);
    assert Covered(imgs, Roots(imgs), imgs[0]);
  }

  // Without the age order it need not: two roots in each other's session.
  lemma SessionCycleHasNoRoot()
    ensures var imgs := [Image(1, 8, 1, 2, true, false, 0), Image(2, 9, 2, 1, true, false, 0)];
            forall t :: t in imgs ==> !Independent(imgs, t)
  {
    var a, b := Image(1, 8, 1, 2, true, false, 0), Image(2, 9, 2, 1, true, false, 0);
    assert !Independent([a, b], a) by { assert [a, b][1] == b; }
    assert !Independent([a, b], b) by { assert [a, b][0] == a; }
  }

  // Every image comes back exactly once, nothing else does, and each process but the first has the parent
  // it had before, or init if that parent was not checkpointed.
  lemma ExactlyOnce(imgs: Images, x: Image)
    requires Family(imgs) && Starter(Roots(imgs), x)
    ensures Covers(imgs, Roots(imgs)) && x in imgs
    ensures var log := Create(imgs, Roots(imgs), x, StarterParent(Roots(imgs)));
            && (forall y :: y in imgs ==> Count(log, y) == 1)
            && log[0] == Spawn(x, StarterParent(Roots(imgs))) && AllRight(imgs, log[1..])
  {
    var roots := Roots(imgs);
    RootsCover(imgs);
    var parent := StarterParent(roots);
    assert x in roots;
    ForestRight(imgs, roots, x, parent);
    forall y | y in imgs ensures Count(Create(imgs, roots, x, parent), y) == 1 {
      ForestCount(imgs, roots, x, parent, y);
    }
  }
}

/**
 Why Completion.dfy keeps joins out of the window between DMT:WriteCkpt and the script: a run from the
 start in which a worker forked there waits for ever, and no checkpoint can be started any more.
 */
module StuckJoin {
  import opened CoordinatorState
  import BarrierBookkeeping
  import opened CheckpointProtocol
  import opened OneCheckpoint
  import opened NeverStuck
  import opened JoinWindow
  import ImpoliteRuns

  // Nobody has anything to do, worker 2 waits at DMT:SUSPEND for worker 1, which runs, and a request is refused.
  ghost predicate Stuck(g: Config, s: System) {
    && Wired(g, s) && Quiet(s) && s.w.Keys == {1, 2} && AtEase(s.w[1]) && s.w[2].pc == AtBarrier(0, false)
    && Step(g, s, Request) == s
  }

  // Worker 1 says that it runs.
  lemma Resumed(g: Config, s: System, cl: Client, cl2: Client, p: Claim) returns (t: System)
    requires g.Valid() && s.stage == 0 && s.c.clients == [cl, cl2] && cl.id == 1 && cl2.id == 2 && Always(g, s, p)
    requires s.w == map[1 := Worker(Running, [Resuming(RUNNING)], []), 2 := Worker(Running, [], [DoCheckpoint])]
    ensures Always(g, t, p)
    ensures t == s.(c := s.c.(clients := [cl.(state := RUNNING, barrier := ""), cl2]),
                    w := map[1 := Worker(Running, [], []), 2 := Worker(Running, [], [DoCheckpoint])])
  {
    var ran := cl.(state := RUNNING, barrier := "");
    ImpoliteRuns.Pairs(cl, cl2, ran);
    TwoWired(g, s, cl, cl2);
    assert s.w[1].toCoord[0] == Resuming(RUNNING) && s.w[1].toCoord[1..] == [];
    var c := s.c.(clients := [ran, cl2]);
    assert OnData(s.c, 1, Resuming(RUNNING)) == Ok(c, []);
    t := Taken(s, 1).(c := c);
    ImpoliteRuns.Pairs(ran, cl2, ran);
    AbsorbNothing(g, Taken(s, 1), c);
    assert t.w == map[1 := Worker(Running, [], []), 2 := Worker(Running, [], [DoCheckpoint])];
    AlwaysStep(g, s, Deliver(1), p);
  }

  lemma TwoWired(g: Config, s: System, a: Client, b: Client)
    requires g.Valid() && s.stage < |g.script| && s.c.clients == [a, b] && a.id == 1 && b.id == 2 && s.w.Keys == {1, 2}
    ensures Wired(g, s)
  {
    ImpoliteRuns.Pairs(a, b, a);
    assert s.c.clients[0] == a && s.c.clients[1] == b;
  }

  // Worker 2 follows its request and announces DMT:SUSPEND.
  lemma FollowsAlone(g: Config, s: System, a: Client, b: Client, p: Claim) returns (t: System)
    requires g.Valid() && s.stage == 0 && s.c.clients == [a, b] && a.id == 1 && b.id == 2 && Always(g, s, p)
    requires s.w == map[1 := Worker(Running, [], []), 2 := Worker(Running, [], [DoCheckpoint])]
    ensures Always(g, t, p)
    ensures t == s.(w := map[1 := Worker(Running, [], []),
                             2 := Worker(AtBarrier(0, false), [Barrier(PRESUSPEND, g.script[0])], [])])
  {
    var ckpt := CkptFile("", "", "");
    TwoWired(g, s, a, b);
    AlwaysStep(g, s, Receive(2), p);
    assert s.w[2].inbox[1..] == [];
    var s1 := s.(w := map[1 := Worker(Running, [], []), 2 := Worker(PreSuspend, [], [])]);
    assert Step(g, s, Receive(2)) == s1;
    TwoWired(g, s1, a, b);
    AlwaysStep(g, s1, Advance(2, false, ckpt), p);
    assert [] + [Barrier(PRESUSPEND, g.script[0])] == [Barrier(PRESUSPEND, g.script[0])];
    t := s.(w := map[1 := Worker(Running, [], []),
                     2 := Worker(AtBarrier(0, false), [Barrier(PRESUSPEND, g.script[0])], [])]);
    assert Step(g, s1, Advance(2, false, ckpt)) == t;
  }

  // It arrives; worker 1 is missing.
  lemma OneIsMissing(c: Coord, a: Client, b: Client, name: string)
    requires c.clients == [a, b] && a.id == 1 && b.id == 2 && a.barrier == "" && b.barrier == "" && name != ""
    requires c.currentBarrier == "" && c.atBarrier == 0
    ensures HasClient(c.clients, 2)
    ensures OnBarrier(c, 2, PRESUSPEND, name) ==
            (c.(clients := [a, b.(state := PRESUSPEND, barrier := name)], currentBarrier := name, atBarrier := 1), [])
  {
    var mid, there := b.(state := PRESUSPEND), b.(state := PRESUSPEND, barrier := name);
    ImpoliteRuns.Pairs(a, b, mid);
    ImpoliteRuns.Pairs(a, mid, there);
  }

  lemma WaitsForEver(g: Config, s: System, a: Client, b: Client, p: Claim) returns (t: System)
    requires g.Valid() && s.stage == 0 && s.c.clients == [a, b] && a.id == 1 && b.id == 2 && Always(g, s, p)
    requires s.w == map[1 := Worker(Running, [], []),
                        2 := Worker(AtBarrier(0, false), [Barrier(PRESUSPEND, g.script[0])], [])]
    requires a.barrier == "" && b.barrier == "" && s.c.currentBarrier == "" && s.c.atBarrier == 0
    ensures Always(g, t, p) && Stuck(g, t)
  {
    var name, there := g.script[0], b.(state := PRESUSPEND, barrier := g.script[0]);
    assert name != "";
    TwoWired(g, s, a, b);
    OneIsMissing(s.c, a, b, name);
    var c := OnBarrier(s.c, 2, PRESUSPEND, name).0;
    assert s.w[2].toCoord[0] == Barrier(PRESUSPEND, name) && s.w[2].toCoord[1..] == [];
    t := Taken(s, 2).(c := c);
    ImpoliteRuns.Pairs(a, there, there);
    AbsorbNothing(g, Taken(s, 2), c);
    AlwaysStep(g, s, Deliver(2), p);
    Ends(g, t, a, there);
  }

  lemma Ends(g: Config, t: System, a: Client, there: Client)
    requires g.Valid() && t.stage == 0 && t.c.clients == [a, there] && a.id == 1 && there.id == 2
    requires there.state == PRESUSPEND
    requires t.w[1 := Worker(Running, [], [])][2 := Worker(AtBarrier(0, false), [], [])] == t.w && t.w.Keys == {1, 2}
    ensures Stuck(g, t)
  {
    TwoWired(g, t, a, there);
    Refuses(g, t, there);
  }

  lemma Refuses(g: Config, t: System, there: Client)
    requires Wired(g, t) && |t.c.clients| == 2 && t.c.clients[1] == there && there.state == PRESUSPEND
    ensures Step(g, t, Request) == t
  {
    MinStateIsMinimum(t.c.clients);
    assert !MayStart(t.c);
    AbsorbNothing(g, t, t.c);
  }

  lemma SomeJoinGetsStuck(g: Config, hello: Hello)
    requires g.Valid() && g.wr + 1 == |g.script| && Launches(hello)
    ensures exists es :: IsRun(g, START, es) && Stuck(g, Final(g, START, es))
  {
    var p := Claim(true, (t: System) => !Stuck(g, t));
    if Always(g, START, p) {
      var a := CkptFile("", "", "");
      var s1, cl1 := FirstRequest(g, hello, p);
      var s2, cl2 := Suspends(g, s1, cl1, a, p);
      var s3, cl3 := Passes(g, s2, cl2, 1, g.wr + 1, a, p);
      var s4, child := ForksInWindow(g, s3, cl3, a, hello, p);
      var t := AfterFork(g, s4, cl3, child, a, p);
      AlwaysNow(g, t, p);
    }
  }

  // From the fork on.
  lemma AfterFork(g: Config, s: System, cl: Client, child: Client, a: CkptFile, p: Claim) returns (t: System)
    requires g.Valid() && s.stage == 0 && !s.aborted && s.c.clients == [cl, child] && cl.id == 1 && child.id == 2
    requires s.w == map[1 := Worker(Running, [Filename(CHECKPOINTED, false, a), Resuming(RUNNING)], []),
                        2 := Worker(Running, [], [DoCheckpoint])]
    requires cl.state == CHECKPOINTED && s.c.numRestartFilenames == 0 && s.c.numCkptWorkers == 1 && KnownShell(a.shell)
    requires s.c.currentBarrier == "" && s.c.atBarrier == 0 && child.barrier == "" && Always(g, s, p)
    ensures Always(g, t, p) && Stuck(g, t)
  {
    TwoWired(g, s, cl, child);
    ImpoliteRuns.Pairs(cl, child, child);
    assert s.w[1].toCoord == [Filename(CHECKPOINTED, false, a)] + [Resuming(RUNNING)];
    var s1 := DeliversName(g, s, cl, a, [Resuming(RUNNING)], p);
    assert s1.w == map[1 := Worker(Running, [Resuming(RUNNING)], []), 2 := Worker(Running, [], [DoCheckpoint])];
    var s2 := Resumed(g, s1, cl, child, p);
    var ran := cl.(state := RUNNING, barrier := "");
    var s3 := FollowsAlone(g, s2, ran, child, p);
    t := WaitsForEver(g, s3, ran, child, p);
  }
}

/**
 Joining between the release of DMT:WriteCkpt and the restart script.

 Whoever joins there is sent a request that the others have already followed.  This file shows
 that keeping out of that window is exactly what OneCheckpoint.dfy needs, gives runs from the
 start in which scripts and cuts go wrong, and builds them from the steps of a lone worker.
 */
module JoinWindow {
  import opened CoordinatorState
  import BarrierBookkeeping
  import opened RequestLog
  import opened CheckpointProtocol
  import opened OneCheckpoint

  // ----- runs without joins -----

  lemma {:induction false} NoJoinsOutside(g: Config, s: System, es: seq<Event>)
    requires IsRun(g, s, es) && NoJoins(es)
    ensures Outside(g, s, es)
    decreases es
  {
    if es != [] {
      NoJoinsOutside(g, Step(g, s, es[0]), es[1..]);
    }
  }

  // ----- a lone worker -----

  ghost predicate Alone(g: Config, s: System, cl: Client, w: Worker) {
    g.Valid() && s.stage < |g.script| && s.c.clients == [cl] && s.w == map[cl.id := w] && !s.aborted
  }

  lemma AloneWired(g: Config, s: System, cl: Client, w: Worker)
    requires Alone(g, s, cl, w)
    ensures Wired(g, s) && cl.id in s.w && s.w[cl.id] == w
    ensures HasClient(s.c.clients, cl.id) && Find(s.c.clients, cl.id) == cl
  {
    assert s.c.clients[0] == cl;
  }

  lemma AloneReceives(g: Config, s: System, cl: Client, w: Worker, p: Claim)
    requires Alone(g, s, cl, w) && w.inbox != [] && (w.pc.Running? || w.pc.AtBarrier?) && Always(g, s, p)
    ensures Always(g, s.(w := map[cl.id := ReceiveStep(g, w)]), p)
  {
    AloneWired(g, s, cl, w);
    assert Step(g, s, Receive(cl.id)) == s.(w := map[cl.id := ReceiveStep(g, w)]);
    AlwaysStep(g, s, Receive(cl.id), p);
  }

  lemma AloneAdvances(g: Config, s: System, cl: Client, w: Worker, ckpt: CkptFile, p: Claim)
    requires Alone(g, s, cl, w) && (w.pc.PreSuspend? || w.pc.Stopping? || w.pc.Stopped?) && KnownShell(ckpt.shell)
    requires Always(g, s, p)
    ensures Always(g, s.(w := map[cl.id := AdvanceStep(g, w, false, ckpt)]), p)
  {
    AloneWired(g, s, cl, w);
    assert Step(g, s, Advance(cl.id, false, ckpt)) == s.(w := map[cl.id := AdvanceStep(g, w, false, ckpt)]);
    AlwaysStep(g, s, Advance(cl.id, false, ckpt), p);
  }

  // The coordinator after its only client has arrived at, and been released from, a barrier.
  function Passed(c: Coord, cl: Client, state: WorkerState, name: string): Coord {
    c.(clients := [cl.(state := state, barrier := name)], prevBarrier := name, currentBarrier := "", atBarrier := 0,
       numCkptWorkers := 1, restartPending := false)
  }

  // Nobody is counted at a barrier.
  predicate Idle(c: Coord, name: string) {
    (c.currentBarrier == "" || c.currentBarrier == name) && c.atBarrier == 0 && c.numRestartPeers <= 0
  }

  lemma AloneReleased(c: Coord, cl: Client, state: WorkerState, name: string)
    requires c.clients == [cl] && Idle(c, name) && name != cl.barrier
    ensures HasClient(c.clients, cl.id)
    ensures OnBarrier(c, cl.id, state, name) == (Passed(c, cl, state, name), [ToAll(Released(name, 1))])
  {
    assert c.clients[0] == cl;
    var mid := cl.(state := state);
    assert Update(c.clients, mid) == [mid];
    assert Update([mid], mid.(barrier := name)) == [mid.(barrier := name)];
  }

  // The system after that.
  ghost function PassedAt(g: Config, s: System, cl: Client, w: Worker, state: WorkerState): System
    requires s.stage < |g.script|
  {
    var name := g.script[s.stage];
    s.(c := Passed(s.c, cl, state, name),
       w := map[cl.id := Worker(w.pc, [], w.inbox + [Released(name, 1)])],
       stage := g.Next(s.stage),
       released := if s.stage == g.wr then {cl.id} else s.released,
       wrote := s.wrote || s.stage == g.wr)
  }

  lemma AloneAbsorbs(g: Config, s: System, cl: Client, w: Worker, state: WorkerState)
    requires Alone(g, s, cl, w)
    ensures var name := g.script[s.stage];
            Absorb(g, s, Passed(s.c, cl, state, name), [ToAll(Released(name, 1))])
            == PassedAt(g, s, cl, w, state).(w := map[cl.id := w.(inbox := w.inbox + [Released(name, 1)])])
  {
    var id, c := cl.id, Passed(s.c, cl, state, g.script[s.stage]);
    assert c.clients[0].id == id;
    assert (map k | k in s.w && HasClient(c.clients, k) :: s.w[k]) == map[id := w];
  }

  lemma AloneDelivers(g: Config, s: System, cl: Client, w: Worker, state: WorkerState, p: Claim)
    requires Alone(g, s, cl, w) && w.toCoord == [Barrier(state, g.script[s.stage])]
    requires Idle(s.c, g.script[s.stage]) && cl.barrier != g.script[s.stage] && Always(g, s, p)
    ensures Always(g, PassedAt(g, s, cl, w, state), p)
  {
    var id, name := cl.id, g.script[s.stage];
    AloneWired(g, s, cl, w);
    AloneReleased(s.c, cl, state, name);
    var sent := w.(toCoord := []);
    assert w.toCoord[1..] == [];
    var s1 := s.(w := map[id := sent]);
    assert s.w[id := sent] == s1.w;
    AloneAbsorbs(g, s1, cl, sent, state);
    assert Step(g, s, Deliver(id)) == PassedAt(g, s, cl, w, state);
    AlwaysStep(g, s, Deliver(id), p);
  }

  // What the passage of barriers does not touch.
  ghost predicate SameBooks(s: System, t: System) {
    SameLog(s.c, t.c) && t.c.numRestartFilenames == s.c.numRestartFilenames && t.named == s.named
  }

  // The lone worker has passed barrier i - 1 and has its user threads stopped.
  ghost predicate StoppedAt(g: Config, s: System, cl: Client, i: nat) {
    && Alone(g, s, cl, Worker(Stopped(i, false), [], [])) && 1 <= i <= |g.script|
    && s.stage == (if i == |g.script| then 0 else i)
    && cl.barrier == g.script[i - 1] && cl.state == g.StateAt(i - 1) && Idle(s.c, "") && s.c.numCkptWorkers == 1
  }

  // Up to the announcement of DMT:SUSPEND.
  lemma Announces(g: Config, s: System, cl: Client, ckpt: CkptFile, p: Claim) returns (t: System)
    requires Alone(g, s, cl, Worker(Running, [], [DoCheckpoint])) && KnownShell(ckpt.shell) && Always(g, s, p)
    ensures Always(g, t, p)
    ensures t == s.(w := map[cl.id := Worker(AtBarrier(0, false), [Barrier(PRESUSPEND, g.script[0])], [])])
  {
    var w0, w1 := Worker(Running, [], [DoCheckpoint]), Worker(PreSuspend, [], []);
    AloneReceives(g, s, cl, w0, p);
    assert [DoCheckpoint][1..] == [];
    assert ReceiveStep(g, w0) == w1;
    var t1 := s.(w := map[cl.id := w1]);
    var w2 := Worker(AtBarrier(0, false), [Barrier(PRESUSPEND, g.script[0])], []);
    assert [] + [Barrier(PRESUSPEND, g.script[0])] == w2.toCoord;
    assert AdvanceStep(g, w1, false, ckpt) == w2;
    AloneAdvances(g, t1, cl, w1, ckpt, p);
    t := t1.(w := map[cl.id := w2]);
  }

  // Announced, delivered and released at once.
  lemma ReleasedAlone(g: Config, s: System, cl: Client, ckpt: CkptFile, p: Claim) returns (t: System)
    requires Alone(g, s, cl, Worker(Running, [], [DoCheckpoint])) && s.stage == 0 && Idle(s.c, g.script[0])
    requires cl.barrier == "" && KnownShell(ckpt.shell) && Always(g, s, p)
    ensures Always(g, t, p)
    ensures t == PassedAt(g, s, cl, Worker(AtBarrier(0, false), [], []), PRESUSPEND)
  {
    var t1 := Announces(g, s, cl, ckpt, p);
    var w1 := Worker(AtBarrier(0, false), [Barrier(PRESUSPEND, g.script[0])], []);
    AloneDelivers(g, t1, cl, w1, PRESUSPEND, p);
    t := PassedAt(g, t1, cl, w1, PRESUSPEND);
  }

  // From the request to stopped user threads.
  lemma Suspends(g: Config, s: System, cl: Client, ckpt: CkptFile, p: Claim) returns (t: System, cl': Client)
    requires Alone(g, s, cl, Worker(Running, [], [DoCheckpoint])) && s.stage == 0 && Idle(s.c, g.script[0])
    requires cl.barrier == "" && KnownShell(ckpt.shell) && Always(g, s, p)
    ensures Always(g, t, p) && StoppedAt(g, t, cl', 1) && cl'.id == cl.id
    ensures SameBooks(s, t) && t.wrote == s.wrote && t.released == s.released
  {
    var t2 := ReleasedAlone(g, s, cl, ckpt, p);
    cl' := cl.(state := PRESUSPEND, barrier := g.script[0]);
    var w2, w3 := Worker(AtBarrier(0, false), [], [Released(g.script[0], 1)]), Worker(Stopping, [], []);
    assert [] + [Released(g.script[0], 1)] == [Released(g.script[0], 1)];
    AloneReceives(g, t2, cl', w2, p);
    assert w2.inbox[1..] == [] && ReceiveStep(g, w2) == w3;
    var t3 := t2.(w := map[cl.id := w3]);
    AloneAdvances(g, t3, cl', w3, ckpt, p);
    t := t3.(w := map[cl.id := Worker(Stopped(1, false), [], [])]);
  }

  // Past one more barrier.
  lemma PassesOne(g: Config, s: System, cl: Client, i: nat, ckpt: CkptFile, p: Claim) returns (t: System, cl': Client)
    requires StoppedAt(g, s, cl, i) && i < |g.script| && i != g.wr + 1 && KnownShell(ckpt.shell) && Always(g, s, p)
    ensures Always(g, t, p) && StoppedAt(g, t, cl', i + 1) && cl'.id == cl.id && SameBooks(s, t)
    ensures t.wrote == (s.wrote || i == g.wr) && t.released == if i == g.wr then {cl.id} else s.released
  {
    var id, name, state := cl.id, g.script[i], g.StateAt(i);
    assert name != g.script[i - 1] by { assert g.Next(i - 1) == i; }
    var w0, w1 := Worker(Stopped(i, false), [], []), Worker(AtBarrier(i, false), [Barrier(state, name)], []);
    AloneAdvances(g, s, cl, w0, ckpt, p);
    assert AdvanceStep(g, w0, false, ckpt) == w1;
    var t1 := s.(w := map[id := w1]);
    AloneDelivers(g, t1, cl, w1, state, p);
    var t2 := PassedAt(g, t1, cl, w1, state);
    cl' := cl.(state := state, barrier := name);
    var w2, w3 := Worker(AtBarrier(i, false), [], [Released(name, 1)]), Worker(Stopped(i + 1, false), [], []);
    assert [] + [Released(name, 1)] == [Released(name, 1)];
    AloneReceives(g, t2, cl', w2, p);
    assert w2.inbox[1..] == [] && ReceiveStep(g, w2) == w3;
    t := t2.(w := map[id := w3]);
  }

  // All the way to the release from barrier k - 1, for any k up to DMT:WriteCkpt.
  lemma {:induction false} Passes(g: Config, s: System, cl: Client, i: nat, k: nat, ckpt: CkptFile, p: Claim)
    returns (t: System, cl': Client)
    requires StoppedAt(g, s, cl, i) && i <= k <= g.wr + 1 && KnownShell(ckpt.shell) && Always(g, s, p)
    ensures Always(g, t, p) && StoppedAt(g, t, cl', k) && cl'.id == cl.id && SameBooks(s, t)
    ensures i <= g.wr && k == g.wr + 1 ==> t.wrote && t.released == {cl.id}
    ensures k <= g.wr ==> t.wrote == s.wrote && t.released == s.released
    ensures i == k ==> t == s
    decreases k - i
  {
    if i == k {
      t, cl' := s, cl;
    } else {
      var s1, cl1 := PassesOne(g, s, cl, i, ckpt, p);
      t, cl' := Passes(g, s1, cl1, i + 1, k, ckpt, p);
    }
  }

  // The lone worker's image name.
  lemma AloneNames(g: Config, s: System, cl: Client, ckpt: CkptFile, p: Claim) returns (t: System)
    requires StoppedAt(g, s, cl, g.wr + 1) && KnownShell(ckpt.shell) && Always(g, s, p)
    ensures Always(g, t, p)
    ensures t == s.(w := map[cl.id := Worker(Stopped(g.wr + 1, true), [Filename(CHECKPOINTED, false, ckpt)], [])])
  {
    var w0 := Worker(Stopped(g.wr + 1, false), [], []);
    var w1 := Worker(Stopped(g.wr + 1, true), [Filename(CHECKPOINTED, false, ckpt)], []);
    assert [] + [Filename(CHECKPOINTED, false, ckpt)] == w1.toCoord;
    assert AdvanceStep(g, w0, false, ckpt) == w1;
    AloneAdvances(g, s, cl, w0, ckpt, p);
    t := s.(w := map[cl.id := w1]);
  }

  // ----- everybody else leaves -----

  // A newcomer with a request, among workers of which none is at DMT:SUSPEND.
  ghost predicate Newcomer(g: Config, s: System, id: nat) {
    && Inv(g, s) && s.stage == 0 && id in s.w && s.w[id] == Worker(Running, [], [DoCheckpoint])
    && (forall i :: 0 <= i < |s.c.clients| ==> s.c.clients[i].barrier != g.script[0])
    && (forall i :: 0 <= i < |s.c.clients| && s.c.clients[i].id == id ==> s.c.clients[i].barrier == "")
  }

  lemma DropOne(g: Config, s: System, id: nat, k: nat)
    requires Newcomer(g, s, id) && k in s.w && k != id
    ensures Step(g, s, Drop(k)) == Gone(s, k) && Newcomer(g, Gone(s, k), id)
    ensures |Gone(s, k).c.clients| == |s.c.clients| - 1 && SameBooks(s, Gone(s, k))
    ensures Gone(s, k).wrote == s.wrote
  {
    var t := Gone(s, k);
    PlaceOf(g, s, k);
    PlaceOf(g, s, id);
    GoneWired(g, s, k);
    RemoveAt(s.c.clients, k);
    CountBounds(s.c.clients, s.c.currentBarrier);
    var (c, sends) := OnDisconnect(s.c, k);
    DisconnectCoord(s.c, k);
    assert s.c.atBarrier == 0;
    assert HasClient(t.c.clients, id);
    assert c == t.c && sends == [];
    AbsorbSame(g, s, t, c, sends);
    AbsorbNothing(g, t, c);
    StepInv(g, s, Drop(k));
    assert forall i :: 0 <= i < |t.c.clients| ==> t.c.clients[i] in s.c.clients;
  }

  lemma {:induction false} DropOthers(g: Config, s: System, id: nat, p: Claim) returns (t: System, cl: Client)
    requires Newcomer(g, s, id) && Always(g, s, p)
    ensures Always(g, t, p) && SameBooks(s, t) && t.wrote == s.wrote
    ensures Alone(g, t, cl, Worker(Running, [], [DoCheckpoint])) && cl.id == id && t.stage == 0
    ensures Idle(t.c, g.script[0]) && cl.barrier == ""
    decreases |s.c.clients|
  {
    PlaceOf(g, s, id);
    if k :| k in s.w && k != id {
      DropOne(g, s, id, k);
      AlwaysStep(g, s, Drop(k), p);
      t, cl := DropOthers(g, Gone(s, k), id, p);
    } else {
      t := s;
      cl := OnlyClient(g, s, id);
      CountBounds(s.c.clients, s.c.currentBarrier);
    }
  }

  lemma OnlyClient(g: Config, s: System, id: nat) returns (cl: Client)
    requires Wired(g, s) && id in s.w && forall k :: k in s.w ==> k == id
    ensures s.c.clients == [cl] && cl.id == id && s.w == map[id := s.w[id]]
  {
    assert HasClient(s.c.clients, id);
    cl := s.c.clients[0];
    assert HasClient(s.c.clients, cl.id);
    assert |s.c.clients| > 1 ==> HasClient(s.c.clients, s.c.clients[1].id);
    assert s.w == map[id := s.w[id]];
  }

  // ----- the window is exact -----

  ghost predicate NeverTwice(g: Config, s: System) {
    forall es :: IsRun(g, s, es) && Outside(g, s, es) ==> InFlight(g, Final(g, s, es))
  }

  // In the window nobody has a request left, so whoever joins is the only one to follow it.
  lemma NobodyAtSuspend(g: Config, s: System)
    requires Inv1(g, s) && InWindow(s) && s.stage == 0
    ensures forall i :: 0 <= i < |s.c.clients| ==> s.c.clients[i].barrier != g.script[0]
  {
    forall i | 0 <= i < |s.c.clients| ensures s.c.clients[i].barrier != g.script[0] {
      if s.c.clients[i].barrier == g.script[0] {
        var id := s.c.clients[i].id;
        assert HasClient(s.c.clients, id);
        ArrivedShape(g, s.stage, s.c.clients[i], s.w[id]);
      }
    }
  }

  lemma JoinedNewcomer(g: Config, s: System, e: Event)
    requires Inv1(g, s) && Enabled(s, e) && Joins(s, e) && InWindow(s)
    ensures Newcomer(g, Step(g, s, e), e.id) && Step(g, s, e).wrote
  {
    StageOfJoin(g, s, e);
    NobodyAtSuspend(g, s);
    StepInv(g, s, e);
    var t := Step(g, s, e);
    assert t.c.clients == s.c.clients + [Client(e.id, e.hello.state, "", e.hello)];
    assert g.script[0] != "";
    forall i | 0 <= i < |s.c.clients| ensures s.c.clients[i].id != e.id {
      assert HasClient(s.c.clients, s.c.clients[i].id);
    }
  }

  lemma JoinInWindowGoesWrong(g: Config, s: System, e: Event)
    requires Inv1(g, s) && Enabled(s, e) && Joins(s, e) && InWindow(s)
    ensures !NeverTwice(g, Step(g, s, e))
  {
    var s' := Step(g, s, e);
    JoinedNewcomer(g, s, e);
    if NeverTwice(g, s') {
      var p := Claim(false, (t: System) => InFlight(g, t));
      forall es | IsRun(g, s', es) && NoJoins(es) ensures InFlight(g, Final(g, s', es)) {
        NoJoinsOutside(g, s', es);
      }
      var t, cl := DropOthers(g, s', e.id, p);
      var u := ReleasedAlone(g, t, cl, CkptFile("", "", ""), p);
      var cl' := cl.(state := PRESUSPEND, barrier := g.script[0]);
      AloneWired(g, u, cl', u.w[cl.id]);
      assert u.stage == 1 && u.wrote && !InFlight(g, u);
      AlwaysNow(g, u, p);
    }
  }

  // Letting somebody in keeps every later run without joins in the window to one checkpoint per request and one
  // script per checkpoint, if and only if it happens outside the window.
  lemma JoinBoundary(g: Config, s: System, e: Event)
    requires Inv1(g, s) && Enabled(s, e) && Joins(s, e)
    ensures NeverTwice(g, Step(g, s, e)) <==> !InWindow(s)
  {
    if InWindow(s) {
      JoinInWindowGoesWrong(g, s, e);
    } else {
      var s' := Step(g, s, e);
      StepInv1(g, s, e);
      forall es | IsRun(g, s', es) && Outside(g, s', es) ensures InFlight(g, Final(g, s', es)) {
        RunInv1(g, s', es);
      }
    }
  }

  // ----- runs from the start -----

  // A worker that is launched to begin a computation.
  predicate Launches(hello: Hello) {
    hello.state == RUNNING && hello.comp == NO_COMP && hello.newComp != NO_COMP
  }

  // The first launch.
  lemma LaunchAlone(g: Config, hello: Hello) returns (t: System, cl: Client)
    requires g.Valid() && Launches(hello)
    ensures Wired(g, START) && Enabled(START, Launch(1, hello)) && Step(g, START, Launch(1, hello)) == t
    ensures cl == Client(1, RUNNING, "", hello) && Alone(g, t, cl, Worker(Running, [], []))
    ensures t == START.(c := t.c, w := t.w)
    ensures t.c == BarrierBookkeeping.INITIAL.(clients := [cl], marks := [Reset], comp := hello.newComp,
                                               generation := hello.gen)
  {
    cl := Client(1, RUNNING, "", hello);
    assert [] + [cl] == [cl];
    assert [] + [Reset] == [Reset];
    t := Step(g, START, Launch(1, hello));
    assert t.w == map[1 := Worker(Running, [], [])];
  }

  // One worker, launched and asked for a checkpoint.
  lemma FirstRequest(g: Config, hello: Hello, p: Claim) returns (t: System, cl: Client)
    requires g.Valid() && Launches(hello) && Always(g, START, p) && p.joins
    ensures Always(g, t, p) && Alone(g, t, cl, Worker(Running, [], [DoCheckpoint])) && t.stage == 0
    ensures cl.id == 1 && cl.barrier == "" && Idle(t.c, g.script[0]) && !t.wrote && t.named == []
    ensures t.c.suspendMsgSent && t.c.numRestartFilenames == 0 && t.c.files == NO_FILES
    ensures t.c.marks == [Reset, Started(hello.gen + 1)]
  {
    var s1;
    s1, cl := LaunchAlone(g, hello);
    AlwaysStep(g, START, Launch(1, hello), p);
    t := RequestAlone(g, s1, cl, p);
  }

  lemma RequestAlone(g: Config, s: System, cl: Client, p: Claim) returns (t: System)
    requires Alone(g, s, cl, Worker(Running, [], [])) && cl.state == RUNNING && !s.c.suspendMsgSent && Always(g, s, p)
    requires s.c.numRestartPeers <= 0 && s.c.marks == [Reset]
    ensures Always(g, t, p)
    ensures t == s.(c := StartCheckpoint(s.c).0, w := map[cl.id := Worker(Running, [], [DoCheckpoint])], named := [],
        wrote := false)
    ensures t.c.clients == [cl] && t.c.suspendMsgSent && t.c.atBarrier == 0 && t.c.numRestartFilenames == 0
    ensures t.c.files == NO_FILES && t.c.marks == [Reset, Started(s.c.generation + 1)] && t.c.numRestartPeers <= 0
    ensures t.c.currentBarrier == s.c.currentBarrier
  {
    AloneWired(g, s, cl, Worker(Running, [], []));
    assert MinState([cl]) == RUNNING;
    assert MayStart(s.c);
    var c := StartCheckpoint(s.c).0;
    assert (map k | k in s.w && HasClient(c.clients, k) :: s.w[k]) == s.w;
    t := s.(c := c, w := map[cl.id := Worker(Running, [], [DoCheckpoint])], named := [], wrote := false);
    assert [] + [DoCheckpoint] == [DoCheckpoint];
    assert [Reset] + [Started(s.c.generation + 1)] == [Reset, Started(s.c.generation + 1)];
    assert Step(g, s, Request).w == t.w;
    assert Step(g, s, Request) == t;
    AlwaysStep(g, s, Request, p);
  }

  // A launch that finds the one worker writing its image: without a plugin barrier in between the coordinator's
  // own assertion stops it, else it runs its user threads inside the cut.
  ghost predicate LaunchGoesWrong(g: Config, s: System, hello: Hello) {
    var s' := Launched(g, s, 2, hello);
    s.c.suspendMsgSent && 2 !in s.w && if g.wr == 2 then s'.aborted else !s'.aborted && !CutHolds(g, s')
  }

  lemma WriterIsHit(g: Config, s: System, cl: Client, hello: Hello)
    requires StoppedAt(g, s, cl, if g.wr == 2 then 2 else 3) && cl.id == 1 && Launches(hello) && s.c.suspendMsgSent
    ensures LaunchGoesWrong(g, s, hello)
  {
    var i := if g.wr == 2 then 2 else 3;
    AloneWired(g, s, cl, Worker(Stopped(i, false), [], []));
    assert MinState([cl]) == cl.state;
    var s' := Launched(g, s, 2, hello);
    if g.wr != 2 {
      assert 1 in s'.w && 2 in s'.w && Writing(g, s'.w[1]) && !ThreadsStopped(s'.w[2].pc);
    }
  }

  lemma SomeLaunchGoesWrong(g: Config, hello: Hello)
    requires g.Valid() && Launches(hello)
    ensures exists es :: IsRun(g, START, es) && LaunchGoesWrong(g, Final(g, START, es), hello)
  {
    var p := Claim(true, (t: System) => !LaunchGoesWrong(g, t, hello));
    if Always(g, START, p) {
      var ckpt := CkptFile("", "", "");
      var s1, cl1 := FirstRequest(g, hello, p);
      var s2, cl2 := Suspends(g, s1, cl1, ckpt, p);
      var i := if g.wr == 2 then 2 else 3;
      var s3, cl3 := Passes(g, s2, cl2, 1, i, ckpt, p);
      WriterIsHit(g, s3, cl3, hello);
      AloneWired(g, s3, cl3, Worker(Stopped(i, false), [], []));
      AlwaysNow(g, s3, p);
    }
  }

  // ----- a second script -----

  // The one name that was missing.
  lemma LastNameWrites(c: Coord, cl: Client, unique: bool, ckpt: CkptFile)
    requires UniqueIds(c.clients) && HasClient(c.clients, cl.id) && Find(c.clients, cl.id) == cl
        && cl.state == CHECKPOINTED
    requires c.numRestartFilenames == 0 && c.numCkptWorkers == 1 && KnownShell(ckpt.shell)
    ensures var files := AddFile(c.files, ckpt);
            OnFilename(c, cl.id, unique, ckpt) ==
            Ok(c.(uniqueCkptFilenames := c.uniqueCkptFilenames || unique, files := files, numRestartFilenames := 0,
                  numCkptWorkers := 0, suspendMsgSent := false, marks := c.marks + [Wrote(files)]), [])
  {
    SelfUpdate(c.clients, cl.id);
  }

  // Delivering it, alone or with others about.
  lemma DeliversName(g: Config, s: System, cl: Client, ckpt: CkptFile, rest: seq<WorkerMsg>, p: Claim)
      returns (t: System)
    requires Wired(g, s) && !s.aborted && HasClient(s.c.clients, cl.id) && Find(s.c.clients, cl.id) == cl
        && cl.id in s.w
    requires s.w[cl.id].toCoord == [Filename(CHECKPOINTED, false, ckpt)] + rest && KnownShell(ckpt.shell)
    requires cl.state == CHECKPOINTED && s.c.numRestartFilenames == 0 && s.c.numCkptWorkers == 1 && Always(g, s, p)
    ensures Always(g, t, p) && t.named == s.named + [(cl.id, ckpt)] && t.released == s.released && t.stage == s.stage
    ensures t.w == s.w[cl.id := s.w[cl.id].(toCoord := rest)] && !t.aborted && t.wrote == s.wrote
    ensures t.c == s.c.(files := AddFile(s.c.files, ckpt), numRestartFilenames := 0, numCkptWorkers := 0,
                        suspendMsgSent := false, marks := s.c.marks + [Wrote(AddFile(s.c.files, ckpt))])
  {
    var id := cl.id;
    LastNameWrites(s.c, cl, false, ckpt);
    var c := OnFilename(s.c, id, false, ckpt).coord;
    assert s.w[id].toCoord[0] == Filename(CHECKPOINTED, false, ckpt) && s.w[id].toCoord[1..] == rest;
    assert Step(g, s, Deliver(id)) == Absorb(g, Taken(s, id), c, []);
    AbsorbNothing(g, Taken(s, id), c);
    t := Taken(s, id).(c := c);
    AlwaysStep(g, s, Deliver(id), p);
  }

  // The first worker has named its image, resumed and forked before its name was delivered.
  lemma ForksInWindow(g: Config, s: System, cl: Client, ckpt: CkptFile, hello: Hello, p: Claim)
      returns (t: System, cl2: Client)
    requires StoppedAt(g, s, cl, g.wr + 1) && cl.id == 1 && g.wr + 1 == |g.script| && KnownShell(ckpt.shell)
    requires s.c.suspendMsgSent && hello.state == RUNNING && hello.newComp != NO_COMP && Always(g, s, p) && p.joins
    ensures Always(g, t, p) && cl2 == Client(2, RUNNING, "", hello)
    ensures t == s.(c := s.c.(clients := [cl, cl2]),
                    w := map[1 := Worker(Running, [Filename(CHECKPOINTED, false, ckpt), Resuming(RUNNING)], []),
                             2 := Worker(Running, [], [DoCheckpoint])])
  {
    var named, ran := Worker(Stopped(g.wr + 1, true), [Filename(CHECKPOINTED, false, ckpt)], []),
                      Worker(Running, [Filename(CHECKPOINTED, false, ckpt), Resuming(RUNNING)], []);
    var s1 := AloneNames(g, s, cl, ckpt, p);
    AloneAdvances(g, s1, cl, named, ckpt, p);
    assert [Filename(CHECKPOINTED, false, ckpt)] + [Resuming(RUNNING)] == ran.toCoord;
    assert AdvanceStep(g, named, false, ckpt) == ran;
    var s2 := s1.(w := map[1 := ran]);
    AloneWired(g, s2, cl, ran);
    assert MinState([cl]) == CHECKPOINTED;
    cl2 := Client(2, RUNNING, "", hello);
    t := s.(c := s.c.(clients := [cl, cl2]), w := map[1 := ran, 2 := Worker(Running, [], [DoCheckpoint])]);
    assert [cl] + [cl2] == [cl, cl2];
    assert Step(g, s2, Fork(1, 2, hello)) == t;
    AlwaysStep(g, s2, Fork(1, 2, hello), p);
  }

  // The log ends in two scripts without a request between them, and the second names a worker that was not
  // released from its DMT:WriteCkpt.
  ghost predicate TwoScripts(s: System, a: CkptFile, b: CkptFile) {
    var m := s.c.marks;
    && |m| >= 2 && m[|m| - 2] == Wrote(FilesOf([(1, a)])) && m[|m| - 1] == Wrote(FilesOf([(1, a), (2, b)]))
    && s.released == {2}
  }

  // The script of the first worker, which then goes.
  lemma FirstScript(g: Config, s: System, cl: Client, cl2: Client, a: CkptFile, p: Claim) returns (t: System)
    requires g.Valid() && s.stage == 0 && !s.aborted && s.c.clients == [cl, cl2] && cl.id == 1 && cl2.id == 2
    requires s.w == map[1 := Worker(Running, [Filename(CHECKPOINTED, false, a), Resuming(RUNNING)], []),
                        2 := Worker(Running, [], [DoCheckpoint])]
    requires cl.state == CHECKPOINTED && s.c.numRestartFilenames == 0 && s.c.numCkptWorkers == 1 && KnownShell(a.shell)
    requires s.named == [] && s.c.files == NO_FILES && Idle(s.c, "") && Always(g, s, p)
    ensures Always(g, t, p) && Alone(g, t, cl2, Worker(Running, [], [DoCheckpoint])) && t.stage == 0
    ensures t.named == [(1, a)] && t.c.files == FilesOf([(1, a)]) && t.c.numRestartFilenames == 0 && Idle(t.c, "")
    ensures t.c.marks == s.c.marks + [Wrote(FilesOf([(1, a)]))]
  {
    assert s.c.clients[0] == cl && s.c.clients[1] == cl2;
    assert Wired(g, s);
    assert [Filename(CHECKPOINTED, false, a)] + [Resuming(RUNNING)] == s.w[1].toCoord;
    var s1 := DeliversName(g, s, cl, a, [Resuming(RUNNING)], p);
    AppendName([], (1, a));
    assert [] + [(1, a)] == [(1, a)];
    t := LastButOneDrops(g, s1, cl, cl2, p);
  }

  lemma LastButOneDrops(g: Config, s: System, cl: Client, cl2: Client, p: Claim) returns (t: System)
    requires g.Valid() && s.stage < |g.script| && s.c.clients == [cl, cl2] && cl.id == 1 && cl2.id == 2
    requires s.w.Keys == {1, 2} && s.c.currentBarrier == "" && Always(g, s, p)
    ensures t == s.(c := s.c.(clients := [cl2]), w := map[2 := s.w[2]]) && Always(g, t, p)
  {
    assert s.c.clients[0] == cl && s.c.clients[1] == cl2;
    assert Wired(g, s);
    assert Remove(s.c.clients, 1) == [cl2];
    var c := s.c.(clients := [cl2]);
    assert OnDisconnect(s.c, 1) == (c, []);
    t := s.(c := c, w := map[2 := s.w[2]]);
    assert c.clients[0] == cl2;
    assert (map k | k in s.w && HasClient(c.clients, k) :: s.w[k]) == t.w;
    assert Step(g, s, Drop(1)) == t;
    AlwaysStep(g, s, Drop(1), p);
  }

  // Every configuration in which DMT:WriteCkpt is the last barrier has such a run.
  lemma SomeScriptGoesWrong(g: Config, hello: Hello, a: CkptFile, b: CkptFile)
    requires g.Valid() && g.wr + 1 == |g.script| && Launches(hello) && KnownShell(a.shell) && KnownShell(b.shell)
    ensures exists es :: IsRun(g, START, es) && TwoScripts(Final(g, START, es), a, b)
  {
    var p := Claim(true, (t: System) => !TwoScripts(t, a, b));
    if Always(g, START, p) {
      var s1, cl1 := FirstRequest(g, hello, p);
      var s2, cl2 := Suspends(g, s1, cl1, a, p);
      var s3, cl3 := Passes(g, s2, cl2, 1, g.wr + 1, a, p);
      var s4, child := ForksInWindow(g, s3, cl3, a, hello, p);
      var s5 := FirstScript(g, s4, cl3, child, a, p);
      SecondScript(g, s5, child, a, b, p);
      var t :| Wired(g, t) && Always(g, t, p) && TwoScripts(t, a, b);
      AlwaysNow(g, t, p);
    }
  }

  lemma SecondScript(g: Config, s: System, child: Client, a: CkptFile, b: CkptFile, p: Claim)
    requires Alone(g, s, child, Worker(Running, [], [DoCheckpoint])) && s.stage == 0
        && child == Client(2, RUNNING, "", child.presented)
    requires s.named == [(1, a)] && s.c.files == FilesOf([(1, a)]) && s.c.numRestartFilenames == 0 && Idle(s.c, "")
    requires s.c.marks != [] && s.c.marks[|s.c.marks| - 1] == Wrote(FilesOf([(1, a)])) && KnownShell(b.shell)
    requires Always(g, s, p)
    ensures exists t :: Wired(g, t) && Always(g, t, p) && TwoScripts(t, a, b)
  {
    var s1, cl1 := Suspends(g, s, child, b, p);
    var s2, cl2 := Passes(g, s1, cl1, 1, g.wr + 1, b, p);
    var s3 := AloneNames(g, s2, cl2, b, p);
    var w := Worker(Stopped(g.wr + 1, true), [Filename(CHECKPOINTED, false, b)], []);
    AloneWired(g, s3, cl2, w);
    assert [Filename(CHECKPOINTED, false, b)] + [] == w.toCoord;
    var t := DeliversName(g, s3, cl2, b, [], p);
    AppendName([(1, a)], (2, b));
    assert [(1, a)] + [(2, b)] == [(1, a), (2, b)];
    assert TwoScripts(t, a, b);
    assert Wired(g, t);
  }
}

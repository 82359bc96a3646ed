/**
 Why the bookkeeping theorems ask clients to be polite: for every clause of Polite and
 PoliteRestart, a run from the start in which one client breaks it and the property fails.
 */
module ImpoliteRuns {
  import opened CoordinatorState
  import opened BarrierBookkeeping
  import opened RequestLog

  // ----- runs -----

  // Some polite run from the start ends in c.
  ghost predicate Reachable(c: Coord) {
    exists es :: PoliteRun(INITIAL, es) && After(INITIAL, es) == c
  }

  lemma {:induction false} RunOneMore(c: Coord, es: seq<Event>, e: Event)
    requires PoliteRun(c, es) && Enabled(After(c, es), e) && Polite(After(c, es), e) && Step(After(c, es), e).Ok?
    ensures PoliteRun(c, es + [e]) && After(c, es + [e]) == Step(After(c, es), e).coord
    decreases es
  {
    if es == [] {
      assert [] + [e] == [e] && [e][1..] == [];
      assert PoliteRun(Step(c, e).coord, []);
    } else {
      RunOneMore(Step(c, es[0]).coord, es[1..], e);
      assert (es + [e])[1..] == es[1..] + [e];
    }
  }

  lemma ReachableStep(c: Coord, e: Event)
    requires Reachable(c) && Enabled(c, e) && Polite(c, e) && Step(c, e).Ok?
    ensures Reachable(Step(c, e).coord)
  {
    var es :| PoliteRun(INITIAL, es) && After(INITIAL, es) == c;
    RunOneMore(INITIAL, es, e);
  }

  // ----- two clients -----

  const COMP := CompId(1, 40000, 1)

  const HELLO := Hello(RUNNING, NO_COMP, 0, false, COMP, 0)

  function Two(a: Client, b: Client): Coord {
    INITIAL.(clients := [a, b], comp := COMP, marks := [Reset])
  }

  function One(state: WorkerState, barrier: string): Client {
    Client(1, state, barrier, HELLO)
  }

  function Peer(state: WorkerState, barrier: string): Client {
    Client(2, state, barrier, HELLO)
  }

  lemma Pairs(a: Client, b: Client, c: Client)
    requires a.id == 1 && b.id == 2
    ensures UniqueIds([a, b]) && HasClient([a, b], 1) && HasClient([a, b], 2)
    ensures Find([a, b], 1) == a && Find([a, b], 2) == b
    ensures c.id == 1 ==> Update([a, b], c) == [c, b]
    ensures c.id == 2 ==> Update([a, b], c) == [a, c]
  {
    assert [a, b][0] == a && [a, b][1] == b && [a, b][1..] == [b];
    assert UniqueIds([a, b]) && HasClient([a, b], 1) && HasClient([a, b], 2);
    assert Update([b], c) == if c.id == 2 then [c] else [b];
  }

  lemma TwoConnect()
    ensures Reachable(Two(One(RUNNING, ""), Peer(RUNNING, "")))
  {
    var c1 := INITIAL.(clients := [One(RUNNING, "")], comp := COMP, marks := [Reset]);
    assert Reachable(INITIAL) by { assert PoliteRun(INITIAL, []); }
    assert [] + [One(RUNNING, "")] == [One(RUNNING, "")] && [] + [Reset] == [Reset];
    assert Step(INITIAL, Connect(1, HELLO)) == Ok(c1, []);
    ReachableStep(INITIAL, Connect(1, HELLO));
    assert c1.clients[0].id == 1 && MinState(c1.clients) == RUNNING;
    assert [One(RUNNING, "")] + [Peer(RUNNING, "")] == [One(RUNNING, ""), Peer(RUNNING, "")];
    assert Step(c1, Connect(2, HELLO)) == Ok(Two(One(RUNNING, ""), Peer(RUNNING, "")), []);
    ReachableStep(c1, Connect(2, HELLO));
  }

  // Client 1 arrives first, in any state but RUNNING if it is polite.
  function Waits(state: WorkerState): Coord {
    Two(One(state, "X"), Peer(RUNNING, "")).(currentBarrier := "X", atBarrier := 1)
  }

  lemma FirstArrives(state: WorkerState)
    ensures var c := Two(One(RUNNING, ""), Peer(RUNNING, ""));
            Enabled(c, Data(1, Barrier(state, "X"))) && Step(c, Data(1, Barrier(state, "X"))) == Ok(Waits(state), [])
    ensures state != RUNNING ==> Reachable(Waits(state))
  {
    var c, e := Two(One(RUNNING, ""), Peer(RUNNING, "")), Data(1, Barrier(state, "X"));
    Pairs(One(RUNNING, ""), Peer(RUNNING, ""), One(state, ""));
    Pairs(One(state, ""), Peer(RUNNING, ""), One(state, "X"));
    assert Step(c, e) == Ok(Waits(state), []);
    if state != RUNNING {
      TwoConnect();
      ReachableStep(c, e);
    }
  }

  // An arrival that says RUNNING: the next checkpoint request zeroes a counter that is not zero.
  lemma RunningArrival()
    ensures var c := Two(One(RUNNING, ""), Peer(RUNNING, "")); var e := Data(1, Barrier(RUNNING, "X"));
            Reachable(c) && Enabled(c, e) && Step(c, e) == Ok(Waits(RUNNING), [])
    ensures Step(Waits(RUNNING), CheckpointRequest).Ok? && !CounterExact(Step(Waits(RUNNING), CheckpointRequest).coord)
  {
    TwoConnect();
    FirstArrives(RUNNING);
    Request(Waits(RUNNING));
  }

  lemma Request(c: Coord)
    requires c == Waits(RUNNING)
    ensures Step(c, CheckpointRequest).Ok? && !CounterExact(Step(c, CheckpointRequest).coord)
  {
    assert c.clients[1..] == [Peer(RUNNING, "")];
    assert MinState(c.clients) == RUNNING && MayStart(c);
    assert CountAt(c.clients, "X") == 1;
  }

  // The same when a waiting client says so in some other message.
  lemma RunningWhileWaiting()
    ensures Reachable(Waits(PRESUSPEND)) && Enabled(Waits(PRESUSPEND), Data(1, Other(RUNNING)))
    ensures Step(Waits(PRESUSPEND), Data(1, Other(RUNNING))) == Ok(Waits(RUNNING), [])
    ensures !CounterExact(Step(Waits(RUNNING), CheckpointRequest).coord)
  {
    FirstArrives(PRESUSPEND);
    Pairs(One(PRESUSPEND, "X"), Peer(RUNNING, ""), One(RUNNING, "X"));
    Request(Waits(RUNNING));
  }

  // Resuming while waiting at the pending barrier: counted, and no longer there.
  lemma ResumingWhileWaiting()
    ensures Reachable(Waits(PRESUSPEND)) && Enabled(Waits(PRESUSPEND), Data(1, Resuming(RUNNING)))
    ensures var r := Step(Waits(PRESUSPEND), Data(1, Resuming(RUNNING))); r.Ok? && !CounterExact(r.coord)
  {
    FirstArrives(PRESUSPEND);
    var c := Waits(PRESUSPEND);
    Pairs(One(PRESUSPEND, "X"), Peer(RUNNING, ""), One(RUNNING, ""));
    var c' := Step(c, Data(1, Resuming(RUNNING))).coord;
    assert c'.clients == [One(RUNNING, ""), Peer(RUNNING, "")] && c'.clients[1..] == [Peer(RUNNING, "")];
    assert CountAt(c'.clients, "X") == 0;
  }

  // Both have passed barrier X.
  function Passed(a: Client, b: Client): Coord {
    Two(a, b).(prevBarrier := "X", numCkptWorkers := 2)
  }

  lemma BothPass()
    ensures Reachable(Passed(One(PRESUSPEND, "X"), Peer(PRESUSPEND, "X")))
  {
    FirstArrives(PRESUSPEND);
    var c, e := Waits(PRESUSPEND), Data(2, Barrier(PRESUSPEND, "X"));
    Pairs(One(PRESUSPEND, "X"), Peer(RUNNING, ""), Peer(PRESUSPEND, ""));
    Pairs(One(PRESUSPEND, "X"), Peer(PRESUSPEND, ""), Peer(PRESUSPEND, "X"));
    assert Step(c, e).coord == Passed(One(PRESUSPEND, "X"), Peer(PRESUSPEND, "X"));
    ReachableStep(c, e);
  }

  // Re-opening a name that a peer still has on record: the peer counts as arrived and is not counted.
  lemma ReopenedName()
    ensures Reachable(Passed(One(RUNNING, ""), Peer(PRESUSPEND, "X")))
    ensures var c := Passed(One(RUNNING, ""), Peer(PRESUSPEND, "X")); var e := Data(1, Barrier(PRESUSPEND, "X"));
            Enabled(c, e) && Step(c, e).Ok? && !CounterExact(Step(c, e).coord)
  {
    BothPass();
    var c0 := Passed(One(PRESUSPEND, "X"), Peer(PRESUSPEND, "X"));
    var c := Passed(One(RUNNING, ""), Peer(PRESUSPEND, "X"));
    Pairs(One(PRESUSPEND, "X"), Peer(PRESUSPEND, "X"), One(RUNNING, ""));
    assert Step(c0, Data(1, Resuming(RUNNING))) == Ok(c, []);
    ReachableStep(c0, Data(1, Resuming(RUNNING)));
    Pairs(One(RUNNING, ""), Peer(PRESUSPEND, "X"), One(PRESUSPEND, ""));
    Pairs(One(PRESUSPEND, ""), Peer(PRESUSPEND, "X"), One(PRESUSPEND, "X"));
    var c' := Step(c, Data(1, Barrier(PRESUSPEND, "X"))).coord;
    assert c'.clients == [One(PRESUSPEND, "X"), Peer(PRESUSPEND, "X")] && c'.clients[1..] == [Peer(PRESUSPEND, "X")];
    assert CountAt(c'.clients, "X") == 2 && c'.atBarrier == 1;
  }

  // An empty name: an arrival is counted with no barrier pending, and the next barrier is released too early.
  lemma EmptyName()
    ensures Reachable(Passed(One(PRESUSPEND, "X"), Peer(PRESUSPEND, "X")))
    ensures var c := Passed(One(PRESUSPEND, "X"), Peer(PRESUSPEND, "X"));
            && Enabled(c, Data(1, Barrier(PRESUSPEND, "")))
            && var r := Step(c, Data(1, Barrier(PRESUSPEND, "")));
               && r.Ok? && !CounterExact(r.coord) && HasClient(r.coord.clients, 2)
               && Step(r.coord, Data(2, Barrier(PRESUSPEND, "Y"))).sends == [ToAll(Released("Y", 2))]
  {
    BothPass();
    var a, b := One(PRESUSPEND, "X"), Peer(PRESUSPEND, "X");
    Pairs(a, b, a);
    Pairs(a, b, One(PRESUSPEND, ""));
    var c' := Step(Passed(a, b), Data(1, Barrier(PRESUSPEND, ""))).coord;
    assert c' == Passed(One(PRESUSPEND, ""), b).(atBarrier := 1);
    Pairs(One(PRESUSPEND, ""), b, b);
    Pairs(One(PRESUSPEND, ""), b, Peer(PRESUSPEND, "Y"));
  }

  // ----- restarts -----

  // How many peers the first worker of a restart announces decides whether it is released alone: exactly when
  // the count is at most one or, read as a signed number, negative.  The admission theorem then holds only for one.
  lemma FirstOfRestart(id: nat, hello: Hello, name: string)
    requires hello.restarting && hello.state == RESTARTING && hello.comp != NO_COMP && hello.peers < 0x1_0000_0000
    requires name != ""
    ensures var r := Step(INITIAL, Connect(id, hello));
            && r.Ok? && r.coord.restartPending && HasClient(r.coord.clients, id)
            && var (c, sends) := OnBarrier(r.coord, id, RESTARTING, name);
               && (IsRelease(sends) <==> hello.peers <= 1 || hello.peers >= 0x8000_0000)
               && (IsRelease(sends) ==> (EndsRestart(c) <==> hello.peers == 1))
  {
    var client := Client(id, RESTARTING, "", hello);
    assert [] + [client] == [client];
    var c := Step(INITIAL, Connect(id, hello)).coord;
    assert c.clients == [client] && c.clients[0] == client && c.numRestartPeers == ToInt32(hello.peers);
    assert Update([client], client) == [client];
    var there := client.(barrier := name);
    assert Update([client], there) == [there];
    var (c', sends) := OnBarrier(c, id, RESTARTING, name);
    if ToInt32(hello.peers) <= 1 {
      assert sends == [ToAll(Released(name, 1))] && sends[0].msg.Released?;
      assert c'.clients == [there] && c'.clients[0] == there;
    } else {
      assert sends == [];
    }
  }

  // Some run at all from the start ends in c.
  ghost predicate Happens(c: Coord) {
    exists es :: AnyRun(INITIAL, es) && AfterAny(INITIAL, es) == c
  }

  lemma {:induction false} AnyOneMore(c: Coord, es: seq<Event>, e: Event)
    requires AnyRun(c, es) && Enabled(AfterAny(c, es), e) && Genuine(e) && Step(AfterAny(c, es), e).Ok?
    ensures AnyRun(c, es + [e]) && AfterAny(c, es + [e]) == Step(AfterAny(c, es), e).coord
    decreases es
  {
    if es == [] {
      assert [] + [e] == [e] && [e][1..] == [];
      assert AnyRun(Step(c, e).coord, []);
    } else {
      AnyOneMore(Step(c, es[0]).coord, es[1..], e);
      assert (es + [e])[1..] == es[1..] + [e];
    }
  }

  lemma HappensStep(c: Coord, e: Event)
    requires Happens(c) && Enabled(c, e) && Genuine(e) && Step(c, e).Ok?
    ensures Happens(Step(c, e).coord)
  {
    var es :| AnyRun(INITIAL, es) && AfterAny(INITIAL, es) == c;
    AnyOneMore(INITIAL, es, e);
  }

  const BACK := Hello(RESTARTING, COMP, 2, true, COMP, 7)

  // One of two restarting workers is there.
  function Half(a: Client): Coord {
    INITIAL.(clients := [a], comp := COMP, generation := 7, numRestartPeers := 2, restartPending := true,
        marks := [Reset])
  }

  lemma HalfHappens()
    ensures Happens(Half(Client(1, RESTARTING, "", BACK)))
  {
    assert Happens(INITIAL) by { assert AnyRun(INITIAL, []); }
    var a := Client(1, RESTARTING, "", BACK);
    assert [] + [a] == [a] && [] + [Reset] == [Reset];
    assert Step(INITIAL, Connect(1, BACK)) == Ok(Half(a), []);
    HappensStep(INITIAL, Connect(1, BACK));
  }

  // Both are there, the first of them waiting.
  function Full(a: Client, b: Client): Coord {
    Half(a).(clients := [a, b], currentBarrier := "R", atBarrier := 1)
  }

  // The second arrival releases them, whatever they are.
  lemma SecondReleases(a: Client, b: Client)
    requires a.id == 1 && b.id == 2 && a.barrier == "R" && b.barrier == ""
    requires a.state != RESTARTING || !b.presented.restarting
    ensures var c, e := Full(a, b), Data(2, Barrier(RESTARTING, "R"));
            && Enabled(c, e) && Step(c, e).Ok? && c.restartPending && IsRelease(Step(c, e).sends)
            && !EndsRestart(Step(c, e).coord)
  {
    var c, e := Full(a, b), Data(2, Barrier(RESTARTING, "R"));
    Pairs(a, b, b.(state := RESTARTING));
    Pairs(a, b.(state := RESTARTING), b.(state := RESTARTING, barrier := "R"));
    var r := Step(c, e);
    assert r.sends == [ToAll(Released("R", 2))] && r.sends[0].msg.Released?;
    assert r.coord.clients == [a, b.(state := RESTARTING, barrier := "R")];
    assert r.coord.clients[0] == a && r.coord.clients[1].presented == b.presented;
  }

  // A restarting worker that says RUNNING lets a stranger in, who is then counted as the missing peer.
  lemma StrangerLetIn()
    ensures exists c, e :: Happens(c) && c.restartPending && Enabled(c, e) && Step(c, e).Ok?
                           && IsRelease(Step(c, e).sends) && !EndsRestart(Step(c, e).coord)
  {
    HalfHappens();
    var a0, a1 := Client(1, RESTARTING, "", BACK), Client(1, RUNNING, "", BACK);
    assert Half(a0).clients[0] == a0 && Update([a0], a1) == [a1];
    assert Step(Half(a0), Data(1, Other(RUNNING))) == Ok(Half(a1), []);
    HappensStep(Half(a0), Data(1, Other(RUNNING)));
    assert Half(a1).clients[0] == a1 && MinState([a1]) == RUNNING;
    var b := Peer(RUNNING, "");
    assert [a1] + [b] == [a1, b];
    var c2 := Half(a1).(clients := [a1, b]);
    assert Step(Half(a1), Connect(2, HELLO)) == Ok(c2, []);
    HappensStep(Half(a1), Connect(2, HELLO));
    var mid, a := a1.(state := RESTARTING), a1.(state := RESTARTING, barrier := "R");
    Pairs(a1, b, mid);
    Pairs(mid, b, a);
    assert Step(c2, Data(1, Barrier(RESTARTING, "R"))) == Ok(Full(a, b), []);
    HappensStep(c2, Data(1, Barrier(RESTARTING, "R")));
    SecondReleases(a, b);
  }

  // A waiting worker that sends an image name is recorded as CHECKPOINTED when the release comes.
  lemma NameDuringRestart(ckpt: CkptFile)
    requires KnownShell(ckpt.shell)
    ensures var a, b := Client(1, CHECKPOINTED, "R", BACK), Client(2, RESTARTING, "", BACK);
            exists c, e :: Happens(c) && c.restartPending && c.clients == [a, b] && Enabled(c, e) && Step(c, e).Ok?
                           && IsRelease(Step(c, e).sends) && !EndsRestart(Step(c, e).coord)
  {
    HalfHappens();
    var a0, b := Client(1, RESTARTING, "", BACK), Client(2, RESTARTING, "", BACK);
    assert Half(a0).clients[0] == a0 && MinState([a0]) == RESTARTING && [a0] + [b] == [a0, b];
    var c1 := Half(a0).(clients := [a0, b]);
    assert Step(Half(a0), Connect(2, BACK)) == Ok(c1, []);
    HappensStep(Half(a0), Connect(2, BACK));
    var a1, a2 := a0.(barrier := "R"), a0.(barrier := "R", state := CHECKPOINTED);
    Pairs(a0, b, a0);
    Pairs(a0, b, a1);
    assert Step(c1, Data(1, Barrier(RESTARTING, "R"))) == Ok(Full(a1, b), []);
    HappensStep(c1, Data(1, Barrier(RESTARTING, "R")));
    Pairs(a1, b, a2);
    var e := Data(1, Filename(RESTARTING, false, ckpt));
    var c2 := Step(Full(a1, b), e).coord;
    HappensStep(Full(a1, b), e);
    NamedRelease(c2, a2, b);
  }

  lemma NamedRelease(c: Coord, a: Client, b: Client)
    requires a == Client(1, CHECKPOINTED, "R", BACK) && b == Client(2, RESTARTING, "", BACK)
    requires c == Full(a, b).(files := c.files, numRestartFilenames := 1)
    ensures var e := Data(2, Barrier(RESTARTING, "R"));
            && Enabled(c, e) && Step(c, e).Ok? && IsRelease(Step(c, e).sends) && !EndsRestart(Step(c, e).coord)
  {
    Pairs(a, b, b);
    Pairs(a, b, b.(barrier := "R"));
    var r := Step(c, Data(2, Barrier(RESTARTING, "R")));
    assert r.sends == [ToAll(Released("R", 2))] && r.sends[0].msg.Released?;
    assert r.coord.clients == [a, b.(barrier := "R")] && r.coord.clients[0] == a;
  }
}

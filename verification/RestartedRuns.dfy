/**
 Checkpoints after a restart: the release that ends a restart leaves the system in a state from
 which the whole protocol holds, so the next checkpoint's cut is consistent too.
 */
module RestartedRuns {
  import opened CoordinatorState
  import opened BarrierBookkeeping
  import P = CheckpointProtocol

  // ----- the release that ends a restart -----

  // Everybody is recorded at the barrier just released, and nothing is pending.
  ghost predicate JustReleased(c: Coord, sends: seq<Send>) {
    && c.clients != [] && UniqueIds(c.clients) && c.prevBarrier != "" && c.currentBarrier == "" && c.atBarrier == 0
    && !c.suspendMsgSent && !c.restartPending
    && (forall i :: 0 <= i < |c.clients| ==> c.clients[i].barrier == c.prevBarrier)
    && sends == [ToAll(Released(c.prevBarrier, |c.clients|))]
  }

  lemma ReleaseShape(c: Coord)
    requires Counted(c) && c.clients != [] && c.currentBarrier != "" && !c.suspendMsgSent
    requires ReleaseBarrier(c).1 != []
    ensures JustReleased(ReleaseBarrier(c).0, ReleaseBarrier(c).1)
  {
    CountBounds(c.clients, c.currentBarrier);
  }

  lemma LeavingReleases(c: Coord, id: nat)
    requires HasClient(c.clients, id) && Counted(c) && !c.suspendMsgSent && OnDisconnect(c, id).1 != []
    ensures JustReleased(OnDisconnect(c, id).0, OnDisconnect(c, id).1)
  {
    DepartedCounted(c, id);
    ReleaseShape(Departed(c, id));
  }

  lemma ArrivalReleases(c: Coord, id: nat, state: WorkerState, name: string)
    requires HasClient(c.clients, id) && Counted(c) && !c.suspendMsgSent && Polite(c, Data(id, Barrier(state, name)))
    requires OnBarrier(c, id, state, name).1 != []
    ensures JustReleased(OnBarrier(c, id, state, name).0, OnBarrier(c, id, state, name).1)
  {
    var client := Find(c.clients, id).(state := state);
    var c1 := c.(clients := Update(c.clients, client));
    UpdateKeepsIds(c.clients, client);
    UpdateKeepsCounted(c, client);
    if c.currentBarrier != "" && name != c.currentBarrier {
      assert OnBarrier(c, id, state, name) == OnDisconnect(c1, id);
      LeavingReleases(c1, id);
    } else if name != client.barrier {
      BarrierArrives(c, id, state, name);
      var there := Arrived(c, client.(barrier := name));
      assert there.clients != [] by { UpdateKeepsIds(c.clients, client.(barrier := name)); }
      ReleaseShape(there);
    }
  }

  // The first release of a restart, by whatever event.
  lemma RestartRelease(c: Coord, e: Event)
    requires Book(c) && Restarting(c) && c.restartPending && c.clients != []
    requires Enabled(c, e) && Polite(c, e) && PoliteRestart(c, e) && Step(c, e).Ok? && IsRelease(Step(c, e).sends)
    ensures JustReleased(Step(c, e).coord, Step(c, e).sends) && EndsRestart(Step(c, e).coord)
  {
    StepOfRestart(c, e);
    match e
    case Connect(id, hello) => ConnectOfRestart(c, id, hello);
    case Data(id, msg) => if msg.Barrier? { ArrivalReleases(c, id, msg.state, msg.name); }
    case Disconnect(id) => LeavingReleases(c, id);
    case CheckpointRequest =>
  }

  // ----- the system after it -----

  // Every worker has the release from the restart barrier to read.
  ghost predicate Restarted(g: P.Config, s: P.System) {
    && g.Valid() && P.Wired(g, s) && !s.aborted && s.stage == 0
    && s.c.clients != [] && s.c.currentBarrier == "" && s.c.atBarrier == 0 && !s.c.suspendMsgSent
    && (forall i :: 0 <= i < |s.c.clients| ==> P.OnRestart(g, s.c.clients[i]))
    && (forall id :: id in s.w ==> s.w[id] == P.Worker(P.AtRestart, [], [Released(g.restart, |s.c.clients|)]))
  }

  lemma RestartedInv(g: P.Config, s: P.System)
    requires Restarted(g, s)
    ensures P.Inv(g, s)
  {
    forall i | 0 <= i < |s.c.clients| ensures P.Fits(g, 0, s.c.clients[i], s.w[s.c.clients[i].id]) {
      assert HasClient(s.c.clients, s.c.clients[i].id);
    }
  }

  // Everything the protocol guarantees, it guarantees of a restarted system and all that follows.
  lemma RestartedIsSound(g: P.Config, s: P.System)
    requires Restarted(g, s)
    ensures P.ForeverSound(g, s)
  {
    RestartedInv(g, s);
    forall es | P.IsRun(g, s, es) ensures P.Sound(g, P.Final(g, s, es)) {
      P.RunSound(g, s, es);
    }
  }

  // ----- from the coordinator's run to the system's -----

  ghost predicate BothPolite(c: Coord, es: seq<Event>)
    decreases es
  {
    es != [] ==>
      && Enabled(c, es[0]) && Polite(c, es[0]) && PoliteRestart(c, es[0]) && Step(c, es[0]).Ok?
      && BothPolite(Step(c, es[0]).coord, es[1..])
  }

  ghost function AfterBoth(c: Coord, es: seq<Event>): Coord
    requires BothPolite(c, es)
    decreases es
  {
    if es == [] then c else AfterBoth(Step(c, es[0]).coord, es[1..])
  }

  lemma {:induction false} BothAlways(c: Coord, es: seq<Event>)
    requires BothPolite(c, es) && Book(c) && Restarting(c)
    ensures Book(AfterBoth(c, es)) && Restarting(AfterBoth(c, es))
    decreases es
  {
    if es != [] {
      StepKeepsBook(c, es[0]);
      StepOfRestart(c, es[0]);
      BothAlways(Step(c, es[0]).coord, es[1..]);
    }
  }

  // The system whose coordinator has just ended a restart with this release.
  ghost predicate Resumes(g: P.Config, s: P.System, c: Coord) {
    && s.c == c && g.restart == c.prevBarrier && s.stage == 0 && !s.aborted
    && (forall id :: id in s.w <==> HasClient(c.clients, id))
    && (forall id :: id in s.w ==> s.w[id] == P.Worker(P.AtRestart, [], [Released(c.prevBarrier, |c.clients|)]))
  }

  // Any connects, rejections, messages and disconnects, then the release that ends a restart: the connected
  // workers are exactly the announced peers, and from there on every checkpoint's cut is consistent.
  lemma RestartThenCheckpoint(g: P.Config, es: seq<Event>, e: Event, s: P.System)
    requires g.Valid() && BothPolite(INITIAL, es)
    requires var c := AfterBoth(INITIAL, es);
             && c.restartPending && c.clients != [] && Enabled(c, e) && Polite(c, e) && PoliteRestart(c, e)
             && Step(c, e).Ok? && IsRelease(Step(c, e).sends) && Resumes(g, s, Step(c, e).coord)
    ensures EndsRestart(s.c) && P.ForeverSound(g, s)
  {
    BothAlways(INITIAL, es);
    RestartRelease(AfterBoth(INITIAL, es), e);
    assert Restarted(g, s);
    RestartedIsSound(g, s);
  }
}

/**
 Coordinator and workers together, over FIFO connections.

 A worker runs the script of src/dmtcpworker.cpp: wait for DMT_DO_CHECKPOINT, take the locks,
 pass DMT:SUSPEND, stop the user threads, pass DMT:CHECKPOINT, any plugin barriers,
 DMT:WriteCkpt, send the image name, any further plugin barriers, report RESUMING.
 Workers join by launch or fork and may vanish at any point.
 */
module CheckpointProtocol {
  import opened CoordinatorState
  import opened BarrierBookkeeping

  // The barrier names in order: DMT:SUSPEND, DMT:CHECKPOINT, then plugin barriers with DMT:WriteCkpt
  // at position `wr` among them.  Names are only required to differ from their neighbours.  `restart` is the
  // last barrier a restarted worker passes before it runs, DMT:Restart or a plugin barrier after it.
  datatype Config = Config(script: seq<string>, wr: nat, restart: string) {
    ghost predicate Valid() {
      && 2 <= wr < |script| && restart != "" && restart != script[0]
      && (forall i :: 0 <= i < |script| ==> script[i] != "" && script[i] != script[Next(i)])
    }

    function Next(i: nat): (n: nat)
      requires i < |script|
      ensures n < |script|
    {
      if i + 1 == |script| then 0 else i + 1
    }

    // The worker state announced on arrival at barrier i.
    function StateAt(i: nat): WorkerState {
      if i == 0 then PRESUSPEND else if i == 1 then SUSPENDED else if i < wr then CHECKPOINTING else CHECKPOINTED
    }
  }

  datatype Pc =
    | Running                               // user threads run; waiting for DMT_DO_CHECKPOINT
    | PreSuspend                            // request seen, wrapper locks being taken
    | AtBarrier(i: nat, skipped: bool)      // in waitForBarrier; `skipped` after one duplicate request
    | Stopping                              // released from DMT:SUSPEND, stopping user threads
    | Stopped(next: nat, named: bool)       // threads stopped; the next barrier is `next`
    | AtRestart                             // restarted, in waitForBarrier(restart)
    | Restored                              // restarted and released, about to run
    | Failed                                // an assertion in the worker fired

  datatype Worker = Worker(pc: Pc, toCoord: seq<WorkerMsg>, inbox: seq<CoordMsg>)

  // Beside coordinator and workers, three history fields: the index of the next barrier to release,
  // the workers released from the last DMT:WriteCkpt and whether that was since the last request,
  // and who has delivered which image name since the last request.
  datatype System = System(
    c: Coord, w: map<nat, Worker>, stage: nat, aborted: bool,
    released: set<nat>, wrote: bool, named: seq<(nat, CkptFile)>)

  datatype Event =
    | Launch(id: nat, hello: Hello)
    | Fork(parent: nat, id: nat, hello: Hello)
    | Request
    | Deliver(id: nat)
    | Drop(id: nat)
    | Receive(id: nat)
    | Advance(id: nat, unique: bool, ckpt: CkptFile)

  predicate ThreadsRun(pc: Pc) {
    pc.Running? || pc.PreSuspend?
  }

  // A launch may find a request open as long as no barrier of that checkpoint is released, or all are;
  // LaunchBoundary shows that this is exactly when it is safe.  A launch into an empty coordinator resets it.
  // A forking parent holds the wrapper lock, so it is short of DMT:SUSPEND.
  ghost predicate Enabled(s: System, e: Event) {
    match e
    case Launch(id, hello) =>
      id !in s.w && hello.newComp != NO_COMP && (s.c.clients == [] || !s.c.suspendMsgSent || s.stage == 0)
    case Fork(parent, id, hello) =>
      id !in s.w && parent in s.w && ThreadsRun(s.w[parent].pc) && hello.state == RUNNING && hello.newComp != NO_COMP
    case Request => true
    case Deliver(id) => id in s.w && s.w[id].toCoord != []
    case Drop(id) => id in s.w
    case Receive(id) => id in s.w && s.w[id].inbox != [] && Reads(s.w[id].pc)
    case Advance(id, _, ckpt) => id in s.w && KnownShell(ckpt.shell) && Acts(s.w[id].pc)
  }

  // The checkpoint thread waits for a message.
  predicate Reads(pc: Pc) {
    pc.Running? || pc.AtBarrier? || pc.AtRestart?
  }

  // It has something of its own to do.
  predicate Acts(pc: Pc) {
    pc.PreSuspend? || pc.Stopping? || pc.Stopped? || pc.Restored?
  }

  // One read by the worker's checkpoint thread.
  function ReceiveStep(g: Config, w: Worker): Worker
    requires w.inbox != []
  {
    var rest := w.(inbox := w.inbox[1..]);
    match w.pc
    case Running => rest.(pc := if w.inbox[0].DoCheckpoint? then PreSuspend else Failed)
    case AtBarrier(i, skipped) =>
      if w.inbox[0].DoCheckpoint? then rest.(pc := if skipped then Failed else AtBarrier(i, true))
      else if i >= |g.script| || w.inbox[0].name != g.script[i] then rest.(pc := Failed)
      else if i == 0 then rest.(pc := Stopping)
      else rest.(pc := Stopped(i + 1, false))
    case AtRestart =>
      rest.(pc := if w.inbox[0].Released? && w.inbox[0].name == g.restart then Restored else Failed)
    case _ => w
  }

  // One step of the worker's own.
  function AdvanceStep(g: Config, w: Worker, unique: bool, ckpt: CkptFile): Worker {
    match w.pc
    case PreSuspend =>
      if g.script == [] then w
      else Worker(AtBarrier(0, false), w.toCoord + [Barrier(PRESUSPEND, g.script[0])], w.inbox)
    case Stopping => w.(pc := Stopped(1, false))
    case Stopped(next, named) =>
      if next == g.wr + 1 && !named then
        Worker(Stopped(next, true), w.toCoord + [Filename(CHECKPOINTED, unique, ckpt)], w.inbox)
      else if next < |g.script| then
        Worker(AtBarrier(next, false), w.toCoord + [Barrier(g.StateAt(next), g.script[next])], w.inbox)
      else Worker(Running, w.toCoord + [Resuming(RUNNING)], w.inbox)
    case Restored => Worker(Running, w.toCoord + [Resuming(RUNNING)], w.inbox)
    case _ => w
  }

  // The coordinator's new state, with closed connections dropped and its message queued.
  ghost function Absorb(g: Config, s: System, c: Coord, sends: seq<Send>): System
    requires s.stage < |g.script|
  {
    var kept := map id | id in s.w && HasClient(c.clients, id) :: s.w[id];
    if sends == [] || !sends[0].ToAll? then s.(c := c, w := kept)
    else
      var w' := map id | id in kept :: kept[id].(inbox := kept[id].inbox + [sends[0].msg]);
      if sends[0].msg.DoCheckpoint? then s.(c := c, w := w', named := [], wrote := false)
      else
        s.(c := c, w := w', stage := g.Next(s.stage),
           released := if s.stage == g.wr then kept.Keys else s.released,
           wrote := s.wrote || s.stage == g.wr)
  }

  ghost function Join(g: Config, s: System, id: nat, a: Admission): System {
    match a
    case Aborted => s.(aborted := true)
    case Refused(c) => s.(c := c)
    case Admitted(c, sends) =>
      s.(c := c, w := s.w[id := Worker(Running, [], if sends == [] then [] else [DoCheckpoint])],
         stage := if s.c.clients == [] then 0 else s.stage)
  }

  ghost function DeliverStep(g: Config, s: System, id: nat): System
    requires id in s.w && s.w[id].toCoord != [] && HasClient(s.c.clients, id) && s.stage < |g.script|
  {
    var w := s.w[id];
    var msg := w.toCoord[0];
    var s1 := s.(w := s.w[id := w.(toCoord := w.toCoord[1..])],
                 named := if msg.Filename? then s.named + [(id, msg.ckpt)] else s.named);
    match OnData(s.c, id, msg)
    case Abort => s1.(aborted := true)
    case Ok(c, sends) => Absorb(g, s1, c, sends)
  }

  ghost predicate Wired(g: Config, s: System) {
    && g.Valid() && s.stage < |g.script|
    && UniqueIds(s.c.clients)
    && (forall id :: id in s.w <==> HasClient(s.c.clients, id))
  }

  ghost function Step(g: Config, s: System, e: Event): System
    requires Wired(g, s) && Enabled(s, e)
  {
    match e
    case Launch(id, hello) => Join(g, s, id, ConnectNew(s.c, id, hello))
    case Fork(_, id, hello) => Join(g, s, id, ConnectNew(s.c, id, hello))
    case Request => var (c, sends) := StartCheckpoint(s.c); Absorb(g, s, c, sends)
    case Deliver(id) => DeliverStep(g, s, id)
    case Drop(id) => var (c, sends) := OnDisconnect(s.c, id); Absorb(g, s, c, sends)
    case Receive(id) => s.(w := s.w[id := ReceiveStep(g, s.w[id])])
    case Advance(id, unique, ckpt) => s.(w := s.w[id := AdvanceStep(g, s.w[id], unique, ckpt)])
  }

  // ----- what one worker, its connection and its record at the coordinator look like -----

  ghost predicate Requests(q: seq<CoordMsg>) {
    forall i :: 0 <= i < |q| ==> q[i].DoCheckpoint?
  }

  predicate ImageName(m: WorkerMsg) {
    m.Filename? && KnownShell(m.ckpt.shell)
  }

  ghost predicate On(g: Config, cl: Client, i: nat)
    requires i < |g.script|
  {
    cl.barrier == g.script[i] && cl.state == g.StateAt(i)
  }

  ghost predicate OnRestart(g: Config, cl: Client) {
    cl.barrier == g.restart && cl.state == RESTARTING
  }

  // What may still be on its way from the end of the previous checkpoint or restart.
  ghost predicate Tail(g: Config, q: seq<WorkerMsg>, cl: Client)
    requires g.Valid()
  {
    var last := |g.script| - 1;
    || (q == [] && cl.barrier == "" && (cl.state == RUNNING || cl.state == UNKNOWN))
    || (q == [Resuming(RUNNING)] && (On(g, cl, last) || OnRestart(g, cl)))
    || (g.wr == last && |q| == 2 && ImageName(q[0]) && q[1] == Resuming(RUNNING) && On(g, cl, last))
  }

  // In waitForBarrier(i) and not yet released.
  ghost predicate Arriving(g: Config, cl: Client, w: Worker, i: nat)
    requires g.Valid() && i < |g.script|
  {
    var n := |w.toCoord|;
    || (n == 0 && On(g, cl, i))
    || (i == 0 && n > 0 && w.toCoord[n - 1] == Barrier(PRESUSPEND, g.script[0]) && Tail(g, w.toCoord[..n - 1], cl))
    || (i > 0 && On(g, cl, i - 1) && w.toCoord == [Barrier(g.StateAt(i), g.script[i])])
    || (i == g.wr + 1 && On(g, cl, i - 1) && n == 2 && ImageName(w.toCoord[0])
        && w.toCoord[1] == Barrier(g.StateAt(i), g.script[i]))
  }

  // Requests still queued in front of the release, counting one already skipped.
  ghost predicate AtMostOne(i: nat, skipped: bool, q: seq<CoordMsg>) {
    Requests(q) && |q| <= (if i == 0 && !skipped then 1 else 0) && (i > 0 ==> !skipped)
  }

  ghost predicate Fits(g: Config, stage: nat, cl: Client, w: Worker)
    requires g.Valid()
  {
    var n := |w.inbox|;
    match w.pc
    case Running => stage == 0 && Tail(g, w.toCoord, cl) && Requests(w.inbox) && n <= 2
    case PreSuspend => stage == 0 && Tail(g, w.toCoord, cl) && Requests(w.inbox) && n <= 1
    case AtBarrier(i, skipped) =>
      i < |g.script| &&
      (|| (stage == i && AtMostOne(i, skipped, w.inbox) && Arriving(g, cl, w, i))
       || (stage == g.Next(i) && w.toCoord == [] && On(g, cl, i)
           && n > 0 && w.inbox[n - 1].Released? && w.inbox[n - 1].name == g.script[i]
           && AtMostOne(i, skipped, w.inbox[..n - 1])))
    case Stopping => stage == 1 && w.toCoord == [] && w.inbox == [] && On(g, cl, 0)
    case Stopped(next, named) =>
      && 1 <= next <= |g.script| && stage == (if next == |g.script| then 0 else next)
      && w.inbox == [] && On(g, cl, next - 1)
      && (named ==> next == g.wr + 1)
      && (w.toCoord == [] || (named && |w.toCoord| == 1 && ImageName(w.toCoord[0])))
    case AtRestart =>
      && stage == 0 && w.toCoord == [] && OnRestart(g, cl)
      && n == 1 && w.inbox[0].Released? && w.inbox[0].name == g.restart
    case Restored => stage == 0 && w.toCoord == [] && w.inbox == [] && OnRestart(g, cl)
    case Failed => false
  }

  // No duplicate request is outstanding.
  ghost predicate Tight(w: Worker) {
    match w.pc
    case Running => |w.inbox| <= 1
    case PreSuspend => w.inbox == []
    case AtBarrier(i, skipped) => i == 0 ==> !skipped && (w.inbox == [] || (|w.inbox| == 1 && w.inbox[0].Released?))
    case _ => true
  }

  // The worker has been released from DMT:WriteCkpt and its image name is not delivered yet.
  ghost predicate Owes(g: Config, w: Worker) {
    || (exists i :: 0 <= i < |w.toCoord| && w.toCoord[i].Filename?)
    || w.pc == Stopped(g.wr + 1, false)
    || (w.pc.AtBarrier? && w.pc.i == g.wr && w.inbox != [] && w.inbox[|w.inbox| - 1].Released?)
  }

  ghost predicate AllFit(g: Config, s: System)
    requires g.Valid()
  {
    forall i :: 0 <= i < |s.c.clients| && s.c.clients[i].id in s.w ==>
      Fits(g, s.stage, s.c.clients[i], s.w[s.c.clients[i].id])
  }

  ghost predicate Pending(g: Config, s: System)
    requires g.Valid() && s.stage < |g.script|
  {
    && (s.c.currentBarrier == "" || s.c.currentBarrier == g.script[s.stage])
    && (s.c.currentBarrier == "" ==> forall i :: 0 <= i < |s.c.clients| ==> s.c.clients[i].barrier != g.script[s.stage])
  }

  // A second request can only go out when the first one has been used up everywhere.
  ghost predicate NoSecondRequest(g: Config, s: System) {
    !s.c.suspendMsgSent || (exists id :: id in s.w && Owes(g, s.w[id])) ==> forall id :: id in s.w ==> Tight(s.w[id])
  }

  // Has not been asked for a checkpoint since it was restarted.
  predicate Unasked(w: Worker) {
    (w.pc.Running? && w.inbox == []) || w.pc.AtRestart? || w.pc.Restored?
  }

  // The peer count of a restart is kept until the next request, and until then nobody reaches a barrier.
  ghost predicate RestartOver(s: System) {
    s.c.numRestartPeers <= 0 ||
    (!s.c.suspendMsgSent && s.c.currentBarrier == "" && s.stage == 0 && forall id :: id in s.w ==> Unasked(s.w[id]))
  }

  ghost predicate Core(g: Config, s: System) {
    && Wired(g, s) && !s.aborted && Counted(s.c) && RestartOver(s)
    && AllFit(g, s) && Pending(g, s) && NoSecondRequest(g, s)
  }

  ghost predicate Inv(g: Config, s: System) {
    Wired(g, s) && !s.aborted && (s.c.clients != [] ==> Core(g, s) && Waiting(s.c))
  }

  // ----- one worker at a time -----

  lemma ReceiveFits(g: Config, stage: nat, cl: Client, w: Worker)
    requires g.Valid() && Fits(g, stage, cl, w) && w.inbox != [] && Reads(w.pc)
    ensures Fits(g, stage, cl, ReceiveStep(g, w))
    ensures Tight(w) ==> Tight(ReceiveStep(g, w))
    ensures Owes(g, ReceiveStep(g, w)) ==> Owes(g, w)
    ensures Unasked(w) ==> Unasked(ReceiveStep(g, w))
  {
  }

  lemma PreSuspendFits(g: Config, stage: nat, cl: Client, w: Worker)
    requires g.Valid() && Fits(g, stage, cl, w) && w.pc.PreSuspend?
    ensures Fits(g, stage, cl, Worker(AtBarrier(0, false), w.toCoord + [Barrier(PRESUSPEND, g.script[0])], w.inbox))
  {
    var w' := Worker(AtBarrier(0, false), w.toCoord + [Barrier(PRESUSPEND, g.script[0])], w.inbox);
    assert w'.toCoord[..|w.toCoord|] == w.toCoord && w'.toCoord[|w.toCoord|] == Barrier(PRESUSPEND, g.script[0]);
    assert Arriving(g, cl, w', 0);
  }

  lemma NextBarrierFits(g: Config, stage: nat, cl: Client, w: Worker)
    requires g.Valid() && Fits(g, stage, cl, w) && w.pc.Stopped? && w.pc.next < |g.script|
    requires w.pc.next == g.wr + 1 ==> w.pc.named
    ensures var i := w.pc.next;
            Fits(g, stage, cl, Worker(AtBarrier(i, false), w.toCoord + [Barrier(g.StateAt(i), g.script[i])], w.inbox))
  {
    var i := w.pc.next;
    var w' := Worker(AtBarrier(i, false), w.toCoord + [Barrier(g.StateAt(i), g.script[i])], w.inbox);
    assert w.toCoord == [] ==> w'.toCoord == [Barrier(g.StateAt(i), g.script[i])];
    assert Arriving(g, cl, w', i);
  }

  lemma ResumeFits(g: Config, stage: nat, cl: Client, w: Worker)
    requires g.Valid() && Fits(g, stage, cl, w) && w.pc.Stopped? && w.pc.next == |g.script|
    requires w.pc.next == g.wr + 1 ==> w.pc.named
    ensures Fits(g, stage, cl, Worker(Running, w.toCoord + [Resuming(RUNNING)], w.inbox))
  {
    assert w.toCoord == [] ==> w.toCoord + [Resuming(RUNNING)] == [Resuming(RUNNING)];
    assert Tail(g, w.toCoord + [Resuming(RUNNING)], cl);
  }

  lemma AdvanceFits(g: Config, stage: nat, cl: Client, w: Worker, unique: bool, ckpt: CkptFile)
    requires g.Valid() && Fits(g, stage, cl, w) && Acts(w.pc)
    requires KnownShell(ckpt.shell)
    ensures Fits(g, stage, cl, AdvanceStep(g, w, unique, ckpt))
  {
    if w.pc.PreSuspend? {
      PreSuspendFits(g, stage, cl, w);
    } else if w.pc.Stopped? && (w.pc.next != g.wr + 1 || w.pc.named) {
      if w.pc.next < |g.script| { NextBarrierFits(g, stage, cl, w); } else { ResumeFits(g, stage, cl, w); }
    } else if w.pc.Restored? {
      assert [] + [Resuming(RUNNING)] == [Resuming(RUNNING)];
    }
  }

  lemma AdvanceQuiet(g: Config, stage: nat, cl: Client, w: Worker, unique: bool, ckpt: CkptFile)
    requires g.Valid() && Fits(g, stage, cl, w) && Acts(w.pc)
    ensures Tight(w) ==> Tight(AdvanceStep(g, w, unique, ckpt))
    ensures Owes(g, AdvanceStep(g, w, unique, ckpt)) ==> Owes(g, w)
    ensures Unasked(w) ==> Unasked(AdvanceStep(g, w, unique, ckpt))
  {
  }

  // A record at the pending barrier means: waiting there, everything delivered, not released.
  lemma ArrivedShape(g: Config, stage: nat, cl: Client, w: Worker)
    requires g.Valid() && stage < |g.script| && Fits(g, stage, cl, w) && cl.barrier == g.script[stage]
    ensures w.pc.AtBarrier? && w.pc.i == stage && w.toCoord == [] && On(g, cl, stage)
    ensures AtMostOne(stage, w.pc.skipped, w.inbox)
  {
    var last := |g.script| - 1;
    assert g.script[last] != g.script[0] by { assert g.Next(last) == 0; }
    assert g.script[0] != g.script[1] by { assert g.Next(0) == 1; }
    if stage > 0 {
      assert g.script[stage - 1] != g.script[stage] by { assert g.Next(stage - 1) == stage; }
    }
  }

  lemma ReleaseFits(g: Config, stage: nat, cl: Client, w: Worker, peers: nat)
    requires g.Valid() && stage < |g.script| && Fits(g, stage, cl, w) && cl.barrier == g.script[stage]
    ensures var w' := w.(inbox := w.inbox + [Released(g.script[stage], peers)]);
            Fits(g, g.Next(stage), cl, w')
            && (Tight(w) ==> Tight(w')) && (stage != 0 ==> Tight(w'))
            && (Owes(g, w') <==> stage == g.wr)
    ensures cl.barrier != g.script[g.Next(stage)]
  {
    ArrivedShape(g, stage, cl, w);
    var w' := w.(inbox := w.inbox + [Released(g.script[stage], peers)]);
    assert w'.inbox[..|w.inbox|] == w.inbox;
  }

  // A record in RUNNING or UNKNOWN state means that no barrier of this checkpoint was released.
  lemma RunningShape(g: Config, stage: nat, cl: Client, w: Worker)
    requires g.Valid() && Fits(g, stage, cl, w) && (cl.state == RUNNING || cl.state == UNKNOWN)
    ensures stage == 0 && cl.barrier == ""
    ensures w.pc.Running? || w.pc.PreSuspend? || (w.pc.AtBarrier? && w.pc.i == 0 && AtMostOne(0, w.pc.skipped, w.inbox))
    ensures w.pc.AtBarrier? ==> w.toCoord == [Barrier(PRESUSPEND, g.script[0])]
    ensures !w.pc.AtBarrier? ==> w.toCoord == []
  {
  }

  lemma RequestFits(g: Config, stage: nat, cl: Client, w: Worker)
    requires g.Valid() && Fits(g, stage, cl, w) && Tight(w) && cl.state == RUNNING
    ensures Fits(g, stage, cl, w.(inbox := w.inbox + [DoCheckpoint]))
    ensures !Owes(g, w.(inbox := w.inbox + [DoCheckpoint]))
  {
  }

  // Writing an image: the release from DMT:CHECKPOINT is on its way or read, that from DMT:WriteCkpt is not
  // yet on its way.
  ghost predicate Writing(g: Config, w: Worker) {
    || (w.pc.Stopped? && 2 <= w.pc.next <= g.wr)
    || (w.pc.AtBarrier? && 2 <= w.pc.i < g.wr)
    || (w.pc.AtBarrier? && w.pc.i == 1 && w.inbox != [])
    || (w.pc.AtBarrier? && w.pc.i == g.wr && w.inbox == [])
  }

  ghost predicate ThreadsStopped(pc: Pc) {
    pc.Stopped? || (pc.AtBarrier? && pc.i >= 1)
  }

  // ----- the whole system -----

  lemma UpdateAllFit(g: Config, s: System, cl: Client, w: Worker, c: Coord)
    requires Wired(g, s) && AllFit(g, s) && cl.id in s.w && Fits(g, s.stage, cl, w)
    requires c.clients == Update(s.c.clients, cl)
    ensures Wired(g, s.(c := c, w := s.w[cl.id := w])) && AllFit(g, s.(c := c, w := s.w[cl.id := w]))
  {
    UpdateKeepsIds(s.c.clients, cl);
    UpdateAt(s.c.clients, cl);
  }

  // One worker and its record change; nothing else does.
  lemma UpdateCore(g: Config, s: System, cl: Client, w: Worker, c: Coord)
    requires Core(g, s) && cl.id in s.w && Fits(g, s.stage, cl, w)
    requires c.clients == Update(s.c.clients, cl) && RestartOver(s.(c := c, w := s.w[cl.id := w]))
    requires c.suspendMsgSent == s.c.suspendMsgSent || (!c.suspendMsgSent && Owes(g, s.w[cl.id]))
    requires Tight(s.w[cl.id]) ==> Tight(w)
    requires Owes(g, w) ==> Owes(g, s.w[cl.id])
    requires Counted(c) && Pending(g, s.(c := c))
    ensures Core(g, s.(c := c, w := s.w[cl.id := w]))
  {
    UpdateAllFit(g, s, cl, w, c);
  }

  lemma SelfUpdate(cs: seq<Client>, id: nat)
    requires UniqueIds(cs) && HasClient(cs, id)
    ensures Update(cs, Find(cs, id)) == cs
  {
  }

  // Steps of a worker's own.
  lemma WorkerStep(g: Config, s: System, id: nat, w: Worker)
    requires Inv(g, s) && id in s.w && Fits(g, s.stage, Find(s.c.clients, id), w)
    requires Tight(s.w[id]) ==> Tight(w)
    requires Owes(g, w) ==> Owes(g, s.w[id])
    requires Unasked(s.w[id]) ==> Unasked(w)
    ensures Inv(g, s.(w := s.w[id := w]))
  {
    SelfUpdate(s.c.clients, id);
    UpdateCore(g, s, Find(s.c.clients, id), w, s.c);
  }

  lemma AbsorbNothing(g: Config, s: System, c: Coord)
    requires s.stage < |g.script|
    requires forall id :: id in s.w ==> HasClient(c.clients, id)
    ensures Absorb(g, s, c, []) == s.(c := c)
  {
  }

  // A release puts the same message behind everything each worker has yet to read.
  lemma ReleasedShape(g: Config, s: System, s': System)
    requires Core(g, s) && s.c.clients != [] && s.c.currentBarrier != "" && s.c.atBarrier == |s.c.clients|
    requires s' == Absorb(g, s, ReleaseBarrier(s.c).0, ReleaseBarrier(s.c).1)
    ensures s'.w.Keys == s.w.Keys && s'.c.clients == s.c.clients && s'.stage == g.Next(s.stage)
    ensures forall i :: 0 <= i < |s.c.clients| ==> s.c.clients[i].barrier == g.script[s.stage]
    ensures forall id :: id in s.w ==>
              s'.w[id] == s.w[id].(inbox := s.w[id].inbox + [Released(g.script[s.stage], |s.c.clients|)])
  {
    CountBounds(s.c.clients, s.c.currentBarrier);
    assert s'.w.Keys == s.w.Keys;
  }

  lemma ReleasedWorkers(g: Config, s: System, s': System)
    requires Core(g, s) && s.c.clients != [] && s.c.currentBarrier != "" && s.c.atBarrier == |s.c.clients|
    requires s' == Absorb(g, s, ReleaseBarrier(s.c).0, ReleaseBarrier(s.c).1)
    ensures s'.w.Keys == s.w.Keys && s'.c.clients == s.c.clients && s'.stage == g.Next(s.stage)
    ensures AllFit(g, s')
    ensures forall i :: 0 <= i < |s.c.clients| ==> s.c.clients[i].barrier != g.script[s'.stage]
    ensures forall id :: id in s.w ==> (Tight(s.w[id]) ==> Tight(s'.w[id])) && (s.stage != 0 ==> Tight(s'.w[id]))
    ensures forall id :: id in s.w ==> (Owes(g, s'.w[id]) <==> s.stage == g.wr)
  {
    ReleasedShape(g, s, s');
    var peers := |s.c.clients|;
    forall i | 0 <= i < peers
      ensures Fits(g, s'.stage, s.c.clients[i], s'.w[s.c.clients[i].id])
      ensures s.c.clients[i].barrier != g.script[s'.stage]
    {
      ReleaseFits(g, s.stage, s.c.clients[i], s.w[s.c.clients[i].id], peers);
    }
    forall id | id in s.w
      ensures (Tight(s.w[id]) ==> Tight(s'.w[id])) && (s.stage != 0 ==> Tight(s'.w[id]))
      ensures Owes(g, s'.w[id]) <==> s.stage == g.wr
    {
      var i :| 0 <= i < peers && s.c.clients[i].id == id;
      ReleaseFits(g, s.stage, s.c.clients[i], s.w[id], peers);
    }
  }

  lemma ReleasedCore(g: Config, s: System, s': System)
    requires Core(g, s) && s.c.clients != [] && s.c.currentBarrier != "" && s.c.atBarrier == |s.c.clients|
    requires s' == Absorb(g, s, ReleaseBarrier(s.c).0, ReleaseBarrier(s.c).1)
    ensures Core(g, s')
  {
    ReleasedWorkers(g, s, s');
    ReleaseKeepsBook(s.c);
  }

  // Releasing, or trying to, when the pending barrier is the right one.
  lemma ReleaseInv(g: Config, s: System)
    requires Core(g, s) && s.c.clients != [] && s.c.currentBarrier != ""
    ensures Inv(g, Absorb(g, s, ReleaseBarrier(s.c).0, ReleaseBarrier(s.c).1))
  {
    var s' := Absorb(g, s, ReleaseBarrier(s.c).0, ReleaseBarrier(s.c).1);
    ReleaseKeepsBook(s.c);
    if s.c.atBarrier == |s.c.clients| {
      ReleasedCore(g, s, s');
    } else {
      AbsorbNothing(g, s, s.c);
    }
  }

  // The record after the coordinator has read a message.
  function Read(cl: Client, msg: WorkerMsg): Client {
    match msg
    case Barrier(state, name) => cl.(state := state, barrier := name)
    case Filename(_, _, _) => cl.(state := CHECKPOINTED)
    case Resuming(state) => cl.(state := state, barrier := "")
    case Other(state) => cl.(state := state)
  }

  lemma DeliverFits(g: Config, stage: nat, cl: Client, w: Worker)
    requires g.Valid() && stage < |g.script| && Fits(g, stage, cl, w) && w.toCoord != []
    ensures var w' := w.(toCoord := w.toCoord[1..]);
            && Fits(g, stage, Read(cl, w.toCoord[0]), w')
            && (Tight(w) ==> Tight(w')) && (Owes(g, w') ==> Owes(g, w))
    ensures w.toCoord[0].Barrier? ==>
              w.toCoord == [Barrier(g.StateAt(stage), g.script[stage])] && cl.barrier != g.script[stage]
    ensures w.toCoord[0].Filename? ==> ImageName(w.toCoord[0]) && Read(cl, w.toCoord[0]) == cl && Owes(g, w)
    ensures w.toCoord[0].Resuming? ==> w.toCoord[0].state == RUNNING && stage == 0 && cl.barrier != g.script[0]
    ensures w.toCoord[0].Barrier? ==> !Unasked(w)
    ensures !w.toCoord[0].Other?
  {
    var w' := w.(toCoord := w.toCoord[1..]);
    var n := |w.toCoord|;
    var q := w.toCoord[..n - 1];
    var last := |g.script| - 1;
    assert g.script[last] != g.script[0] by { assert g.Next(last) == 0; }
    if stage > 0 {
      assert g.script[stage - 1] != g.script[stage] by { assert g.Next(stage - 1) == stage; }
    }
    if w.pc.AtBarrier? && w.pc.i == 0 && Tail(g, q, cl) {
      if q == [] {
        assert w.toCoord == [Barrier(PRESUSPEND, g.script[0])];
      } else {
        assert w'.toCoord[..n - 2] == q[1..] && w'.toCoord[n - 2] == w.toCoord[n - 1];
      }
    } else if w.pc.AtBarrier? && n == 2 {
      assert w'.toCoord == [w.toCoord[1]];
    }
    if i :| 0 <= i < |w'.toCoord| && w'.toCoord[i].Filename? { assert w.toCoord[i + 1].Filename?; }
  }

  // Absorb only looks at the connections that stay open.
  lemma AbsorbSame(g: Config, s: System, s1: System, c: Coord, sends: seq<Send>)
    requires s.stage < |g.script| && s1 == s.(c := s1.c, w := s1.w)
    requires forall id :: id in s1.w <==> id in s.w && HasClient(c.clients, id)
    requires forall id :: id in s1.w ==> s1.w[id] == s.w[id]
    ensures Absorb(g, s, c, sends) == Absorb(g, s1, c, sends)
  {
    assert (map id | id in s.w && HasClient(c.clients, id) :: s.w[id]) == s1.w;
    assert (map id | id in s1.w && HasClient(c.clients, id) :: s1.w[id]) == s1.w;
  }

  // The system with one message taken off the connection and not yet acted upon.
  function Taken(s: System, id: nat): System
    requires id in s.w && s.w[id].toCoord != []
  {
    var msg := s.w[id].toCoord[0];
    s.(w := s.w[id := s.w[id].(toCoord := s.w[id].toCoord[1..])],
       named := if msg.Filename? then s.named + [(id, msg.ckpt)] else s.named)
  }

  lemma BarrierCore(g: Config, s: System, id: nat)
    requires Inv(g, s) && id in s.w && s.w[id].toCoord != [] && s.w[id].toCoord[0].Barrier?
    ensures HasClient(s.c.clients, id)
    ensures var msg := s.w[id].toCoord[0];
            var there := Find(s.c.clients, id).(state := msg.state, barrier := msg.name);
            && Core(g, Taken(s, id).(c := Arrived(s.c, there))) && msg.name != ""
            && OnData(s.c, id, msg) == Pair(ReleaseBarrier(Arrived(s.c, there)))
  {
    var w, cl, name := s.w[id], Find(s.c.clients, id), g.script[s.stage];
    var there := cl.(state := g.StateAt(s.stage), barrier := name);
    DeliverFits(g, s.stage, cl, w);
    BarrierArrives(s.c, id, g.StateAt(s.stage), name);
    UpdateCore(g, s, there, w.(toCoord := w.toCoord[1..]), Arrived(s.c, there));
  }

  lemma DeliverBarrier(g: Config, s: System, id: nat)
    requires Inv(g, s) && id in s.w && s.w[id].toCoord != [] && s.w[id].toCoord[0].Barrier?
    ensures Inv(g, DeliverStep(g, s, id))
  {
    BarrierCore(g, s, id);
    var msg := s.w[id].toCoord[0];
    var c := Arrived(s.c, Find(s.c.clients, id).(state := msg.state, barrier := msg.name));
    var s1 := Taken(s, id).(c := c);
    assert c.clients != [] by { assert HasClient(c.clients, id); }
    ReleaseInv(g, s1);
    AbsorbSame(g, Taken(s, id), s1, ReleaseBarrier(c).0, ReleaseBarrier(c).1);
  }

  // What reading an image name leaves alone.
  lemma FilenameCoord(c: Coord, id: nat, msg: WorkerMsg)
    requires UniqueIds(c.clients) && HasClient(c.clients, id) && ImageName(msg)
    requires Find(c.clients, id).state == CHECKPOINTED
    ensures OnData(c, id, msg).Ok? && OnData(c, id, msg).sends == []
    ensures var c' := OnData(c, id, msg).coord;
            && c'.clients == c.clients && c'.currentBarrier == c.currentBarrier && c'.atBarrier == c.atBarrier
            && c'.numRestartPeers == c.numRestartPeers && (c'.suspendMsgSent ==> c.suspendMsgSent)
  {
    SelfUpdate(c.clients, id);
  }

  lemma FilenameCore(g: Config, s: System, id: nat)
    requires Inv(g, s) && id in s.w && s.w[id].toCoord != [] && s.w[id].toCoord[0].Filename?
    ensures HasClient(s.c.clients, id) && OnData(s.c, id, s.w[id].toCoord[0]).Ok?
    ensures OnData(s.c, id, s.w[id].toCoord[0]).sends == []
    ensures var c := OnData(s.c, id, s.w[id].toCoord[0]).coord;
            c.clients == s.c.clients && Inv(g, Taken(s, id).(c := c))
  {
    var w, cl := s.w[id], Find(s.c.clients, id);
    DeliverFits(g, s.stage, cl, w);
    FilenameCoord(s.c, id, w.toCoord[0]);
    SelfUpdate(s.c.clients, id);
    UpdateCore(g, s, cl, w.(toCoord := w.toCoord[1..]), OnData(s.c, id, w.toCoord[0]).coord);
  }

  lemma DeliverFilename(g: Config, s: System, id: nat)
    requires Inv(g, s) && id in s.w && s.w[id].toCoord != [] && s.w[id].toCoord[0].Filename?
    ensures HasClient(s.c.clients, id) && OnData(s.c, id, s.w[id].toCoord[0]).Ok?
    ensures var c := OnData(s.c, id, s.w[id].toCoord[0]).coord;
            && c.clients == s.c.clients && DeliverStep(g, s, id) == Taken(s, id).(c := c)
            && Inv(g, Taken(s, id).(c := c))
  {
    FilenameCore(g, s, id);
    AbsorbNothing(g, Taken(s, id), OnData(s.c, id, s.w[id].toCoord[0]).coord);
  }

  lemma ResumingCore(g: Config, s: System, id: nat)
    requires Inv(g, s) && id in s.w && s.w[id].toCoord != [] && s.w[id].toCoord[0].Resuming?
    ensures HasClient(s.c.clients, id)
    ensures Inv(g, Taken(s, id).(c := OnResuming(s.c, id, RUNNING))) && s.w[id].toCoord[0].state == RUNNING
  {
    var w, cl := s.w[id], Find(s.c.clients, id);
    DeliverFits(g, s.stage, cl, w);
    var cl' := cl.(state := RUNNING, barrier := "");
    UpdateAt(s.c.clients, cl');
    UpdateKeepsIds(s.c.clients, cl');
    assert g.script[|g.script| - 1] != g.script[0] by { assert g.Next(|g.script| - 1) == 0; }
    UpdateKeepsCounted(s.c, cl');
    UpdateKeepsWaiting(s.c, cl');
    UpdateCore(g, s, cl', w.(toCoord := w.toCoord[1..]), OnResuming(s.c, id, RUNNING));
  }

  lemma DeliverResuming(g: Config, s: System, id: nat)
    requires Inv(g, s) && id in s.w && s.w[id].toCoord != [] && s.w[id].toCoord[0].Resuming?
    ensures Inv(g, DeliverStep(g, s, id))
  {
    ResumingCore(g, s, id);
    AbsorbNothing(g, Taken(s, id), OnResuming(s.c, id, RUNNING));
  }

  // The system after a worker is gone, before any release.
  function Gone(s: System, id: nat): System
    requires HasClient(s.c.clients, id)
  {
    s.(c := Departed(s.c, id), w := s.w - {id})
  }

  lemma GoneWired(g: Config, s: System, id: nat)
    requires Wired(g, s) && id in s.w
    ensures Wired(g, Gone(s, id))
    ensures forall i :: 0 <= i < |Gone(s, id).c.clients| ==> Gone(s, id).c.clients[i] in s.c.clients
  {
    var rest := Remove(s.c.clients, id);
    RemoveAt(s.c.clients, id);
    forall i | 0 <= i < |rest| ensures rest[i] in s.c.clients && rest[i].id != id {
    }
    forall k | k in s.w && k != id ensures HasClient(rest, k) {
      var i :| 0 <= i < |s.c.clients| && s.c.clients[i].id == k;
      assert s.c.clients[i] in rest;
    }
    forall k | HasClient(rest, k) ensures k in s.w && k != id {
      var i :| 0 <= i < |rest| && rest[i].id == k;
      assert rest[i] in s.c.clients;
    }
  }

  lemma GoneCore(g: Config, s: System, id: nat)
    requires Core(g, s) && id in s.w
    ensures Core(g, Gone(s, id))
  {
    GoneWired(g, s, id);
    DepartedCounted(s.c, id);
    var s1 := Gone(s, id);
    forall i | 0 <= i < |s1.c.clients|
      ensures Fits(g, s1.stage, s1.c.clients[i], s1.w[s1.c.clients[i].id])
      ensures s1.c.clients[i] in s.c.clients
    {
      var j :| 0 <= j < |s.c.clients| && s.c.clients[j] == s1.c.clients[i];
    }
    if k :| k in s1.w && Owes(g, s1.w[k]) { assert k in s.w && Owes(g, s.w[k]); }
  }

  lemma GoneWaits(g: Config, s: System, id: nat)
    requires Inv(g, s) && id in s.w && (s.c.currentBarrier == "" || Gone(s, id).c.clients == [])
    ensures Inv(g, Gone(s, id))
  {
    GoneWired(g, s, id);
    GoneCore(g, s, id);
  }

  lemma DropInv(g: Config, s: System, id: nat)
    requires Inv(g, s) && id in s.w
    ensures Inv(g, Absorb(g, s, OnDisconnect(s.c, id).0, OnDisconnect(s.c, id).1))
  {
    var s1 := Gone(s, id);
    GoneWired(g, s, id);
    var (c, sends) := OnDisconnect(s.c, id);
    assert c.clients == s1.c.clients;
    AbsorbSame(g, s, s1, c, sends);
    if s1.c.clients == [] || s.c.currentBarrier == "" {
      GoneWaits(g, s, id);
      AbsorbNothing(g, s1, c);
    } else {
      GoneCore(g, s, id);
      ReleaseInv(g, s1);
    }
  }

  // ----- requests and joins -----

  lemma RequestedWorkers(g: Config, s: System, s': System)
    requires Inv(g, s) && MayStart(s.c) && s' == Absorb(g, s, StartCheckpoint(s.c).0, StartCheckpoint(s.c).1)
    ensures s'.w.Keys == s.w.Keys && AllFit(g, s')
    ensures forall id :: id in s'.w ==> !Owes(g, s'.w[id])
  {
    assert s'.w.Keys == s.w.Keys;
    forall i | 0 <= i < |s.c.clients|
      ensures Fits(g, s.stage, s.c.clients[i], s'.w[s.c.clients[i].id]) && !Owes(g, s'.w[s.c.clients[i].id])
    {
      RequestFits(g, s.stage, s.c.clients[i], s.w[s.c.clients[i].id]);
    }
    forall id | id in s'.w ensures !Owes(g, s'.w[id]) {
      var i :| 0 <= i < |s.c.clients| && s.c.clients[i].id == id;
    }
  }

  lemma RequestInv(g: Config, s: System)
    requires Inv(g, s)
    ensures Inv(g, Absorb(g, s, StartCheckpoint(s.c).0, StartCheckpoint(s.c).1))
  {
    if MayStart(s.c) {
      RequestedWorkers(g, s, Absorb(g, s, StartCheckpoint(s.c).0, StartCheckpoint(s.c).1));
      StartKeepsBook(s.c);
    } else {
      AbsorbNothing(g, s, s.c);
    }
  }

  lemma JoinWired(g: Config, s: System, id: nat, c: Coord, hello: Hello, w: Worker)
    requires Wired(g, s) && id !in s.w && s.c.clients == c.clients
    ensures Wired(g, s.(c := Admit(c, id, hello), w := s.w[id := w]))
  {
    var all := Admit(c, id, hello).clients;
    assert all[|c.clients|].id == id && UniqueIds(all);
    forall k ensures k in s.w[id := w] <==> HasClient(all, k) {
      if i :| 0 <= i < |c.clients| && c.clients[i].id == k { assert all[i].id == k; }
    }
  }

  lemma JoinAllFit(g: Config, s: System, id: nat, c: Coord, hello: Hello, w: Worker)
    requires Wired(g, s) && id !in s.w && s.c.clients == c.clients && s.stage == 0
    requires c.clients != [] ==> AllFit(g, s.(c := c))
    requires Fits(g, 0, Client(id, hello.state, "", hello), w)
    ensures AllFit(g, s.(c := Admit(c, id, hello), w := s.w[id := w]))
  {
    var s' := s.(c := Admit(c, id, hello), w := s.w[id := w]);
    forall i | 0 <= i < |s'.c.clients| && s'.c.clients[i].id in s'.w
      ensures Fits(g, s'.stage, s'.c.clients[i], s'.w[s'.c.clients[i].id])
    {
      if i < |c.clients| {
        assert s'.c.clients[i] == c.clients[i] && HasClient(s.c.clients, c.clients[i].id);
      }
    }
  }

  lemma JoinNoSecond(g: Config, s: System, id: nat, c: Coord, hello: Hello, w: Worker)
    requires id !in s.w && Tight(w) && !Owes(g, w) && NoSecondRequest(g, s.(c := c))
    ensures NoSecondRequest(g, s.(c := Admit(c, id, hello), w := s.w[id := w]))
  {
    var s' := s.(c := Admit(c, id, hello), w := s.w[id := w]);
    if k :| k in s'.w && Owes(g, s'.w[k]) { assert k in s.w && Owes(g, s.w[k]); }
  }

  // A new worker starts at stage 0.
  lemma JoinCore(g: Config, s: System, id: nat, c: Coord, hello: Hello, inbox: seq<CoordMsg>)
    requires Wired(g, s) && !s.aborted && id !in s.w && s.c.clients == c.clients && s.stage == 0
    requires hello.state == RUNNING || hello.state == UNKNOWN
    requires inbox == [] || (inbox == [DoCheckpoint] && c.suspendMsgSent)
    requires c.clients != [] ==> Core(g, s.(c := c))
    requires c.clients == [] ==> Counted(c) && c.currentBarrier == "" && c.numRestartPeers <= 0
    ensures Inv(g, s.(c := Admit(c, id, hello), w := s.w[id := Worker(Running, [], inbox)]))
  {
    AdmitKeepsBook(c, id, hello);
    var w, client := Worker(Running, [], inbox), Client(id, hello.state, "", hello);
    var s' := s.(c := Admit(c, id, hello), w := s.w[id := w]);
    JoinWired(g, s, id, c, hello, w);
    assert Fits(g, 0, client, w) && Tight(w) && !Owes(g, w);
    JoinAllFit(g, s, id, c, hello, w);
    assert c.clients == [] ==> s.w == map[];
    JoinNoSecond(g, s, id, c, hello, w);
    assert RestartOver(s');
    assert Pending(g, s');
  }

  // Whoever is let in finds no barrier of the current checkpoint released.
  lemma AdmittedAtStageZero(g: Config, s: System, id: nat, hello: Hello)
    requires Inv(g, s) && s.c.clients != [] && ConnectNew(s.c, id, hello).Admitted? && !s.c.suspendMsgSent
    ensures s.stage == 0
  {
    MinStateIsMinimum(s.c.clients);
    var i :| 0 <= i < |s.c.clients| && s.c.clients[i].state == MinState(s.c.clients);
    RunningShape(g, s.stage, s.c.clients[i], s.w[s.c.clients[i].id]);
  }

  // The assertion in ResendDoCheckpointMsgToWorker holds: at stage 0 the least advanced worker is not SUSPENDED.
  lemma JoinNeverAborts(g: Config, s: System, id: nat, hello: Hello)
    requires Inv(g, s) && (s.c.clients == [] || !s.c.suspendMsgSent || s.stage == 0)
    ensures !ConnectNew(s.c, id, hello).Aborted?
  {
    if s.c.clients != [] && s.stage == 0 {
      MinStateIsMinimum(s.c.clients);
      var i :| 0 <= i < |s.c.clients| && s.c.clients[i].state == MinState(s.c.clients);
      NotSuspended(g, s.c.clients[i], s.w[s.c.clients[i].id]);
    }
  }

  lemma ForkAtStageZero(g: Config, s: System, e: Event)
    requires Inv(g, s) && e.Fork? && Enabled(s, e)
    ensures s.stage == 0
  {
  }

  lemma ForkNeverAborts(g: Config, s: System, e: Event)
    requires Inv(g, s) && e.Fork? && Enabled(s, e)
    ensures !ConnectNew(s.c, e.id, e.hello).Aborted?
  {
    ForkAtStageZero(g, s, e);
    JoinNeverAborts(g, s, e.id, e.hello);
  }

  lemma NotSuspended(g: Config, cl: Client, w: Worker)
    requires g.Valid() && Fits(g, 0, cl, w)
    ensures cl.state != SUSPENDED
  {
  }

  lemma JoinInv(g: Config, s: System, id: nat, hello: Hello)
    requires Inv(g, s) && id !in s.w && (s.c.clients == [] || !s.c.suspendMsgSent || s.stage == 0)
    ensures Inv(g, Join(g, s, id, ConnectNew(s.c, id, hello)))
  {
    JoinNeverAborts(g, s, id, hello);
    var a := ConnectNew(s.c, id, hello);
    var c1 := if s.c.clients == [] then InitializeComputation(s.c) else s.c;
    var c2 := if !c1.suspendMsgSent && c1.comp == NO_COMP
              then c1.(comp := hello.newComp, generation := hello.gen, numRestartPeers := -1) else c1;
    if a.Admitted? {
      if s.c.clients != [] && !s.c.suspendMsgSent { AdmittedAtStageZero(g, s, id, hello); }
      JoinCore(g, s.(stage := 0), id, c2, hello, if a.sends == [] then [] else [DoCheckpoint]);
    }
  }

  // ----- the results -----

  lemma StepInv(g: Config, s: System, e: Event)
    requires Inv(g, s) && Enabled(s, e)
    ensures Inv(g, Step(g, s, e))
  {
    match e
    case Launch(id, hello) => JoinInv(g, s, id, hello);
    case Fork(_, id, hello) =>
      ForkAtStageZero(g, s, e);
      JoinInv(g, s, id, hello);
    case Request => RequestInv(g, s);
    case Deliver(id) => DeliverInv(g, s, id);
    case Drop(id) => DropInv(g, s, id);
    case Receive(id) =>
      ReceiveFits(g, s.stage, Find(s.c.clients, id), s.w[id]);
      WorkerStep(g, s, id, ReceiveStep(g, s.w[id]));
    case Advance(id, unique, ckpt) =>
      AdvanceFits(g, s.stage, Find(s.c.clients, id), s.w[id], unique, ckpt);
      AdvanceQuiet(g, s.stage, Find(s.c.clients, id), s.w[id], unique, ckpt);
      WorkerStep(g, s, id, AdvanceStep(g, s.w[id], unique, ckpt));
  }

  lemma DeliverInv(g: Config, s: System, id: nat)
    requires Inv(g, s) && id in s.w && s.w[id].toCoord != []
    ensures Inv(g, DeliverStep(g, s, id))
  {
    DeliverFits(g, s.stage, Find(s.c.clients, id), s.w[id]);
    match s.w[id].toCoord[0]
    case Barrier(_, _) => DeliverBarrier(g, s, id);
    case Filename(_, _, _) => DeliverFilename(g, s, id);
    case Resuming(_) => DeliverResuming(g, s, id);
  }

  ghost predicate IsRun(g: Config, s: System, es: seq<Event>)
    decreases es
  {
    Wired(g, s) && (es != [] ==> Enabled(s, es[0]) && IsRun(g, Step(g, s, es[0]), es[1..]))
  }

  ghost function Final(g: Config, s: System, es: seq<Event>): (r: System)
    requires IsRun(g, s, es)
    ensures Wired(g, r)
    decreases es
  {
    if es == [] then s else Final(g, Step(g, s, es[0]), es[1..])
  }

  const START := System(INITIAL, map[], 0, false, {}, false, [])

  lemma {:induction false} RunInv(g: Config, s: System, es: seq<Event>)
    requires IsRun(g, s, es) && Inv(g, s)
    ensures Inv(g, Final(g, s, es))
    decreases es
  {
    if es != [] {
      StepInv(g, s, es[0]);
      RunInv(g, Step(g, s, es[0]), es[1..]);
    }
  }

  // ----- what every run guarantees -----

  // While any worker writes its image, every connected worker has its user threads stopped.
  ghost predicate CutHolds(g: Config, s: System) {
    forall writer, other :: writer in s.w && other in s.w && Writing(g, s.w[writer]) ==> ThreadsStopped(s.w[other].pc)
  }

  // Behind DMT:WriteCkpt: released from DMT:SUSPEND and not yet arrived at DMT:WriteCkpt.
  ghost predicate Behind(g: Config, pc: Pc) {
    pc.Stopping? || (pc.Stopped? && pc.next <= g.wr) || (pc.AtBarrier? && 1 <= pc.i < g.wr)
  }

  ghost predicate PastWrite(g: Config, pc: Pc) {
    (pc.Stopped? && pc.next > g.wr) || (pc.AtBarrier? && pc.i > g.wr)
  }

  // Nobody is past DMT:WriteCkpt, let alone runs its user threads, while a connected worker is behind it.
  ghost predicate NoneEarly(g: Config, s: System) {
    forall ahead, other ::
      ahead in s.w && other in s.w && (PastWrite(g, s.w[ahead].pc) || ThreadsRun(s.w[ahead].pc)) ==>
      !Behind(g, s.w[other].pc)
  }

  // The coordinator has not aborted, and every worker read only what waitForBarrier and
  // waitForPreSuspendMessage expect.
  ghost predicate NoneFailed(s: System) {
    !s.aborted && forall id :: id in s.w ==> !s.w[id].pc.Failed?
  }

  // Whoever waits at a barrier waits at the next one to be released, and nobody is about to be thrown
  // out for announcing another.
  ghost predicate InStep(g: Config, s: System) {
    forall id :: id in s.w ==>
      && (s.w[id].pc.AtBarrier? && Requests(s.w[id].inbox) ==> s.w[id].pc.i == s.stage)
      && (s.w[id].toCoord != [] && s.w[id].toCoord[0].Barrier? && s.c.currentBarrier != "" ==>
            s.w[id].toCoord[0].name == s.c.currentBarrier)
  }

  ghost predicate Sound(g: Config, s: System) {
    CutHolds(g, s) && NoneEarly(g, s) && NoneFailed(s) && InStep(g, s) && Book(s.c)
  }

  // What a worker's place says about the stage.
  lemma Places(g: Config, stage: nat, cl: Client, w: Worker)
    requires g.Valid() && stage < |g.script| && Fits(g, stage, cl, w)
    ensures Writing(g, w) ==> 2 <= stage <= g.wr
    ensures 2 <= stage <= g.wr ==> ThreadsStopped(w.pc) && Writing(g, w)
    ensures PastWrite(g, w.pc) || ThreadsRun(w.pc) ==> stage == 0 || stage > g.wr
    ensures Behind(g, w.pc) ==> 1 <= stage <= g.wr
    ensures w.pc.AtBarrier? && Requests(w.inbox) ==> w.pc.i == stage
    ensures !w.pc.Failed?
  {
  }

  lemma PlaceOf(g: Config, s: System, id: nat)
    requires Inv(g, s) && id in s.w
    ensures HasClient(s.c.clients, id) && Fits(g, s.stage, Find(s.c.clients, id), s.w[id])
  {
  }

  lemma InvInStep(g: Config, s: System)
    requires Inv(g, s)
    ensures InStep(g, s)
  {
    forall id | id in s.w
      ensures s.w[id].pc.AtBarrier? && Requests(s.w[id].inbox) ==> s.w[id].pc.i == s.stage
      ensures s.w[id].toCoord != [] && s.w[id].toCoord[0].Barrier? && s.c.currentBarrier != "" ==>
                s.w[id].toCoord[0].name == s.c.currentBarrier
    {
      PlaceOf(g, s, id);
      Places(g, s.stage, Find(s.c.clients, id), s.w[id]);
      if s.w[id].toCoord != [] { DeliverFits(g, s.stage, Find(s.c.clients, id), s.w[id]); }
    }
  }

  lemma InvSound(g: Config, s: System)
    requires Inv(g, s)
    ensures Sound(g, s)
  {
    InvInStep(g, s);
    forall id | id in s.w
      ensures Writing(g, s.w[id]) ==> 2 <= s.stage <= g.wr
      ensures 2 <= s.stage <= g.wr ==> ThreadsStopped(s.w[id].pc)
      ensures PastWrite(g, s.w[id].pc) || ThreadsRun(s.w[id].pc) ==> s.stage == 0 || s.stage > g.wr
      ensures Behind(g, s.w[id].pc) ==> 1 <= s.stage <= g.wr
      ensures !s.w[id].pc.Failed?
    {
      PlaceOf(g, s, id);
      Places(g, s.stage, Find(s.c.clients, id), s.w[id]);
    }
  }

  lemma RunSound(g: Config, s: System, es: seq<Event>)
    requires IsRun(g, s, es) && Inv(g, s)
    ensures Sound(g, Final(g, s, es))
  {
    RunInv(g, s, es);
    InvSound(g, Final(g, s, es));
  }

  // Consistent cut, over every run.
  lemma ConsistentCut(g: Config, es: seq<Event>, writer: nat, other: nat)
    requires IsRun(g, START, es)
    requires var s := Final(g, START, es); writer in s.w && other in s.w && Writing(g, s.w[writer])
    ensures ThreadsStopped(Final(g, START, es).w[other].pc)
  {
    RunSound(g, START, es);
  }

  lemma NobodyResumesEarly(g: Config, es: seq<Event>, ahead: nat, other: nat)
    requires IsRun(g, START, es)
    requires var s := Final(g, START, es);
             ahead in s.w && other in s.w && (PastWrite(g, s.w[ahead].pc) || ThreadsRun(s.w[ahead].pc))
    ensures !Behind(g, Final(g, START, es).w[other].pc)
  {
    RunSound(g, START, es);
  }

  lemma NoAssertionFires(g: Config, es: seq<Event>)
    requires IsRun(g, START, es)
    ensures NoneFailed(Final(g, START, es)) && InStep(g, Final(g, START, es))
  {
    RunSound(g, START, es);
  }

  // Bookkeeping and progress hold in the protocol without any side condition.
  lemma ProtocolBookkeeping(g: Config, es: seq<Event>)
    requires IsRun(g, START, es)
    ensures Book(Final(g, START, es).c)
  {
    RunInv(g, START, es);
  }

  // ----- what holds for ever -----

  predicate IsJoin(e: Event) {
    e.Fork? || e.Launch?
  }

  predicate NoJoins(es: seq<Event>) {
    forall i :: 0 <= i < |es| ==> !IsJoin(es[i])
  }

  // A property of states and the runs it is asked of: all of them, or only those in which nobody joins.
  datatype Claim = Claim(joins: bool, holds: System -> bool)

  ghost predicate Always(g: Config, s: System, p: Claim) {
    forall es :: IsRun(g, s, es) && (p.joins || NoJoins(es)) ==> p.holds(Final(g, s, es))
  }

  lemma FirstStep(g: Config, s: System, e: Event, es: seq<Event>)
    requires Wired(g, s) && Enabled(s, e) && IsRun(g, Step(g, s, e), es)
    ensures IsRun(g, s, [e] + es) && Final(g, s, [e] + es) == Final(g, Step(g, s, e), es)
  {
    assert ([e] + es)[1..] == es;
  }

  // What holds for ever still does a step later.
  lemma AlwaysStep(g: Config, s: System, e: Event, p: Claim)
    requires Always(g, s, p) && Wired(g, s) && Enabled(s, e) && (p.joins || !IsJoin(e))
    ensures Always(g, Step(g, s, e), p)
  {
    var t := Step(g, s, e);
    forall es | IsRun(g, t, es) && (p.joins || NoJoins(es)) ensures p.holds(Final(g, t, es)) {
      FirstStep(g, s, e, es);
      assert p.joins || NoJoins([e] + es);
    }
  }

  lemma AlwaysNow(g: Config, s: System, p: Claim)
    requires Always(g, s, p) && Wired(g, s)
    ensures p.holds(s)
  {
    assert IsRun(g, s, []) && NoJoins([]);
  }

  // ----- the boundary of launches -----

  // The system after a worker in an accepted state was launched into it.
  ghost function Launched(g: Config, s: System, id: nat, hello: Hello): System {
    Join(g, s, id, ConnectNew(s.c, id, hello))
  }

  ghost predicate ForeverSound(g: Config, s: System) {
    Always(g, s, Claim(true, (t: System) => Sound(g, t)))
  }

  lemma SafeLaunch(g: Config, s: System, id: nat, hello: Hello)
    requires Inv(g, s) && id !in s.w && s.stage == 0
    ensures ForeverSound(g, Launched(g, s, id, hello))
  {
    JoinInv(g, s, id, hello);
    var s' := Launched(g, s, id, hello);
    forall es | IsRun(g, s', es) ensures Sound(g, Final(g, s', es)) {
      RunSound(g, s', es);
    }
  }

  // Whoever has a request to follow at another stage gets out of step: it reads the request and announces
  // DMT:SUSPEND.
  lemma OutOfStep(g: Config, s: System, id: nat, p: Claim)
    requires Wired(g, s) && id in s.w && s.w[id] == Worker(Running, [], [DoCheckpoint]) && s.stage != 0
    requires p.holds == ((t: System) => Sound(g, t))
    ensures !Always(g, s, p)
  {
    if Always(g, s, p) {
      var s1 := s.(w := s.w[id := Worker(PreSuspend, [], [])]);
      assert [DoCheckpoint][1..] == [];
      assert ReceiveStep(g, s.w[id]) == Worker(PreSuspend, [], []);
      assert Step(g, s, Receive(id)) == s1;
      AlwaysStep(g, s, Receive(id), p);
      var ckpt := CkptFile("", "", "");
      AlwaysStep(g, s1, Advance(id, false, ckpt), p);
      var s2 := Step(g, s1, Advance(id, false, ckpt));
      assert s2.w[id].pc == AtBarrier(0, false) && s2.w[id].inbox == [] && s2.stage != 0;
      assert !InStep(g, s2);
      AlwaysNow(g, s2, p);
    }
  }

  // With a request open, a launch keeps all the guarantees in all that may follow exactly when no barrier of
  // this checkpoint has been released (or all have): the next one to be released is DMT:SUSPEND.
  lemma LaunchBoundary(g: Config, s: System, id: nat, hello: Hello)
    requires Inv(g, s) && s.c.clients != [] && s.c.suspendMsgSent && id !in s.w
    requires hello.state == RUNNING || hello.state == UNKNOWN
    ensures ForeverSound(g, Launched(g, s, id, hello)) <==> s.stage == 0
  {
    var s' := Launched(g, s, id, hello);
    if s.stage == 0 {
      SafeLaunch(g, s, id, hello);
    } else if s'.aborted {
      assert Wired(g, s') && !Sound(g, s');
      if ForeverSound(g, s') { AlwaysNow(g, s', Claim(true, (t: System) => Sound(g, t))); }
    } else {
      JoinWired(g, s, id, s.c, hello, Worker(Running, [], [DoCheckpoint]));
      OutOfStep(g, s', id, Claim(true, (t: System) => Sound(g, t)));
    }
  }

  // While images are written the cut itself breaks, or the coordinator stops.
  lemma LaunchDuringWriteBreaksCut(g: Config, s: System, id: nat, hello: Hello)
    requires Inv(g, s) && s.c.clients != [] && s.c.suspendMsgSent && id !in s.w && 2 <= s.stage <= g.wr
    requires hello.state == RUNNING || hello.state == UNKNOWN
    ensures var s' := Launched(g, s, id, hello);
            if GetStatus(s.c).minimum == SUSPENDED then s'.aborted else !s'.aborted && !CutHolds(g, s')
  {
    var writer := s.c.clients[0].id;
    assert HasClient(s.c.clients, writer);
    PlaceOf(g, s, writer);
    Places(g, s.stage, Find(s.c.clients, writer), s.w[writer]);
    var s' := Launched(g, s, id, hello);
    if !s'.aborted {
      assert writer in s'.w && id in s'.w && Writing(g, s'.w[writer]) && !ThreadsStopped(s'.w[id].pc);
    }
  }
}
